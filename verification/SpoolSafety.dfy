// What the spool guarantees: order within a poll, safety over whole runs, and where its promises end.
module SpoolSafety {
  import opened SpoolMessage
  import opened Spool
  import Runs

  /** How often an event occurs in a history. */
  function Tally(log: seq<Event>, e: Event): nat {
    multiset(log)[e]
  }

  lemma TallyConcat(a: seq<Event>, b: seq<Event>, e: Event)
    ensures Tally(a + b, e) == Tally(a, e) + Tally(b, e)
  {
    assert multiset(a + b) == multiset(a) + multiset(b);
  }

  lemma TallyOne(x: Event, e: Event)
    ensures Tally([x], e) == if x == e then 1 else 0
  {
    assert multiset([x]) == multiset{x};
  }

  // ---------------------------------------------------------------------------------------------------------
  // Order within one poll

  /** A reliable message whose attempt would fail. */
  predicate Fails(w: World, s: Selected) {
    Admissible(w, s) && s.message.reliable && !w(s.at).accepted
  }

  /** The position of the first reliable message that fails, or the end. */
  ghost predicate IsCut(w: World, taken: seq<Selected>, cut: nat) {
    && cut <= |taken|
    && (forall i :: 0 <= i < cut ==> !Fails(w, taken[i]))
    && (cut < |taken| ==> Fails(w, taken[cut]))
  }

  lemma {:induction false} CutExists(w: World, taken: seq<Selected>) returns (cut: nat)
    ensures IsCut(w, taken, cut)
  {
    cut := 0;
    while cut < |taken| && !Fails(w, taken[cut])
      invariant cut <= |taken| && forall i :: 0 <= i < cut ==> !Fails(w, taken[i])
    {
      cut := cut + 1;
    }
  }

  /** What the history records for the message at position `i` when the first failure is at `cut`. */
  function Fate(w: World, s: Selected, i: nat, cut: nat): seq<Event> {
    if !Admissible(w, s) then [Rejected(s.name)]
    else if !s.message.reliable then [Attempted(s.name, w(s.at).accepted)]
    else if i < cut then [Attempted(s.name, true)]
    else if i == cut then [Attempted(s.name, false)]
    else []
  }

  function Fates(w: World, taken: seq<Selected>, n: nat, cut: nat): seq<Event>
    requires n <= |taken|
  {
    if n == 0 then [] else Fates(w, taken, n - 1, cut) + Fate(w, taken[n - 1], n - 1, cut)
  }

  /** What handling a message adds to the history. */
  function Record(w: World, x: Selected, blocked: bool): seq<Event> {
    if !Admissible(w, x) then [Rejected(x.name)]
    else if !x.message.reliable then [Attempted(x.name, w(x.at).accepted)]
    else if blocked then []
    else [Attempted(x.name, w(x.at).accepted)]
  }

  lemma HandleOneRecords(st: Store, w: World, x: Selected, blocked: bool)
    ensures HandleOne(st, w, x, blocked).0.log == st.log + Record(w, x, blocked)
    ensures HandleOne(st, w, x, blocked).1 <==> blocked || Fails(w, x)
  {
  }

  lemma RecordIsFate(w: World, taken: seq<Selected>, i: nat, cut: nat)
    requires i < |taken| && IsCut(w, taken, cut)
    ensures Record(w, taken[i], cut < i) == Fate(w, taken[i], i, cut)
    ensures cut <= i <==> (cut < i || Fails(w, taken[i]))
  {
  }

  /** Delivery follows the fates, whatever the disk does. */
  lemma {:induction false} DeliveryFollowsFates(st: Store, w: World, taken: seq<Selected>, n: nat, cut: nat)
    requires n <= |taken| && IsCut(w, taken, cut)
    ensures HandleAll(st, w, taken, n).0.log == st.log + Fates(w, taken, n, cut)
    ensures HandleAll(st, w, taken, n).1 <==> cut < n
  {
    hide HandleOne, Record, Fate;
    if n > 0 {
      DeliveryFollowsFates(st, w, taken, n - 1, cut);
      var (st', blocked) := HandleAll(st, w, taken, n - 1);
      HandleOneRecords(st', w, taken[n - 1], blocked);
      RecordIsFate(w, taken, n - 1, cut);
    }
  }

  predicate InNameOrder(taken: seq<Selected>) {
    forall i, j :: 0 <= i < j < |taken| ==> taken[i].name < taken[j].name
  }

  /** Whether the fate of a message is one given event. */
  function Meets(w: World, s: Selected, i: nat, cut: nat, e: Event): nat {
    if Fate(w, s, i, cut) == [e] then 1 else 0
  }

  lemma FateTally(w: World, s: Selected, i: nat, cut: nat, e: Event)
    ensures Tally(Fate(w, s, i, cut), e) == Meets(w, s, i, cut, e)
  {
    var fate := Fate(w, s, i, cut);
    if fate != [] {
      TallyOne(fate[0], e);
      assert fate == [fate[0]];
    }
  }

  /** How often an event occurs among the first `n` fates. */
  function FateCount(w: World, taken: seq<Selected>, n: nat, cut: nat, e: Event): nat
    requires n <= |taken|
  {
    Tally(Fates(w, taken, n, cut), e)
  }

  lemma FateStep(w: World, taken: seq<Selected>, n: nat, cut: nat, e: Event)
    requires 0 < n <= |taken|
    ensures FateCount(w, taken, n, cut, e) == FateCount(w, taken, n - 1, cut, e) + Meets(w, taken[n - 1], n - 1, cut, e)
  {
    TallyConcat(Fates(w, taken, n - 1, cut), Fate(w, taken[n - 1], n - 1, cut), e);
    FateTally(w, taken[n - 1], n - 1, cut, e);
  }

  /** The fates of other files do not count. */
  lemma OtherFate(w: World, taken: seq<Selected>, n: nat, cut: nat, e: Event)
    requires 0 < n <= |taken| && taken[n - 1].name != e.name
    ensures FateCount(w, taken, n, cut, e) == FateCount(w, taken, n - 1, cut, e)
  {
    FateStep(w, taken, n, cut, e);
  }

  lemma {:induction false} NoneButOwn(w: World, taken: seq<Selected>, from: nat, n: nat, cut: nat, e: Event)
    requires from <= n <= |taken| && forall j :: from <= j < n ==> taken[j].name != e.name
    ensures FateCount(w, taken, n, cut, e) == FateCount(w, taken, from, cut, e)
    decreases n
  {
    hide FateCount;
    if from < n {
      NoneButOwn(w, taken, from, n - 1, cut, e);
      OtherFate(w, taken, n, cut, e);
    }
  }

  lemma NoFates(w: World, taken: seq<Selected>, cut: nat, e: Event)
    ensures FateCount(w, taken, 0, cut, e) == 0
  {
  }

  lemma OneFateEach(w: World, taken: seq<Selected>, cut: nat, i: nat, e: Event)
    requires InNameOrder(taken) && i < |taken| && e.name == taken[i].name
    ensures FateCount(w, taken, |taken|, cut, e) == Meets(w, taken[i], i, cut, e)
  {
    hide FateCount, Meets;
    assert FateCount(w, taken, 0, cut, e) == 0 by { NoFates(w, taken, cut, e); }
    NoneButOwn(w, taken, 0, i, cut, e);
    FateStep(w, taken, i + 1, cut, e);
    NoneButOwn(w, taken, i + 1, |taken|, cut, e);
  }

  /** What a delivery adds to the history of the message at position `i`. */
  lemma AddedByDelivery(st: Store, w: World, taken: seq<Selected>, cut: nat, i: nat, e: Event)
    requires InNameOrder(taken) && IsCut(w, taken, cut) && i < |taken| && e.name == taken[i].name
    ensures Tally(HandleAll(st, w, taken, |taken|).0.log, e) == Tally(st.log, e) + Meets(w, taken[i], i, cut, e)
  {
    DeliveryFollowsFates(st, w, taken, |taken|, cut);
    OneFateEach(w, taken, cut, i, e);
    TallyConcat(st.log, Fates(w, taken, |taken|, cut), e);
  }

  /** The successful and failed attempts a delivery adds for the message at position `i`. */
  function Added(st: Store, w: World, taken: seq<Selected>, i: nat, ok: bool): int
    requires i < |taken|
  {
    Tally(HandleAll(st, w, taken, |taken|).0.log, Attempted(taken[i].name, ok))
      - Tally(st.log, Attempted(taken[i].name, ok))
  }

  /**
   * Within one poll the acknowledged reliable messages are a prefix, in file name order, of the admissible reliable
   * ones; at most the next one is attempted and fails, none after it is attempted; and every admissible unreliable
   * message is attempted exactly once.
   */
  lemma OrderWithinAPoll(st: Store, w: World, taken: seq<Selected>) returns (cut: nat)
    requires InNameOrder(taken)
    ensures IsCut(w, taken, cut)
    ensures forall i :: 0 <= i < |taken| && Admissible(w, taken[i]) ==>
      if taken[i].message.reliable then
        && Added(st, w, taken, i, true) == (if i < cut then 1 else 0)
        && Added(st, w, taken, i, false) == (if i == cut then 1 else 0)
      else Added(st, w, taken, i, true) + Added(st, w, taken, i, false) == 1
  {
    cut := CutExists(w, taken);
    forall i | 0 <= i < |taken| && Admissible(w, taken[i])
      ensures if taken[i].message.reliable then
        && Added(st, w, taken, i, true) == (if i < cut then 1 else 0)
        && Added(st, w, taken, i, false) == (if i == cut then 1 else 0)
      else Added(st, w, taken, i, true) + Added(st, w, taken, i, false) == 1
    {
      AttemptsOf(st, w, taken, cut, i);
    }
  }

  lemma AttemptsOf(st: Store, w: World, taken: seq<Selected>, cut: nat, i: nat)
    requires InNameOrder(taken) && IsCut(w, taken, cut) && i < |taken| && Admissible(w, taken[i])
    ensures if taken[i].message.reliable then
        && Added(st, w, taken, i, true) == (if i < cut then 1 else 0)
        && Added(st, w, taken, i, false) == (if i == cut then 1 else 0)
      else Added(st, w, taken, i, true) + Added(st, w, taken, i, false) == 1
  {
    var name := taken[i].name;
    AddedByDelivery(st, w, taken, cut, i, Attempted(name, true));
    AddedByDelivery(st, w, taken, cut, i, Attempted(name, false));
  }

  // ---------------------------------------------------------------------------------------------------------
  // What a scan selects

  /** The selected messages are the stored ones, in file name order. */
  ghost predicate Pending(files: Files, taken: seq<Selected>) {
    && InNameOrder(taken)
    && forall i :: 0 <= i < |taken| ==> taken[i].name in files && files[taken[i].name] == Stored(taken[i].message)
  }

  ghost predicate UpTo(taken: seq<Selected>, name: Name) {
    forall i :: 0 <= i < |taken| ==> taken[i].name <= name
  }

  lemma {:induction false} ScanSelects(st: Store, w: World, names: seq<Name>, n: nat)
    requires Listed(st, names) && n <= |names|
    ensures Pending(Scan(st, w, names, n).0.files, Scan(st, w, names, n).1)
    ensures if n == 0 then Scan(st, w, names, n).1 == [] else UpTo(Scan(st, w, names, n).1, names[n - 1])
    ensures Scan(st, w, names, n).0.log == st.log
  {
    hide Pending, ScanOne, TakenFrom;
    if n > 0 {
      ScanSelects(st, w, names, n - 1);
      var (st', taken) := Scan(st, w, names, n - 1);
      ScanStep(st', w, taken, names[n - 1], n - 1);
    } else {
      assert Pending(st.files, []) by { NothingPending(st.files); }
    }
  }

  lemma NothingPending(files: Files)
    ensures Pending(files, [])
  {
  }

  lemma ScanStep(st: Store, w: World, taken: seq<Selected>, name: Name, at: nat)
    requires name in st.files && Pending(st.files, taken) && forall i :: 0 <= i < |taken| ==> taken[i].name < name
    ensures Pending(ScanOne(st, w, name, at).files, taken + TakenFrom(st, w, name, at))
    ensures UpTo(taken + TakenFrom(st, w, name, at), name)
    ensures ScanOne(st, w, name, at).log == st.log
  {
  }

  /** A poll takes a file that is readable, not to be skipped, has a try left, and is not backing off. */
  predicate Due(st: Store, w: World, name: Name, at: nat) {
    && name in st.files && st.files[name].Stored? && Full(name) !in st.skip && w(at).readable
    && var m := st.files[name].message; m.tries < m.maxTries && !(m.tries > 0 && w(at).scanTime < m.nextTry)
  }

  /** The selection of the due file at one position of a listing. */
  predicate Takes(st: Store, w: World, names: seq<Name>, s: Selected) {
    s.at < |names| && s.name == names[s.at] && Due(st, w, s.name, s.at) && st.files[s.name].message == s.message
  }

  /** To the file of one name the second store is like the first one. */
  ghost predicate Alike(st: Store, st': Store, n: Name) {
    && (n in st'.files <==> n in st.files) && (n in st.files ==> st'.files[n] == st.files[n])
    && (Full(n) in st'.skip <==> Full(n) in st.skip)
  }

  lemma ScanOneLeavesOthers(st: Store, w: World, name: Name, at: nat, n: Name)
    requires name in st.files && n != name
    ensures Alike(st, ScanOne(st, w, name, at), n)
  {
  }

  lemma AlikeStep(st: Store, st': Store, w: World, n: Name, at: nat)
    requires n in st.files && Alike(st, st', n)
    ensures Alike(ScanOne(st, w, n, at), ScanOne(st', w, n, at), n)
    ensures TakenFrom(st, w, n, at) == TakenFrom(st', w, n, at)
  {
  }

  /** A scan does to each file what its own entry demands, whatever the other files are like. */
  lemma {:induction false} ScanIsLocal(st: Store, w: World, names: seq<Name>, k: nat, i: nat)
    requires Listed(st, names) && i < |names| && k <= |names|
    ensures Alike(if i < k then ScanOne(st, w, names[i], i) else st, Scan(st, w, names, k).0, names[i])
  {
    hide ScanOne, TakenFrom;
    if k > 0 {
      ScanIsLocal(st, w, names, k - 1, i);
      var before := Scan(st, w, names, k - 1).0;
      if i == k - 1 {
        AlikeStep(st, before, w, names[i], i);
      } else {
        ScanOneLeavesOthers(before, w, names[k - 1], k - 1, names[i]);
      }
    }
  }

  lemma DueIsTaken(st: Store, w: World, name: Name, at: nat, s: Selected)
    requires name in st.files
    ensures s in TakenFrom(st, w, name, at) <==>
      Due(st, w, name, at) && s == Selected(name, st.files[name].message, at)
  {
  }

  lemma {:induction false} ScanTakesExactly(st: Store, w: World, names: seq<Name>, n: nat, s: Selected)
    requires Listed(st, names) && n <= |names|
    ensures s in Scan(st, w, names, n).1 <==> s.at < n && Takes(st, w, names, s)
  {
    hide ScanOne, TakenFrom, Due;
    if n > 0 {
      ScanTakesExactly(st, w, names, n - 1, s);
      ScanIsLocal(st, w, names, n - 1, n - 1);
      AlikeStep(st, Scan(st, w, names, n - 1).0, w, names[n - 1], n - 1);
      DueIsTaken(st, w, names[n - 1], n - 1, s);
    }
  }

  // ---------------------------------------------------------------------------------------------------------
  // Whole runs without disk faults

  ghost predicate Faultless(w: World) {
    forall n :: w(n).readable && w(n).removable && w(n).writable
  }

  function Failures(log: seq<Event>, n: Name): nat { Tally(log, Attempted(n, false)) }

  function Successes(log: seq<Event>, n: Name): nat { Tally(log, Attempted(n, true)) }

  function Rejections(log: seq<Event>, n: Name): nat { Tally(log, Rejected(n)) }

  /** The tries a message has left when it is submitted. */
  function TriesLeft(m: Message): nat {
    if m.tries < m.maxTries then m.maxTries - m.tries else 0
  }

  /** In the directory: the submitted message, with exactly its failed attempts added to its tries. */
  ghost predicate Waits(m: Message, log: seq<Event>, n: Name, e: Entry) {
    && e.Stored? && e.message == m.(tries := m.tries + Failures(log, n), nextTry := e.message.nextTry)
    && Successes(log, n) == 0 && Rejections(log, n) == 0
    && (if m.reliable then Failures(log, n) <= TriesLeft(m) else Failures(log, n) == 0)
  }

  /** Out of the directory, with the reason. */
  ghost predicate Gone(m: Message, log: seq<Event>, n: Name) {
    && (|| Rejections(log, n) > 0
        || m.tries + Failures(log, n) >= m.maxTries
        || Successes(log, n) > 0
        || (!m.reliable && Failures(log, n) > 0))
    && Successes(log, n) <= 1
    && Successes(log, n) + Failures(log, n) <= if m.reliable then TriesLeft(m) else 1
  }
  /** The submitted message `m` of file `n` is accounted for. */
  ghost predicate Kept(st: Store, n: Name, m: Message) {
    && Full(n) !in st.skip
    && if n in st.files then Waits(m, st.log, n, st.files[n]) else Gone(m, st.log, n)
  }

  ghost predicate Untouched(st: Store, n: Name) {
    Full(n) !in st.skip && n !in st.files && Successes(st.log, n) == 0
    && Failures(st.log, n) == 0 && Rejections(st.log, n) == 0
  }

  lemma {:induction false} ScanKeeps(st: Store, w: World, names: seq<Name>, k: nat, n: Name, m: Message)
    requires Kept(st, n, m) && Faultless(w) && Listed(st, names) && k <= |names|
    ensures Kept(Scan(st, w, names, k).0, n, m)
  {
    if k > 0 {
      ScanKeeps(st, w, names, k - 1, n, m);
    }
  }

  lemma {:induction false} ScanLeavesUntouched(st: Store, w: World, names: seq<Name>, k: nat, n: Name)
    requires Untouched(st, n) && Faultless(w) && Listed(st, names) && k <= |names|
    ensures Untouched(Scan(st, w, names, k).0, n)
  {
    if k > 0 {
      ScanLeavesUntouched(st, w, names, k - 1, n);
    }
  }

  lemma TalliesAfter(log: seq<Event>, x: Event, n: Name)
    ensures Successes(log + [x], n) == Successes(log, n) + if x == Attempted(n, true) then 1 else 0
    ensures Failures(log + [x], n) == Failures(log, n) + if x == Attempted(n, false) then 1 else 0
    ensures Rejections(log + [x], n) == Rejections(log, n) + if x == Rejected(n) then 1 else 0
  {
    forall e ensures Tally(log + [x], e) == Tally(log, e) + if x == e then 1 else 0 {
      TallyConcat(log, [x], e);
      TallyOne(x, e);
    }
  }

  /** Nothing has changed for file `n`. */
  ghost predicate SameFor(st: Store, st': Store, n: Name) {
    && (Full(n) in st'.skip <==> Full(n) in st.skip)
    && (n in st'.files <==> n in st.files) && (n in st.files ==> st'.files[n] == st.files[n])
    && Successes(st'.log, n) == Successes(st.log, n) && Failures(st'.log, n) == Failures(st.log, n)
    && Rejections(st'.log, n) == Rejections(st.log, n)
  }

  lemma HandleOneLeavesOthers(st: Store, w: World, x: Selected, blocked: bool, n: Name)
    requires x.name != n
    ensures SameFor(st, HandleOne(st, w, x, blocked).0, n)
  {
    HandleOneRecords(st, w, x, blocked);
    var r := Record(w, x, blocked);
    if r != [] {
      TalliesAfter(st.log, r[0], n);
      assert r == [r[0]];
    } else {
      assert st.log + r == st.log;
    }
  }

  lemma HandleOneKeeps(st: Store, w: World, x: Selected, blocked: bool, m: Message)
    requires Kept(st, x.name, m) && Faultless(w)
    requires x.name in st.files && st.files[x.name] == Stored(x.message)
    ensures Kept(HandleOne(st, w, x, blocked).0, x.name, m)
  {
    var r := Record(w, x, blocked);
    if r != [] {
      TalliesAfter(st.log, r[0], x.name);
    }
  }

  /** Between two positions, messages of other files leave a file alone, whatever the disk does. */
  lemma {:induction false} HandleLeavesOthers(st: Store, w: World, taken: seq<Selected>, from: nat, k: nat, n: Name)
    requires from <= k <= |taken| && forall i :: from <= i < k ==> taken[i].name != n
    ensures SameFor(HandleAll(st, w, taken, from).0, HandleAll(st, w, taken, k).0, n)
    decreases k
  {
    hide HandleOne;
    if from < k {
      HandleLeavesOthers(st, w, taken, from, k - 1, n);
      var (st', blocked) := HandleAll(st, w, taken, k - 1);
      HandleOneLeavesOthers(st', w, taken[k - 1], blocked, n);
    }
  }

  lemma SameKeeps(st: Store, st': Store, n: Name, m: Message)
    requires Kept(st, n, m) && SameFor(st, st', n)
    ensures Kept(st', n, m)
  {
  }

  lemma OthersKeep(st: Store, w: World, x: Selected, blocked: bool, n: Name, m: Message)
    requires x.name != n && Kept(st, n, m)
    ensures Kept(HandleOne(st, w, x, blocked).0, n, m)
  {
    HandleOneLeavesOthers(st, w, x, blocked, n);
    SameKeeps(st, HandleOne(st, w, x, blocked).0, n, m);
  }

  lemma OwnKeeps(st: Store, st': Store, w: World, x: Selected, blocked: bool, m: Message)
    requires Kept(st, x.name, m) && SameFor(st, st', x.name) && Faultless(w)
    requires x.name in st.files && st.files[x.name] == Stored(x.message)
    ensures Kept(HandleOne(st', w, x, blocked).0, x.name, m)
  {
    SameKeeps(st, st', x.name, m);
    HandleOneKeeps(st', w, x, blocked, m);
  }

  lemma {:induction false} HandleKeeps(st: Store, w: World, taken: seq<Selected>, k: nat, n: Name, m: Message)
    requires k <= |taken| && Kept(st, n, m) && Faultless(w) && Pending(st.files, taken)
    ensures Kept(HandleAll(st, w, taken, k).0, n, m)
  {
    hide HandleOne, Kept, SameFor;
    if k > 0 {
      var (st', blocked) := HandleAll(st, w, taken, k - 1);
      if taken[k - 1].name == n {
        HandleLeavesOthers(st, w, taken, 0, k - 1, n);
        OwnKeeps(st, st', w, taken[k - 1], blocked, m);
      } else {
        HandleKeeps(st, w, taken, k - 1, n, m);
        OthersKeep(st', w, taken[k - 1], blocked, n, m);
      }
    }
  }

  /** The handler is given exactly the due messages, in file name order. */
  lemma PollSelects(st: Store, w: World)
    ensures Pending(ScanAndCompact(st, w).0.files, ScanAndCompact(st, w).1)
    ensures forall s :: s in ScanAndCompact(st, w).1 <==> Takes(st, w, Sorted(st.files.Keys), s)
    ensures ScanAndCompact(st, w).0.log == st.log
  {
    hide Takes;
    var names := Sorted(st.files.Keys);
    ScanSelects(st, w, names, |names|);
    forall s ensures s in ScanAndCompact(st, w).1 <==> Takes(st, w, names, s) {
      ScanTakesExactly(st, w, names, |names|, s);
      assert Takes(st, w, names, s) ==> s.at < |names| by { TakesListed(st, w, names, s); }
    }
  }

  lemma TakesListed(st: Store, w: World, names: seq<Name>, s: Selected)
    ensures Takes(st, w, names, s) ==> s.at < |names|
  {
  }

  lemma PollScanKeeps(st: Store, w: World, n: Name, m: Message)
    requires Kept(st, n, m) && Faultless(w)
    ensures Kept(ScanAndCompact(st, w).0, n, m)
  {
    var names := Sorted(st.files.Keys);
    ScanKeeps(st, w, names, |names|, n, m);
  }

  lemma PollKeeps(st: Store, w: World, n: Name, m: Message)
    requires Kept(st, n, m) && Faultless(w)
    ensures Kept(Spool.Poll(st, w), n, m)
  {
    hide Kept, Pending, Faultless, ScanAndCompact, HandleAll;
    PollScanKeeps(st, w, n, m);
    PollSelects(st, w);
    var (scanned, taken) := ScanAndCompact(st, w);
    HandleKeeps(scanned, w, taken, |taken|, n, m);
  }

  lemma PollScanLeavesUntouched(st: Store, w: World, n: Name)
    requires Untouched(st, n) && Faultless(w)
    ensures Untouched(ScanAndCompact(st, w).0, n)
  {
    var names := Sorted(st.files.Keys);
    ScanLeavesUntouched(st, w, names, |names|, n);
  }

  lemma PollLeavesUntouched(st: Store, w: World, n: Name)
    requires Untouched(st, n) && Faultless(w)
    ensures Untouched(Spool.Poll(st, w), n)
  {
    hide Faultless, ScanAndCompact;
    PollScanLeavesUntouched(st, w, n);
    PollSelects(st, w);
    var (scanned, taken) := ScanAndCompact(st, w);
    HandleLeavesOthers(scanned, w, taken, 0, |taken|, n);
  }

  /** The submitted messages by file name, and the store. */
  datatype State = State(submitted: map<Name, Message>, store: Store)

  datatype Action = Submit(name: Name, message: Message) | PollNow(world: World)

  ghost predicate Next(s: State, a: Action, s': State) {
    match a
    case Submit(n, m) =>
      n !in s.submitted && s' == State(s.submitted[n := m], s.store.(files := s.store.files[n := Stored(m)]))
    case PollNow(w) =>
      Faultless(w) && s' == s.(store := Spool.Poll(s.store, w))
  }

  ghost predicate Sound(n: Name, s: State) {
    if n in s.submitted then Kept(s.store, n, s.submitted[n]) else Untouched(s.store, n)
  }

  lemma NextKeepsSound(n: Name, s: State, a: Action, s': State)
    requires Sound(n, s) && Next(s, a, s')
    ensures Sound(n, s')
  {
    match a
    case Submit(_, _) =>
    case PollNow(w) =>
      if n in s.submitted {
        PollKeeps(s.store, w, n, s.submitted[n]);
      } else {
        PollLeavesUntouched(s.store, w, n);
      }
  }

  const Empty := State(map[], Store(map[], {}, []))

  /**
   * In every run of submissions and polls without disk faults: a message in its directory has as many additional tries
   * as failed attempts; a reliable message is gone only after an acknowledgement, a rejection, or when its tries
   * reached the maximum; it is never attempted more often than it had tries left, and acknowledged at most once; an
   * unreliable one is attempted at most once and then gone; and what was acknowledged or rejected is gone.
   */
  lemma NothingIsLost(states: seq<State>, actions: seq<Action>, i: nat, n: Name)
    requires Runs.IsRun(s => s == Empty, Next, states, actions) && i < |states| && n in states[i].submitted
    ensures
      var m, st := states[i].submitted[n], states[i].store;
      && (n in st.files ==> st.files[n].Stored? && st.files[n].message.tries == m.tries + Failures(st.log, n))
      && (n !in st.files && m.reliable ==>
            Successes(st.log, n) > 0 || Rejections(st.log, n) > 0 || m.tries + Failures(st.log, n) >= m.maxTries)
      && Successes(st.log, n) + Failures(st.log, n) <= (if m.reliable then TriesLeft(m) else 1)
      && Successes(st.log, n) <= 1
      && (n in st.files ==> Successes(st.log, n) == 0 && Rejections(st.log, n) == 0)
      && (n in st.files && !m.reliable ==> Failures(st.log, n) == 0)
  {
    forall s, a, s' | Sound(n, s) && Next(s, a, s') ensures Sound(n, s') {
      NextKeepsSound(n, s, a, s');
    }
    Runs.Always(s => s == Empty, Next, s => Sound(n, s), states, actions, i);
  }
}
