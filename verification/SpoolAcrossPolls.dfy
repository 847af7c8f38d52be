// What the spool does not guarantee across polls: the skip list forgets, and reliable messages lose their order.
module SpoolAcrossPolls {
  import opened SpoolMessage
  import opened Spool
  import opened SpoolSafety

  // ---------------------------------------------------------------------------------------------------------
  // When a message is acknowledged

  function Listing(st: Store): seq<Name> {
    Sorted(st.files.Keys)
  }

  /** The position of a file in the listing. */
  function Place(st: Store, n: Name): (at: nat)
    requires n in st.files
    ensures at < |Listing(st)| && Listing(st)[at] == n
  {
    var at :| 0 <= at < |Listing(st)| && Listing(st)[at] == n;
    at
  }

  /** The message of file `n` was acknowledged in this poll. */
  predicate AckedIn(st: Store, w: World, n: Name) {
    Successes(Spool.Poll(st, w).log, n) > Successes(st.log, n)
  }

  predicate DueNow(st: Store, w: World, n: Name) {
    n in st.files && Due(st, w, n, Place(st, n))
  }

  function Selection(st: Store, n: Name): Selected
    requires n in st.files && st.files[n].Stored?
  {
    Selected(n, st.files[n].message, Place(st, n))
  }

  /** Nothing that the poll selects before file `n` is a reliable message that fails. */
  ghost predicate NothingFailsBefore(st: Store, w: World, n: Name)
    requires n in st.files
  {
    forall s :: Takes(st, w, Listing(st), s) && s.at < Place(st, n) ==> !Fails(w, s)
  }

  /** Due, admissible and accepted, and if reliable not blocked by a failure before it. */
  ghost predicate Acknowledges(st: Store, w: World, n: Name) {
    && DueNow(st, w, n) && Admissible(w, Selection(st, n)) && w(Place(st, n)).accepted
    && (st.files[n].message.reliable ==> NothingFailsBefore(st, w, n))
  }

  lemma PlacesRise(st: Store, a: Name, b: Name)
    requires a in st.files && b in st.files && a < b
    ensures Place(st, a) < Place(st, b)
  {
  }

  lemma PlaceOf(st: Store, at: nat)
    requires at < |Listing(st)|
    ensures Listing(st)[at] in st.files && Place(st, Listing(st)[at]) == at
  {
    assert Listing(st)[at] in Listing(st);
  }

  /** What is selected is the due selection of its file. */
  lemma TakesIsSelection(st: Store, w: World, s: Selected)
    ensures Takes(st, w, Listing(st), s) <==> DueNow(st, w, s.name) && s == Selection(st, s.name)
  {
    if s.at < |Listing(st)| {
      PlaceOf(st, s.at);
    }
  }

  /** The attempts of files that were not selected do not change. */
  lemma NotTakenNotAcked(st: Store, w: World, n: Name)
    requires !DueNow(st, w, n)
    ensures !AckedIn(st, w, n)
  {
    PollSelects(st, w);
    var (scanned, taken) := ScanAndCompact(st, w);
    forall i | 0 <= i < |taken| ensures taken[i].name != n {
      assert taken[i] in taken;
      TakesIsSelection(st, w, taken[i]);
    }
    HandleLeavesOthers(scanned, w, taken, 0, |taken|, n);
  }

  /** Before the first failure means: accepted, and nothing selected before it fails. */
  lemma BeforeTheCut(st: Store, w: World, taken: seq<Selected>, cut: nat, k: nat)
    requires taken == ScanAndCompact(st, w).1 && IsCut(w, taken, cut) && k < |taken|
    requires Admissible(w, taken[k]) && taken[k].message.reliable
    ensures taken[k].name in st.files
    ensures k < cut <==> w(taken[k].at).accepted && NothingFailsBefore(st, w, taken[k].name)
  {
    hide Takes, DueNow;
    PollSelects(st, w);
    var n := taken[k].name;
    TakenAt(st, w, taken, k);
    forall s | Takes(st, w, Listing(st), s) && s.at < Place(st, n) ensures exists i :: 0 <= i < k && taken[i] == s {
      var i :| 0 <= i < |taken| && taken[i] == s;
      TakenInPlaceOrder(st, w, taken, i, k);
    }
    forall i | 0 <= i < k ensures Takes(st, w, Listing(st), taken[i]) && taken[i].at < Place(st, n) {
      TakenAt(st, w, taken, i);
      TakenInPlaceOrder(st, w, taken, i, k);
    }
  }

  lemma TakenInPlaceOrder(st: Store, w: World, taken: seq<Selected>, i: nat, k: nat)
    requires taken == ScanAndCompact(st, w).1 && i < |taken| && k < |taken|
    ensures i < k <==> taken[i].at < taken[k].at
  {
    hide DueNow, Takes;
    PollSelects(st, w);
    TakenAt(st, w, taken, i);
    TakenAt(st, w, taken, k);
    if i < k {
      PlacesRise(st, taken[i].name, taken[k].name);
    } else if k < i {
      PlacesRise(st, taken[k].name, taken[i].name);
    }
  }

  lemma TakenAt(st: Store, w: World, taken: seq<Selected>, i: nat)
    requires taken == ScanAndCompact(st, w).1 && i < |taken|
    ensures DueNow(st, w, taken[i].name) && taken[i] == Selection(st, taken[i].name)
    ensures Takes(st, w, Listing(st), taken[i])
  {
    PollSelects(st, w);
    assert taken[i] in taken;
    TakesIsSelection(st, w, taken[i]);
  }

  /** The selected message at position `k` is acknowledged exactly under the conditions of its file. */
  lemma TakenAckedExactly(st: Store, w: World, k: nat)
    requires k < |ScanAndCompact(st, w).1|
    ensures var n := ScanAndCompact(st, w).1[k].name; AckedIn(st, w, n) <==> Acknowledges(st, w, n)
  {
    hide Takes, DueNow, NothingFailsBefore, ScanAndCompact, HandleAll;
    PollSelects(st, w);
    var (scanned, taken) := ScanAndCompact(st, w);
    var n := taken[k].name;
    TakenAt(st, w, taken, k);
    var cut := CutExists(w, taken);
    AddedByDelivery(scanned, w, taken, cut, k, Attempted(n, true));
    if Admissible(w, taken[k]) && taken[k].message.reliable {
      BeforeTheCut(st, w, taken, cut, k);
    }
  }

  /** A poll acknowledges the message of a file exactly if it is due, admissible, accepted and not blocked. */
  lemma AckedExactly(st: Store, w: World, n: Name)
    ensures AckedIn(st, w, n) <==> Acknowledges(st, w, n)
  {
    hide NothingFailsBefore, AckedIn;
    if DueNow(st, w, n) {
      var s := Selection(st, n);
      TakesIsSelection(st, w, s);
      PollSelects(st, w);
      var taken := ScanAndCompact(st, w).1;
      var k :| 0 <= k < |taken| && taken[k] == s;
      TakenAckedExactly(st, w, k);
    } else {
      NotTakenNotAcked(st, w, n);
    }
  }

  // ---------------------------------------------------------------------------------------------------------
  // Order across polls

  /**
   * Across polls the order of reliable messages is lost: a poll acknowledges a later one and not an earlier one exactly
   * if it acknowledges the later one and the earlier one was not selected (it is backing off, skipped, unreadable or
   * out of tries) or is rejected.
   */
  lemma OvertakesExactly(st: Store, w: World, a: Name, b: Name)
    requires a in st.files && b in st.files && a < b && st.files[a].Stored? && st.files[b].Stored?
    requires st.files[a].message.reliable && st.files[b].message.reliable
    ensures AckedIn(st, w, b) && !AckedIn(st, w, a) <==>
            Acknowledges(st, w, b) && !(DueNow(st, w, a) && Admissible(w, Selection(st, a)))
  {
    hide AckedIn;
    AckedExactly(st, w, a);
    AckedExactly(st, w, b);
    PlacesRise(st, a, b);
    TakesIsSelection(st, w, Selection(st, a));
  }

  /** Among the messages a poll selects and admits order holds. */
  lemma OvertakenOnlyWhileNotSelected(st: Store, w: World, a: Name, b: Name)
    requires DueNow(st, w, a) && DueNow(st, w, b) && a < b && AckedIn(st, w, b)
    requires st.files[a].message.reliable && st.files[b].message.reliable && Admissible(w, Selection(st, a))
    ensures AckedIn(st, w, a)
  {
    hide AckedIn;
    OvertakesExactly(st, w, a, b);
  }

  // ---------------------------------------------------------------------------------------------------------
  // The skip list

  ghost predicate OnlyPaths(skip: set<Ref>) {
    forall r :: r in skip ==> r.Full?
  }

  /** The skip list holds full paths, the known names are base names: compaction forgets everything, on every pass. */
  lemma CompactionForgetsEverything(st: Store, w: World)
    requires OnlyPaths(st.skip)
    ensures ScanAndCompact(st, w).0.skip == {}
  {
    var names := Sorted(st.files.Keys);
    ScanAddsPaths(st, w, names, |names|);
  }

  lemma {:induction false} ScanAddsPaths(st: Store, w: World, names: seq<Name>, n: nat)
    requires Listed(st, names) && n <= |names| && OnlyPaths(st.skip)
    ensures OnlyPaths(Scan(st, w, names, n).0.skip)
  {
    if n > 0 {
      ScanAddsPaths(st, w, names, n - 1);
    }
  }

  /**
   * Compaction keeps the entries of all files that are still there, whatever is on the skip list, exactly if the
   * known names are their full paths.
   */
  lemma CompactionKeepsExactly(known: set<Ref>, names: seq<Name>)
    ensures (forall skip: set<Ref>, n :: n in names && Full(n) in skip ==> Full(n) in Compact(skip, known)) <==>
            forall n :: n in names ==> Full(n) in known
  {
    if n :| n in names && Full(n) !in known {
      assert Full(n) in {Full(n)} && Full(n) !in Compact({Full(n)}, known);
    }
  }

  lemma {:induction false} HandleAddsPaths(st: Store, w: World, taken: seq<Selected>, n: nat)
    requires n <= |taken| && OnlyPaths(st.skip)
    ensures OnlyPaths(HandleAll(st, w, taken, n).0.skip)
  {
    if n > 0 {
      HandleAddsPaths(st, w, taken, n - 1);
      var (st', blocked) := HandleAll(st, w, taken, n - 1);
      HandleOneAddsPaths(st', w, taken[n - 1], blocked);
    }
  }

  lemma HandleOneAddsPaths(st: Store, w: World, s: Selected, blocked: bool)
    requires OnlyPaths(st.skip)
    ensures OnlyPaths(HandleOne(st, w, s, blocked).0.skip)
  {
  }

  /** The skip list of a running spool holds full paths only. */
  lemma PollKeepsPaths(st: Store, w: World)
    requires OnlyPaths(st.skip)
    ensures OnlyPaths(Spool.Poll(st, w).skip)
  {
    CompactionForgetsEverything(st, w);
    var (scanned, taken) := ScanAndCompact(st, w);
    HandleAddsPaths(scanned, w, taken, |taken|);
  }

  /** What scanning and compaction do to one file. */
  lemma ScannedFile(st: Store, w: World, n: Name)
    requires n in st.files && OnlyPaths(st.skip)
    ensures var own, scanned := ScanOne(st, w, n, Place(st, n)), ScanAndCompact(st, w).0;
      && (n in scanned.files <==> n in own.files) && (n in own.files ==> scanned.files[n] == own.files[n])
      && Full(n) !in scanned.skip
  {
    hide ScanOne;
    CompactionForgetsEverything(st, w);
    ScanIsLocal(st, w, Listing(st), |Listing(st)|, Place(st, n));
  }

  /** A file on the skip list is not tried, stays if it still cannot be removed, and is off the list after the poll. */
  lemma SkippedInOnePoll(st: Store, w: World, n: Name)
    requires n in st.files && Full(n) in st.skip && OnlyPaths(st.skip)
    ensures var st' := Spool.Poll(st, w);
      && (n in st'.files <==> !w(Place(st, n)).removable) && (n in st'.files ==> st'.files[n] == st.files[n])
      && Full(n) !in st'.skip
      && Successes(st'.log, n) == Successes(st.log, n) && Failures(st'.log, n) == Failures(st.log, n)
  {
    ScannedFile(st, w, n);
    PollSelects(st, w);
    var (scanned, taken) := ScanAndCompact(st, w);
    forall i | 0 <= i < |taken| ensures taken[i].name != n {
      TakenAt(st, w, taken, i);
    }
    HandleLeavesOthers(scanned, w, taken, 0, |taken|, n);
  }

  /** Handling a message that is acknowledged removes its file, or puts it on the skip list. */
  lemma HandleAcked(st: Store, w: World, s: Selected, blocked: bool)
    requires Admissible(w, s) && w(s.at).accepted && (s.message.reliable ==> !blocked)
    requires s.name in st.files && Full(s.name) !in st.skip
    ensures var st' := HandleOne(st, w, s, blocked).0;
      && (s.name in st'.files <==> !w(s.at).removable)
      && (s.name in st'.files ==> st'.files[s.name] == st.files[s.name])
      && (Full(s.name) in st'.skip <==> !w(s.at).removable)
  {
  }

  /** An acknowledged message is selected, and reached by the handler before any reliable failure. */
  lemma ReachedWhenAcked(st: Store, w: World, n: Name) returns (k: nat)
    requires Acknowledges(st, w, n)
    ensures var (scanned, taken) := ScanAndCompact(st, w);
      && k < |taken| && taken[k] == Selection(st, n)
      && (st.files[n].message.reliable ==> !HandleAll(scanned, w, taken, k).1)
  {
    hide Takes, NothingFailsBefore, HandleAll, ScanAndCompact;
    var s := Selection(st, n);
    TakesIsSelection(st, w, s);
    PollSelects(st, w);
    var (scanned, taken) := ScanAndCompact(st, w);
    k :| 0 <= k < |taken| && taken[k] == s;
    var cut := CutExists(w, taken);
    if s.message.reliable {
      BeforeTheCut(st, w, taken, cut, k);
    }
    DeliveryFollowsFates(scanned, w, taken, k, cut);
  }

  /** Only one of the selected messages is of file `n`. */
  lemma HandledOnce(st: Store, w: World, k: nat)
    requires k < |ScanAndCompact(st, w).1|
    ensures var (scanned, taken) := ScanAndCompact(st, w);
      var (before, blocked) := HandleAll(scanned, w, taken, k);
      && SameFor(scanned, before, taken[k].name)
      && SameFor(HandleOne(before, w, taken[k], blocked).0, Spool.Poll(st, w), taken[k].name)
  {
    hide HandleOne, ScanAndCompact;
    PollSelects(st, w);
    var (scanned, taken) := ScanAndCompact(st, w);
    HandleLeavesOthers(scanned, w, taken, 0, k, taken[k].name);
    HandleLeavesOthers(scanned, w, taken, k + 1, |taken|, taken[k].name);
  }

  /** The file of an acknowledged message is gone, or it could not be removed and is to be skipped. */
  lemma AckedInOnePoll(st: Store, w: World, n: Name)
    requires AckedIn(st, w, n) && OnlyPaths(st.skip)
    ensures n in st.files
    ensures var st' := Spool.Poll(st, w);
      && (n in st'.files <==> !w(Place(st, n)).removable) && (n in st'.files ==> st'.files[n] == st.files[n])
      && (Full(n) in st'.skip <==> !w(Place(st, n)).removable)
  {
    hide HandleOne, HandleAll, NothingFailsBefore, AckedIn, ScanAndCompact, Spool.Poll;
    AckedExactly(st, w, n);
    var k := ReachedWhenAcked(st, w, n);
    ScannedFile(st, w, n);
    HandledOnce(st, w, k);
    var (scanned, taken) := ScanAndCompact(st, w);
    var (before, blocked) := HandleAll(scanned, w, taken, k);
    HandleAcked(before, w, taken[k], blocked);
  }

  /** Submissions between two polls: further files, none of the name `n`. */
  ghost predicate Submitted(st: Store, st': Store, n: Name) {
    && st'.skip == st.skip && st'.log == st.log
    && (n in st'.files <==> n in st.files) && (n in st.files ==> st'.files[n] == st.files[n])
  }

  /**
   * A message that was acknowledged is acknowledged again two polls later exactly if its file could not be removed,
   * neither then nor in the next poll, and it is then due, admissible, accepted and not blocked, like any other; other
   * files may be submitted at any time, and in between it is never tried.
   */
  lemma AcknowledgedAgainExactly(st: Store, w1: World, st1: Store, w2: World, st2: Store, w3: World, n: Name)
    requires AckedIn(st, w1, n) && OnlyPaths(st.skip)
    requires Submitted(Spool.Poll(st, w1), st1, n) && Submitted(Spool.Poll(st1, w2), st2, n)
    ensures n in st.files && !AckedIn(st1, w2, n)
    ensures AckedIn(st2, w3, n) <==>
      && !w1(Place(st, n)).removable
      && n in st1.files && !w2(Place(st1, n)).removable
      && Acknowledges(st2, w3, n)
    ensures AckedIn(st2, w3, n) ==> st2.files[n] == st.files[n] && Full(n) !in st2.skip
  {
    hide Spool.Poll, Acknowledges;
    AckedInOnePoll(st, w1, n);
    PollKeepsPaths(st, w1);
    AckedExactly(st2, w3, n);
    AckedExactly(st1, w2, n);
    AcknowledgesListed(st2, w3, n);
    if n in st1.files {
      SkippedInOnePoll(st1, w2, n);
    } else {
      AcknowledgesListed(st1, w2, n);
      GoneStays(st1, w2, n);
    }
  }

  lemma AcknowledgesListed(st: Store, w: World, n: Name)
    ensures Acknowledges(st, w, n) ==> n in st.files && Full(n) !in st.skip
  {
  }

  lemma {:induction false} ScanOnlyRemoves(st: Store, w: World, names: seq<Name>, k: nat, n: Name)
    requires Listed(st, names) && k <= |names| && n !in st.files
    ensures n !in Scan(st, w, names, k).0.files
  {
    if k > 0 {
      ScanOnlyRemoves(st, w, names, k - 1, n);
    }
  }

  /** A poll never brings a file back. */
  lemma GoneStays(st: Store, w: World, n: Name)
    requires n !in st.files
    ensures n !in Spool.Poll(st, w).files
  {
    ScanOnlyRemoves(st, w, Listing(st), |Listing(st)|, n);
    PollSelects(st, w);
    var (scanned, taken) := ScanAndCompact(st, w);
    forall i | 0 <= i < |taken| ensures taken[i].name != n {
      TakenAt(st, w, taken, i);
    }
    HandleLeavesOthers(scanned, w, taken, 0, |taken|, n);
  }
}
