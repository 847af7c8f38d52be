// What one poll does to one file, in every case, and how failed messages back off over whole runs with any disk faults
// (submission/disk_spool.go, submission/spool.go).
module SpoolFates {
  import opened SpoolMessage
  import opened Spool
  import opened SpoolSafety
  import opened SpoolAcrossPolls
  import Runs

  // ---------------------------------------------------------------------------------------------------------
  // One file in one poll

  /** The attempts of a file went on by so many successes, failures and rejections. */
  predicate Counted(st: Store, st': Store, n: Name, successes: nat, failures: nat, rejections: nat) {
    && Successes(st'.log, n) == Successes(st.log, n) + successes
    && Failures(st'.log, n) == Failures(st.log, n) + failures
    && Rejections(st'.log, n) == Rejections(st.log, n) + rejections
  }

  /** The file is gone if it could be removed, and otherwise as it was. */
  predicate Discarded(st: Store, f: Fare, st': Store, n: Name)
    requires n in st.files
  {
    (n in st'.files <==> !f.removable) && (n in st'.files ==> st'.files[n] == st.files[n])
  }

  /** Discarded by the handler, which remembers to skip what it could not remove. */
  predicate DiscardedOrSkipped(st: Store, f: Fare, st': Store, n: Name)
    requires n in st.files
  {
    Discarded(st, f, st', n) && (Full(n) in st'.skip <==> !f.removable)
  }

  predicate LeftAlone(st: Store, st': Store, n: Name)
    requires n in st.files
  {
    n in st'.files && st'.files[n] == st.files[n] && Full(n) !in st'.skip && Counted(st, st', n, 0, 0, 0)
  }

  /** What a poll makes of a file; `blocked` says that a reliable message of a file before it failed. */
  predicate Fared(st: Store, f: Fare, st': Store, n: Name, blocked: bool)
    requires n in st.files
  {
    if Full(n) in st.skip || !f.readable || st.files[n].Corrupt? then
      Discarded(st, f, st', n) && Full(n) !in st'.skip && Counted(st, st', n, 0, 0, 0)
    else
      var m := st.files[n].message;
      if m.tries >= m.maxTries then
        Discarded(st, f, st', n) && Full(n) !in st'.skip && Counted(st, st', n, 0, 0, 0)
      else if m.tries > 0 && f.scanTime < m.nextTry then LeftAlone(st, st', n)
      else if !Converts(m, f.sendTime, f.signing) then
        DiscardedOrSkipped(st, f, st', n) && Counted(st, st', n, 0, 0, 1)
      else if m.reliable && blocked then LeftAlone(st, st', n)
      else if f.accepted then DiscardedOrSkipped(st, f, st', n) && Counted(st, st', n, 1, 0, 0)
      else if !m.reliable || m.tries + 1 >= m.maxTries || !f.writable then
        DiscardedOrSkipped(st, f, st', n) && Counted(st, st', n, 0, 1, 0)
      else
        && n in st'.files && Full(n) !in st'.skip && Counted(st, st', n, 0, 1, 0)
        && st'.files[n] == Stored(m.(tries := m.tries + 1, nextTry := f.sendTime + f.delay))
  }

  /** A file that is not selected: the scan alone decides about it. */
  lemma NotSelected(st: Store, w: World, n: Name)
    requires n in st.files && OnlyPaths(st.skip) && !DueNow(st, w, n)
    ensures var own, st' := ScanOne(st, w, n, Place(st, n)), Spool.Poll(st, w);
      && (n in st'.files <==> n in own.files) && (n in own.files ==> st'.files[n] == own.files[n])
      && Full(n) !in st'.skip && Counted(st, st', n, 0, 0, 0)
  {
    hide ScanOne, ScanAndCompact, DueNow;
    ScannedFile(st, w, n);
    PollSelects(st, w);
    var (scanned, taken) := ScanAndCompact(st, w);
    forall i | 0 <= i < |taken| ensures taken[i].name != n {
      TakenAt(st, w, taken, i);
    }
    HandleLeavesOthers(scanned, w, taken, 0, |taken|, n);
  }

  /** A file that is selected: the handler decides about it, knowing of the failures before it. */
  lemma SelectedFile(st: Store, w: World, n: Name) returns (before: Store, blocked: bool)
    requires DueNow(st, w, n) && OnlyPaths(st.skip)
    ensures n in before.files && before.files[n] == st.files[n] && Full(n) !in before.skip
    ensures Counted(st, before, n, 0, 0, 0)
    ensures SameFor(HandleOne(before, w, Selection(st, n), blocked).0, Spool.Poll(st, w), n)
    ensures Admissible(w, Selection(st, n)) && st.files[n].message.reliable ==>
            (blocked <==> !NothingFailsBefore(st, w, n))
  {
    hide Takes, NothingFailsBefore, HandleAll, ScanAndCompact, HandleOne, Admissible, Spool.Poll;
    hide Successes, Failures, Rejections;
    var s := Selection(st, n);
    TakesIsSelection(st, w, s);
    PollSelects(st, w);
    ScannedFile(st, w, n);
    var (scanned, taken) := ScanAndCompact(st, w);
    var k :| 0 <= k < |taken| && taken[k] == s;
    HandledOnce(st, w, k);
    before, blocked := HandleAll(scanned, w, taken, k).0, HandleAll(scanned, w, taken, k).1;
    if Admissible(w, s) && st.files[n].message.reliable {
      BlockedExactly(st, w, k);
    }
  }

  lemma BlockedExactly(st: Store, w: World, k: nat)
    requires k < |ScanAndCompact(st, w).1|
    requires var s := ScanAndCompact(st, w).1[k]; Admissible(w, s) && s.message.reliable
    ensures ScanAndCompact(st, w).1[k].name in st.files
    ensures var (scanned, taken) := ScanAndCompact(st, w);
      HandleAll(scanned, w, taken, k).1 <==> !NothingFailsBefore(st, w, taken[k].name)
  {
    hide Takes, HandleAll, ScanAndCompact, Admissible;
    var (scanned, taken) := ScanAndCompact(st, w);
    var cut := CutExists(w, taken);
    TakenAt(st, w, taken, k);
    DeliveryFollowsFates(scanned, w, taken, k, cut);
    if forall s :: Takes(st, w, Listing(st), s) && s.at < Place(st, taken[k].name) ==> !Fails(w, s) {
      NoFailureNoCut(st, w, taken, cut, k);
    } else {
      FailureCuts(st, w, taken, cut, k);
    }
  }

  lemma NoFailureNoCut(st: Store, w: World, taken: seq<Selected>, cut: nat, k: nat)
    requires taken == ScanAndCompact(st, w).1 && IsCut(w, taken, cut) && k < |taken|
    requires taken[k].name in st.files && NothingFailsBefore(st, w, taken[k].name)
    ensures cut >= k
  {
    hide Takes, ScanAndCompact, Fails;
    if cut < k {
      TakenAt(st, w, taken, cut);
      TakenAt(st, w, taken, k);
      TakenInPlaceOrder(st, w, taken, cut, k);
    }
  }

  lemma FailureCuts(st: Store, w: World, taken: seq<Selected>, cut: nat, k: nat)
    requires taken == ScanAndCompact(st, w).1 && IsCut(w, taken, cut) && k < |taken|
    requires taken[k].name in st.files && !NothingFailsBefore(st, w, taken[k].name)
    ensures cut < k
  {
    hide Takes, ScanAndCompact, Fails;
    PollSelects(st, w);
    var s :| Takes(st, w, Listing(st), s) && s.at < Place(st, taken[k].name) && Fails(w, s);
    var i :| 0 <= i < |taken| && taken[i] == s;
    TakenAt(st, w, taken, k);
    TakenInPlaceOrder(st, w, taken, i, k);
  }

  /** What handling the message does to its own file and history. */
  lemma HandledFile(st: Store, w: World, s: Selected, blocked: bool)
    requires s.name in st.files && st.files[s.name] == Stored(s.message) && Full(s.name) !in st.skip
    requires s.message.tries < s.message.maxTries && w(s.at).readable
    requires !(s.message.tries > 0 && w(s.at).scanTime < s.message.nextTry)
    ensures Fared(st, w(s.at), HandleOne(st, w, s, blocked).0, s.name, blocked)
  {
    var r := Record(w, s, blocked);
    HandleOneRecords(st, w, s, blocked);
    if r != [] {
      TalliesAfter(st.log, r[0], s.name);
    }
  }

  lemma SameFares(st: Store, before: Store, f: Fare, after: Store, st': Store, n: Name, blocked: bool)
    requires n in st.files && n in before.files && st.files[n] == before.files[n]
    requires Full(n) !in st.skip && Full(n) !in before.skip && Counted(st, before, n, 0, 0, 0)
    requires Fared(before, f, after, n, blocked) && SameFor(after, st', n)
    ensures Fared(st, f, st', n, blocked)
  {
  }

  /**
   * One poll and one file, for all stores, faults, clocks and outcomes: when it is discarded, left alone, sent, or kept
   * for another try, and until when.
   */
  lemma FileInOnePoll(st: Store, w: World, n: Name)
    requires n in st.files && OnlyPaths(st.skip)
    ensures Fared(st, w(Place(st, n)), Spool.Poll(st, w), n, !NothingFailsBefore(st, w, n))
  {
    hide Spool.Poll, HandleOne, NothingFailsBefore, Counted;
    if DueNow(st, w, n) {
      var before, blocked := SelectedFile(st, w, n);
      var s := Selection(st, n);
      HandledFile(before, w, s, blocked);
      var after := HandleOne(before, w, s, blocked).0;
      SameFares(st, before, w(s.at), after, Spool.Poll(st, w), n, blocked);
      BlockedMattersToReliable(st, w(s.at), Spool.Poll(st, w), n, blocked, !NothingFailsBefore(st, w, n));
    } else {
      NotSelected(st, w, n);
    }
  }

  lemma BlockedMattersToReliable(st: Store, f: Fare, st': Store, n: Name, blocked: bool, blocked': bool)
    requires n in st.files && Fared(st, f, st', n, blocked)
    requires st.files[n].Stored? ==>
      var m := st.files[n].message; Converts(m, f.sendTime, f.signing) && m.reliable ==> blocked == blocked'
    ensures Fared(st, f, st', n, blocked')
  {
  }

  // ---------------------------------------------------------------------------------------------------------
  // Backing off

  /** A step of a run: a submission under a new name, or a poll with any faults. */
  ghost predicate Step(s: State, a: Action, s': State) {
    match a
    case Submit(n, m) =>
      n !in s.submitted && s' == State(s.submitted[n := m], s.store.(files := s.store.files[n := Stored(m)]))
    case PollNow(w) => s' == s.(store := Spool.Poll(s.store, w))
  }

  ghost predicate IsRun(states: seq<State>, actions: seq<Action>) {
    Runs.IsRun(s => s == Empty, Step, states, actions)
  }

  ghost predicate Orderly(s: State) {
    OnlyPaths(s.store.skip) && forall n :: n in s.store.files ==> n in s.submitted
  }

  lemma StepKeepsOrderly(s: State, a: Action, s': State)
    requires Orderly(s) && Step(s, a, s')
    ensures Orderly(s')
  {
    if a.PollNow? {
      PollKeepsPaths(s.store, a.world);
      forall n | n in s'.store.files ensures n in s'.submitted {
        if n !in s.store.files {
          GoneStays(s.store, a.world, n);
        }
      }
    }
  }

  lemma RunIsOrderly(states: seq<State>, actions: seq<Action>, i: nat)
    requires IsRun(states, actions) && i < |states|
    ensures Orderly(states[i])
  {
    forall s, a, s' | Orderly(s) && Step(s, a, s') ensures Orderly(s') {
      StepKeepsOrderly(s, a, s');
    }
    Runs.Always(s => s == Empty, Step, Orderly, states, actions, i);
  }

  /** The poll of step `i` attempted the message of file `n` and failed. */
  predicate FailsAt(states: seq<State>, actions: seq<Action>, i: nat, n: Name)
    requires i < |actions| && |states| == |actions| + 1
  {
    actions[i].PollNow? && Failures(states[i + 1].store.log, n) > Failures(states[i].store.log, n)
  }

  /** When the message of file `n` that fails at step `i` was sent, plus its delay. */
  function DueAgain(states: seq<State>, actions: seq<Action>, i: nat, n: Name): int
    requires i < |actions| && |states| == |actions| + 1 && actions[i].PollNow? && n in states[i].store.files
  {
    var f := actions[i].world(Place(states[i].store, n));
    f.sendTime + f.delay
  }

  lemma FailureIsOfAFile(st: Store, w: World, n: Name)
    requires n !in st.files
    ensures Counted(st, Spool.Poll(st, w), n, 0, 0, 0)
  {
    PollSelects(st, w);
    ScanOnlyRemoves(st, w, Listing(st), |Listing(st)|, n);
    var (scanned, taken) := ScanAndCompact(st, w);
    forall i | 0 <= i < |taken| ensures taken[i].name != n {
      TakenAt(st, w, taken, i);
    }
    HandleLeavesOthers(scanned, w, taken, 0, |taken|, n);
  }

  lemma FailureInOnePoll(st: Store, w: World, n: Name)
    requires OnlyPaths(st.skip) && Failures(Spool.Poll(st, w).log, n) > Failures(st.log, n)
    ensures n in st.files && st.files[n].Stored?
    ensures var m, f, st' := st.files[n].message, w(Place(st, n)), Spool.Poll(st, w);
      n in st'.files && Full(n) !in st'.skip ==>
        && m.reliable && m.tries + 1 < m.maxTries
        && st'.files[n] == Stored(m.(tries := m.tries + 1, nextTry := f.sendTime + f.delay))
  {
    hide Spool.Poll, Place, NothingFailsBefore, Converts;
    if n in st.files {
      FileInOnePoll(st, w, n);
    } else {
      FailureIsOfAFile(st, w, n);
    }
  }

  /** A poll that scans a file with a try behind it before it is due does not attempt it. */
  lemma NotDueInOnePoll(st: Store, w: World, n: Name, m: Message)
    requires OnlyPaths(st.skip) && (n in st.files ==> st.files[n] == Stored(m)) && m.tries > 0
    requires n in st.files ==> w(Place(st, n)).scanTime < m.nextTry
    ensures var st' := Spool.Poll(st, w);
      Counted(st, st', n, 0, 0, 0) && (n in st'.files ==> st'.files[n] == Stored(m))
  {
    hide Spool.Poll, Place, NothingFailsBefore, Converts;
    if n in st.files {
      FileInOnePoll(st, w, n);
    } else {
      FailureIsOfAFile(st, w, n);
      GoneStays(st, w, n);
    }
  }

  /** After a failed attempt the message is out of the way, or stored with one more try and the time it is due. */
  lemma FailureSetsTheNextTry(states: seq<State>, actions: seq<Action>, i: nat, n: Name)
    requires IsRun(states, actions) && i < |actions| && FailsAt(states, actions, i, n)
    ensures n in states[i].store.files && states[i].store.files[n].Stored?
    ensures n in states[i + 1].store.files && Full(n) !in states[i + 1].store.skip ==>
      var m := states[i].store.files[n].message;
      && m.reliable && m.tries + 1 < m.maxTries
      && states[i + 1].store.files[n] ==
         Stored(m.(tries := m.tries + 1, nextTry := DueAgain(states, actions, i, n)))
  {
    hide Spool.Poll, Place, Failures;
    RunIsOrderly(states, actions, i);
    assert Step(states[i], actions[i], states[i + 1]);
    FailureInOnePoll(states[i].store, actions[i].world, n);
  }

  /** No poll of the steps from `i` to `j` scans the file before `time`, or there is none left to scan. */
  predicate ScansBefore(states: seq<State>, actions: seq<Action>, i: nat, j: nat, n: Name, time: int)
    requires i <= j <= |actions| && |states| == |actions| + 1
  {
    forall k :: i <= k < j && actions[k].PollNow? && n in states[k].store.files ==>
      actions[k].world(Place(states[k].store, n)).scanTime < time
  }

  /** A message with a try behind it that is not due is not attempted: it stays as it is, unless its file is lost. */
  lemma {:induction false} NotBeforeItIsDue(
    states: seq<State>, actions: seq<Action>, i: nat, j: nat, n: Name, m: Message)
    requires IsRun(states, actions) && i <= j <= |actions|
    requires n in states[i].submitted && (n in states[i].store.files ==> states[i].store.files[n] == Stored(m))
    requires m.tries > 0 && ScansBefore(states, actions, i, j, n, m.nextTry)
    ensures n in states[j].submitted && (n in states[j].store.files ==> states[j].store.files[n] == Stored(m))
    ensures Counted(states[i].store, states[j].store, n, 0, 0, 0)
    decreases j
  {
    hide Spool.Poll, Place, Failures, Successes, Rejections;
    if i < j {
      NotBeforeItIsDue(states, actions, i, j - 1, n, m);
      RunIsOrderly(states, actions, j - 1);
      assert Step(states[j - 1], actions[j - 1], states[j]);
      if actions[j - 1].PollNow? {
        NotDueInOnePoll(states[j - 1].store, actions[j - 1].world, n, m);
      }
    }
  }

  /**
   * In every run, with any faults: a message that failed and is still to be tried again is due one back-off delay after
   * it was sent, and no poll that scans it before then attempts it.
   */
  lemma FailedMessagesBackOff(states: seq<State>, actions: seq<Action>, i: nat, j: nat, n: Name)
    requires IsRun(states, actions) && i < j <= |actions| && FailsAt(states, actions, i, n)
    requires n in states[i + 1].store.files && Full(n) !in states[i + 1].store.skip
    ensures n in states[i].store.files && states[i + 1].store.files[n].Stored?
    ensures states[i + 1].store.files[n].message.nextTry == DueAgain(states, actions, i, n)
    ensures ScansBefore(states, actions, i + 1, j, n, DueAgain(states, actions, i, n)) ==>
      && Counted(states[i + 1].store, states[j].store, n, 0, 0, 0)
      && (n in states[j].store.files ==> states[j].store.files[n] == states[i + 1].store.files[n])
  {
    FailureSetsTheNextTry(states, actions, i, n);
    RunIsOrderly(states, actions, i + 1);
    if ScansBefore(states, actions, i + 1, j, n, DueAgain(states, actions, i, n)) {
      NotBeforeItIsDue(states, actions, i + 1, j, n, states[i + 1].store.files[n].message);
    }
  }
}
