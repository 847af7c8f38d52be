// How many files a priority directory can hold when submitters race (submission/disk_spool.go, Submit).
module SpoolBound {
  import Runs

  type Name = nat
  type Submitter = nat

  /** The files of the directory, and the submitters that have counted them and not yet renamed theirs in. */
  datatype State = State(files: set<Name>, counted: set<Submitter>)

  datatype Event =
    | Count(who: Submitter, listable: bool)
    | Rename(who: Submitter, name: Name, ok: bool)
    | Remove(name: Name)

  /** countEntries answers 0 for a directory that cannot be listed. */
  function CountEntries(s: State, listable: bool): nat {
    if listable then |s.files| else 0
  }

  /** `submitters` submitters of a spool for `spoolMax` messages, and pollers that remove files at any time. */
  ghost predicate Next(spoolMax: nat, submitters: nat, s: State, e: Event, s': State) {
    match e
    case Count(who, listable) =>
      && who < submitters && who !in s.counted
      && s' == if CountEntries(s, listable) > spoolMax then s else s.(counted := s.counted + {who})
    case Rename(who, name, ok) =>
      && who in s.counted && name !in s.files
      && s' == State(if ok then s.files + {name} else s.files, s.counted - {who})
    case Remove(name) =>
      s' == s.(files := s.files - {name})
  }

  const Empty := State({}, {})

  ghost predicate IsRun(spoolMax: nat, submitters: nat, states: seq<State>, events: seq<Event>) {
    Runs.IsRun(s => s == Empty, (s, e, s') => Next(spoolMax, submitters, s, e, s'), states, events)
  }

  /** In a run where the directory can always be listed. */
  predicate AlwaysListable(events: seq<Event>) {
    forall i :: 0 <= i < |events| && events[i].Count? ==> events[i].listable
  }

  /** The first `n` numbers. */
  function Below(n: nat): (s: set<nat>)
    ensures |s| == n && forall i: nat :: i in s <==> i < n
  {
    if n == 0 then {} else Below(n - 1) + {n - 1}
  }

  lemma SubsetSize<T>(a: set<T>, b: set<T>)
    requires a <= b
    ensures |a| <= |b|
  {
    assert b == a + (b - a);
  }

  /** Files and promised files together stay within the limit. */
  ghost predicate Within(spoolMax: nat, submitters: nat, s: State) {
    s.counted <= Below(submitters) && |s.files| + |s.counted| <= spoolMax + submitters
  }

  lemma NextStaysWithin(spoolMax: nat, submitters: nat, s: State, e: Event, s': State)
    requires Within(spoolMax, submitters, s) && Next(spoolMax, submitters, s, e, s')
    requires e.Count? ==> e.listable
    ensures Within(spoolMax, submitters, s')
  {
    match e
    case Count(who, _) =>
      if |s.files| <= spoolMax {
        SubsetSize(s'.counted, Below(submitters));
      }
    case Rename(who, _, _) =>
      assert |s'.counted| == |s.counted| - 1;
    case Remove(name) =>
      SubsetSize(s'.files, s.files);
  }

  /** A directory that can be listed never holds more than spoolMax files and one for each racing submitter. */
  lemma {:induction false} SpoolSizeBound(
    spoolMax: nat, submitters: nat, states: seq<State>, events: seq<Event>, n: nat)
    requires IsRun(spoolMax, submitters, states, events) && AlwaysListable(events) && n < |states|
    ensures |states[n].files| <= spoolMax + submitters
    ensures Within(spoolMax, submitters, states[n])
  {
    if n > 0 {
      SpoolSizeBound(spoolMax, submitters, states, events, n - 1);
      NextStaysWithin(spoolMax, submitters, states[n - 1], events[n - 1], states[n]);
    }
  }

  // ---------------------------------------------------------------------------------------------------------
  // The bound is reached, and without a listing there is none

  /** Some run leads to the state; `listable` says that the directory can be listed throughout. */
  ghost predicate Reachable(spoolMax: nat, submitters: nat, listable: bool, s: State) {
    exists states, events :: Reaches(spoolMax, submitters, listable, states, events, s)
  }

  ghost predicate Reaches(
    spoolMax: nat, submitters: nat, listable: bool, states: seq<State>, events: seq<Event>, s: State)
  {
    && IsRun(spoolMax, submitters, states, events) && states[|states| - 1] == s
    && (listable ==> AlwaysListable(events))
  }

  lemma ReachableStart(spoolMax: nat, submitters: nat, listable: bool)
    ensures Reachable(spoolMax, submitters, listable, Empty)
  {
    assert Reaches(spoolMax, submitters, listable, [Empty], [], Empty);
  }

  lemma ReachableStep(spoolMax: nat, submitters: nat, listable: bool, s: State, e: Event, s': State)
    requires Reachable(spoolMax, submitters, listable, s) && Next(spoolMax, submitters, s, e, s')
    requires listable && e.Count? ==> e.listable
    ensures Reachable(spoolMax, submitters, listable, s')
  {
    var states, events :| Reaches(spoolMax, submitters, listable, states, events, s);
    assert Reaches(spoolMax, submitters, listable, states + [s'], events + [e], s');
  }

  /** One submission that passes its count, uninterrupted. */
  lemma SubmitOne(spoolMax: nat, submitters: nat, listable: bool, n: nat)
    requires 0 < submitters && Reachable(spoolMax, submitters, listable, State(Below(n), {}))
    requires listable ==> n <= spoolMax
    ensures Reachable(spoolMax, submitters, listable, State(Below(n + 1), {}))
  {
    var s := State(Below(n), {});
    var counted := s.(counted := {0});
    ReachableStep(spoolMax, submitters, listable, s, Count(0, listable), counted);
    assert Below(n + 1) == Below(n) + {n};
    ReachableStep(spoolMax, submitters, listable, counted, Rename(0, n, true), State(Below(n + 1), {}));
  }

  lemma {:induction false} SubmitMany(spoolMax: nat, submitters: nat, listable: bool, n: nat)
    requires 0 < submitters && (listable ==> n <= spoolMax)
    ensures Reachable(spoolMax, submitters, listable, State(Below(n), {}))
  {
    if n == 0 {
      ReachableStart(spoolMax, submitters, listable);
      assert Below(0) == {};
    } else {
      SubmitMany(spoolMax, submitters, listable, n - 1);
      SubmitOne(spoolMax, submitters, listable, n - 1);
    }
  }

  /** All submitters count a directory with spoolMax files before any of them renames. */
  lemma {:induction false} CountMany(spoolMax: nat, submitters: nat, k: nat)
    requires 0 < submitters && k <= submitters
    ensures Reachable(spoolMax, submitters, true, State(Below(spoolMax), Below(k)))
  {
    if k == 0 {
      SubmitMany(spoolMax, submitters, true, spoolMax);
      assert Below(0) == {};
    } else {
      CountMany(spoolMax, submitters, k - 1);
      assert Below(k) == Below(k - 1) + {k - 1};
      ReachableStep(spoolMax, submitters, true, State(Below(spoolMax), Below(k - 1)), Count(k - 1, true),
                    State(Below(spoolMax), Below(k)));
    }
  }

  lemma RenameOne(spoolMax: nat, submitters: nat, files: nat, counted: nat)
    requires Reachable(spoolMax, submitters, true, State(Below(files), Below(counted + 1)))
    ensures Reachable(spoolMax, submitters, true, State(Below(files + 1), Below(counted)))
  {
    assert Below(files + 1) == Below(files) + {files};
    assert Below(counted) == Below(counted + 1) - {counted};
    ReachableStep(spoolMax, submitters, true, State(Below(files), Below(counted + 1)), Rename(counted, files, true),
                  State(Below(files + 1), Below(counted)));
  }

  lemma {:induction false} RenameMany(spoolMax: nat, submitters: nat, k: nat)
    requires 0 < submitters && k <= submitters
    ensures Reachable(spoolMax, submitters, true, State(Below(spoolMax + k), Below(submitters - k)))
  {
    hide Below, Reachable;
    if k == 0 {
      CountMany(spoolMax, submitters, submitters);
    } else {
      RenameMany(spoolMax, submitters, k - 1);
      RenameOne(spoolMax, submitters, spoolMax + k - 1, submitters - k);
    }
  }

  /** The sizes a listable directory can reach are exactly those up to spoolMax and the number of submitters. */
  lemma SpoolSizesExactly(spoolMax: nat, submitters: nat, n: nat)
    requires 0 < submitters
    ensures (exists s :: Reachable(spoolMax, submitters, true, s) && |s.files| == n) <==> n <= spoolMax + submitters
  {
    if n <= spoolMax {
      SubmitMany(spoolMax, submitters, true, n);
      assert |State(Below(n), {}).files| == n;
    } else if n <= spoolMax + submitters {
      RenameMany(spoolMax, submitters, n - spoolMax);
      assert |State(Below(n), Below(submitters - (n - spoolMax))).files| == n;
    }
    forall s | Reachable(spoolMax, submitters, true, s) ensures |s.files| <= spoolMax + submitters {
      var states, events :| Reaches(spoolMax, submitters, true, states, events, s);
      SpoolSizeBound(spoolMax, submitters, states, events, |states| - 1);
    }
  }

  /** A directory that cannot be listed is never full: every size can be reached, whatever spoolMax says. */
  lemma UnlistableHasNoLimit(spoolMax: nat, submitters: nat, n: nat)
    requires 0 < submitters
    ensures exists s :: Reachable(spoolMax, submitters, false, s) && |s.files| == n
  {
    SubmitMany(spoolMax, submitters, false, n);
    assert |State(Below(n), {}).files| == n;
  }
}
