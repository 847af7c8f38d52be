// The submission spool of one priority (submission/disk_spool.go) and the delivery loop that polls it
// (submission/spool.go).
module Spool {
  import opened SpoolMessage

  /** File names are ordered; a name stands for its position in that order. */
  type Name = nat

  datatype Entry = Stored(message: Message) | Corrupt

  type Files = map<Name, Entry>

  /** The two spellings of a file: its base name, as in a directory listing, and its full path. */
  datatype Ref = Base(name: Name) | Full(name: Name)

  /** What happened to a message when the handler dealt with it. */
  datatype Event = Rejected(name: Name) | Attempted(name: Name, ok: bool)

  /** The durable files, the in-memory skip list, and the history of attempts. */
  datatype Store = Store(files: Files, skip: set<Ref>, log: seq<Event>)

  /**
   * How a file fares in a poll: clock readings when it is scanned and sent, the back-off delay, disk and network
   * outcomes, the subject prefix and the signing set-up.
   */
  datatype Fare = Fare(
    scanTime: int, sendTime: int, delay: nat, readable: bool, removable: bool, writable: bool, accepted: bool,
    prefix: string, signing: Signing)

  /** The fares of a poll by position in the listing. */
  type World = nat -> Fare

  datatype Selected = Selected(name: Name, message: Message, at: nat)

  // ---------------------------------------------------------------------------------------------------------
  // Listing

  ghost predicate IsLeast(names: set<Name>, n: Name) {
    n in names && forall m :: m in names ==> n <= m
  }

  function Least(names: set<Name>): (n: Name)
    requires names != {}
    ensures IsLeast(names, n)
  {
    LeastExists(names);
    var n :| n in names && forall m :: m in names ==> n <= m;
    n
  }

  lemma LeastExists(names: set<Name>)
    requires names != {}
    ensures exists n :: IsLeast(names, n)
  {
    var l := SomeLeast(names);
  }

  lemma {:induction false} SomeLeast(names: set<Name>) returns (l: Name)
    requires names != {}
    ensures IsLeast(names, l)
  {
    l :| l in names;
    if names != {l} {
      var rest := names - {l};
      var l' := SomeLeast(rest);
      forall m | m in names ensures (if l' <= l then l' else l) <= m {
        assert m != l ==> m in rest;
      }
      l := if l' <= l then l' else l;
    }
  }

  /** The entries of a directory in file name order. */
  function Sorted(names: set<Name>): (s: seq<Name>)
    ensures forall n :: n in s <==> n in names
    ensures forall i, j :: 0 <= i < j < |s| ==> s[i] < s[j]
    ensures |s| == |names|
  {
    if names == {} then [] else [Least(names)] + Sorted(names - {Least(names)})
  }

  // ---------------------------------------------------------------------------------------------------------
  // Scanning (processDir)

  datatype Verdict = Skip | Remove | Wait | Take(message: Message)

  function Judge(st: Store, w: World, name: Name, at: nat): Verdict
    requires name in st.files
  {
    if Full(name) in st.skip then Skip
    else if !w(at).readable || st.files[name].Corrupt? then Remove
    else
      var m := st.files[name].message;
      if m.tries >= m.maxTries then Remove
      else if m.tries > 0 && w(at).scanTime < m.nextTry then Wait
      else Take(m)
  }

  /** removeCompletedWithSkip: a file that cannot be removed goes on the skip list. */
  function RemoveWithSkip(st: Store, name: Name, ok: bool): Store {
    if ok then st.(files := st.files - {name}) else st.(skip := st.skip + {Full(name)})
  }

  /** One directory entry; a skipped file gets another chance to be removed. */
  function ScanOne(st: Store, w: World, name: Name, at: nat): Store
    requires name in st.files
  {
    match Judge(st, w, name, at)
    case Skip => if w(at).removable then st.(files := st.files - {name}) else st
    case Remove => RemoveWithSkip(st, name, w(at).removable)
    case Wait => st
    case Take(_) => st
  }

  function TakenFrom(st: Store, w: World, name: Name, at: nat): seq<Selected>
    requires name in st.files
  {
    match Judge(st, w, name, at)
    case Take(m) => [Selected(name, m, at)]
    case _ => []
  }

  /** The store and the selected messages after the first `n` names of a listing. */
  function Scan(st: Store, w: World, names: seq<Name>, n: nat): (r: (Store, seq<Selected>))
    requires Listed(st, names) && n <= |names|
    ensures forall i :: n <= i < |names| ==> names[i] in r.0.files
  {
    if n == 0 then (st, [])
    else
      var (st', taken) := Scan(st, w, names, n - 1);
      (ScanOne(st', w, names[n - 1], n - 1), taken + TakenFrom(st', w, names[n - 1], n - 1))
  }

  predicate Listed(st: Store, names: seq<Name>) {
    && (forall i :: 0 <= i < |names| ==> names[i] in st.files)
    && forall i, j :: 0 <= i < j < |names| ==> names[i] < names[j]
  }

  /** compactSkipList keeps what is in the set of known names. */
  function Compact(skip: set<Ref>, known: set<Ref>): set<Ref> {
    set r | r in skip && r in known
  }

  function BaseNames(names: seq<Name>): set<Ref> {
    set n | n in names :: Base(n)
  }

  lemma BaseNamesNext(names: seq<Name>, i: nat)
    requires i < |names|
    ensures BaseNames(names[..i + 1]) == BaseNames(names[..i]) + {Base(names[i])}
  {
    assert names[..i + 1] == names[..i] + [names[i]];
  }

  // ---------------------------------------------------------------------------------------------------------
  // Delivery (the handler of Spool.Run)

  /** NatsMessage accepts the selected message when it is sent. */
  predicate Admissible(w: World, s: Selected) {
    Converts(s.message, w(s.at).sendTime, w(s.at).signing)
  }

  /** The message after a failed attempt. */
  function Retried(m: Message, now: int, delay: nat): Message {
    m.(tries := m.tries + 1, nextTry := now + delay)
  }

  function IncrementTries(st: Store, w: World, s: Selected): Store {
    var m := Retried(s.message, w(s.at).sendTime, w(s.at).delay);
    if m.tries >= m.maxTries || !w(s.at).writable then RemoveWithSkip(st, s.name, w(s.at).removable)
    else st.(files := st.files[s.name := Stored(m)])
  }

  /** One message of the handler; `blocked` is the flag that a reliable message failed before. */
  function HandleOne(st: Store, w: World, s: Selected, blocked: bool): (Store, bool) {
    var discard := RemoveWithSkip(st, s.name, w(s.at).removable);
    if !Admissible(w, s) then
      (discard.(log := st.log + [Rejected(s.name)]), blocked)
    else if !s.message.reliable then
      (discard.(log := st.log + [Attempted(s.name, w(s.at).accepted)]), blocked)
    else if blocked then (st, blocked)
    else if w(s.at).accepted then (discard.(log := st.log + [Attempted(s.name, true)]), blocked)
    else (IncrementTries(st, w, s).(log := st.log + [Attempted(s.name, false)]), true)
  }

  /** The first `n` of the selected messages. */
  function HandleAll(st: Store, w: World, taken: seq<Selected>, n: nat): (Store, bool)
    requires n <= |taken|
  {
    if n == 0 then (st, false)
    else
      var (st', blocked) := HandleAll(st, w, taken, n - 1);
      HandleOne(st', w, taken[n - 1], blocked)
  }

  /** Scanning and compaction: what processDir does before it calls the handler. */
  function ScanAndCompact(st: Store, w: World): (Store, seq<Selected>) {
    var names := Sorted(st.files.Keys);
    var (scanned, taken) := Scan(st, w, names, |names|);
    (scanned.(skip := Compact(scanned.skip, BaseNames(names))), taken)
  }

  /** One poll. */
  function Poll(st: Store, w: World): Store {
    var (scanned, taken) := ScanAndCompact(st, w);
    HandleAll(scanned, w, taken, |taken|).0
  }

  // ---------------------------------------------------------------------------------------------------------
  // The spool object

  class DirectorySpool {
    const spoolMax: nat
    var files: Files
    var skipList: set<Ref>
    var log: seq<Event>

    constructor (spoolMax: nat)
      ensures this.spoolMax == spoolMax && Value() == Store(map[], {}, [])
    {
      this.spoolMax := spoolMax;
      files, skipList, log := map[], {}, [];
    }

    function Value(): Store
      reads this
    {
      Store(files, skipList, log)
    }

    method RemoveCompletedWithSkip(name: Name, removed: bool)
      modifies this
      ensures Value() == RemoveWithSkip(old(Value()), name, removed)
    {
      if removed {
        files := files - {name};
      } else {
        skipList := skipList + {Full(name)};
      }
    }

    method CompactSkipList(known: set<Ref>)
      modifies this`skipList
      ensures skipList == Compact(old(skipList), known)
    {
      var toRemove: set<Ref> := {};
      var todo := skipList;
      while todo != {}
        invariant todo <= skipList == old(skipList)
        invariant toRemove == set r | r in skipList - todo && r !in known
        decreases todo
      {
        var r :| r in todo;
        if r !in known {
          toRemove := toRemove + {r};
        }
        todo := todo - {r};
      }
      skipList := skipList - toRemove;
    }

    /** One directory entry: skipped, removed, left waiting, or selected. */
    method ScanEntry(w: World, name: Name, at: nat) returns (msgs: seq<Selected>)
      requires name in files
      modifies this
      ensures Value() == ScanOne(old(Value()), w, name, at) && msgs == TakenFrom(old(Value()), w, name, at)
    {
      msgs := [];
      if Full(name) in skipList {
        if w(at).removable {
          files := files - {name};
        }
        return;
      }
      if !w(at).readable || files[name].Corrupt? {
        RemoveCompletedWithSkip(name, w(at).removable);
        return;
      }
      var msg := files[name].message;
      if msg.tries >= msg.maxTries {
        RemoveCompletedWithSkip(name, w(at).removable);
        return;
      }
      if msg.tries > 0 && w(at).scanTime < msg.nextTry {
        return;
      }
      msgs := [Selected(name, msg, at)];
    }

    /** The scan of processDir over a listing. */
    method ScanEntries(w: World, entries: seq<Name>) returns (msgs: seq<Selected>, found: set<Ref>)
      requires Listed(Value(), entries)
      modifies this
      ensures (Value(), msgs) == Scan(old(Value()), w, entries, |entries|) && found == BaseNames(entries)
    {
      ghost var start := Value();
      found, msgs := {}, [];
      var i := 0;
      while i < |entries|
        invariant 0 <= i <= |entries|
        invariant (Value(), msgs) == Scan(start, w, entries, i)
        invariant found == BaseNames(entries[..i])
      {
        var more := ScanEntry(w, entries[i], i);
        msgs := msgs + more;
        found := found + {Base(entries[i])};
        BaseNamesNext(entries, i);
        i := i + 1;
      }
      assert entries[..i] == entries;
    }

    method ScanDir(w: World) returns (msgs: seq<Selected>)
      modifies this
      ensures (Value(), msgs) == ScanAndCompact(old(Value()), w)
    {
      var found;
      msgs, found := ScanEntries(w, Sorted(files.Keys));
      CompactSkipList(found);
    }

    method FailedAttempt(w: World, s: Selected)
      modifies this
      ensures Value() == IncrementTries(old(Value()), w, s)
      ensures s.message.tries + 1 < s.message.maxTries && w(s.at).writable ==>
        files == old(files)[s.name := Stored(s.message.(
          tries := s.message.tries + 1, nextTry := w(s.at).sendTime + w(s.at).delay))]
    {
      var m := s.message.(tries := s.message.tries + 1);
      m := m.(nextTry := w(s.at).sendTime + w(s.at).delay);
      if m.tries >= m.maxTries {
        RemoveCompletedWithSkip(s.name, w(s.at).removable);
        return;
      }
      if w(s.at).writable {
        files := files[s.name := Stored(m)];
      } else {
        RemoveCompletedWithSkip(s.name, w(s.at).removable);
      }
    }

    method Deliver(w: World, msgs: seq<Selected>)
      modifies this
      ensures Value() == HandleAll(old(Value()), w, msgs, |msgs|).0
    {
      hide Converts, ToNats;
      var skipReliable := false;
      var i := 0;
      while i < |msgs|
        invariant 0 <= i <= |msgs|
        invariant (Value(), skipReliable) == HandleAll(old(Value()), w, msgs, i)
      {
        var s := msgs[i];
        i := i + 1;
        var msg := ToNats(s.message, w(s.at).prefix, w(s.at).sendTime, w(s.at).signing);
        AcceptedExactly(s.message, w(s.at).prefix, w(s.at).sendTime, w(s.at).signing);
        if msg.Err? {
          RemoveCompletedWithSkip(s.name, w(s.at).removable);
          log := log + [Rejected(s.name)];
          continue;
        }
        if !s.message.reliable {
          RemoveCompletedWithSkip(s.name, w(s.at).removable);
          log := log + [Attempted(s.name, w(s.at).accepted)];
          continue;
        }
        if skipReliable {
          continue;
        }
        if w(s.at).accepted {
          RemoveCompletedWithSkip(s.name, w(s.at).removable);
          log := log + [Attempted(s.name, true)];
        } else {
          FailedAttempt(w, s);
          log := log + [Attempted(s.name, false)];
          skipReliable := true;
        }
      }
    }

    method PollOnce(w: World)
      modifies this
      ensures Value() == Poll(old(Value()), w)
    {
      var msgs := ScanDir(w);
      if |msgs| == 0 {
        return;
      }
      Deliver(w, msgs);
    }

    /**
     * One submitter: refused only when there are more than spoolMax entries; an unreadable directory counts as empty.
     * `written` says whether the temporary file could be created, written and renamed; if not, nothing is left behind.
     */
    method Submit(m: Message, now: int, listable: bool, written: bool, name: Name) returns (accepted: bool)
      requires name !in files
      modifies this
      ensures accepted <==> Validate(m, now).Ok? && (listable ==> |old(files)| <= spoolMax) && written
      ensures Value() == if accepted then old(Value()).(files := old(files)[name := Stored(m)]) else old(Value())
    {
      if Validate(m, now).Err? {
        return false;
      }
      var count := if listable then |Sorted(files.Keys)| else 0;
      if count > spoolMax || !written {
        return false;
      }
      files := files[name := Stored(m)];
      return true;
    }
  }
}
