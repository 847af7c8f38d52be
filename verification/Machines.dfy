// Autonomous agents (aagent/machine/machine.go, aagent/watchers/watcherdef.go): validation, the transition table, and
// transitions of one machine.
module Machines {
  import opened Options

  datatype Subscription = Subscription(machine: string, event: string)

  datatype Transition = Transition(
    name: string, from: seq<string>, destination: string, subscriptions: seq<Subscription>)

  /** What parsing the announce interval of a watcher yields. */
  datatype Announce = NotSet | Unparsable | Every(seconds: int)

  datatype Watcher = Watcher(
    name: string, stateMatch: seq<string>, failTransition: string, successTransition: string, announce: Announce)

  datatype Manifest = Manifest(
    name: string, version: string, initial: string, transitions: seq<Transition>, watchers: seq<Watcher>)

  datatype Error =
    | NoName | NoVersion | NoInitialState | NoTransitions | NoWatchers | UnknownInterval | SmallInterval
    | InvalidState(state: string) | InvalidTransition(transition: string)

  // ---------------------------------------------------------------------------------------------------------
  // What a manifest declares

  /** The initial state, and every state a transition mentions. */
  ghost predicate IsState(m: Manifest, s: string) {
    s == m.initial || exists i :: 0 <= i < |m.transitions| && Mentions(m.transitions[i], s)
  }

  predicate Mentions(t: Transition, s: string) {
    s == t.destination || s in t.from
  }

  ghost predicate IsTransition(m: Manifest, name: string) {
    exists i :: 0 <= i < |m.transitions| && m.transitions[i].name == name
  }

  predicate Declares(t: Transition, event: string, from: string) {
    t.name == event && from in t.from
  }

  /** Where an event leads from a state by the first `n` transitions: the last one that declares it decides. */
  function Destination(ts: seq<Transition>, n: nat, event: string, from: string): Option<string>
    requires n <= |ts|
  {
    if n == 0 then None
    else if Declares(ts[n - 1], event, from) then Some(ts[n - 1].destination)
    else Destination(ts, n - 1, event, from)
  }

  function Target(m: Manifest, event: string, from: string): Option<string> {
    Destination(m.transitions, |m.transitions|, event, from)
  }

  /** The i'th transition is the last one to declare the event in that state. */
  ghost predicate Decides(m: Manifest, event: string, from: string, i: nat) {
    && i < |m.transitions| && m.transitions[i].name == event && from in m.transitions[i].from
    && forall j :: i < j < |m.transitions| ==> !(m.transitions[j].name == event && from in m.transitions[j].from)
  }

  lemma {:induction false} DestinationDecides(ts: seq<Transition>, n: nat, event: string, from: string) returns (i: nat)
    requires n <= |ts| && Destination(ts, n, event, from).Some?
    ensures i < n && Declares(ts[i], event, from) && Destination(ts, n, event, from) == Some(ts[i].destination)
    ensures forall j :: i < j < n ==> !Declares(ts[j], event, from)
  {
    if Declares(ts[n - 1], event, from) {
      i := n - 1;
    } else {
      i := DestinationDecides(ts, n - 1, event, from);
    }
  }

  lemma {:induction false} DeclaredHasDestination(ts: seq<Transition>, n: nat, event: string, from: string, i: nat)
    requires i < n <= |ts| && Declares(ts[i], event, from)
    ensures Destination(ts, n, event, from).Some?
  {
    if !Declares(ts[n - 1], event, from) {
      DeclaredHasDestination(ts, n - 1, event, from, i);
    }
  }

  /**
   * An event leads to a state exactly if a transition declares it there, and the last such transition says where to.
   */
  lemma TargetExactly(m: Manifest, event: string, from: string, to: string)
    ensures Target(m, event, from) == Some(to) <==>
            exists i: nat :: Decides(m, event, from, i) && m.transitions[i].destination == to
  {
    if Target(m, event, from).Some? {
      var i := DestinationDecides(m.transitions, |m.transitions|, event, from);
      assert Decides(m, event, from, i);
    }
    if i: nat :| Decides(m, event, from, i) && m.transitions[i].destination == to {
      DeclaredHasDestination(m.transitions, |m.transitions|, event, from, i);
    }
  }

  /** Every state an event leads to is a known state. */
  lemma TargetIsState(m: Manifest, event: string, from: string)
    requires Target(m, event, from).Some?
    ensures IsState(m, Target(m, event, from).value) && IsTransition(m, event)
  {
    var i := DestinationDecides(m.transitions, |m.transitions|, event, from);
    assert Mentions(m.transitions[i], m.transitions[i].destination);
  }

  // ---------------------------------------------------------------------------------------------------------
  // Transitions

  /** One performed transition; `notified` says that listeners were told. */
  datatype Change = Change(event: string, from: string, to: string, notified: bool)

  /** The state of a machine, its rate limiting counter, and the transitions it performed. */
  datatype Core = Core(state: string, counter: nat, history: seq<Change>)

  /**
   * How firing an event fares: whether the rate limiting sleep completes, and whether self transitions are announced.
   */
  datatype Luck = Luck(sleeps: bool, announcesSelf: bool)

  predicate Performs(m: Manifest, c: Core, event: string, luck: Luck) {
    event != "" && Target(m, event, c.state).Some? && (c.counter > 0 ==> luck.sleeps)
  }

  /** The rate limit counter starts anew. */
  function Rested(c: Core): Core {
    c.(counter := 0)
  }

  function Fired(m: Manifest, c: Core, event: string, luck: Luck): Core {
    if !Performs(m, c, event, luck) then c
    else
      var to := Target(m, event, c.state).value;
      Core(to, c.counter + 1, c.history + [Change(event, c.state, to, to != c.state || luck.announcesSelf)])
  }

  /**
   * Firing an event performs a transition exactly if the last one to declare it in the present state says where to, and
   * the rate limit, if it applies, is slept through; then all is recorded, and otherwise nothing changes.
   */
  lemma FiredExactly(m: Manifest, c: Core, event: string, luck: Luck)
    ensures var c' := Fired(m, c, event, luck);
      (exists i: nat ::
         && Decides(m, event, c.state, i) && event != "" && (c.counter == 0 || luck.sleeps)
         && c'.state == m.transitions[i].destination && c'.counter == c.counter + 1
         && c'.history == c.history + [Change(event, c.state, c'.state, c'.state != c.state || luck.announcesSelf)])
      || (c' == c && (event == "" || (c.counter > 0 && !luck.sleeps) ||
            forall i: nat :: !Decides(m, event, c.state, i)))
  {
    if Performs(m, c, event, luck) {
      TargetExactly(m, event, c.state, Target(m, event, c.state).value);
    } else if Target(m, event, c.state).None? {
      forall i: nat ensures !Decides(m, event, c.state, i) {
        if Decides(m, event, c.state, i) {
          TargetExactly(m, event, c.state, m.transitions[i].destination);
        }
      }
    }
  }

  /** After a reset the first transition needs no sleep, and the one after that does. */
  lemma RestNeedsNoSleep(m: Manifest, c: Core, event: string, luck: Luck)
    ensures Fired(m, Rested(c), event, luck) == Fired(m, Rested(c), event, luck.(sleeps := true))
    ensures Rested(c).state == c.state && Rested(c).history == c.history
    ensures var next := Fired(m, Rested(c), event, luck);
      next != Rested(c) && !luck.sleeps ==> forall e :: Fired(m, next, e, luck) == next
  {
  }

  /** The transitions to fire after a foreign event, one for each matching subscription among the first `n`. */
  function MatchesOf(t: Transition, n: nat, machine: string, event: string): seq<string>
    requires n <= |t.subscriptions|
  {
    if n == 0 then []
    else
      var hit := if t.subscriptions[n - 1] == Subscription(machine, event) then [t.name] else [];
      MatchesOf(t, n - 1, machine, event) + hit
  }

  function Triggers(ts: seq<Transition>, n: nat, machine: string, event: string): seq<string>
    requires n <= |ts|
  {
    if n == 0 then []
    else Triggers(ts, n - 1, machine, event) + MatchesOf(ts[n - 1], |ts[n - 1].subscriptions|, machine, event)
  }

  /** A transition of that name subscribes to the foreign event. */
  ghost predicate Subscribes(m: Manifest, name: string, machine: string, event: string) {
    exists i :: 0 <= i < |m.transitions| && m.transitions[i].name == name &&
                Subscription(machine, event) in m.transitions[i].subscriptions
  }

  lemma {:induction false} MatchesAreSubscribed(t: Transition, n: nat, machine: string, event: string, e: string)
    requires n <= |t.subscriptions|
    ensures e in MatchesOf(t, n, machine, event) <==>
            e == t.name && Subscription(machine, event) in t.subscriptions[..n]
  {
    if n > 0 {
      MatchesAreSubscribed(t, n - 1, machine, event, e);
      assert t.subscriptions[..n] == t.subscriptions[..n - 1] + [t.subscriptions[n - 1]];
    }
  }

  /** A foreign event triggers exactly the transitions that subscribe to it. */
  lemma {:induction false} TriggersExactly(ts: seq<Transition>, n: nat, machine: string, event: string, e: string)
    requires n <= |ts|
    ensures e in Triggers(ts, n, machine, event) <==>
            exists i :: 0 <= i < n && ts[i].name == e && Subscription(machine, event) in ts[i].subscriptions
  {
    if n > 0 {
      TriggersExactly(ts, n - 1, machine, event, e);
      MatchesAreSubscribed(ts[n - 1], |ts[n - 1].subscriptions|, machine, event, e);
      assert ts[n - 1].subscriptions[..|ts[n - 1].subscriptions|] == ts[n - 1].subscriptions;
    }
  }

  /** The number of subscriptions of a transition to the foreign event is the number of its triggers. */
  lemma {:induction false} MatchesAreCounted(t: Transition, n: nat, machine: string, event: string)
    requires n <= |t.subscriptions|
    ensures |MatchesOf(t, n, machine, event)| == multiset(t.subscriptions[..n])[Subscription(machine, event)]
    ensures forall k :: 0 <= k < |MatchesOf(t, n, machine, event)| ==> MatchesOf(t, n, machine, event)[k] == t.name
  {
    if n > 0 {
      MatchesAreCounted(t, n - 1, machine, event);
      assert t.subscriptions[..n] == t.subscriptions[..n - 1] + [t.subscriptions[n - 1]];
    }
  }

  /** Each origin names the transition of its trigger, in the order of declaration. */
  ghost predicate Originate(ts: seq<Transition>, n: nat, triggers: seq<string>, origin: seq<nat>)
    requires n <= |ts|
  {
    && |origin| == |triggers|
    && (forall k :: 0 <= k < |origin| ==> origin[k] < n && triggers[k] == ts[origin[k]].name)
    && forall j, k :: 0 <= j < k < |origin| ==> origin[j] <= origin[k]
  }

  /** Each transition is an origin as often as it subscribes. */
  ghost predicate AreCounted(ts: seq<Transition>, n: nat, machine: string, event: string, origin: seq<nat>)
    requires n <= |ts|
  {
    forall i :: 0 <= i < n ==> multiset(origin)[i] == multiset(ts[i].subscriptions)[Subscription(machine, event)]
  }

  /**
   * Transitions are triggered in the order of their declaration, each as often as it subscribes: `origin` tells which
   * transition each trigger is of.
   */
  lemma {:induction false} TriggersAreInOrder(ts: seq<Transition>, n: nat, machine: string, event: string)
    returns (origin: seq<nat>)
    requires n <= |ts|
    ensures Originate(ts, n, Triggers(ts, n, machine, event), origin) && AreCounted(ts, n, machine, event, origin)
  {
    hide AreCounted, Originate, MatchesOf;
    origin := [];
    if n == 0 {
      NoneOriginate(ts, machine, event);
    } else {
      var t := ts[n - 1];
      var more := MatchesOf(t, |t.subscriptions|, machine, event);
      var before := TriggersAreInOrder(ts, n - 1, machine, event);
      MatchesAreCounted(t, |t.subscriptions|, machine, event);
      assert t.subscriptions[..|t.subscriptions|] == t.subscriptions;
      var own: seq<nat> := seq(|more|, _ => n - 1);
      origin := before + own;
      OrderGoesOn(ts, n, Triggers(ts, n - 1, machine, event), more, before, own);
      CountsGoOn(ts, n, machine, event, before, own);
    }
  }

  lemma NoneOriginate(ts: seq<Transition>, machine: string, event: string)
    ensures Originate(ts, 0, [], []) && AreCounted(ts, 0, machine, event, [])
  {
  }

  lemma OrderGoesOn(
    ts: seq<Transition>, n: nat, triggers: seq<string>, more: seq<string>, before: seq<nat>, own: seq<nat>)
    requires 0 < n <= |ts| && Originate(ts, n - 1, triggers, before) && |own| == |more|
    requires forall k :: 0 <= k < |own| ==> own[k] == n - 1 && more[k] == ts[n - 1].name
    ensures Originate(ts, n, triggers + more, before + own)
    ensures forall k :: 0 <= k < |before| ==> before[k] < n - 1
  {
  }

  lemma CountsGoOn(
    ts: seq<Transition>, n: nat, machine: string, event: string, before: seq<nat>, own: seq<nat>)
    requires 0 < n <= |ts| && AreCounted(ts, n - 1, machine, event, before)
    requires forall k :: 0 <= k < |before| ==> before[k] < n - 1
    requires forall k :: 0 <= k < |own| ==> own[k] == n - 1
    requires |own| == multiset(ts[n - 1].subscriptions)[Subscription(machine, event)]
    ensures AreCounted(ts, n, machine, event, before + own)
  {
    Repeated(|own|, n - 1, own);
    NeverAt(before, n - 1);
    assert multiset(before + own) == multiset(before) + multiset(own);
  }

  lemma {:induction false} Repeated(count: nat, x: nat, s: seq<nat>)
    requires |s| == count && forall i :: 0 <= i < count ==> s[i] == x
    ensures multiset(s)[x] == count && forall y :: y != x ==> multiset(s)[y] == 0
  {
    if count > 0 {
      Repeated(count - 1, x, s[1..]);
      assert s == [x] + s[1..];
    }
  }

  lemma NeverAt(s: seq<nat>, bound: nat)
    requires forall i :: 0 <= i < |s| ==> s[i] < bound
    ensures forall y :: y >= bound ==> multiset(s)[y] == 0
  {
    assert forall y :: y in multiset(s) ==> y in s;
  }

  /** The first `n` of a sequence of events fired one after the other. */
  function FiredAll(m: Manifest, c: Core, events: seq<string>, n: nat, luck: nat -> Luck): Core
    requires n <= |events|
  {
    if n == 0 then c else Fired(m, FiredAll(m, c, events, n - 1, luck), events[n - 1], luck(n - 1))
  }

  /** What happens to a prefix does not depend on what follows. */
  lemma {:induction false} FiredPrefix(m: Manifest, c: Core, events: seq<string>, more: seq<string>, n: nat,
      luck: nat -> Luck)
    requires n <= |events|
    ensures FiredAll(m, c, events + more, n, luck) == FiredAll(m, c, events, n, luck)
  {
    if n > 0 {
      FiredPrefix(m, c, events, more, n - 1, luck);
    }
  }

  // ---------------------------------------------------------------------------------------------------------
  // Watchers

  ghost predicate GoodAnnounce(a: Announce) {
    a.NotSet? || (a.Every? && a.seconds >= 60)
  }

  ghost predicate GoodWatcher(m: Manifest, w: Watcher) {
    && GoodAnnounce(w.announce)
    && (forall s :: s in w.stateMatch ==> IsState(m, s))
    && (w.failTransition != "" ==> IsTransition(m, w.failTransition))
    && (w.successTransition != "" ==> IsTransition(m, w.successTransition))
  }

  /** What Validate accepts. */
  ghost predicate WellFormed(m: Manifest) {
    && m.name != "" && m.version != "" && m.initial != "" && m.transitions != [] && m.watchers != []
    && forall w :: w in m.watchers ==> GoodWatcher(m, w)
  }

  /** A state is known if it is the initial one or some transition comes from it or leads to it. */
  ghost predicate IsKnown(m: Manifest, s: string) {
    s == m.initial || exists t :: t in m.transitions && (t.destination == s || s in t.from)
  }

  /** A transition that a watcher names, if it names one, is declared. */
  ghost predicate IsNamed(m: Manifest, name: string) {
    name == "" || exists t :: t in m.transitions && t.name == name
  }

  /**
   * A manifest is well-formed exactly if nothing is missing and each watcher looks for known states, names declared
   * transitions or none, and announces itself at most once a minute or not at all.
   */
  lemma WellFormedExactly(m: Manifest)
    ensures WellFormed(m) <==>
      && m.name != "" && m.version != "" && m.initial != "" && |m.transitions| > 0 && |m.watchers| > 0
      && forall w :: w in m.watchers ==>
           && (forall s :: s in w.stateMatch ==> IsKnown(m, s))
           && IsNamed(m, w.failTransition) && IsNamed(m, w.successTransition)
           && w.announce != Unparsable && (w.announce.Every? ==> w.announce.seconds > 59)
  {
    forall s ensures IsState(m, s) <==> IsKnown(m, s) {
      if t :| t in m.transitions && (t.destination == s || s in t.from) {
        var i :| 0 <= i < |m.transitions| && m.transitions[i] == t;
        assert Mentions(m.transitions[i], s);
      }
    }
    forall name ensures name == "" || IsTransition(m, name) <==> IsNamed(m, name) {
      if t :| t in m.transitions && t.name == name {
        var i :| 0 <= i < |m.transitions| && m.transitions[i] == t;
      }
    }
  }

  method ParseAnnounceInterval(w: Watcher) returns (err: Option<Error>)
    ensures err.None? <==> GoodAnnounce(w.announce)
  {
    match w.announce
    case NotSet => err := None;
    case Unparsable => err := Some(UnknownInterval);
    case Every(seconds) => err := if seconds < 60 then Some(SmallInterval) else None;
  }

  method Has(valid: seq<string>, s: string) returns (found: bool)
    ensures found <==> s in valid
  {
    for i := 0 to |valid|
      invariant s !in valid[..i]
    {
      if valid[i] == s {
        return true;
      }
      assert valid[..i + 1] == valid[..i] + [valid[i]];
    }
    assert valid[..|valid|] == valid;
    return false;
  }

  method ValidateStates(w: Watcher, valid: seq<string>) returns (err: Option<Error>)
    ensures err.None? <==> forall s :: s in w.stateMatch ==> s in valid
    ensures err.Some? ==> err.value.InvalidState? && err.value.state in w.stateMatch && err.value.state !in valid
  {
    for i := 0 to |w.stateMatch|
      invariant forall j :: 0 <= j < i ==> w.stateMatch[j] in valid
    {
      var ok := Has(valid, w.stateMatch[i]);
      if !ok {
        return Some(InvalidState(w.stateMatch[i]));
      }
    }
    return None;
  }

  method ValidateTransitions(w: Watcher, valid: seq<string>) returns (err: Option<Error>)
    ensures err.None? <==> forall t :: t in [w.failTransition, w.successTransition] && t != "" ==> t in valid
    ensures err.Some? ==> err.value.InvalidTransition? && err.value.transition !in valid &&
                          err.value.transition in [w.failTransition, w.successTransition]
  {
    assert [w.failTransition, w.successTransition][0] == w.failTransition;
    assert [w.failTransition, w.successTransition][1] == w.successTransition;
    var ok := Has(valid, w.failTransition);
    if w.failTransition != "" && !ok {
      return Some(InvalidTransition(w.failTransition));
    }
    ok := Has(valid, w.successTransition);
    if w.successTransition != "" && !ok {
      return Some(InvalidTransition(w.successTransition));
    }
    return None;
  }

  // ---------------------------------------------------------------------------------------------------------
  // The machine object

  type Table = map<(string, string), string>

  function Lookup(table: Table, event: string, from: string): Option<string> {
    if (event, from) in table then Some(table[(event, from)]) else None
  }

  /** The table says what the first `n` transitions say. */
  ghost predicate Agrees(table: Table, ts: seq<Transition>, n: nat)
    requires n <= |ts|
  {
    forall event, from :: Lookup(table, event, from) == Destination(ts, n, event, from)
  }

  /** The table extends another one by the first `n` sources of a transition. */
  ghost predicate Extends(table: Table, before: Table, t: Transition, n: nat)
    requires n <= |t.from|
  {
    forall event, from :: Lookup(table, event, from) == Extended(before, t, n, event, from)
  }

  function Extended(before: Table, t: Transition, n: nat, event: string, from: string): Option<string>
    requires n <= |t.from|
  {
    if event == t.name && from in t.from[..n] then Some(t.destination) else Lookup(before, event, from)
  }

  lemma ExtendsStep(table: Table, before: Table, t: Transition, n: nat)
    requires n < |t.from| && Extends(table, before, t, n)
    ensures Extends(table[(t.name, t.from[n]) := t.destination], before, t, n + 1)
  {
    var table' := table[(t.name, t.from[n]) := t.destination];
    forall event, from ensures Lookup(table', event, from) == Extended(before, t, n + 1, event, from) {
      assert t.from[..n + 1] == t.from[..n] + [t.from[n]];
      assert Lookup(table, event, from) == Extended(before, t, n, event, from);
    }
  }

  lemma AgreesStep(table: Table, before: Table, ts: seq<Transition>, n: nat)
    requires n < |ts| && Agrees(before, ts, n) && Extends(table, before, ts[n], |ts[n].from|)
    ensures Agrees(table, ts, n + 1)
  {
    forall event, from ensures Lookup(table, event, from) == Destination(ts, n + 1, event, from) {
      assert ts[n].from[..|ts[n].from|] == ts[n].from;
      assert Lookup(table, event, from) == Extended(before, ts[n], |ts[n].from|, event, from);
      assert Lookup(before, event, from) == Destination(ts, n, event, from);
    }
  }

  class Machine {
    const manifest: Manifest
    var knownStates: set<string>
    var table: Table
    var state: string
    var transitionCounter: nat
    var history: seq<Change>

    constructor (manifest: Manifest)
      ensures this.manifest == manifest && Cached()
      ensures knownStates == {} && table == map[] && Value() == Core(manifest.initial, 0, [])
    {
      this.manifest := manifest;
      knownStates, table, state, transitionCounter, history := {}, map[], manifest.initial, 0, [];
    }

    /** The cache of known states is either not filled or right. */
    ghost predicate Cached()
      reads this
    {
      knownStates != {} ==> forall s :: s in knownStates <==> IsState(manifest, s)
    }

    /** The state machine has been built. */
    ghost predicate Built()
      reads this
    {
      Agrees(table, manifest.transitions, |manifest.transitions|)
    }

    function Value(): Core
      reads this
    {
      Core(state, transitionCounter, history)
    }

    /** Every state the manifest mentions, each once. */
    method KnownStates() returns (states: seq<string>)
      requires Cached()
      modifies this`knownStates
      ensures Cached() && knownStates != {}
      ensures forall s :: s in states <==> IsState(manifest, s)
      ensures forall i, j :: 0 <= i < j < |states| ==> states[i] != states[j]
    {
      if knownStates == {} {
        var found := {manifest.initial};
        for i := 0 to |manifest.transitions|
          invariant manifest.initial in found
          invariant forall s :: s in found <==>
            s == manifest.initial || exists k :: 0 <= k < i && Mentions(manifest.transitions[k], s)
        {
          var t := manifest.transitions[i];
          var before := found;
          found := found + {t.destination};
          for j := 0 to |t.from|
            invariant forall s :: s in found <==> s in before || s == t.destination || s in t.from[..j]
          {
            found := found + {t.from[j]};
            assert t.from[..j + 1] == t.from[..j] + [t.from[j]];
          }
          assert t.from[..|t.from|] == t.from;
          assert forall s :: s in found <==> s in before || Mentions(t, s);
        }
        knownStates := found;
      }
      states := [];
      var todo := knownStates;
      while todo != {}
        invariant todo <= knownStates
        invariant forall s :: s in states <==> s in knownStates && s !in todo
        invariant forall i, j :: 0 <= i < j < |states| ==> states[i] != states[j]
        decreases todo
      {
        var s :| s in todo;
        states := states + [s];
        todo := todo - {s};
      }
    }

    method KnownTransitions() returns (transitions: seq<string>)
      ensures |transitions| == |manifest.transitions|
      ensures forall i :: 0 <= i < |transitions| ==> transitions[i] == manifest.transitions[i].name
      ensures forall name :: name in transitions <==> IsTransition(manifest, name)
    {
      transitions := [];
      for i := 0 to |manifest.transitions|
        invariant |transitions| == i
        invariant forall k :: 0 <= k < i ==> transitions[k] == manifest.transitions[k].name
      {
        transitions := transitions + [manifest.transitions[i].name];
      }
      forall name | IsTransition(manifest, name) ensures name in transitions {
        var i :| 0 <= i < |manifest.transitions| && manifest.transitions[i].name == name;
        assert transitions[i] == name;
      }
    }

    method ValidateWatcher(w: Watcher) returns (err: Option<Error>)
      requires Cached()
      modifies this`knownStates
      ensures Cached() && (err.None? <==> GoodWatcher(manifest, w))
    {
      err := ParseAnnounceInterval(w);
      if err.Some? {
        return;
      }
      var states := KnownStates();
      err := ValidateStates(w, states);
      if err.Some? {
        return;
      }
      var transitions := KnownTransitions();
      err := ValidateTransitions(w, transitions);
      assert [w.failTransition, w.successTransition][0] == w.failTransition;
      assert [w.failTransition, w.successTransition][1] == w.successTransition;
    }

    /** Accepts exactly the well-formed manifests. */
    method Validate() returns (err: Option<Error>)
      requires Cached()
      modifies this`knownStates
      ensures Cached() && (err.None? <==> WellFormed(manifest))
    {
      if manifest.name == "" {
        return Some(NoName);
      }
      if manifest.version == "" {
        return Some(NoVersion);
      }
      if manifest.initial == "" {
        return Some(NoInitialState);
      }
      if |manifest.transitions| == 0 {
        return Some(NoTransitions);
      }
      if |manifest.watchers| == 0 {
        return Some(NoWatchers);
      }
      for i := 0 to |manifest.watchers|
        invariant Cached() && forall k :: 0 <= k < i ==> GoodWatcher(manifest, manifest.watchers[k])
      {
        err := ValidateWatcher(manifest.watchers[i]);
        if err.Some? {
          return;
        }
      }
      return None;
    }

    /** Fills the table transition by transition; a later entry overrides an earlier one. */
    method BuildFSM() returns (err: Option<Error>)
      modifies this`table, this`state
      ensures err.None? <==> manifest.transitions != []
      ensures err.None? ==> Built() && state == manifest.initial
      ensures err.Some? ==> table == old(table) && state == old(state)
    {
      if |manifest.transitions| == 0 {
        return Some(NoTransitions);
      }
      var built: Table := map[];
      for i := 0 to |manifest.transitions|
        invariant Agrees(built, manifest.transitions, i)
      {
        var t := manifest.transitions[i];
        ghost var before := built;
        for j := 0 to |t.from|
          invariant Extends(built, before, t, j)
        {
          ExtendsStep(built, before, t, j);
          built := built[(t.name, t.from[j]) := t.destination];
        }
        AgreesStep(built, before, manifest.transitions, i);
      }
      table, state := built, manifest.initial;
      return None;
    }

    /** Validates, then builds; only a well-formed manifest gets a running state machine. */
    method Setup() returns (err: Option<Error>)
      requires Cached()
      modifies this`knownStates, this`table, this`state
      ensures Cached() && (err.None? <==> WellFormed(manifest))
      ensures err.None? ==> Built() && state == manifest.initial
    {
      err := Validate();
      if err.Some? {
        return;
      }
      err := BuildFSM();
    }

    predicate Can(t: string)
      reads this
    {
      Lookup(table, t, state).Some?
    }

    /** The rate limit: only the first transition after a reset goes without a sleep. */
    method BackoffTransition(sleeps: bool) returns (ok: bool)
      modifies this`transitionCounter
      ensures ok <==> (old(transitionCounter) > 0 ==> sleeps)
      ensures transitionCounter == if ok then old(transitionCounter) + 1 else old(transitionCounter)
    {
      if transitionCounter > 0 {
        if !sleeps {
          return false;
        }
      }
      transitionCounter := transitionCounter + 1;
      return true;
    }

    method BackoffFunc()
      modifies this`transitionCounter
      ensures Value() == Rested(old(Value()))
    {
      transitionCounter := 0;
    }

    method Transition(t: string, luck: Luck) returns (ok: bool)
      requires Built()
      modifies this`state, this`transitionCounter, this`history
      ensures Value() == Fired(manifest, old(Value()), t, luck)
      ensures !ok <==> t != "" && Target(manifest, t, old(state)).Some? && old(transitionCounter) > 0 && !luck.sleeps
    {
      ok := true;
      if t == "" {
        return;
      }
      if Can(t) {
        ok := BackoffTransition(luck.sleeps);
        if !ok {
          return;
        }
        var from, to := state, Lookup(table, t, state).value;
        state := to;
        history := history + [Change(t, from, to, to != from || luck.announcesSelf)];
      }
    }

    /** Fires every transition that subscribes to the event of another machine, in declaration order. */
    method ExternalEventNotify(machine: string, event: string, luck: nat -> Luck)
      requires Built()
      modifies this`state, this`transitionCounter, this`history
      ensures var triggers := Triggers(manifest.transitions, |manifest.transitions|, machine, event);
              Value() == FiredAll(manifest, old(Value()), triggers, |triggers|, luck)
    {
      hide Fired, Target;
      var fired := 0;
      ghost var done: seq<string> := [];
      for i := 0 to |manifest.transitions|
        invariant Built() && fired == |done| && done == Triggers(manifest.transitions, i, machine, event)
        invariant Value() == FiredAll(manifest, old(Value()), done, |done|, luck)
      {
        var t := manifest.transitions[i];
        ghost var before := done;
        for j := 0 to |t.subscriptions|
          invariant Built() && fired == |done| && done == before + MatchesOf(t, j, machine, event)
          invariant Value() == FiredAll(manifest, old(Value()), done, |done|, luck)
        {
          if t.subscriptions[j].machine == machine && t.subscriptions[j].event == event {
            FiredPrefix(manifest, old(Value()), done, [t.name], |done|, luck);
            var _ := Transition(t.name, luck(fired));
            done := done + [t.name];
            fired := fired + 1;
          }
        }
      }
    }
  }
}
