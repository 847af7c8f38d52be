// Networks of autonomous agents that trigger each other (aagent/aagent.go:149-155, aagent/machine/machine.go:257-271).
module MachineNetwork {
  import opened Machines
  import opened Options
  import Runs

  /** What listeners are told: the machine that changed, by name, and its change. */
  datatype Notice = Notice(machine: string, change: Change)

  /** A goroutine that serves a notice for one machine, with the transitions it has still to fire. */
  datatype Task = Task(machine: nat, notice: Notice, remaining: seq<string>)

  datatype State = State(cores: seq<Core>, tasks: seq<Task>)

  /**
   * `Outside` fires any event at all: watchers and remote callers name it. `Resume` lets one goroutine fire its next
   * transition. `Quiet` resets a rate limit counter.
   */
  datatype Event = Outside(machine: nat, event: string, luck: Luck) | Resume(task: nat, luck: Luck)
    | Quiet(machine: nat)

  type Network = seq<Manifest>

  /** One goroutine for each of the first `n` machines, the changed one included. */
  function Broadcast(net: Network, n: nat, notice: Notice): seq<Task>
    requires n <= |net|
  {
    if n == 0 then []
    else
      var ts := net[n - 1].transitions;
      Broadcast(net, n - 1, notice) + [Task(n - 1, notice, Triggers(ts, |ts|, notice.machine, notice.change.event))]
  }

  /** The goroutines started by a transition from one core to the next. */
  function Announced(net: Network, m: nat, before: Core, after: Core): seq<Task>
    requires m < |net|
  {
    if after.history == before.history || after.history == [] then []
    else
      var change := after.history[|after.history| - 1];
      if change.notified then Broadcast(net, |net|, Notice(net[m].name, change)) else []
  }

  function FireAt(net: Network, s: State, m: nat, event: string, luck: Luck): State
    requires m < |net| == |s.cores|
  {
    var core := Fired(net[m], s.cores[m], event, luck);
    State(s.cores[m := core], s.tasks + Announced(net, m, s.cores[m], core))
  }

  ghost predicate Init(net: Network, s: State) {
    && |s.cores| == |net| && s.tasks == []
    && forall m :: 0 <= m < |net| ==> s.cores[m] == Core(net[m].initial, 0, [])
  }

  ghost predicate Next(net: Network, s: State, e: Event, s': State) {
    && |s.cores| == |net|
    && match e
       case Outside(m, event, luck) =>
         m < |net| && s' == FireAt(net, s, m, event, luck)
       case Resume(k, luck) =>
         && k < |s.tasks| && s.tasks[k].remaining != [] && s.tasks[k].machine < |net|
         && s' == FireAt(net, Advance(s, k), s.tasks[k].machine, s.tasks[k].remaining[0], luck)
       case Quiet(m) =>
         m < |net| && s' == s.(cores := s.cores[m := Rested(s.cores[m])])
  }

  function Advance(s: State, k: nat): State
    requires k < |s.tasks| && s.tasks[k].remaining != []
  {
    s.(tasks := s.tasks[k := s.tasks[k].(remaining := s.tasks[k].remaining[1..])])
  }

  ghost predicate IsRun(net: Network, states: seq<State>, events: seq<Event>) {
    Runs.IsRun(s => Init(net, s), (s, e, s') => Next(net, s, e, s'), states, events)
  }

  // ---------------------------------------------------------------------------------------------------------
  // Every machine follows its own transitions

  /** The state before the i'th change. */
  function StateBefore(m: Manifest, history: seq<Change>, i: nat): string
    requires i <= |history|
  {
    if i == 0 then m.initial else history[i - 1].to
  }

  /** A change by the deciding declared transition, from the state the machine was in. */
  ghost predicate Legal(m: Manifest, history: seq<Change>, i: nat)
    requires i < |history|
  {
    var c := history[i];
    c.from == StateBefore(m, history, i) && c.event != "" && Target(m, c.event, c.from) == Some(c.to)
  }

  /** The history is a path of the manifest from the initial state to the present one. */
  ghost predicate Follows(m: Manifest, c: Core) {
    && c.state == StateBefore(m, c.history, |c.history|)
    && forall i :: 0 <= i < |c.history| ==> Legal(m, c.history, i)
  }

  lemma FiredFollows(m: Manifest, c: Core, event: string, luck: Luck)
    requires Follows(m, c)
    ensures Follows(m, Fired(m, c, event, luck))
  {
    var c' := Fired(m, c, event, luck);
    forall i | 0 <= i < |c'.history| ensures Legal(m, c'.history, i) {
      if i < |c.history| {
        assert Legal(m, c.history, i);
      }
    }
  }

  lemma {:induction false} FollowsStaysInside(m: Manifest, c: Core, i: nat)
    requires Follows(m, c) && i <= |c.history|
    ensures IsState(m, StateBefore(m, c.history, i))
  {
    if i > 0 {
      assert Legal(m, c.history, i - 1);
      TargetIsState(m, c.history[i - 1].event, c.history[i - 1].from);
    }
  }

  // ---------------------------------------------------------------------------------------------------------
  // Every trigger has a cause

  /** The notice tells of a change that a machine of that name has performed and announced. */
  ghost predicate Happened(net: Network, cores: seq<Core>, n: Notice)
    requires |cores| == |net|
  {
    n.change.notified && exists b :: 0 <= b < |net| && net[b].name == n.machine && n.change in cores[b].history
  }

  /** What a goroutine has still to fire are transitions of its machine that subscribe to the notice. */
  ghost predicate Subscribed(net: Network, t: Task) {
    && t.machine < |net|
    && forall e :: e in t.remaining ==> Subscribes(net[t.machine], e, t.notice.machine, t.notice.change.event)
  }

  ghost predicate Caused(net: Network, cores: seq<Core>, tasks: seq<Task>)
    requires |cores| == |net|
  {
    forall k :: 0 <= k < |tasks| ==> Happened(net, cores, tasks[k].notice) && Subscribed(net, tasks[k])
  }

  ghost predicate Lawful(net: Network, s: State) {
    && |s.cores| == |net|
    && (forall m :: 0 <= m < |net| ==> Follows(net[m], s.cores[m]))
    && Caused(net, s.cores, s.tasks)
  }

  lemma {:induction false} BroadcastIsCaused(net: Network, cores: seq<Core>, n: nat, notice: Notice)
    requires n <= |net| == |cores| && Happened(net, cores, notice)
    ensures Caused(net, cores, Broadcast(net, n, notice))
  {
    if n > 0 {
      BroadcastIsCaused(net, cores, n - 1, notice);
      var ts := net[n - 1].transitions;
      forall e | e in Triggers(ts, |ts|, notice.machine, notice.change.event)
        ensures Subscribes(net[n - 1], e, notice.machine, notice.change.event)
      {
        TriggersExactly(ts, |ts|, notice.machine, notice.change.event, e);
      }
    }
  }

  /** Histories only grow, so what has happened stays so. */
  lemma HappenedStays(net: Network, cores: seq<Core>, m: nat, core: Core, n: Notice)
    requires m < |net| == |cores| && Happened(net, cores, n) && cores[m].history <= core.history
    ensures Happened(net, cores[m := core], n)
  {
    var b :| 0 <= b < |net| && net[b].name == n.machine && n.change in cores[b].history;
    assert n.change in cores[m := core][b].history;
  }

  lemma CausedStays(net: Network, cores: seq<Core>, m: nat, core: Core, tasks: seq<Task>)
    requires m < |net| == |cores| && Caused(net, cores, tasks) && cores[m].history <= core.history
    ensures Caused(net, cores[m := core], tasks)
  {
    forall k | 0 <= k < |tasks| ensures Happened(net, cores[m := core], tasks[k].notice) {
      HappenedStays(net, cores, m, core, tasks[k].notice);
    }
  }

  lemma AnnouncedIsCaused(net: Network, cores: seq<Core>, m: nat, core: Core)
    requires m < |net| == |cores|
    ensures Caused(net, cores[m := core], Announced(net, m, cores[m], core))
  {
    if core.history != cores[m].history && core.history != [] {
      var change := core.history[|core.history| - 1];
      if change.notified {
        assert change in cores[m := core][m].history;
        BroadcastIsCaused(net, cores[m := core], |net|, Notice(net[m].name, change));
      }
    }
  }

  lemma FireStaysLawful(net: Network, s: State, m: nat, event: string, luck: Luck)
    requires Lawful(net, s) && m < |net|
    ensures Lawful(net, FireAt(net, s, m, event, luck))
  {
    var core := Fired(net[m], s.cores[m], event, luck);
    FiredFollows(net[m], s.cores[m], event, luck);
    CausedStays(net, s.cores, m, core, s.tasks);
    AnnouncedIsCaused(net, s.cores, m, core);
  }

  lemma AdvanceStaysLawful(net: Network, s: State, k: nat)
    requires Lawful(net, s) && k < |s.tasks| && s.tasks[k].remaining != []
    ensures Lawful(net, Advance(s, k))
  {
  }

  lemma NextStaysLawful(net: Network, s: State, e: Event, s': State)
    requires Lawful(net, s) && Next(net, s, e, s')
    ensures Lawful(net, s')
  {
    hide Fired, Announced, Follows, Caused, Advance;
    match e
    case Outside(m, event, luck) =>
      FireStaysLawful(net, s, m, event, luck);
    case Resume(k, luck) =>
      AdvanceStaysLawful(net, s, k);
      FireStaysLawful(net, Advance(s, k), s.tasks[k].machine, s.tasks[k].remaining[0], luck);
    case Quiet(m) =>
      QuietStaysLawful(net, s, m);
  }

  lemma QuietStaysLawful(net: Network, s: State, m: nat)
    requires Lawful(net, s) && m < |net|
    ensures Lawful(net, s.(cores := s.cores[m := Rested(s.cores[m])]))
  {
    CausedStays(net, s.cores, m, Rested(s.cores[m]), s.tasks);
  }

  lemma {:induction false} RunsAreLawful(net: Network, states: seq<State>, events: seq<Event>, i: nat)
    requires IsRun(net, states, events) && i < |states|
    ensures Lawful(net, states[i])
  {
    if i > 0 {
      RunsAreLawful(net, states, events, i - 1);
      NextStaysLawful(net, states[i - 1], events[i - 1], states[i]);
    }
  }

  /**
   * In every run of any network, whatever watchers and remote callers fire and however the goroutines interleave: each
   * machine is in a known state, reached from its initial state by declared transitions, each from a state it names.
   */
  lemma MachinesStayLegal(net: Network, states: seq<State>, events: seq<Event>, i: nat, m: nat)
    requires IsRun(net, states, events) && i < |states| && m < |net|
    ensures |states[i].cores| == |net| && IsState(net[m], states[i].cores[m].state)
    ensures Follows(net[m], states[i].cores[m])
  {
    RunsAreLawful(net, states, events, i);
    FollowsStaysInside(net[m], states[i].cores[m], |states[i].cores[m].history|);
  }

  /** A machine changes state in a step only by a declared transition that names the state it was in. */
  lemma StateChangesAreDeclared(net: Network, states: seq<State>, events: seq<Event>, i: nat, m: nat)
    requires IsRun(net, states, events) && i + 1 < |states| && m < |net|
    ensures |states[i].cores| == |states[i + 1].cores| == |net|
    ensures var from, to := states[i].cores[m].state, states[i + 1].cores[m].state;
            from != to ==> exists t :: t in net[m].transitions && from in t.from && t.destination == to
  {
    RunsAreLawful(net, states, events, i);
    RunsAreLawful(net, states, events, i + 1);
    var s, s', e := states[i], states[i + 1], events[i];
    assert Next(net, s, e, s');
    if s.cores[m].state != s'.cores[m].state {
      var event := if e.Outside? then e.event else s.tasks[e.task].remaining[0];
      var j := DestinationDecides(net[m].transitions, |net[m].transitions|, event, s.cores[m].state);
      assert net[m].transitions[j] in net[m].transitions;
    }
  }

  /**
   * What a goroutine fires is a transition of its machine that subscribes to a change which some machine of that name
   * has really performed: by a declared transition, out of the state it was in.
   */
  lemma TriggersHaveCauses(net: Network, states: seq<State>, events: seq<Event>, i: nat, k: nat, e: string)
    requires IsRun(net, states, events) && i < |states| && k < |states[i].tasks| && e in states[i].tasks[k].remaining
    ensures |states[i].cores| == |net|
    ensures var task := states[i].tasks[k];
      && task.machine < |net| && Subscribes(net[task.machine], e, task.notice.machine, task.notice.change.event)
      && exists b :: 0 <= b < |net| && net[b].name == task.notice.machine
          && task.notice.change in states[i].cores[b].history
                     && Target(net[b], task.notice.change.event, task.notice.change.from) == Some(task.notice.change.to)
  {
    RunsAreLawful(net, states, events, i);
    var s, task := states[i], states[i].tasks[k];
    assert Happened(net, s.cores, task.notice) && Subscribed(net, task);
    var b :| 0 <= b < |net| && net[b].name == task.notice.machine && task.notice.change in s.cores[b].history;
    var j :| 0 <= j < |s.cores[b].history| && s.cores[b].history[j] == task.notice.change;
    assert Legal(net[b], s.cores[b].history, j);
  }

  function TaskFor(net: Network, j: nat, notice: Notice): Task
    requires j < |net|
  {
    Task(j, notice, Triggers(net[j].transitions, |net[j].transitions|, notice.machine, notice.change.event))
  }

  lemma {:induction false} BroadcastReachesAll(net: Network, n: nat, notice: Notice)
    requires n <= |net|
    ensures |Broadcast(net, n, notice)| == n
    ensures forall j :: 0 <= j < n ==> Broadcast(net, n, notice)[j] == TaskFor(net, j, notice)
  {
    if n > 0 {
      BroadcastReachesAll(net, n - 1, notice);
    }
  }

  /** A machine that changes state tells every machine: one goroutine each, with all that this change triggers there. */
  lemma EveryStateChangeIsAnnounced(net: Network, s: State, m: nat, event: string, luck: Luck)
    requires |s.cores| == |net| && m < |net|
    ensures var s' := FireAt(net, s, m, event, luck);
      s'.cores[m].state != s.cores[m].state ==>
        var notice := Notice(net[m].name, Change(event, s.cores[m].state, s'.cores[m].state, true));
        && |s'.tasks| == |s.tasks| + |net| && s'.tasks[..|s.tasks|] == s.tasks
        && forall j :: 0 <= j < |net| ==> s'.tasks[|s.tasks| + j] == TaskFor(net, j, notice)
  {
    var to := Fired(net[m], s.cores[m], event, luck).state;
    BroadcastReachesAll(net, |net|, Notice(net[m].name, Change(event, s.cores[m].state, to, true)));
  }
}
