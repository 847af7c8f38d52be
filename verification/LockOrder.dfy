// The locks of the agent host and its machines (aagent/aagent.go, aagent/info.go, aagent/machine/machine.go). The lock
// of a machine is held while that of the agent is wanted, by the callback of a transition and by a watcher that looks
// up the state of another machine. The lock of the agent is held while those of machines are wanted, by the cleaner. No
// lock can be taken twice by its holder.
module LockOrder {
  import Runs

  /** Who holds the lock of a machine. */
  datatype Holder =
    | Open
    | Begun(tells: bool, sleeps: bool)  // a transition before it fires, which notifies unless it changes nothing
    | Wants(finishes: bool)             // a transition in its callback, or a state lookup, wants the agent's lock
    | Finishing                         // a transition notifies its own watchers
    | Hung                              // and one of these notifications never returns
    | Deleting                          // the cleaner, while it deletes the watchers

  /** Who holds the lock of the agent, and what it has still to do. */
  datatype Agent =
    | Unlocked
    | Telling(machine: nat)     // the holder of a machine's lock
    | Cleaning(todo: seq<nat>)  // the cleaner, with the gone machines it has still to stop
    | Stopping(todo: seq<nat>)  // the cleaner, which also holds the lock of the first of them
    | Listing(todo: seq<nat>)   // a listing of all states, with the machines it has still to ask

  /**
   * Whether deleting its watchers takes the lock of a machine again, which those of kind metric and httpswitch do; and
   * whether the context of the host is over.
   */
  datatype State = State(machines: seq<Holder>, agent: Agent, reenters: seq<bool>, cancelled: bool)

  datatype Event =
    | Equip(machine: nat)                             // a started machine creates a watcher of the former kinds
    | Begin(machine: nat, tells: bool, sleeps: bool)  // a transition takes the lock of its machine
    | Wake(machine: nat)                              // it has slept
    | Interrupt(machine: nat)                         // its sleep is interrupted
    | Fire(machine: nat)                              // it fires
    | Ask(machine: nat)                               // a lookup takes the lock of its own machine
    | Tell(machine: nat)                              // the holder of a machine's lock takes that of the agent
    | Told(machine: nat)                              // and releases it
    | Hang(machine: nat)                              // a watcher does not take its notification
    | End(machine: nat)                               // a transition releases the lock of its machine
    | Clean(gone: seq<nat>)                           // the cleaner takes the lock of the agent
    | Grab                                            // and that of the next machine
    | Release                                         // and has deleted its watchers
    | ListStates(all: seq<nat>)                       // a listing takes the lock of the agent
    | Visit                                           // and asks the watchers of the next machine
    | Done                                            // the cleaner or the listing is through
    | Cancel                                          // the whole host is stopped

  predicate Known(s: State, ms: seq<nat>) {
    forall i :: 0 <= i < |ms| ==> ms[i] < |s.machines|
  }

  predicate Is(s: State, m: nat, h: Holder) {
    m < |s.machines| && s.machines[m] == h
  }

  predicate HasBegun(s: State, m: nat, sleeps: bool) {
    m < |s.machines| && s.machines[m].Begun? && s.machines[m].sleeps == sleeps
  }

  predicate IsWaiting(s: State, m: nat) {
    m < |s.machines| && s.machines[m].Wants?
  }

  predicate Reenters(s: State, m: nat) {
    m < |s.reenters| && s.reenters[m]
  }

  predicate Enabled(s: State, e: Event) {
    match e
    case Equip(m) => m < |s.machines| && m < |s.reenters| && !Is(s, m, Hung)
    case Begin(m, _, _) => Is(s, m, Open)
    case Wake(m) => HasBegun(s, m, true)
    case Interrupt(m) => HasBegun(s, m, true) && s.cancelled
    case Fire(m) => HasBegun(s, m, false)
    case Ask(m) => Is(s, m, Open)
    case Tell(m) => IsWaiting(s, m) && s.agent.Unlocked?
    case Told(m) => IsWaiting(s, m) && s.agent == Telling(m)
    case Hang(m) => Is(s, m, Finishing)
    case End(m) => Is(s, m, Finishing)
    case Clean(gone) => s.agent.Unlocked? && Known(s, gone)
    case Grab => s.agent.Cleaning? && s.agent.todo != [] && Is(s, s.agent.todo[0], Open)
    case Release =>
      s.agent.Stopping? && s.agent.todo != [] && s.agent.todo[0] < |s.machines| && !Reenters(s, s.agent.todo[0])
    case ListStates(all) => s.agent.Unlocked? && Known(s, all)
    case Visit => s.agent.Listing? && s.agent.todo != [] && !Is(s, s.agent.todo[0], Hung)
    case Done => s.agent == Cleaning([]) || s.agent == Listing([])
    case Cancel => true
  }

  function Put(s: State, m: nat, h: Holder): State
    requires m < |s.machines|
  {
    s.(machines := s.machines[m := h])
  }

  function After(s: State, e: Event): State
    requires Enabled(s, e)
  {
    match e
    case Equip(m) => s.(reenters := s.reenters[m := true])
    case Begin(m, tells, sleeps) => Put(s, m, Begun(tells, sleeps))
    case Wake(m) => Put(s, m, Begun(s.machines[m].tells, false))
    case Interrupt(m) => Put(s, m, Open)
    case Fire(m) => Put(s, m, if s.machines[m].tells then Wants(true) else Open)
    case Ask(m) => Put(s, m, Wants(false))
    case Tell(m) => s.(agent := Telling(m))
    case Told(m) => Put(s, m, if s.machines[m].finishes then Finishing else Open).(agent := Unlocked)
    case Hang(m) => Put(s, m, Hung)
    case End(m) => Put(s, m, Open)
    case Clean(gone) => s.(agent := Cleaning(gone))
    case Grab => Put(s, s.agent.todo[0], Deleting).(agent := Stopping(s.agent.todo))
    case Release => Put(s, s.agent.todo[0], Open).(agent := Cleaning(s.agent.todo[1..]))
    case ListStates(all) => s.(agent := Listing(all))
    case Visit => s.(agent := Listing(s.agent.todo[1..]))
    case Done => s.(agent := Unlocked)
    case Cancel => s.(cancelled := true)
  }

  predicate Next(s: State, e: Event, s': State) {
    Enabled(s, e) && s' == After(s, e)
  }

  /** Runs in which the host is stopped only if that is allowed. */
  ghost predicate Leads(s: State, states: seq<State>, events: seq<Event>, s': State, cancels: bool) {
    && Runs.IsRun(x => x == s, Next, states, events) && states[|states| - 1] == s'
    && forall i :: 0 <= i < |events| && events[i].Cancel? ==> cancels
  }

  ghost predicate LeadsTo(s: State, s': State, cancels: bool) {
    exists states, events :: Leads(s, states, events, s', cancels)
  }

  lemma LeadsNowhere(s: State, cancels: bool)
    ensures LeadsTo(s, s, cancels)
  {
    assert Leads(s, [s], [], s, cancels);
  }

  lemma LeadsOn(s: State, s1: State, e: Event, cancels: bool)
    requires LeadsTo(s, s1, cancels) && Enabled(s1, e) && (e.Cancel? ==> cancels)
    ensures LeadsTo(s, After(s1, e), cancels)
  {
    var states, events :| Leads(s, states, events, s1, cancels);
    assert Leads(s, states + [After(s1, e)], events + [e], After(s1, e), cancels);
  }

  /** The holders agree on the locks that one of them has of each kind, and the lists name machines. */
  predicate Sound(s: State) {
    && |s.reenters| == |s.machines|
    && (forall m :: 0 <= m < |s.machines| && s.machines[m].Deleting? ==>
          s.agent.Stopping? && s.agent.todo != [] && s.agent.todo[0] == m)
    && match s.agent
       case Unlocked => true
       case Telling(m) => IsWaiting(s, m)
       case Cleaning(todo) => Known(s, todo)
       case Stopping(todo) => Known(s, todo) && todo != [] && Is(s, todo[0], Deleting)
       case Listing(todo) => Known(s, todo)
  }

  lemma NextKeepsSound(s: State, e: Event, s': State)
    requires Sound(s) && Next(s, e, s')
    ensures Sound(s') && |s'.machines| == |s.machines|
  {
  }

  // ---------------------------------------------------------------------------------------------------------
  // When the lock of the agent is lost

  /** The machines whose locks the cleaner has still to take. */
  function ToTake(s: State): seq<nat> {
    match s.agent
    case Cleaning(todo) => todo
    case Stopping(todo) => if todo == [] then [] else todo[1..]
    case _ => []
  }

  /** Whether a transition that sleeps can be interrupted. */
  predicate CanInterrupt(s: State, cancels: bool) {
    s.cancelled || cancels
  }

  /**
   * The cleaner cannot stop the machine while it holds the lock of the agent: the machine's lock is held by who waits
   * for the agent's, will do so, or hangs; or deleting its watchers takes the lock that the cleaner itself holds then.
   */
  predicate Unstoppable(s: State, m: nat, cancels: bool) {
    || IsWaiting(s, m) || Is(s, m, Hung) || Reenters(s, m)
    || Is(s, m, Begun(true, false)) || (Is(s, m, Begun(true, true)) && !CanInterrupt(s, cancels))
  }

  ghost predicate Deadlocked(s: State, cancels: bool) {
    || (exists i :: 0 <= i < |ToTake(s)| && Unstoppable(s, ToTake(s)[i], cancels))
    || (s.agent.Stopping? && s.agent.todo != [] && Reenters(s, s.agent.todo[0]))
    || (s.agent.Listing? && exists i :: 0 <= i < |s.agent.todo| && Is(s, s.agent.todo[i], Hung))
  }

  lemma StillUnstoppable(s: State, e: Event, s': State, m: nat, cancels: bool)
    requires Unstoppable(s, m, cancels) && Next(s, e, s') && (e.Cancel? ==> cancels)
    requires s.agent.Cleaning? || s.agent.Stopping?
    ensures Unstoppable(s', m, cancels) || (e.Release? && m == s.agent.todo[0])
  {
  }

  lemma DeadlockStays(s: State, e: Event, s': State, cancels: bool)
    requires Sound(s) && Deadlocked(s, cancels) && Next(s, e, s') && (e.Cancel? ==> cancels)
    ensures Deadlocked(s', cancels)
  {
    hide Unstoppable;
    if i :| 0 <= i < |ToTake(s)| && Unstoppable(s, ToTake(s)[i], cancels) {
      var m := ToTake(s)[i];
      StillUnstoppable(s, e, s', m, cancels);
      CleanerStep(s, e, s', i, m, cancels);
    } else if s.agent.Listing? {
      var i :| 0 <= i < |s.agent.todo| && Is(s, s.agent.todo[i], Hung);
      ListingStep(s, e, s', i);
    }
  }

  lemma CleanerStep(s: State, e: Event, s': State, i: nat, m: nat, cancels: bool)
    requires Sound(s) && Next(s, e, s') && i < |ToTake(s)| && ToTake(s)[i] == m
    requires Unstoppable(s, m, cancels) && (Unstoppable(s', m, cancels) || (e.Release? && m == s.agent.todo[0]))
    ensures Deadlocked(s', cancels)
  {
    if e.Grab? {
      if i > 0 {
        assert ToTake(s')[i - 1] == m;
      } else {
        assert Reenters(s', m);
      }
    } else if e.Release? {
      assert ToTake(s')[i] == m && Unstoppable(s', m, cancels);
    } else {
      assert ToTake(s')[i] == m;
    }
  }

  lemma ListingStep(s: State, e: Event, s': State, i: nat)
    requires Next(s, e, s') && s.agent.Listing? && i < |s.agent.todo| && Is(s, s.agent.todo[i], Hung)
    ensures s'.agent.Listing? && exists j :: 0 <= j < |s'.agent.todo| && Is(s', s'.agent.todo[j], Hung)
  {
    if e.Visit? {
      assert s'.agent.todo[i - 1] == s.agent.todo[i];
    } else {
      assert s'.agent.todo[i] == s.agent.todo[i];
    }
  }

  lemma {:induction false} DeadlockIsForever(s: State, states: seq<State>, events: seq<Event>, n: nat, cancels: bool)
    requires Sound(s) && Deadlocked(s, cancels) && Runs.IsRun(x => x == s, Next, states, events) && n < |states|
    requires forall i :: 0 <= i < |events| && events[i].Cancel? ==> cancels
    ensures Sound(states[n]) && Deadlocked(states[n], cancels)
  {
    if n > 0 {
      DeadlockIsForever(s, states, events, n - 1, cancels);
      DeadlockStays(states[n - 1], events[n - 1], states[n], cancels);
      NextKeepsSound(states[n - 1], events[n - 1], states[n]);
    }
  }

  /**
   * On a machine still to be stopped a transition begins that will notify and cannot be interrupted, has slept and
   * will notify, or hangs, or a lookup begins; there or on the machine that is being stopped a watcher is created that
   * takes the lock again; on a machine still to be listed a transition hangs; or cleaning or listing starts with such
   * a machine.
   */
  ghost predicate LocksUp(s: State, e: Event, cancels: bool)
    requires Sound(s) && Enabled(s, e)
  {
    match e
    case Equip(m) => m in ToTake(s) || (s.agent.Stopping? && s.agent.todo[0] == m)
    case Begin(m, tells, sleeps) => m in ToTake(s) && tells && (sleeps ==> !CanInterrupt(s, cancels))
    case Wake(m) => m in ToTake(s) && s.machines[m].tells
    case Ask(m) => m in ToTake(s)
    case Hang(m) => m in ToTake(s) || (s.agent.Listing? && m in s.agent.todo)
    case Clean(gone) => exists i :: 0 <= i < |gone| && Unstoppable(s, gone[i], cancels)
    case ListStates(all) => exists i :: 0 <= i < |all| && Is(s, all[i], Hung)
    case _ => false
  }

  /** These are the steps into a deadlock, exactly. */
  lemma DeadlockArisesExactly(s: State, e: Event, s': State, cancels: bool)
    requires Sound(s) && !Deadlocked(s, cancels) && Next(s, e, s') && (e.Cancel? ==> cancels)
    ensures Deadlocked(s', cancels) <==> LocksUp(s, e, cancels)
  {
    hide Deadlocked, Unstoppable, After;
    match e
    case Equip(m) => EquipArises(s, m, s', cancels);
    case Clean(gone) => CleanArises(s, gone, s', cancels);
    case Grab => GrabIsSafe(s, s', cancels);
    case Release => ReleaseIsSafe(s, s', cancels);
    case ListStates(all) => ListingArises(s, all, s', cancels);
    case Visit => VisitIsSafe(s, s', cancels);
    case Cancel => CancelIsSafe(s, s', cancels);
    case Tell(_) => TellingIsSafe(s, e, s', cancels);
    case Told(_) => TellingIsSafe(s, e, s', cancels);
    case Done => TellingIsSafe(s, e, s', cancels);
    case _ => MachineArises(s, e, s', cancels);
  }

  lemma MachineArises(s: State, e: Event, s': State, cancels: bool)
    requires Sound(s) && !Deadlocked(s, cancels) && Next(s, e, s')
    requires e.Begin? || e.Wake? || e.Interrupt? || e.Fire? || e.Ask? || e.Hang? || e.End?
    ensures Deadlocked(s', cancels) <==> LocksUp(s, e, cancels)
  {
    hide Deadlocked;
    TakenArises(s, s', e.machine, cancels);
  }

  /** A step on one machine matters exactly if the machine is still to be stopped or listed and cannot be any more. */
  lemma TakenArises(s: State, s': State, m: nat, cancels: bool)
    requires !Deadlocked(s, cancels) && m < |s.machines| == |s'.machines|
    requires s'.agent == s.agent && s'.reenters == s.reenters && s'.cancelled == s.cancelled
    requires s'.machines == s.machines[m := s'.machines[m]]
    ensures Deadlocked(s', cancels) <==>
      (m in ToTake(s) && Unstoppable(s', m, cancels)) || (s.agent.Listing? && m in s.agent.todo && Is(s', m, Hung))
    ensures m in ToTake(s) ==> !Unstoppable(s, m, cancels)
  {
    forall i | 0 <= i < |ToTake(s)| && ToTake(s)[i] != m ensures !Unstoppable(s', ToTake(s)[i], cancels) {
      assert !Unstoppable(s, ToTake(s)[i], cancels);
    }
    if m in ToTake(s) && Unstoppable(s', m, cancels) {
      var i :| 0 <= i < |ToTake(s)| && ToTake(s)[i] == m;
      assert Unstoppable(s', ToTake(s')[i], cancels);
    }
    if s.agent.Listing? && m in s.agent.todo && Is(s', m, Hung) {
      var i :| 0 <= i < |s.agent.todo| && s.agent.todo[i] == m;
      assert Is(s', s'.agent.todo[i], Hung);
    }
  }

  lemma EquipArises(s: State, m: nat, s': State, cancels: bool)
    requires Sound(s) && !Deadlocked(s, cancels) && Next(s, Equip(m), s')
    ensures Deadlocked(s', cancels) <==> m in ToTake(s) || (s.agent.Stopping? && s.agent.todo[0] == m)
  {
    assert ToTake(s') == ToTake(s);
    forall i | 0 <= i < |ToTake(s)| ensures Unstoppable(s', ToTake(s)[i], cancels) <==> ToTake(s)[i] == m {
      assert !Unstoppable(s, ToTake(s)[i], cancels);
    }
  }

  lemma GrabIsSafe(s: State, s': State, cancels: bool)
    requires !Deadlocked(s, cancels) && Next(s, Grab, s')
    ensures !Deadlocked(s', cancels)
  {
    assert !Unstoppable(s, ToTake(s)[0], cancels);
    forall i | 0 <= i < |ToTake(s')| ensures !Unstoppable(s', ToTake(s')[i], cancels) {
      assert ToTake(s')[i] == ToTake(s)[i + 1] && !Unstoppable(s, ToTake(s)[i + 1], cancels);
    }
  }

  lemma ReleaseIsSafe(s: State, s': State, cancels: bool)
    requires !Deadlocked(s, cancels) && Next(s, Release, s')
    ensures !Deadlocked(s', cancels)
  {
    forall i | 0 <= i < |ToTake(s')| ensures !Unstoppable(s', ToTake(s')[i], cancels) {
      assert ToTake(s')[i] == ToTake(s)[i] && !Unstoppable(s, ToTake(s)[i], cancels);
    }
  }

  lemma CancelIsSafe(s: State, s': State, cancels: bool)
    requires !Deadlocked(s, cancels) && Next(s, Cancel, s')
    ensures !Deadlocked(s', cancels)
  {
    forall i | 0 <= i < |ToTake(s')| ensures !Unstoppable(s', ToTake(s')[i], cancels) {
      assert !Unstoppable(s, ToTake(s)[i], cancels);
    }
  }

  lemma CleanArises(s: State, gone: seq<nat>, s': State, cancels: bool)
    requires Next(s, Clean(gone), s')
    ensures Deadlocked(s', cancels) <==> exists i :: 0 <= i < |gone| && Unstoppable(s, gone[i], cancels)
  {
    assert ToTake(s') == gone;
    forall i | 0 <= i < |gone| ensures Unstoppable(s', gone[i], cancels) <==> Unstoppable(s, gone[i], cancels) {
    }
  }

  lemma ListingArises(s: State, all: seq<nat>, s': State, cancels: bool)
    requires Next(s, ListStates(all), s')
    ensures Deadlocked(s', cancels) <==> exists i :: 0 <= i < |all| && Is(s, all[i], Hung)
  {
    assert s'.agent.todo == all;
  }

  lemma TellingIsSafe(s: State, e: Event, s': State, cancels: bool)
    requires Next(s, e, s') && (e.Tell? || e.Told? || e.Done?)
    ensures !Deadlocked(s', cancels)
  {
  }

  lemma VisitIsSafe(s: State, s': State, cancels: bool)
    requires !Deadlocked(s, cancels) && Next(s, Visit, s')
    ensures !Deadlocked(s', cancels)
  {
    forall i | 0 <= i < |s'.agent.todo| ensures !Is(s', s'.agent.todo[i], Hung) {
      assert s'.agent.todo[i] == s.agent.todo[i + 1];
    }
  }

  // ---------------------------------------------------------------------------------------------------------
  // Otherwise it can become free

  /** A step that does not lead into the deadlock keeps what the proof of progress needs. */
  lemma Goes(from: State, s: State, e: Event, cancels: bool)
    requires LeadsTo(from, s, cancels) && Sound(s) && !Deadlocked(s, cancels)
        && Enabled(s, e) && (e.Cancel? ==> cancels)
    requires e.Interrupt? || e.Fire? || e.End? || e.Grab? || e.Release? || e.Visit? || e.Cancel? ||
             (e.Wake? && !s.machines[e.machine].tells)
    ensures LeadsTo(from, After(s, e), cancels) && Sound(After(s, e)) && !Deadlocked(After(s, e), cancels)
  {
    LeadsOn(from, s, e, cancels);
    NextKeepsSound(s, e, After(s, e));
    DeadlockArisesExactly(s, e, After(s, e), cancels);
  }

  /** The lock of the next machine to be stopped can become free. */
  lemma MachineOpens(from: State, s: State, cancels: bool) returns (s': State)
    requires LeadsTo(from, s, cancels) && Sound(s) && !Deadlocked(s, cancels) && s.agent.Cleaning? && s.agent.todo != []
    ensures LeadsTo(from, s', cancels) && Sound(s') && !Deadlocked(s', cancels) && s'.agent == s.agent
    ensures Is(s', s.agent.todo[0], Open)
  {
    hide LeadsTo, Deadlocked;
    var m := s.agent.todo[0];
    s' := s;
    NextIsStoppable(s, cancels);
    match s.machines[m]
    case Open =>
    case Begun(true, _) =>
      if !s.cancelled {
        Goes(from, s, Cancel, cancels);
        s' := After(s, Cancel);
      }
      Goes(from, s', Interrupt(m), cancels);
      s' := After(s', Interrupt(m));
    case Begun(false, sleeps) =>
      if sleeps {
        Goes(from, s, Wake(m), cancels);
        s' := After(s, Wake(m));
      }
      Goes(from, s', Fire(m), cancels);
      s' := After(s', Fire(m));
    case Finishing =>
      Goes(from, s, End(m), cancels);
      s' := After(s, End(m));
    case _ =>
  }

  lemma NextIsStoppable(s: State, cancels: bool)
    requires Sound(s) && !Deadlocked(s, cancels) && s.agent.Cleaning? && s.agent.todo != []
    ensures s.agent.todo[0] < |s.machines|
    ensures var h := s.machines[s.agent.todo[0]];
      && (h.Open? || h.Begun? || h.Finishing?) && (h.Begun? && h.tells ==> h.sleeps && CanInterrupt(s, cancels))
      && !Reenters(s, s.agent.todo[0])
  {
    assert !Unstoppable(s, ToTake(s)[0], cancels);
  }

  lemma {:induction false} CleanerGetsThrough(from: State, s: State, cancels: bool)
    requires LeadsTo(from, s, cancels) && Sound(s) && !Deadlocked(s, cancels) && s.agent.Cleaning?
    ensures exists s' :: LeadsTo(from, s', cancels) && s'.agent.Unlocked?
    decreases |s.agent.todo|
  {
    hide LeadsTo, Deadlocked;
    if s.agent.todo == [] {
      LeadsOn(from, s, Done, cancels);
      assert After(s, Done).agent.Unlocked?;
    } else {
      NextIsStoppable(s, cancels);
      var open := MachineOpens(from, s, cancels);
      NextIsStoppable(open, cancels);
      Goes(from, open, Grab, cancels);
      Goes(from, After(open, Grab), Release, cancels);
      CleanerGetsThrough(from, After(After(open, Grab), Release), cancels);
    }
  }

  lemma {:induction false} ListingGetsThrough(from: State, s: State, cancels: bool)
    requires LeadsTo(from, s, cancels) && Sound(s) && !Deadlocked(s, cancels) && s.agent.Listing?
    ensures exists s' :: LeadsTo(from, s', cancels) && s'.agent.Unlocked?
    decreases |s.agent.todo|
  {
    hide LeadsTo;
    if s.agent.todo == [] {
      LeadsOn(from, s, Done, cancels);
      assert After(s, Done).agent.Unlocked?;
    } else {
      assert !Is(s, s.agent.todo[0], Hung);
      Goes(from, s, Visit, cancels);
      ListingGetsThrough(from, After(s, Visit), cancels);
    }
  }

  lemma StoppingGetsThrough(from: State, s: State, cancels: bool)
    requires LeadsTo(from, s, cancels) && Sound(s) && !Deadlocked(s, cancels) && s.agent.Stopping?
    ensures exists s' :: LeadsTo(from, s', cancels) && s'.agent.Unlocked?
  {
    Goes(from, s, Release, cancels);
    CleanerGetsThrough(from, After(s, Release), cancels);
  }

  /**
   * The lock of the agent can become free again exactly if the cleaner does not hold it with a machine still to be
   * stopped whose lock is held by who waits for the agent's, will have to, or hangs, or whose watchers take that lock
   * again when they are deleted - and no listing holds it with a machine whose watchers hang. This holds for runs in
   * which the host may be stopped and for those in which it may not; in the former a sleeping transition does not
   * count.
   */
  lemma DeadlocksExactly(s: State, cancels: bool)
    requires Sound(s)
    ensures (exists s' :: LeadsTo(s, s', cancels) && s'.agent.Unlocked?) <==> !Deadlocked(s, cancels)
  {
    LeadsNowhere(s, cancels);
    if Deadlocked(s, cancels) {
      forall s' | LeadsTo(s, s', cancels) ensures !s'.agent.Unlocked? {
        var states, events :| Leads(s, states, events, s', cancels);
        DeadlockIsForever(s, states, events, |states| - 1, cancels);
      }
    } else {
      match s.agent
      case Unlocked =>
      case Telling(m) =>
        LeadsOn(s, s, Told(m), cancels);
        assert After(s, Told(m)).agent.Unlocked?;
      case Cleaning(_) => CleanerGetsThrough(s, s, cancels);
      case Stopping(_) => StoppingGetsThrough(s, s, cancels);
      case Listing(_) => ListingGetsThrough(s, s, cancels);
    }
  }

  // ---------------------------------------------------------------------------------------------------------
  // Ways into the deadlock, each with a single machine

  function OneMachine(): State {
    State([Open], Unlocked, [false], false)
  }

  /** Without any transition: a watcher of a gone machine takes its lock again when it is deleted. */
  lemma ReentryLocksUp()
    ensures exists s :: LeadsTo(OneMachine(), s, false) && Deadlocked(s, true) && s.machines == [Open]
  {
    var start := OneMachine();
    LeadsNowhere(start, false);
    LeadsOn(start, start, Equip(0), false);
    var equipped := After(start, Equip(0));
    LeadsOn(start, equipped, Clean([0]), false);
    var s := After(equipped, Clean([0]));
    assert Unstoppable(s, ToTake(s)[0], true);
  }

  /** Without any transition: a watcher of a gone machine looks up the state of another one. */
  lemma LookupLocksUp()
    ensures exists s :: LeadsTo(OneMachine(), s, false) && Deadlocked(s, true) && s.machines == [Wants(false)]
  {
    var start := OneMachine();
    LeadsNowhere(start, false);
    LeadsOn(start, start, Clean([0]), false);
    var cleaning := After(start, Clean([0]));
    LeadsOn(start, cleaning, Ask(0), false);
    var s := After(cleaning, Ask(0));
    assert Unstoppable(s, ToTake(s)[0], true);
  }

  /** A transition of a gone machine that is asleep locks up the host unless the whole host is stopped. */
  lemma SleepLocksUp()
    ensures exists s :: LeadsTo(OneMachine(), s, false) && Sound(s) && Deadlocked(s, false) && !Deadlocked(s, true)
  {
    hide LeadsTo;
    var start := OneMachine();
    LeadsNowhere(start, false);
    LeadsOn(start, start, Begin(0, true, true), false);
    var asleep := After(start, Begin(0, true, true));
    LeadsOn(start, asleep, Clean([0]), false);
    var s := After(asleep, Clean([0]));
    assert Unstoppable(s, ToTake(s)[0], false);
  }

  /** A gone machine changes state. */
  lemma DeadlockIsReachable()
    ensures exists s :: LeadsTo(OneMachine(), s, false) && Deadlocked(s, true) && s.machines == [Wants(true)]
  {
    var start := OneMachine();
    LeadsNowhere(start, false);
    LeadsOn(start, start, Begin(0, true, false), false);
    var asleep := After(start, Begin(0, true, false));
    LeadsOn(start, asleep, Clean([0]), false);
    var cleaning := After(asleep, Clean([0]));
    LeadsOn(start, cleaning, Fire(0), false);
    var s := After(cleaning, Fire(0));
    assert Unstoppable(s, ToTake(s)[0], true);
  }

  /** Without cleaning: a listing of all states asks a machine one of whose watchers does not take its notification. */
  lemma ListingLocksUp()
    ensures exists s :: LeadsTo(OneMachine(), s, false) && Deadlocked(s, true) && s.agent.Listing?
  {
    hide LeadsTo;
    var start := OneMachine();
    LeadsNowhere(start, false);
    LeadsOn(start, start, Begin(0, true, false), false);
    var s1 := After(start, Begin(0, true, false));
    LeadsOn(start, s1, Fire(0), false);
    var s2 := After(s1, Fire(0));
    LeadsOn(start, s2, Tell(0), false);
    var s3 := After(s2, Tell(0));
    LeadsOn(start, s3, Told(0), false);
    var s4 := After(s3, Told(0));
    LeadsOn(start, s4, Hang(0), false);
    var s5 := After(s4, Hang(0));
    LeadsOn(start, s5, ListStates([0]), false);
    var s := After(s5, ListStates([0]));
    assert Is(s, s.agent.todo[0], Hung);
  }
}
