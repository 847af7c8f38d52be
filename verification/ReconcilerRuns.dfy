// The reconciler step by step, with plugins loaded at any time in between (aagent/aagent.go): the lock of the agent is
// taken for each search, deletion and addition, not for a whole pass.
module ReconcilerRuns {
  import opened Options
  import opened Reconciler
  import Runs

  /**
   * Where the goroutine that watches the source is; entries are directory names of a listing, still to be dealt with.
   */
  datatype Phase =
    | Idle
    | Deleting(targets: seq<Path>)      // machines gone from disk were collected
    | Looking(entries: seq<Path>)       // about to search the machine of the first entry
    | Replacing(entries: seq<Path>)     // its manifest changed, about to delete it
    | Loading(entries: seq<Path>)       // there is none, about to load it

  datatype State = State(machines: seq<Managed>, phase: Phase)

  /** Each reading of the disk is its own; a directory that cannot be listed gives no entries. */
  datatype Event =
    | LoadPlugin(path: Path) | Collect(disk: Disk) | Delete | List(entries: seq<Path>) | Look(disk: Disk) | Replace
    | Load(disk: Disk) | Finish

  ghost predicate AllDistinct(paths: seq<Path>) {
    forall i, j :: 0 <= i < j < |paths| ==> paths[i] != paths[j]
  }

  ghost predicate Enabled(s: State, e: Event) {
    match e
    case LoadPlugin(_) => true
    case Collect(_) => s.phase.Idle?
    case Delete => s.phase.Deleting? && s.phase.targets != []
    case List(entries) => (s.phase.Idle? || s.phase == Deleting([])) && AllDistinct(entries)
    case Look(_) => s.phase.Looking? && s.phase.entries != []
    case Replace => s.phase.Replacing? && s.phase.entries != []
    case Load(_) => s.phase.Loading? && s.phase.entries != []
    case Finish => s.phase == Looking([])
  }

  /** What the search for the machine of the first entry leads to. */
  function Found(ms: seq<Managed>, disk: Disk, entries: seq<Path>): Phase
    requires entries != []
  {
    match Find(ms, entries[0], 0)
    case None => Loading(entries)
    case Some(current) =>
      if current.plugin || CurrentHash(disk, entries[0]) == current.hash
        then Looking(entries[1..]) else Replacing(entries)
  }

  ghost function After(s: State, e: Event): State
    requires Enabled(s, e)
  {
    var ms := s.machines;
    match e
    case LoadPlugin(path) => s.(machines := ms + [PluginAt(path)])
    case Collect(disk) => s.(phase := Deleting(Targets(ms, disk, |ms|)))
    case Delete => State(Removed(ms, s.phase.targets[0]), Deleting(s.phase.targets[1..]))
    case List(entries) => s.(phase := Looking(entries))
    case Look(disk) => s.(phase := Found(ms, disk, s.phase.entries))
    case Replace => State(Removed(ms, s.phase.entries[0]), Loading(s.phase.entries))
    case Load(disk) => State(ms + Reconciler.Loaded(disk, s.phase.entries[0]), Looking(s.phase.entries[1..]))
    case Finish => s.(phase := Idle)
  }

  ghost predicate Next(s: State, e: Event, s': State) {
    Enabled(s, e) && s' == After(s, e)
  }

  ghost predicate IsRun(from: State, states: seq<State>, events: seq<Event>) {
    Runs.IsRun(s => s == from, Next, states, events)
  }

  const Start := State([], Idle)

  // ---------------------------------------------------------------------------------------------------------
  // The path as a key

  /** The watcher has found no machine for the path and is about to add one. */
  predicate BeingLoaded(s: State, path: Path) {
    s.phase.Loading? && s.phase.entries != [] && s.phase.entries[0] == path
  }

  /** No machine has that path, and none is about to get it. */
  predicate IsFree(s: State, path: Path) {
    path !in PathsOf(s.machines) && !BeingLoaded(s, path)
  }

  ghost predicate FromDisk(ms: seq<Managed>, path: Path) {
    exists m :: m in ms && m.path == path && !m.plugin
  }

  /** What the watcher is about to delete is a machine from disk, what it is about to load has no machine. */
  ghost predicate Good(s: State) {
    && Valid(s.machines)
    && match s.phase
       case Deleting(ts) => AllDistinct(ts) && forall i :: 0 <= i < |ts| ==> FromDisk(s.machines, ts[i])
       case Looking(_) => true
       case Replacing(es) => es != [] && FromDisk(s.machines, es[0])
       case Loading(es) => es != [] && es[0] !in PathsOf(s.machines)
       case Idle => true
  }

  lemma InPaths(ms: seq<Managed>, path: Path)
    ensures path in PathsOf(ms) <==> exists m :: m in ms && m.path == path
  {
    if m :| m in ms && m.path == path {
      var i :| 0 <= i < |ms| && ms[i] == m;
      assert PathsOf(ms)[i] == path;
    }
    if path in PathsOf(ms) {
      var i :| 0 <= i < |ms| && PathsOf(ms)[i] == path;
      assert ms[i] in ms;
    }
  }

  /** Adding one machine keeps the path a key exactly if its path is fresh. */
  lemma AddedKeepsDistinctExactly(ms: seq<Managed>, m: Managed)
    requires Distinct(ms)
    ensures Distinct(ms + [m]) <==> m.path !in PathsOf(ms)
  {
    var ms' := ms + [m];
    if m.path in PathsOf(ms) {
      var i :| 0 <= i < |ms| && PathsOf(ms)[i] == m.path;
      assert ms'[i].path == ms'[|ms|].path;
    } else {
      forall i | 0 <= i < |ms| ensures ms'[i].path != m.path {
        assert PathsOf(ms)[i] == ms[i].path;
      }
    }
  }

  lemma PluginKeepsGood(s: State, path: Path)
    requires Good(s) && IsFree(s, path)
    ensures Good(After(s, LoadPlugin(path)))
  {
    var ms := s.machines;
    AddedKeepsDistinctExactly(ms, PluginAt(path));
    assert forall m :: m in ms ==> m in ms + [PluginAt(path)];
    if s.phase.Loading? {
      InPaths(ms, s.phase.entries[0]);
      InPaths(ms + [PluginAt(path)], s.phase.entries[0]);
    }
  }

  /** Deleting the path of a machine from disk removes that machine and nothing else. */
  lemma DeletesFromDisk(ms: seq<Managed>, path: Path)
    requires Valid(ms) && FromDisk(ms, path)
    ensures Valid(Removed(ms, path)) && path !in PathsOf(Removed(ms, path))
    ensures forall m :: m in ms && m.plugin ==> m in Removed(ms, path)
    ensures forall other :: other != path && FromDisk(ms, other) ==> FromDisk(Removed(ms, path), other)
  {
    RemovedExactly(ms, path);
    InPaths(Removed(ms, path), path);
    var x :| x in ms && x.path == path && !x.plugin;
    forall m | m in ms && m.plugin ensures m.path != path {
      var i, j :| 0 <= i < |ms| && 0 <= j < |ms| && ms[i] == x && ms[j] == m;
    }
    forall other | other != path && FromDisk(ms, other) ensures FromDisk(Removed(ms, path), other) {
      var m :| m in ms && m.path == other && !m.plugin;
      assert m in Removed(ms, path);
    }
  }

  lemma DeleteKeepsGood(s: State)
    requires Good(s) && Enabled(s, Delete)
    ensures Good(After(s, Delete))
  {
    var ts := s.phase.targets;
    DeletesFromDisk(s.machines, ts[0]);
    forall i | 0 <= i < |ts[1..]| ensures FromDisk(Removed(s.machines, ts[0]), ts[1..][i]) {
      assert ts[1..][i] == ts[i + 1];
    }
  }

  lemma {:induction false} TargetsAreFromDisk(ms: seq<Managed>, disk: Disk, n: nat)
    requires Distinct(ms) && n <= |ms|
    ensures AllDistinct(Targets(ms, disk, n))
    ensures forall i :: 0 <= i < |Targets(ms, disk, n)| ==> FromDisk(ms, Targets(ms, disk, n)[i])
  {
    if n > 0 {
      TargetsAreFromDisk(ms, disk, n - 1);
      var before := Targets(ms, disk, n - 1);
      assert ms[n - 1] in ms;
      forall i | 0 <= i < |before| ensures before[i] != ms[n - 1].path {
        assert before[i] in before;
      }
    }
  }

  lemma LookKeepsGood(s: State, disk: Disk)
    requires Good(s) && Enabled(s, Look(disk))
    ensures Good(After(s, Look(disk)))
  {
    var ms, path := s.machines, s.phase.entries[0];
    assert ms[0..] == ms;
    forall m ensures Find(ms, path, 0) == Some(m) <==> m in ms && m.path == path {
      FindExactly(ms, path, 0, m);
    }
    InPaths(ms, path);
  }

  lemma LoadKeepsGood(s: State, disk: Disk)
    requires Good(s) && Enabled(s, Load(disk))
    ensures Good(After(s, Load(disk)))
  {
    var ms, loaded := s.machines, Reconciler.Loaded(disk, s.phase.entries[0]);
    if loaded == [] {
      assert ms + loaded == ms;
    } else {
      assert loaded == [loaded[0]];
      AddedKeepsDistinctExactly(ms, loaded[0]);
    }
  }

  /** Every step keeps the path a key and every plugin, if plugins are loaded at free paths only. */
  lemma NextKeepsGood(s: State, e: Event, s': State)
    requires Good(s) && Next(s, e, s') && (e.LoadPlugin? ==> IsFree(s, e.path))
    ensures Good(s') && forall m :: m in s.machines && m.plugin ==> m in s'.machines
  {
    hide Good, Valid, Removed, Targets, Find;
    match e
    case LoadPlugin(path) => PluginKeepsGood(s, path);
    case Delete => DeleteKeepsGood(s); DeletesPluginsNever(s);
    case Replace => ReplaceKeepsGood(s);
    case Look(disk) => LookKeepsGood(s, disk);
    case Load(disk) => LoadKeepsGood(s, disk);
    case Collect(disk) => CollectKeepsGood(s, disk);
    case List(_) => PhaseOnly(s, s');
    case Finish => PhaseOnly(s, s');
  }

  lemma DeletesPluginsNever(s: State)
    requires Good(s) && Enabled(s, Delete)
    ensures forall m :: m in s.machines && m.plugin ==> m in After(s, Delete).machines
  {
    DeletesFromDisk(s.machines, s.phase.targets[0]);
  }

  lemma ReplaceKeepsGood(s: State)
    requires Good(s) && Enabled(s, Replace)
    ensures Good(After(s, Replace)) && forall m :: m in s.machines && m.plugin ==> m in After(s, Replace).machines
  {
    DeletesFromDisk(s.machines, s.phase.entries[0]);
  }

  lemma CollectKeepsGood(s: State, disk: Disk)
    requires Good(s) && Enabled(s, Collect(disk))
    ensures Good(After(s, Collect(disk)))
  {
    TargetsAreFromDisk(s.machines, disk, |s.machines|);
  }

  lemma PhaseOnly(s: State, s': State)
    requires Good(s) && s'.machines == s.machines && (s'.phase.Idle? || s'.phase.Looking?)
    ensures Good(s')
  {
  }

  /** Every plugin of the run was loaded at a path that was free then. */
  ghost predicate Careful(states: seq<State>, events: seq<Event>)
    requires |states| == |events| + 1
  {
    forall i :: 0 <= i < |events| && events[i].LoadPlugin? ==> IsFree(states[i], events[i].path)
  }

  /**
   * In every run, whatever is on disk at each step and whenever plugins are loaded, the path is a key and a loaded
   * plugin stays - if each plugin is loaded at a free path.
   */
  lemma {:induction false} PathIsAKey(from: State, states: seq<State>, events: seq<Event>, i: nat, j: nat)
    requires Good(from) && IsRun(from, states, events) && Careful(states, events) && i <= j < |states|
    ensures Good(states[j]) && Distinct(states[j].machines)
    ensures forall m :: m in states[i].machines && m.plugin ==> m in states[j].machines
    decreases j
  {
    if j > 0 {
      PathIsAKey(from, states, events, if i == j then j - 1 else i, j - 1);
      NextKeepsGood(states[j - 1], events[j - 1], states[j]);
    }
  }

  /** Whatever the watcher does from here, without further plugins, the path stays a key. */
  ghost predicate StaysAKey(s: State) {
    forall states: seq<State>, events: seq<Event>, i: nat ::
      IsRun(s, states, events) && NoPlugins(events) && i < |states| ==> Distinct(states[i].machines)
  }

  predicate NoPlugins(events: seq<Event>) {
    forall i :: 0 <= i < |events| ==> !events[i].LoadPlugin?
  }

  /** Loading a plugin leaves the path a key for good exactly if the path is free: a fresh path is not enough. */
  lemma PluginIsSafeExactly(s: State, path: Path)
    requires Good(s)
    ensures StaysAKey(After(s, LoadPlugin(path))) <==> IsFree(s, path)
  {
    var s' := After(s, LoadPlugin(path));
    if path in PathsOf(s.machines) {
      AddedKeepsDistinctExactly(s.machines, PluginAt(path));
      assert IsRun(s', [s'], []) && !Distinct([s'][0].machines);
    } else if BeingLoaded(s, path) {
      AddedKeepsDistinctExactly(s.machines, PluginAt(path));
      assert PathsOf(s'.machines)[|s.machines|] == path;
      var states, events := LoadsTwice(s', path);
      assert !Distinct(states[1].machines);
    } else {
      PluginKeepsGood(s, path);
      forall states: seq<State>, events: seq<Event>, i: nat
        | IsRun(s', states, events) && NoPlugins(events) && i < |states|
        ensures Distinct(states[i].machines)
      {
        PathIsAKey(s', states, events, 0, i);
      }
    }
  }

  /** The watcher goes on to load the path that it found to be without a machine. */
  lemma LoadsTwice(s: State, path: Path) returns (states: seq<State>, events: seq<Event>)
    requires BeingLoaded(s, path) && path in PathsOf(s.machines) && Distinct(s.machines)
    ensures IsRun(s, states, events) && NoPlugins(events) && |states| == 2 && !Distinct(states[1].machines)
  {
    var disk: Disk := map[path := Dir(Some(Content(0, true)))];
    var e := Load(disk);
    states, events := [s, After(s, e)], [e];
    var m := Managed(path, disk[path].manifest, false);
    assert Reconciler.Loaded(disk, path) == [m];
    AddedKeepsDistinctExactly(s.machines, m);
  }

  /** A run in which every plugin is loaded at a path no machine has, and in which two machines end up with one path. */
  lemma FreshPathsAreNotEnough(path: Path) returns (states: seq<State>, events: seq<Event>)
    ensures IsRun(Start, states, events) && !Distinct(states[|states| - 1].machines)
    ensures forall i :: 0 <= i < |events| && events[i].LoadPlugin? ==> events[i].path !in PathsOf(states[i].machines)
  {
    var s1 := State([], Looking([path]));
    var s2 := State([], Loading([path]));
    var s3 := State([PluginAt(path)], Loading([path]));
    assert [] + [PluginAt(path)] == [PluginAt(path)];
    assert s3.machines[0].path == path && PathsOf(s3.machines)[0] == path;
    var rest, loads := LoadsTwice(s3, path);
    states := [Start, s1, s2, s3, rest[1]];
    events := [List([path]), Look(map[]), LoadPlugin(path), loads[0]];
    assert Next(Start, events[0], s1) && Next(s1, events[1], s2) && Next(s2, events[2], s3)
           && Next(s3, events[3], rest[1]);
  }

  // ---------------------------------------------------------------------------------------------------------
  // Undisturbed, the steps make a pass

  ghost predicate LeadsTo(s: State, s': State) {
    exists states, events :: Leads(s, states, events, s')
  }

  ghost predicate Leads(s: State, states: seq<State>, events: seq<Event>, s': State) {
    IsRun(s, states, events) && NoPlugins(events) && states[|states| - 1] == s'
  }

  lemma LeadsNowhere(s: State)
    ensures LeadsTo(s, s)
  {
    assert Leads(s, [s], [], s);
  }

  lemma LeadsOn(s: State, s1: State, e: Event)
    requires LeadsTo(s, s1) && Enabled(s1, e) && !e.LoadPlugin?
    ensures LeadsTo(s, After(s1, e))
  {
    var states, events :| Leads(s, states, events, s1);
    assert Leads(s, states + [After(s1, e)], events + [e], After(s1, e));
  }

  lemma {:induction false} DeletesAll(s: State, ms: seq<Managed>, ts: seq<Path>, n: nat)
    requires n <= |ts| && LeadsTo(s, State(ms, Deleting(ts)))
    ensures LeadsTo(s, State(RemovedAll(ms, ts, n), Deleting(ts[n..])))
  {
    if n == 0 {
      assert ts[0..] == ts;
    } else {
      DeletesAll(s, ms, ts, n - 1);
      var before := State(RemovedAll(ms, ts, n - 1), Deleting(ts[n - 1..]));
      assert ts[n - 1..][0] == ts[n - 1] && ts[n - 1..][1..] == ts[n..];
      LeadsOn(s, before, Delete);
    }
  }

  /** The eligible entries of a listing. */
  function Entries(disk: Disk, files: seq<Path>): (es: seq<Path>)
    ensures forall e :: e in es <==> e in files && Eligible(disk, e)
  {
    if files == [] then []
    else
      var n := |files| - 1;
      Entries(disk, files[..n]) + if Eligible(disk, files[n]) then [files[n]] else []
  }

  lemma {:induction false} EntriesDistinct(disk: Disk, files: seq<Path>)
    requires AllDistinct(files)
    ensures AllDistinct(Entries(disk, files))
  {
    if files != [] {
      var n := |files| - 1;
      var before := Entries(disk, files[..n]);
      EntriesDistinct(disk, files[..n]);
      forall i | 0 <= i < |before| ensures before[i] != files[n] {
        assert before[i] in before;
      }
    }
  }

  lemma LoadsOne(s: State, ms: seq<Managed>, disk: Disk, es: seq<Path>)
    requires es != [] && Eligible(disk, es[0]) && LeadsTo(s, State(ms, Looking(es)))
    ensures LeadsTo(s, State(LoadOne(ms, disk, es[0]), Looking(es[1..])))
  {
    hide LeadsTo, Find, Removed;
    var looking := State(ms, Looking(es));
    LeadsOn(s, looking, Look(disk));
    match Find(ms, es[0], 0)
    case None =>
      LeadsOn(s, State(ms, Loading(es)), Load(disk));
    case Some(current) =>
      if !current.plugin && CurrentHash(disk, es[0]) != current.hash {
        LeadsOn(s, State(ms, Replacing(es)), Replace);
        LeadsOn(s, State(Removed(ms, es[0]), Loading(es)), Load(disk));
      }
  }

  lemma {:induction false} LoadsAll(s: State, ms: seq<Managed>, disk: Disk, es: seq<Path>, n: nat)
    requires n <= |es| && LeadsTo(s, State(ms, Looking(es))) && forall e :: e in es ==> Eligible(disk, e)
    ensures LeadsTo(s, State(LoadAll(ms, disk, es, n), Looking(es[n..])))
  {
    hide LeadsTo, LoadOne, Eligible;
    if n == 0 {
      assert es[0..] == es;
    } else {
      LoadsAll(s, ms, disk, es, n - 1);
      assert es[n - 1..][0] == es[n - 1] && es[n - 1..][1..] == es[n..];
      LoadsOne(s, LoadAll(ms, disk, es, n - 1), disk, es[n - 1..]);
    }
  }

  /** Entries that are not eligible make no difference. */
  lemma {:induction false} OnlyEntriesMatter(ms: seq<Managed>, disk: Disk, files: seq<Path>, n: nat)
    requires n <= |files|
    ensures LoadAll(ms, disk, Entries(disk, files[..n]), |Entries(disk, files[..n])|) == LoadAll(ms, disk, files, n)
  {
    hide LoadOne, Eligible;
    if n > 0 {
      OnlyEntriesMatter(ms, disk, files, n - 1);
      assert files[..n][..n - 1] == files[..n - 1];
      var before := Entries(disk, files[..n - 1]);
      if Eligible(disk, files[n - 1]) {
        LoadPrefix(ms, disk, before, [files[n - 1]], |before|);
        assert Entries(disk, files[..n]) == before + [files[n - 1]];
      } else {
        assert Entries(disk, files[..n]) == before;
        IneligibleIsSkipped(LoadAll(ms, disk, files, n - 1), disk, files[n - 1]);
      }
    }
  }

  lemma IneligibleIsSkipped(ms: seq<Managed>, disk: Disk, path: Path)
    requires !Eligible(disk, path)
    ensures LoadOne(ms, disk, path) == ms
  {
  }

  lemma {:induction false} LoadPrefix(ms: seq<Managed>, disk: Disk, a: seq<Path>, b: seq<Path>, n: nat)
    requires n <= |a|
    ensures LoadAll(ms, disk, a + b, n) == LoadAll(ms, disk, a, n)
  {
    if n > 0 {
      LoadPrefix(ms, disk, a, b, n - 1);
    }
  }

  /** Over an unchanged disk, and with no plugin loaded meanwhile, the steps of the watcher amount to one pass. */
  lemma StepsMakeThePass(ms: seq<Managed>, disk: Disk, files: seq<Path>)
    requires IsListing(disk, files)
    ensures LeadsTo(State(ms, Idle), State(Pass(ms, disk, files), Idle))
  {
    hide LeadsTo, RemovedAll, LoadAll, Targets, Entries, Eligible, LoadOne;
    var s, ts, es := State(ms, Idle), Targets(ms, disk, |ms|), Entries(disk, files);
    LeadsNowhere(s);
    LeadsOn(s, s, Collect(disk));
    DeletesAll(s, ms, ts, |ts|);
    assert ts[|ts|..] == [] && es[|es|..] == [];
    EntriesDistinct(disk, files);
    LeadsOn(s, State(Cleaned(ms, disk), Deleting([])), List(es));
    LoadsAll(s, Cleaned(ms, disk), disk, es, |es|);
    OnlyEntriesMatter(Cleaned(ms, disk), disk, files, |files|);
    assert files[..|files|] == files;
    LeadsOn(s, State(Pass(ms, disk, files), Looking([])), Finish);
  }

  // ---------------------------------------------------------------------------------------------------------
  // and nothing else

  /** A step over that disk, with that listing. */
  predicate Undisturbed(e: Event, disk: Disk, es: seq<Path>) {
    match e
    case LoadPlugin(_) => false
    case Collect(d) => d == disk
    case List(entries) => entries == es
    case Look(d) => d == disk
    case Load(d) => d == disk
    case _ => true
  }

  /** Such steps from a collection to the end of its pass. */
  predicate MakesOnePass(events: seq<Event>, disk: Disk, es: seq<Path>) {
    && events != [] && events[0].Collect?
    && forall i :: 0 <= i < |events| ==> Undisturbed(events[i], disk, es) && (events[i].Finish? <==> i == |events| - 1)
  }

  /** How far the pass is: what is left to do is the end of its lists, and what was done is that of their beginnings. */
  ghost predicate Underway(s: State, ms: seq<Managed>, disk: Disk, es: seq<Path>) {
    var ts, cleaned := Targets(ms, disk, |ms|), Cleaned(ms, disk);
    match s.phase
    case Idle => false
    case Deleting(rest) => IsEnd(rest, ts) && s.machines == RemovedAll(ms, ts, |ts| - |rest|)
    case Looking(rest) => IsEnd(rest, es) && s.machines == LoadAll(cleaned, disk, es, |es| - |rest|)
    case Replacing(rest) =>
      && rest != [] && IsEnd(rest, es)
      && Removed(s.machines, rest[0]) + Reconciler.Loaded(disk, rest[0])
         == LoadAll(cleaned, disk, es, |es| - |rest| + 1)
    case Loading(rest) =>
      && rest != [] && IsEnd(rest, es)
      && s.machines + Reconciler.Loaded(disk, rest[0]) == LoadAll(cleaned, disk, es, |es| - |rest| + 1)
  }

  predicate IsEnd(rest: seq<Path>, all: seq<Path>) {
    |rest| <= |all| && rest == all[|all| - |rest|..]
  }

  lemma NextIsUnderway(s: State, e: Event, s': State, ms: seq<Managed>, disk: Disk, es: seq<Path>)
    requires Underway(s, ms, disk, es) && Next(s, e, s') && Undisturbed(e, disk, es) && !e.Finish?
    requires forall x :: x in es ==> Eligible(disk, x)
    ensures Underway(s', ms, disk, es)
  {
    hide Removed, Targets, Find, Eligible;
    if e.Look? {
      assert s.phase.entries[0] == es[|es| - |s.phase.entries|];
    }
  }

  lemma {:induction false} RunIsUnderway(
    states: seq<State>, events: seq<Event>, n: nat, ms: seq<Managed>, disk: Disk, es: seq<Path>)
    requires IsRun(State(ms, Idle), states, events) && MakesOnePass(events, disk, es) && 0 < n < |events|
    requires forall x :: x in es ==> Eligible(disk, x)
    ensures Underway(states[n], ms, disk, es)
  {
    hide Underway;
    assert Next(states[n - 1], events[n - 1], states[n]) && Undisturbed(events[n - 1], disk, es)
           && !events[n - 1].Finish?;
    if n == 1 {
      CollectionIsUnderway(states[1], ms, disk, es);
    } else {
      RunIsUnderway(states, events, n - 1, ms, disk, es);
      NextIsUnderway(states[n - 1], events[n - 1], states[n], ms, disk, es);
    }
  }

  lemma CollectionIsUnderway(s: State, ms: seq<Managed>, disk: Disk, es: seq<Path>)
    requires s == State(ms, Deleting(Targets(ms, disk, |ms|)))
    ensures Underway(s, ms, disk, es)
  {
  }

  /**
   * Whatever undisturbed steps the watcher takes from the collection to the end of the pass, they amount to the pass.
   */
  lemma UndisturbedStepsAreThePass(
    ms: seq<Managed>, disk: Disk, files: seq<Path>, states: seq<State>, events: seq<Event>)
    requires IsListing(disk, files) && IsRun(State(ms, Idle), states, events)
    requires MakesOnePass(events, disk, Entries(disk, files))
    ensures states[|events|] == State(Pass(ms, disk, files), Idle)
  {
    hide LoadAll, Cleaned, Targets, Entries, Eligible, RemovedAll;
    var es, n := Entries(disk, files), |events| - 1;
    assert Next(states[n], events[n], states[n + 1]);
    if n == 0 {
      assert false;
    } else {
      RunIsUnderway(states, events, n, ms, disk, es);
      OnlyEntriesMatter(Cleaned(ms, disk), disk, files, |files|);
      assert files[..|files|] == files;
    }
  }
}
