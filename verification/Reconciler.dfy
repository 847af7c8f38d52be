// The reconciler that keeps the running autonomous agents equal to what is on disk (aagent/aagent.go). Paths are names
// below the source directory.
module Reconciler {
  import opened Options

  type Path = string

  /** The contents of a manifest; whether they load as a machine is a property of the contents. */
  datatype Content = Content(id: nat, loads: bool)

  /** A directory with a manifest that can be read, or not; or something that is not a directory. */
  datatype Node = Dir(manifest: Option<Content>) | File

  type Disk = map<Path, Node>

  /** A managed machine; the hash of a manifest stands for its contents, a plugin has none. */
  datatype Managed = Managed(path: Path, hash: Option<Content>, plugin: bool)

  // ---------------------------------------------------------------------------------------------------------
  // The list of machines

  function PathsOf(ms: seq<Managed>): seq<Path> {
    seq(|ms|, i requires 0 <= i < |ms| => ms[i].path)
  }

  /** The path is a key. */
  ghost predicate Distinct(ms: seq<Managed>) {
    forall i, j :: 0 <= i < j < |ms| ==> ms[i].path != ms[j].path
  }

  /** Machines from disk run a manifest that loads. */
  ghost predicate Valid(ms: seq<Managed>) {
    Distinct(ms) && forall m :: m in ms && !m.plugin ==> m.hash.Some? && m.hash.value.loads
  }

  /** The first machine of that path from position `from` on. */
  function Find(ms: seq<Managed>, path: Path, from: nat): (r: Option<Managed>)
    requires from <= |ms|
    decreases |ms| - from
  {
    if from == |ms| then None else if ms[from].path == path then Some(ms[from]) else Find(ms, path, from + 1)
  }

  lemma {:induction false} FindExactly(ms: seq<Managed>, path: Path, from: nat, m: Managed)
    requires Distinct(ms) && from <= |ms|
    ensures Find(ms, path, from) == Some(m) <==> m in ms[from..] && m.path == path
    decreases |ms| - from
  {
    if from < |ms| {
      FindExactly(ms, path, from + 1, m);
      assert ms[from..] == [ms[from]] + ms[from + 1..];
      if m in ms[from + 1..] {
        var i :| from < i < |ms| && ms[i] == m;
      }
    }
  }

  /** The position of the last machine of that path among the first `n`, or -1. */
  function LastIndex(ms: seq<Managed>, path: Path, n: nat): (i: int)
    requires n <= |ms|
    ensures -1 <= i < n
    ensures i >= 0 ==> ms[i].path == path && forall k :: i < k < n ==> ms[k].path != path
    ensures i < 0 ==> forall k :: 0 <= k < n ==> ms[k].path != path
  {
    if n == 0 then -1 else if ms[n - 1].path == path then n - 1 else LastIndex(ms, path, n - 1)
  }

  /** deleteByPath: the last machine takes the place of the deleted one. */
  function Removed(ms: seq<Managed>, path: Path): seq<Managed> {
    var i := LastIndex(ms, path, |ms|);
    if i < 0 then ms else ms[i := ms[|ms| - 1]][..|ms| - 1]
  }

  lemma RemovedExactly(ms: seq<Managed>, path: Path)
    requires Distinct(ms)
    ensures Distinct(Removed(ms, path))
    ensures forall m :: m in Removed(ms, path) <==> m in ms && m.path != path
  {
    var i, n := LastIndex(ms, path, |ms|), |ms| - 1;
    if i >= 0 {
      var r := Removed(ms, path);
      forall k | 0 <= k < n ensures r[k] == if k == i then ms[n] else ms[k] {
      }
      forall m | m in ms && m.path != path ensures m in r {
        var k :| 0 <= k < |ms| && ms[k] == m;
        assert r[if k == n then i else k] == m;
      }
    }
  }

  // ---------------------------------------------------------------------------------------------------------
  // Cleaning and loading

  predicate HasSuffix(s: string, suffix: string) {
    |s| >= |suffix| && s[|s| - |suffix|..] == suffix
  }

  predicate Eligible(disk: Disk, path: Path) {
    path in disk && disk[path].Dir? && path != "tmp" && !("." <= path) && !HasSuffix(path, "-temp")
  }

  /** What loadMachine makes of a directory. */
  function Loaded(disk: Disk, path: Path): seq<Managed> {
    if path in disk && disk[path].Dir? && disk[path].manifest.Some? && disk[path].manifest.value.loads
    then [Managed(path, disk[path].manifest, false)]
    else []
  }

  function CurrentHash(disk: Disk, path: Path): Option<Content> {
    if path in disk && disk[path].Dir? then disk[path].manifest else None
  }

  /** One directory entry of loadFromSource. */
  function LoadOne(ms: seq<Managed>, disk: Disk, path: Path): seq<Managed> {
    if !Eligible(disk, path) then ms
    else
      match Find(ms, path, 0)
      case None => ms + Loaded(disk, path)
      case Some(current) =>
        if current.plugin || CurrentHash(disk, path) == current.hash then ms
        else Removed(ms, path) + Loaded(disk, path)
  }

  function LoadAll(ms: seq<Managed>, disk: Disk, files: seq<Path>, n: nat): seq<Managed>
    requires n <= |files|
  {
    if n == 0 then ms else LoadOne(LoadAll(ms, disk, files, n - 1), disk, files[n - 1])
  }

  /** The paths of the machines, among the first `n`, that are not plugins and no longer on disk. */
  function Targets(ms: seq<Managed>, disk: Disk, n: nat): (ts: seq<Path>)
    requires n <= |ms|
    ensures forall p :: p in ts <==> exists i :: 0 <= i < n && ms[i].path == p && IsTarget(disk, ms[i])
  {
    if n == 0 then [] else Targets(ms, disk, n - 1) + if IsTarget(disk, ms[n - 1]) then [ms[n - 1].path] else []
  }

  predicate IsTarget(disk: Disk, m: Managed) {
    !m.plugin && m.path !in disk
  }

  function RemovedAll(ms: seq<Managed>, targets: seq<Path>, n: nat): seq<Managed>
    requires n <= |targets|
  {
    if n == 0 then ms else Removed(RemovedAll(ms, targets, n - 1), targets[n - 1])
  }

  function Cleaned(ms: seq<Managed>, disk: Disk): seq<Managed> {
    var ts := Targets(ms, disk, |ms|);
    RemovedAll(ms, ts, |ts|)
  }

  /** A listing of the source directory names every entry once. */
  ghost predicate IsListing(disk: Disk, files: seq<Path>) {
    && (forall p :: p in files <==> p in disk)
    && forall i, j :: 0 <= i < j < |files| ==> files[i] != files[j]
  }

  /** One clean-and-load pass. */
  function Pass(ms: seq<Managed>, disk: Disk, files: seq<Path>): seq<Managed> {
    LoadAll(Cleaned(ms, disk), disk, files, |files|)
  }

  /** One tick of watchSource; it does not load from a directory that cannot be listed. */
  function Ticked(ms: seq<Managed>, disk: Disk, files: seq<Path>, listable: bool): seq<Managed> {
    if listable then Pass(ms, disk, files) else Cleaned(ms, disk)
  }

  // ---------------------------------------------------------------------------------------------------------
  // The result of a pass

  lemma {:induction false} RemovedAllExactly(ms: seq<Managed>, targets: seq<Path>, n: nat)
    requires Distinct(ms) && n <= |targets|
    ensures Distinct(RemovedAll(ms, targets, n))
    ensures forall m :: m in RemovedAll(ms, targets, n) <==> m in ms && m.path !in targets[..n]
  {
    if n > 0 {
      RemovedAllExactly(ms, targets, n - 1);
      RemovedExactly(RemovedAll(ms, targets, n - 1), targets[n - 1]);
      assert targets[..n] == targets[..n - 1] + [targets[n - 1]];
    }
  }

  /** Cleaning removes exactly the machines that are neither plugins nor on disk. */
  lemma CleanedExactly(ms: seq<Managed>, disk: Disk)
    requires Distinct(ms)
    ensures Distinct(Cleaned(ms, disk))
    ensures forall m :: m in Cleaned(ms, disk) <==> m in ms && (m.plugin || m.path in disk)
  {
    var ts := Targets(ms, disk, |ms|);
    RemovedAllExactly(ms, ts, |ts|);
    assert ts[..|ts|] == ts;
    forall m | m in ms ensures m.path in ts <==> IsTarget(disk, m) {
      var i :| 0 <= i < |ms| && ms[i] == m;
      assert forall j :: 0 <= j < |ms| && ms[j].path == m.path ==> j == i;
    }
  }

  ghost predicate HasPlugin(ms: seq<Managed>, path: Path) {
    exists m :: m in ms && m.plugin && m.path == path
  }

  /** What belongs at an eligible path: the plugin that owns it, or what loads from it now. */
  ghost predicate Belongs(ms: seq<Managed>, disk: Disk, m: Managed) {
    if m.plugin then m in ms else !HasPlugin(ms, m.path) && m in Loaded(disk, m.path)
  }

  lemma LoadOneExactly(ms: seq<Managed>, disk: Disk, path: Path)
    requires Valid(ms)
    ensures Valid(LoadOne(ms, disk, path))
    ensures forall m :: m in LoadOne(ms, disk, path) <==>
      if m.path == path && Eligible(disk, path) then Belongs(ms, disk, m) else m in ms
  {
    hide Find, Removed;
    assert ms[0..] == ms;
    forall m ensures Find(ms, path, 0) == Some(m) <==> m in ms && m.path == path {
      FindExactly(ms, path, 0, m);
    }
    RemovedExactly(ms, path);
  }

  lemma BelongsSame(ms: seq<Managed>, ms': seq<Managed>, disk: Disk, m: Managed)
    requires forall x: Managed :: x.path == m.path ==> (x in ms <==> x in ms')
    ensures Belongs(ms, disk, m) <==> Belongs(ms', disk, m)
  {
  }

  lemma {:induction false} LoadAllExactly(ms: seq<Managed>, disk: Disk, files: seq<Path>, n: nat)
    requires Valid(ms) && n <= |files| && IsListing(disk, files)
    ensures Valid(LoadAll(ms, disk, files, n))
    ensures forall m :: m in LoadAll(ms, disk, files, n) <==>
      if m.path in files[..n] && Eligible(disk, m.path) then Belongs(ms, disk, m) else m in ms
  {
    hide LoadOne, Belongs, Valid, Eligible;
    if n > 0 {
      LoadAllExactly(ms, disk, files, n - 1);
      var before := LoadAll(ms, disk, files, n - 1);
      LoadOneExactly(before, disk, files[n - 1]);
      assert files[..n] == files[..n - 1] + [files[n - 1]];
      forall m: Managed | m.path == files[n - 1] ensures Belongs(ms, disk, m) <==> Belongs(before, disk, m) {
        BelongsSame(ms, before, disk, m);
      }
    }
  }

  /** Neither hidden nor temporary. */
  predicate NamesAMachine(path: Path) {
    && path != "tmp" && (path == "" || path[0] != '.')
    && (|path| < 5 || path[|path| - 5..] != "-temp")
  }

  /** What runs after a pass. */
  ghost predicate Expected(ms: seq<Managed>, disk: Disk, m: Managed) {
    if m.plugin then m in ms
    else if m.path !in disk then false
    else if disk[m.path].Dir? && NamesAMachine(m.path) then
      !HasPlugin(ms, m.path) && m.hash == disk[m.path].manifest && m.hash.Some? && m.hash.value.loads
    else m in ms
  }

  lemma EligibleExactly(disk: Disk, path: Path)
    ensures Eligible(disk, path) <==> path in disk && disk[path].Dir? && NamesAMachine(path)
  {
    assert "." <= path <==> path != "" && path[0] == '.';
    assert |path| < 5 ==> !HasSuffix(path, "-temp");
  }

  /**
   * After one pass exactly these machines run: the plugins; for each eligible directory that loads and no plugin owns,
   * its machine at its current manifest; and of the machines there were, those whose path exists but is no longer
   * eligible.
   */
  lemma PassExactly(ms: seq<Managed>, disk: Disk, files: seq<Path>)
    requires Valid(ms) && IsListing(disk, files)
    ensures Valid(Pass(ms, disk, files))
    ensures forall m :: m in Pass(ms, disk, files) <==> Expected(ms, disk, m)
  {
    CleanedExactly(ms, disk);
    LoadAllExactly(Cleaned(ms, disk), disk, files, |files|);
    assert files[..|files|] == files;
    forall path ensures Eligible(disk, path) <==> path in disk && disk[path].Dir? && NamesAMachine(path) {
      EligibleExactly(disk, path);
    }
  }

  /** A tick always cleans, and it loads only from a directory that can be listed. */
  lemma TickExactly(ms: seq<Managed>, disk: Disk, files: seq<Path>, listable: bool)
    requires Valid(ms) && IsListing(disk, files)
    ensures forall m :: m in Ticked(ms, disk, files, listable) <==>
      if listable then Expected(ms, disk, m) else m in ms && (m.plugin || m.path in disk)
  {
    CleanedExactly(ms, disk);
    PassExactly(ms, disk, files);
  }

  // ---------------------------------------------------------------------------------------------------------
  // A second pass changes nothing

  /** Nothing to clean, and nothing to load or replace at an eligible path. */
  ghost predicate Settled(ms: seq<Managed>, disk: Disk) {
    && (forall m :: m in ms ==> !IsTarget(disk, m))
    && forall path :: Eligible(disk, path) ==> LoadOne(ms, disk, path) == ms
  }

  lemma {:induction false} SettledStays(ms: seq<Managed>, disk: Disk, files: seq<Path>, n: nat)
    requires Settled(ms, disk) && n <= |files|
    ensures LoadAll(ms, disk, files, n) == ms
  {
    if n > 0 {
      SettledStays(ms, disk, files, n - 1);
    }
  }

  lemma LoadedSettles(ms: seq<Managed>, disk: Disk, path: Path)
    requires Distinct(ms) && Eligible(disk, path)
    requires forall m :: m in ms && m.path == path ==> m.plugin || m in Loaded(disk, path)
    requires HasPlugin(ms, path) || forall m :: m in Loaded(disk, path) ==> m in ms
    ensures LoadOne(ms, disk, path) == ms
  {
    assert ms[0..] == ms;
    forall m ensures Find(ms, path, 0) == Some(m) <==> m in ms && m.path == path {
      FindExactly(ms, path, 0, m);
    }
    if Loaded(disk, path) != [] {
      assert Loaded(disk, path)[0] in Loaded(disk, path);
    }
  }

  lemma PassSettles(ms: seq<Managed>, disk: Disk, files: seq<Path>)
    requires Valid(ms) && IsListing(disk, files)
    ensures Settled(Pass(ms, disk, files), disk)
  {
    PassExactly(ms, disk, files);
    var done := Pass(ms, disk, files);
    forall path | Eligible(disk, path) ensures LoadOne(done, disk, path) == done {
      if !HasPlugin(done, path) {
        assert !HasPlugin(ms, path);
      }
      LoadedSettles(done, disk, path);
    }
  }

  lemma {:induction false} NoTargets(ms: seq<Managed>, disk: Disk, n: nat)
    requires n <= |ms| && forall m :: m in ms ==> !IsTarget(disk, m)
    ensures Targets(ms, disk, n) == []
  {
    if n > 0 {
      NoTargets(ms, disk, n - 1);
    }
  }

  /** Over an unchanged disk a second pass changes nothing, not even the order of the machines. */
  lemma SecondPassChangesNothing(ms: seq<Managed>, disk: Disk, files: seq<Path>, again: seq<Path>)
    requires Valid(ms) && IsListing(disk, files) && IsListing(disk, again)
    ensures Pass(Pass(ms, disk, files), disk, again) == Pass(ms, disk, files)
  {
    var done := Pass(ms, disk, files);
    PassSettles(ms, disk, files);
    NoTargets(done, disk, |done|);
    assert Cleaned(done, disk) == done;
    SettledStays(done, disk, again, |again|);
  }

  // ---------------------------------------------------------------------------------------------------------
  // Paths in use twice

  function PluginAt(path: Path): Managed {
    Managed(path, None, true)
  }

  /** The machines of one path, in list order. */
  function OfPath(ms: seq<Managed>, path: Path): seq<Managed> {
    if ms == [] then []
    else
      var n := |ms| - 1;
      OfPath(ms[..n], path) + if ms[n].path == path then [ms[n]] else []
  }

  lemma {:induction false} OfPathConcat(a: seq<Managed>, b: seq<Managed>, path: Path)
    ensures OfPath(a + b, path) == OfPath(a, path) + OfPath(b, path)
  {
    if b == [] {
      assert a + b == a;
    } else {
      var n := |b| - 1;
      OfPathConcat(a, b[..n], path);
      assert (a + b)[..|a + b| - 1] == a + b[..n];
    }
  }

  lemma OfPathOne(m: Managed, path: Path)
    ensures OfPath([m], path) == if m.path == path then [m] else []
  {
    assert [m][..0] == [];
  }

  lemma {:induction false} NoneOfPath(ms: seq<Managed>, path: Path)
    requires forall i :: 0 <= i < |ms| ==> ms[i].path != path
    ensures OfPath(ms, path) == []
  {
    if ms != [] {
      NoneOfPath(ms[..|ms| - 1], path);
    }
  }

  /** Around the position that a swap-delete fills. */
  lemma OfPathAround(ms: seq<Managed>, i: nat, path: Path)
    requires i < |ms|
    ensures OfPath(ms, path) == OfPath(ms[..i], path) + OfPath([ms[i]], path) + OfPath(ms[i + 1..], path)
  {
    assert ms == (ms[..i] + [ms[i]]) + ms[i + 1..];
    OfPathConcat(ms[..i] + [ms[i]], ms[i + 1..], path);
    OfPathConcat(ms[..i], [ms[i]], path);
  }

  /** Deleting a path drops the last of its machines and keeps the order of the others. */
  lemma RemovedDropsTheLast(ms: seq<Managed>, path: Path)
    requires OfPath(ms, path) != []
    ensures OfPath(Removed(ms, path), path) == OfPath(ms, path)[..|OfPath(ms, path)| - 1]
  {
    hide OfPath, LastIndex;
    var i, n := LastIndex(ms, path, |ms|), |ms| - 1;
    if i < 0 {
      NoneOfPath(ms, path);
      assert false;
    }
    OfPathAround(ms, i, path);
    OfPathOne(ms[i], path);
    NoneOfPath(ms[i + 1..], path);
    var r := Removed(ms, path);
    if i < n {
      OfPathAround(r, i, path);
      OfPathOne(r[i], path);
      assert r[..i] == ms[..i];
      NoneOfPath(r[i + 1..], path);
    } else {
      assert r == ms[..i];
    }
  }

  lemma SwappedParts(a: seq<Managed>, b: seq<Managed>, c: seq<Managed>)
    ensures multiset(a + c + b) == multiset(a + [] + (b + c))
  {
    assert a + [] + (b + c) == a + b + c;
  }

  /** Deleting another path keeps the machines of a path, though not always their order. */
  lemma RemovedKeepsOthers(ms: seq<Managed>, gone: Path, path: Path)
    requires gone != path
    ensures multiset(OfPath(Removed(ms, gone), path)) == multiset(OfPath(ms, path))
  {
    hide OfPath, LastIndex;
    var i, n := LastIndex(ms, gone, |ms|), |ms| - 1;
    if i >= 0 {
      var r := Removed(ms, gone);
      OfPathAround(ms, i, path);
      OfPathOne(ms[i], path);
      if i < n {
        OfPathAround(r, i, path);
        OfPathConcat(ms[i + 1..n], [ms[n]], path);
        assert r[..i] == ms[..i] && r[i + 1..] == ms[i + 1..n] && r[i] == ms[n];
        assert ms[i + 1..] == ms[i + 1..n] + [ms[n]];
        SwappedParts(OfPath(ms[..i], path), OfPath(ms[i + 1..n], path), OfPath([ms[n]], path));
      } else {
        NoneOfPath(ms[i + 1..], path);
        assert r == ms[..i];
      }
    }
  }

  /** How many machines of a path a clean pass deletes. */
  function GoneAt(ms: seq<Managed>, disk: Disk, path: Path): nat {
    if ms == [] then 0
    else
      var n := |ms| - 1;
      GoneAt(ms[..n], disk, path) + if IsTarget(disk, ms[n]) && ms[n].path == path then 1 else 0
  }

  function Count(ts: seq<Path>, path: Path): nat {
    if ts == [] then 0 else Count(ts[..|ts| - 1], path) + if ts[|ts| - 1] == path then 1 else 0
  }

  lemma {:induction false} TargetsCount(ms: seq<Managed>, disk: Disk, n: nat, path: Path)
    requires n <= |ms|
    ensures Count(Targets(ms, disk, n), path) == GoneAt(ms[..n], disk, path)
  {
    if n > 0 {
      TargetsCount(ms, disk, n - 1, path);
      assert ms[..n][..n - 1] == ms[..n - 1];
      var before := Targets(ms, disk, n - 1);
      if IsTarget(disk, ms[n - 1]) {
        assert (before + [ms[n - 1].path])[..|before|] == before;
      } else {
        assert before + [] == before;
      }
    }
  }

  lemma {:induction false} GoneAreOfPath(ms: seq<Managed>, disk: Disk, path: Path)
    ensures GoneAt(ms, disk, path) <= |OfPath(ms, path)|
  {
    if ms != [] {
      GoneAreOfPath(ms[..|ms| - 1], disk, path);
    }
  }

  /** As many machines of a path stay as were not gone, whichever these are. */
  lemma {:induction false} RemovedAllCount(ms: seq<Managed>, ts: seq<Path>, n: nat, path: Path)
    requires n <= |ts| && Count(ts[..n], path) <= |OfPath(ms, path)|
    ensures |OfPath(RemovedAll(ms, ts, n), path)| == |OfPath(ms, path)| - Count(ts[..n], path)
  {
    if n > 0 {
      assert ts[..n][..n - 1] == ts[..n - 1];
      RemovedAllCount(ms, ts, n - 1, path);
      var before := RemovedAll(ms, ts, n - 1);
      if ts[n - 1] == path {
        RemovedDropsTheLast(before, path);
      } else {
        RemovedKeepsOthers(before, ts[n - 1], path);
        SameSize(OfPath(Removed(before, ts[n - 1]), path), OfPath(before, path));
      }
    }
  }

  lemma SameSize(a: seq<Managed>, b: seq<Managed>)
    requires multiset(a) == multiset(b)
    ensures |a| == |b|
  {
    assert |multiset(a)| == |a| && |multiset(b)| == |b|;
  }

  /** In the targets, all occurrences of the path come first. */
  ghost predicate ComesFirst(ts: seq<Path>, path: Path) {
    forall i, j :: 0 <= i < j < |ts| && ts[j] == path ==> ts[i] == path
  }

  /** While a path's own machines are deleted its last ones go; deleting others afterwards keeps what is left. */
  lemma {:induction false} RemovedAllDropsTheLast(ms: seq<Managed>, ts: seq<Path>, n: nat, path: Path)
    requires n <= |ts| && ComesFirst(ts, path) && Count(ts[..n], path) <= |OfPath(ms, path)|
    ensures var kept := OfPath(ms, path)[..|OfPath(ms, path)| - Count(ts[..n], path)];
      && multiset(OfPath(RemovedAll(ms, ts, n), path)) == multiset(kept)
      && (n > 0 && ts[n - 1] == path ==> OfPath(RemovedAll(ms, ts, n), path) == kept)
  {
    hide OfPath, Removed;
    if n == 0 {
      assert OfPath(ms, path)[..|OfPath(ms, path)|] == OfPath(ms, path);
    } else {
      assert ts[..n][..n - 1] == ts[..n - 1];
      RemovedAllDropsTheLast(ms, ts, n - 1, path);
      var before := RemovedAll(ms, ts, n - 1);
      if ts[n - 1] == path {
        assert Count(ts[..n], path) == Count(ts[..n - 1], path) + 1;
        if n == 1 {
          assert OfPath(ms, path)[..|OfPath(ms, path)|] == OfPath(ms, path);
        } else {
          assert ts[n - 2] == path;
        }
        var all, kept := OfPath(ms, path), |OfPath(ms, path)| - Count(ts[..n], path);
        assert OfPath(before, path) == all[..kept + 1];
        RemovedDropsTheLast(before, path);
        assert all[..kept + 1][..kept] == all[..kept];
      } else {
        RemovedKeepsOthers(before, ts[n - 1], path);
      }
    }
  }

  /** No gone machine of another path stands before a gone machine of this path. */
  ghost predicate GoneFirst(ms: seq<Managed>, disk: Disk, path: Path) {
    forall i, j :: 0 <= i < j < |ms| && IsTarget(disk, ms[i]) && IsTarget(disk, ms[j]) && ms[j].path == path ==>
      ms[i].path == path
  }

  lemma {:induction false} TargetsComeFirst(ms: seq<Managed>, disk: Disk, n: nat, path: Path)
    requires n <= |ms| && GoneFirst(ms, disk, path)
    ensures ComesFirst(Targets(ms, disk, n), path)
  {
    if n > 0 {
      TargetsComeFirst(ms, disk, n - 1, path);
      var before := Targets(ms, disk, n - 1);
      forall i | 0 <= i < |before| && IsTarget(disk, ms[n - 1]) && ms[n - 1].path == path ensures before[i] == path {
        assert before[i] in before;
      }
    }
  }

  /**
   * Of a path with several machines cleaning keeps exactly the first ones: as many machines are dropped from the end
   * as are gone. So a plugin stays if and only if at least that many machines of its path follow it - provided that
   * no other gone machine is deleted before.
   */
  lemma CleaningKeepsTheFirst(ms: seq<Managed>, disk: Disk, path: Path)
    requires GoneFirst(ms, disk, path)
    ensures GoneAt(ms, disk, path) <= |OfPath(ms, path)|
    ensures multiset(OfPath(Cleaned(ms, disk), path)) ==
            multiset(OfPath(ms, path)[..|OfPath(ms, path)| - GoneAt(ms, disk, path)])
  {
    hide OfPath, GoneAt, Targets, Count, RemovedAll, GoneFirst, ComesFirst;
    var ts := Targets(ms, disk, |ms|);
    TargetsComeFirst(ms, disk, |ms|, path);
    TargetsCount(ms, disk, |ms|, path);
    assert ms[..|ms|] == ms && ts[..|ts|] == ts;
    GoneAreOfPath(ms, disk, path);
    RemovedAllDropsTheLast(ms, ts, |ts|, path);
  }

  /** In general only the number is certain: swapping into the place of another deleted machine changes the order. */
  lemma CleaningKeepsTheNumber(ms: seq<Managed>, disk: Disk, path: Path)
    ensures |OfPath(Cleaned(ms, disk), path)| == |OfPath(ms, path)| - GoneAt(ms, disk, path)
  {
    hide OfPath, GoneAt, Targets, Count, RemovedAll;
    var ts := Targets(ms, disk, |ms|);
    TargetsCount(ms, disk, |ms|, path);
    assert ms[..|ms|] == ms && ts[..|ts|] == ts;
    GoneAreOfPath(ms, disk, path);
    RemovedAllCount(ms, ts, |ts|, path);
  }

  lemma {:induction false} OfPathHas(ms: seq<Managed>, path: Path, m: Managed)
    requires m.path == path
    ensures multiset(OfPath(ms, path))[m] == multiset(ms)[m]
  {
    if ms != [] {
      var n := |ms| - 1;
      OfPathHas(ms[..n], path, m);
      assert ms == ms[..n] + [ms[n]];
    }
  }

  /** The only plugin of a path is found in the first `n` of its machines exactly if fewer than that stand before it. */
  lemma PluginAmongTheFirst(before: seq<Managed>, plugin: Managed, after: seq<Managed>, n: nat)
    requires n <= |before| + 1 + |after| && plugin !in before && plugin !in after
    ensures plugin in (before + [plugin] + after)[..n] <==> |before| < n
  {
    var all := before + [plugin] + after;
    if |before| < n {
      assert all[..n][|before|] == plugin;
    }
  }

  /**
   * The plugin of a path survives cleaning if and only if at least as many machines of its path follow it as are gone,
   * provided that no other gone machine is deleted before.
   */
  lemma PluginSurvivesExactly(ms: seq<Managed>, disk: Disk, path: Path, a: nat)
    requires GoneFirst(ms, disk, path) && a < |ms| && ms[a] == PluginAt(path)
    requires PluginAt(path) !in ms[..a] && PluginAt(path) !in ms[a + 1..]
    ensures PluginAt(path) in Cleaned(ms, disk) <==> |OfPath(ms[a + 1..], path)| >= GoneAt(ms, disk, path)
  {
    hide OfPath, GoneAt, Cleaned, GoneFirst;
    var plugin, cleaned := PluginAt(path), Cleaned(ms, disk);
    CleaningKeepsTheFirst(ms, disk, path);
    OfPathAround(ms, a, path);
    OfPathOne(plugin, path);
    OfPathHas(ms[..a], path, plugin);
    OfPathHas(ms[a + 1..], path, plugin);
    OfPathHas(cleaned, path, plugin);
    var all := OfPath(ms, path);
    var kept := |all| - GoneAt(ms, disk, path);
    PluginAmongTheFirst(OfPath(ms[..a], path), plugin, OfPath(ms[a + 1..], path), kept);
    assert plugin in cleaned <==> multiset(all[..kept])[plugin] > 0;
  }

  /** With a path in use twice cleaning can remove the plugin and keep the machine that is gone from disk. */
  lemma DuplicatePathLosesThePlugin(path: Path, c: Content)
    ensures Cleaned([Managed(path, Some(c), false), PluginAt(path)], map[]) == [Managed(path, Some(c), false)]
  {
    var stale, plugin := Managed(path, Some(c), false), PluginAt(path);
    var ms := [stale, plugin];
    assert Targets(ms, map[], 1) == [path] && Targets(ms, map[], 2) == [path];
    assert RemovedAll(ms, [path], 1) == Removed(ms, path) == [stale];
  }

  /** When another machine is deleted before, the number of followers decides neither way. */
  lemma FollowersDoNotDecide(gone: Path, path: Path, c: Content)
    requires gone != path
    ensures var other, stale, plugin := Managed(gone, Some(c), false), Managed(path, Some(c), false), PluginAt(path);
      && Cleaned([other, plugin, stale], map[]) == [stale]
      && Cleaned([other, stale, plugin], map[]) == [plugin]
  {
    var other, stale, plugin := Managed(gone, Some(c), false), Managed(path, Some(c), false), PluginAt(path);
    var a, b := [other, plugin, stale], [other, stale, plugin];
    assert Targets(a, map[], 1) == [gone] && Targets(a, map[], 2) == [gone] && Targets(a, map[], 3) == [gone, path];
    assert Targets(b, map[], 1) == [gone] && Targets(b, map[], 2) == [gone, path]
           && Targets(b, map[], 3) == [gone, path];
    var ts := [gone, path];
    assert RemovedAll(a, ts, 1) == Removed(a, gone) == [stale, plugin];
    assert RemovedAll(b, ts, 1) == Removed(b, gone) == [plugin, stale];
  }

  function OtherPaths(ms: seq<Managed>, path: Path): seq<Managed> {
    if ms == [] then []
    else
      var n := |ms| - 1;
      OtherPaths(ms[..n], path) + if ms[n].path == path then [] else [ms[n]]
  }

  lemma {:induction false} PathsPartition(ms: seq<Managed>, path: Path)
    ensures multiset(OfPath(ms, path)) + multiset(OtherPaths(ms, path)) == multiset(ms)
  {
    if ms != [] {
      var n := |ms| - 1;
      PathsPartition(ms[..n], path);
      LastOne(ms, ms[..n], ms[n]);
      LastOne(OfPath(ms[..n], path) + [ms[n]], OfPath(ms[..n], path), ms[n]);
      LastOne(OtherPaths(ms[..n], path) + [ms[n]], OtherPaths(ms[..n], path), ms[n]);
    }
  }

  lemma LastOne(all: seq<Managed>, but: seq<Managed>, last: Managed)
    requires all == but + [last]
    ensures multiset(all) == multiset(but) + multiset{last}
  {
  }

  lemma {:induction false} PathsOfParts(ms: seq<Managed>, path: Path)
    ensures forall i :: 0 <= i < |OfPath(ms, path)| ==> OfPath(ms, path)[i].path == path
    ensures forall i :: 0 <= i < |OtherPaths(ms, path)| ==> OtherPaths(ms, path)[i].path != path
  {
    if ms != [] {
      PathsOfParts(ms[..|ms| - 1], path);
    }
  }

  lemma {:induction false} AllOfPath(ms: seq<Managed>, path: Path)
    requires forall i :: 0 <= i < |ms| ==> ms[i].path == path
    ensures OfPath(ms, path) == ms
  {
    if ms != [] {
      AllOfPath(ms[..|ms| - 1], path);
    }
  }

  lemma {:induction false} GoneSomewhere(ms: seq<Managed>, disk: Disk, path: Path)
    ensures GoneAt(ms, disk, path) > 0 <==> exists m :: m in ms && IsTarget(disk, m) && m.path == path
  {
    if ms != [] {
      var n := |ms| - 1;
      GoneSomewhere(ms[..n], disk, path);
      assert ms == ms[..n] + [ms[n]];
    }
  }

  /** The machines of one path moved to the front, with a plugin last among them. */
  lemma PluginLast(ms: seq<Managed>, path: Path) returns (front: seq<Managed>, others: seq<Managed>)
    requires PluginAt(path) in ms
    ensures multiset(front + [PluginAt(path)] + others) == multiset(ms)
    ensures forall i :: 0 <= i < |front| ==> front[i].path == path
    ensures forall i :: 0 <= i < |others| ==> others[i].path != path
  {
    hide OfPath, OtherPaths;
    var plugin, own := PluginAt(path), OfPath(ms, path);
    PathsPartition(ms, path);
    PathsOfParts(ms, path);
    OfPathHas(ms, path, plugin);
    assert multiset(own)[plugin] > 0;
    var a :| 0 <= a < |own| && own[a] == plugin;
    front, others := own[..a] + own[a + 1..], OtherPaths(ms, path);
    assert own == own[..a] + [plugin] + own[a + 1..];
    MovedBack(own[..a], own[a + 1..], plugin);
  }

  lemma MovedBack(a: seq<Managed>, b: seq<Managed>, m: Managed)
    ensures multiset(a + b + [m]) == multiset(a + [m] + b)
  {
  }

  lemma PluginLastIsLost(front: seq<Managed>, others: seq<Managed>, disk: Disk, path: Path)
    requires forall i :: 0 <= i < |front| ==> front[i].path == path
    requires forall i :: 0 <= i < |others| ==> others[i].path != path
    requires exists m :: m in front + [PluginAt(path)] + others && IsTarget(disk, m) && m.path == path
    ensures var ms := front + [PluginAt(path)] + others;
            multiset(Cleaned(ms, disk))[PluginAt(path)] < multiset(ms)[PluginAt(path)]
  {
    hide Cleaned, GoneAt, OfPath;
    var plugin := PluginAt(path);
    var own := front + [plugin];
    var ms := own + others;
    AllOfPath(own, path);
    NoneOfPath(others, path);
    OfPathConcat(own, others, path);
    GoneSomewhere(ms, disk, path);
    CleaningKeepsTheFirst(ms, disk, path);
    OfPathHas(ms, path, plugin);
    OfPathHas(Cleaned(ms, disk), path, plugin);
    var k := |own| - GoneAt(ms, disk, path);
    assert own + [] == own;
    assert front == front[..k] + front[k..] && own[..k] == front[..k];
  }

  /**
   * A plugin survives cleaning whatever the order of the machines exactly if no machine that is gone from disk has its
   * path; loading plugins at free paths only sees to that.
   */
  lemma PluginIsSafeInAnyOrderExactly(ms: seq<Managed>, disk: Disk, path: Path)
    requires PluginAt(path) in ms
    ensures (forall ms' :: multiset(ms') == multiset(ms) ==>
               multiset(Cleaned(ms', disk))[PluginAt(path)] == multiset(ms')[PluginAt(path)]) <==>
            !exists m :: m in ms && IsTarget(disk, m) && m.path == path
  {
    hide Cleaned;
    var plugin := PluginAt(path);
    if m :| m in ms && IsTarget(disk, m) && m.path == path {
      var front, others := PluginLast(ms, path);
      var ms' := front + [plugin] + others;
      assert m in multiset(ms');
      PluginLastIsLost(front, others, disk, path);
    } else {
      forall ms' | multiset(ms') == multiset(ms)
        ensures multiset(Cleaned(ms', disk))[plugin] == multiset(ms')[plugin]
      {
        NothingGoneNothingLost(ms, ms', disk, path);
      }
    }
  }

  lemma NothingGoneNothingLost(ms: seq<Managed>, ms': seq<Managed>, disk: Disk, path: Path)
    requires multiset(ms') == multiset(ms) && !exists m :: m in ms && IsTarget(disk, m) && m.path == path
    ensures multiset(Cleaned(ms', disk))[PluginAt(path)] == multiset(ms')[PluginAt(path)]
  {
    hide Cleaned, GoneAt, OfPath;
    forall m | m in ms' ensures !(IsTarget(disk, m) && m.path == path) {
      assert m in multiset(ms);
    }
    GoneSomewhere(ms', disk, path);
    CleaningKeepsTheFirst(ms', disk, path);
    OfPathHas(ms', path, PluginAt(path));
    OfPathHas(Cleaned(ms', disk), path, PluginAt(path));
    assert OfPath(ms', path)[..|OfPath(ms', path)|] == OfPath(ms', path);
  }

  // ---------------------------------------------------------------------------------------------------------
  // The agent host object

  class AAgent {
    var machines: seq<Managed>

    constructor ()
      ensures machines == []
    {
      machines := [];
    }

    method FindMachine(path: Path) returns (found: Option<Managed>)
      ensures found == Find(machines, path, 0)
    {
      var i := 0;
      while i < |machines|
        invariant i <= |machines| && Find(machines, path, i) == Find(machines, path, 0)
      {
        if machines[i].path == path {
          return Some(machines[i]);
        }
        i := i + 1;
      }
      return None;
    }

    method DeleteByPath(path: Path) returns (ok: bool)
      modifies this`machines
      ensures machines == Removed(old(machines), path)
      ensures ok <==> path in PathsOf(old(machines))
    {
      var hit := -1;
      for i := 0 to |machines|
        invariant hit == LastIndex(machines, path, i)
      {
        if machines[i].path == path {
          hit := i;
        }
      }
      ok := hit >= 0;
      if hit >= 0 {
        assert PathsOf(machines)[hit] == path;
        machines := machines[hit := machines[|machines| - 1]];
        machines := machines[..|machines| - 1];
      }
    }

    method LoadMachine(disk: Disk, path: Path) returns (ok: bool)
      modifies this`machines
      ensures machines == old(machines) + Loaded(disk, path) && (ok <==> Loaded(disk, path) != [])
    {
      ok := false;
      if path in disk && disk[path].Dir? {
        var manifest := disk[path].manifest;
        if manifest.Some? && manifest.value.loads {
          machines := machines + [Managed(path, manifest, false)];
          ok := true;
        }
      }
    }

    method LoadFromSource(disk: Disk, files: seq<Path>)
      modifies this`machines
      ensures machines == LoadAll(old(machines), disk, files, |files|)
    {
      for i := 0 to |files|
        invariant machines == LoadAll(old(machines), disk, files, i)
      {
        var path := files[i];
        if path !in disk || !disk[path].Dir? || path == "tmp" || "." <= path || HasSuffix(path, "-temp") {
          continue;
        }
        var current := FindMachine(path);
        if current.Some? && !current.value.plugin {
          if CurrentHash(disk, path) == current.value.hash {
            continue;
          }
          var _ := DeleteByPath(path);
        }
        if current.Some? && current.value.plugin {
          continue;
        }
        var _ := LoadMachine(disk, path);
      }
    }

    method Clean(disk: Disk)
      modifies this`machines
      ensures machines == Cleaned(old(machines), disk)
    {
      var targets: seq<Path> := [];
      for i := 0 to |machines|
        invariant machines == old(machines) && targets == Targets(machines, disk, i)
      {
        var m := machines[i];
        if m.plugin {
          continue;
        }
        if m.path !in disk {
          targets := targets + [m.path];
        }
      }
      for i := 0 to |targets|
        invariant machines == RemovedAll(old(machines), targets, i)
      {
        var _ := DeleteByPath(targets[i]);
      }
    }

    method TickOnce(disk: Disk, files: seq<Path>, listable: bool)
      modifies this`machines
      ensures machines == Ticked(old(machines), disk, files, listable)
    {
      Clean(disk);
      if listable {
        LoadFromSource(disk, files);
      }
    }
  }
}
