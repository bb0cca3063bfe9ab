/**
 Whole runs of the coordinator against the substrate, driven event by event:
 an undisturbed run, and the restart traced in the driver script, where a child
 of the first run finishes while the second run is still computing its files.
 */
module Scenarios {
  import opened Sorting
  import opened Workflows

  /** Three pairs with three different IDs, none running: all three start, in order. */
  lemma SpawnThree(a: Hash, da: nat, b: Hash, db: nat, c: Hash, dc: nat, live: set<string>)
    requires WorkerId(a) != WorkerId(b) && WorkerId(a) != WorkerId(c) && WorkerId(b) != WorkerId(c)
    requires WorkerId(a) !in live && WorkerId(b) !in live && WorkerId(c) !in live
    ensures Spawned([(a, da), (b, db), (c, dc)], live) ==
      [ChildHandle(WorkerId(a), da, a), ChildHandle(WorkerId(b), db, b), ChildHandle(WorkerId(c), dc, c)]
  {
    var p: seq<(Hash, nat)> := [(a, da), (b, db), (c, dc)];
    var ia, ib, ic := WorkerId(a), WorkerId(b), WorkerId(c);
    assert p[1..] == [(b, db), (c, dc)] && p[1..][1..] == [(c, dc)] && p[1..][1..][1..] == [];
    assert Spawned(p[1..][1..][1..], live + {ia} + {ib} + {ic}) == [];
    assert Spawned(p[1..][1..], live + {ia} + {ib}) == [ChildHandle(ic, dc, c)];
    assert Spawned(p[1..], live + {ia}) == [ChildHandle(ib, db, b), ChildHandle(ic, dc, c)];
  }

  /** Three pairs of which the last two are running: only the first starts. */
  lemma SpawnFirstOnly(a: Hash, da: nat, b: Hash, db: nat, c: Hash, dc: nat, live: set<string>)
    requires WorkerId(a) !in live && WorkerId(b) in live && WorkerId(c) in live
    ensures Spawned([(a, da), (b, db), (c, dc)], live) == [ChildHandle(WorkerId(a), da, a)]
  {
    var p: seq<(Hash, nat)> := [(a, da), (b, db), (c, dc)];
    var l := live + {WorkerId(a)};
    assert p[1..] == [(b, db), (c, dc)] && p[1..][1..] == [(c, dc)] && p[1..][1..][1..] == [];
    assert Spawned(p[1..][1..][1..], l) == [];
    assert Spawned(p[1..][1..], l) == [];
    assert Spawned(p[1..], l) == [];
  }

  /** On an idle cluster every planned pair starts a child, in sorted order. */
  lemma SpawnOnIdleCluster()
    ensures Spawned(Plan, {}) == [
      ChildHandle(WorkerId(Ones), 3, Ones),
      ChildHandle(WorkerId(Twos), 9, Twos),
      ChildHandle(WorkerId(Threes), 20, Threes)]
  {
    DeclaredIdsDistinct();
    SpawnThree(Ones, 3, Twos, 9, Threes, 20, {});
  }

  /** When the children for twos and threes are still running only ones is started. */
  lemma SpawnWithTwoRunning()
    ensures Spawned(Plan, {WorkerId(Twos), WorkerId(Threes)}) == [ChildHandle(WorkerId(Ones), 3, Ones)]
  {
    DeclaredIdsDistinct();
    SpawnFirstOnly(Ones, 3, Twos, 9, Threes, 20, {WorkerId(Twos), WorkerId(Threes)});
  }

  /** The IDs the plan asks for. */
  lemma PlannedIds()
    ensures IdsOf(Plan) == {WorkerId(Ones), WorkerId(Twos), WorkerId(Threes)}
  {
  }

  /** A download child runs to completion, its run is closed and its one signal is
      delivered to the coordinator currently running under the coordinator ID. */
  method CompleteDownload(cluster: Cluster, master: Master, duration: nat, sha: Hash) returns (outcome: Removal)
    requires master.Valid()
    modifies cluster, master`pending
    ensures master.Valid()
    ensures outcome == if sha in old(master.pending) then Removed else NotPresent
    ensures master.pending == old(master.pending) - {sha}
    ensures cluster.live == old(cluster.live) - {WorkerId(sha)}
    ensures cluster.history == old(cluster.history) + [Worked(Fetch(sha), duration), Signalled(MasterId, sha)]
  {
    RunDownload(cluster, duration, sha);
    cluster.Close(WorkerId(sha));
    outcome := master.FileCompletedDownload(sha);
  }

  /** A fresh coordinator on an idle cluster computes its files and starts one
      child per file. */
  method StartRun() returns (cluster: Cluster, master: Master)
    ensures fresh(cluster) && fresh(master)
    ensures master.Valid() && master.phase == Gathering
    ensures master.pending == DeclaredFiles
    ensures master.downloads == Spawned(Plan, {})
    ensures cluster.live == IdsOf(Plan)
  {
    cluster := new Cluster();
    master := new Master();
    master.Startup(cluster);
    master.SpawnAll(cluster);
  }

  /** From the gather on: the three downloads finish and signal, the gather
      completes and the cleanup runs once. Whatever the coordinator started, every
      running ID is one of the planned ones, so all of them have closed by then. */
  method FinishRun(cluster: Cluster, master: Master) returns (remaining: set<Hash>, cleanups: nat)
    requires master.Valid() && master.phase == Gathering
    requires master.pending == DeclaredFiles
    requires cluster.live <= IdsOf(Plan)
    modifies cluster, master
    ensures remaining == {} && cleanups == 1
  {
    PlannedIds();
    var r1 := CompleteDownload(cluster, master, 3, Ones);
    var r2 := CompleteDownload(cluster, master, 9, Twos);
    var r3 := CompleteDownload(cluster, master, 20, Threes);
    assert cluster.live == {};

    var gathered := master.AwaitDownloads(cluster);
    assert gathered;
    var ran := master.TryCleanup(cluster);
    assert ran;
    remaining := master.pending;
    cleanups := master.cleanupRuns;
  }

  /** Start, spawn, the three downloads finish and signal, the children are
      gathered and the cleanup runs once. */
  method NormalRun() returns (started: seq<ChildHandle>, remaining: set<Hash>, cleanups: nat)
    ensures started == [
      ChildHandle(WorkerId(Ones), 3, Ones),
      ChildHandle(WorkerId(Twos), 9, Twos),
      ChildHandle(WorkerId(Threes), 20, Threes)]
    ensures remaining == {} && cleanups == 1
  {
    var cluster, master := StartRun();
    SpawnOnIdleCluster();
    started := master.downloads;
    remaining, cleanups := FinishRun(cluster, master);
  }

  /** The coordinator is replaced under its own ID while its children keep running
      (`ABANDON`); the child for ones finishes before the new run has computed its
      files, so its signal finds nothing to remove. */
  method Restart(cluster: Cluster) returns (second: Master, early: Removal)
    requires cluster.live == IdsOf(Plan)
    modifies cluster
    ensures fresh(second) && second.Valid() && second.phase == Starting
    ensures early == NotPresent
    ensures cluster.live == {WorkerId(Twos), WorkerId(Threes)}
  {
    PlannedIds();
    DeclaredIdsDistinct();
    RemoveFirst(WorkerId(Ones), WorkerId(Twos), WorkerId(Threes));
    second := new Master();
    early := CompleteDownload(cluster, second, 3, Ones);
  }

  lemma RemoveFirst(a: string, b: string, c: string)
    requires a != b && a != c
    ensures {a, b, c} - {a} == {b, c}
  {
  }

  /** The restart traced in the driver: the new run starts ones again, finds twos
      and threes already running, and still converges once all three signal it. */
  method RestartRun() returns (early: Removal, respawned: seq<ChildHandle>, remaining: set<Hash>, cleanups: nat)
    ensures early == NotPresent
    ensures respawned == [ChildHandle(WorkerId(Ones), 3, Ones)]
    ensures remaining == {} && cleanups == 1
  {
    var cluster, first := StartRun();
    var second;
    second, early := Restart(cluster);
    second.Startup(cluster);
    second.SpawnAll(cluster);
    SpawnWithTwoRunning();
    respawned := second.downloads;
    remaining, cleanups := FinishRun(cluster, second);
  }
}
