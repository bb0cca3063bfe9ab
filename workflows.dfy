/**
 The three Temporal workflows of the download coordinator.

 The orchestration substrate is the class `Cluster`: the IDs of the child
 workflows that are currently running, and the ordered history of what the
 workflows did (a child started, a simulated piece of work, a signal sent).
 `Master` is the coordinator (`MasterWorkflow`): its `run` coroutine is split
 at its suspension points into the event methods `Startup`, `SpawnAll`,
 `AwaitDownloads` and `TryCleanup`, and its signal handler is
 `FileCompletedDownload`. `RunDownload`, `RunCleanup` and `DoCleanup` are the
 bodies of the two child workflows.
 */
module Workflows {
  import opened Sorting

  /** A file's SHA-256 as its hex string. */
  type Hash = string

  const MasterId: string := "master-workflow"
  const CleanupId: string := "cleanup-workflow"
  const DownloadIdPrefix: string := "download-workflow-"

  /** `"1" * 64`, `"2" * 64` and `"3" * 64` */
  const Ones: Hash := seq(64, _ => '1')
  const Twos: Hash := seq(64, _ => '2')
  const Threes: Hash := seq(64, _ => '3')

  /** The files the coordinator decides to download, and the simulated download
      times handed out to them in sorted order. */
  const DeclaredFiles: set<Hash> := {Ones, Twos, Threes}
  const Durations: seq<nat> := [3, 9, 20]

  /** The pairs the spawn loop visits, `zip(sorted(files), [3, 9, 20])`: the files
      in ascending order, each paired with the duration at its position, as many
      pairs as there are files or durations, whichever is fewer. */
  function SpawnOrder(files: set<Hash>): (r: seq<(Hash, nat)>)
    ensures |r| == if |files| < |Durations| then |files| else |Durations|
    ensures forall i | 0 <= i < |r| :: r[i].0 in files && r[i].1 == Durations[i]
    ensures forall i, j | 0 <= i < j < |r| :: Below(r[i].0, r[j].0) && r[i].0 != r[j].0
  {
    Zip(SortedOf(files), Durations)
  }

  /** When there are more files than durations, the files left out all sort after
      the files kept, as with `zip` over the sorted list. */
  lemma SpawnOrderKeepsLeast(files: set<Hash>, i: nat, x: Hash)
    requires i < |SpawnOrder(files)| && x in files
    requires forall k | 0 <= k < |SpawnOrder(files)| :: SpawnOrder(files)[k].0 != x
    ensures Below(SpawnOrder(files)[i].0, x)
  {
    var sorted := SortedOf(files);
    var r := SpawnOrder(files);
    assert forall k | 0 <= k < |r| :: r[k].0 == sorted[k];
    KeptBeforeDropped(sorted, |r|, i, x);
  }

  /** In a strictly ascending list, an element outside the first `n` sorts after
      every element inside them. */
  lemma KeptBeforeDropped(sorted: seq<string>, n: nat, i: nat, x: string)
    requires Ascending(sorted) && i < n <= |sorted|
    requires x in sorted && forall k | 0 <= k < n :: sorted[k] != x
    ensures Below(sorted[i], x)
  {
    var j :| 0 <= j < |sorted| && sorted[j] == x;
    assert i < j;
  }

  /** The spawn order for the declared files; `DeclaredPlan` proves that this is what
      the sorting yields. */
  const Plan: seq<(Hash, nat)> := [(Ones, 3), (Twos, 9), (Threes, 20)]

  /** Python's `sha[:7]`: the first seven characters, or all of a shorter string. */
  function ShortSha(sha: Hash): (r: string)
    ensures |r| == if |sha| < 7 then |sha| else 7
    ensures r == sha[..|r|]
  {
    if |sha| < 7 then sha else sha[..7]
  }

  /** The workflow ID a download child is started under. */
  function WorkerId(sha: Hash): (r: string)
    ensures DownloadIdPrefix <= r
  {
    DownloadIdPrefix + ShortSha(sha)
  }

  /** The ID is the prefix followed by the hash's first seven characters (all of a
      shorter hash). */
  lemma WorkerIdShape(sha: Hash)
    ensures |WorkerId(sha)| == |DownloadIdPrefix| + if |sha| < 7 then |sha| else 7
    ensures forall i | |DownloadIdPrefix| <= i < |WorkerId(sha)| :: WorkerId(sha)[i] == sha[i - |DownloadIdPrefix|]
  {
  }

  /** Two files get the same child ID exactly when their first seven characters agree. */
  lemma WorkerIdSameIff(a: Hash, b: Hash)
    ensures WorkerId(a) == WorkerId(b) <==> ShortSha(a) == ShortSha(b)
  {
    if WorkerId(a) == WorkerId(b) {
      assert WorkerId(a)[|DownloadIdPrefix|..] == ShortSha(a);
      assert WorkerId(b)[|DownloadIdPrefix|..] == ShortSha(b);
    }
  }

  /** The effects the workflows have on the world, in the order they happen. */
  datatype Task = Calculate | Fetch(sha: Hash) | RecordDb | Finalize
  datatype Effect =
    | Launched(id: string)
    | Worked(task: Task, seconds: nat)
    | Signalled(target: string, sha: Hash)

  /** What starting a child reports; `AlreadyStarted` stands for
      `WorkflowAlreadyStartedError`. */
  datatype StartResult = Started | AlreadyStarted

  /** What the completion handler did: `NotPresent` stands for the swallowed `KeyError`. */
  datatype Removal = Removed | NotPresent

  /** A started download child, with the arguments it was started with. */
  datatype ChildHandle = ChildHandle(id: string, duration: nat, sha: Hash)

  /** Where the coordinator's `run` coroutine is suspended. */
  datatype Phase =
    | Starting   // computing the files to download (the startup sleep)
    | Spawning   // files known, children not yet started
    | Gathering  // awaiting the started children
    | Waiting    // waiting for the pending set to become empty
    | Done       // the cleanup child has run

  /** The orchestration substrate, seen by the workflows. */
  class Cluster {
    var live: set<string>
    var history: seq<Effect>

    constructor()
      ensures live == {} && history == []
    {
      live := {};
      history := [];
    }

    method Record(e: Effect)
      modifies this`history
      ensures history == old(history) + [e]
    {
      history := history + [e];
    }

    /** Start a child under `id` unless a child with that ID is running. */
    method StartChild(id: string) returns (r: StartResult)
      modifies this
      ensures r == if id in old(live) then AlreadyStarted else Started
      ensures live == old(live) + {id}
      ensures history == old(history) + if r == Started then [Launched(id)] else []
    {
      if id in live {
        r := AlreadyStarted;
      } else {
        r := Started;
        live := live + {id};
        history := history + [Launched(id)];
      }
    }

    /** Start a child under `id`, terminating a running one with that ID first
        (the `TERMINATE_IF_RUNNING` reuse policy). */
    method StartReplacing(id: string)
      modifies this
      ensures live == old(live) + {id}
      ensures history == old(history) + [Launched(id)]
    {
      live := live + {id};
      history := history + [Launched(id)];
    }

    /** The child running under `id` has finished. */
    method Close(id: string)
      modifies this`live
      ensures live == old(live) - {id}
    {
      live := live - {id};
    }
  }

  /** `DownloadWorkflow.run`: the download, then one completion signal carrying
      the full hash to the coordinator. */
  method RunDownload(cluster: Cluster, duration: nat, sha: Hash)
    modifies cluster`history
    ensures cluster.history == old(cluster.history) + [Worked(Fetch(sha), duration), Signalled(MasterId, sha)]
  {
    cluster.Record(Worked(Fetch(sha), duration));
    cluster.Record(Signalled(MasterId, sha));
  }

  /** `CleanupWorkflow.run`: the database work, then `_do_cleanup`. */
  method RunCleanup(cluster: Cluster)
    modifies cluster`history
    ensures cluster.history == old(cluster.history) + [Worked(RecordDb, 2), Worked(Finalize, 2)]
  {
    cluster.Record(Worked(RecordDb, 2));
    DoCleanup(cluster);
  }

  /** `CleanupWorkflow._do_cleanup`. */
  method DoCleanup(cluster: Cluster)
    modifies cluster`history
    ensures cluster.history == old(cluster.history) + [Worked(Finalize, 2)]
  {
    cluster.Record(Worked(Finalize, 2));
  }

  /** The payloads of the signals sent to `target`, in the order they were sent. */
  function SignalsTo(target: string, h: seq<Effect>): (r: seq<Hash>)
  {
    if h == [] then []
    else
      var e := h[|h| - 1];
      SignalsTo(target, h[..|h| - 1]) + if e.Signalled? && e.target == target then [e.sha] else []
  }

  lemma {:induction false} SignalsToAppend(target: string, a: seq<Effect>, b: seq<Effect>)
    ensures SignalsTo(target, a + b) == SignalsTo(target, a) + SignalsTo(target, b)
    decreases |b|
  {
    if b == [] {
      assert a + b == a;
    } else {
      var e := b[|b| - 1];
      var tail := if e.Signalled? && e.target == target then [e.sha] else [];
      assert (a + b)[..|a + b| - 1] == a + b[..|b| - 1];
      assert (a + b)[|a + b| - 1] == e;
      assert SignalsTo(target, a + b) == SignalsTo(target, a + b[..|b| - 1]) + tail;
      assert SignalsTo(target, b) == SignalsTo(target, b[..|b| - 1]) + tail;
      SignalsToAppend(target, a, b[..|b| - 1]);
    }
  }

  /** A download run adds exactly one signal to the coordinator, and it carries the
      full hash; it signals no other workflow. */
  lemma DownloadSignalsOnce(h: seq<Effect>, duration: nat, sha: Hash, target: string)
    ensures SignalsTo(MasterId, h + [Worked(Fetch(sha), duration), Signalled(MasterId, sha)])
         == SignalsTo(MasterId, h) + [sha]
    ensures target != MasterId ==>
      SignalsTo(target, h + [Worked(Fetch(sha), duration), Signalled(MasterId, sha)]) == SignalsTo(target, h)
  {
    var run := [Worked(Fetch(sha), duration), Signalled(MasterId, sha)];
    SignalsToAppend(MasterId, h, run);
    SignalsToAppend(target, h, run);
    assert run[..1] == [Worked(Fetch(sha), duration)] && run[..1][..0] == [];
    assert SignalsTo(MasterId, run[..1]) == [] && SignalsTo(target, run[..1]) == [];
  }

  /** The cleanup run signals nobody. */
  lemma CleanupSignalsNothing(h: seq<Effect>, target: string)
    ensures SignalsTo(target, h + [Worked(RecordDb, 2), Worked(Finalize, 2)]) == SignalsTo(target, h)
  {
    var run := [Worked(RecordDb, 2), Worked(Finalize, 2)];
    SignalsToAppend(target, h, run);
    assert run[..1] == [Worked(RecordDb, 2)] && run[..1][..0] == [];
    assert SignalsTo(target, run[..1]) == [];
    assert h + [] == h;
  }

  /** The pending set after the completion handler has run on each of `signals` in turn. */
  function Deliver(pending: set<Hash>, signals: seq<Hash>): (r: set<Hash>)
    ensures r <= pending
    ensures forall x | x in signals :: x !in r
  {
    if signals == [] then pending else Deliver(pending - {signals[0]}, signals[1..])
  }

  /** Handling a stream of completion signals removes exactly the hashes signalled:
      order and repetitions do not matter, and unknown hashes change nothing. */
  lemma {:induction false} DeliverRemovesExactly(pending: set<Hash>, signals: seq<Hash>)
    ensures Deliver(pending, signals) == pending - set x | x in signals
  {
    if signals != [] {
      DeliverRemovesExactly(pending - {signals[0]}, signals[1..]);
      assert (set x | x in signals) == {signals[0]} + set x | x in signals[1..];
    }
  }

  /** The pending set empties exactly when every pending hash has been signalled. */
  lemma Converges(pending: set<Hash>, signals: seq<Hash>)
    ensures Deliver(pending, signals) == {} <==> forall x | x in pending :: x in signals
  {
    DeliverRemovesExactly(pending, signals);
    if Deliver(pending, signals) == {} {
      forall x | x in pending ensures x in signals {
        assert x !in pending - set y | y in signals;
      }
    }
  }

  /** The IDs of the children the spawn loop asks for. */
  function IdsOf(plan: seq<(Hash, nat)>): (r: set<string>)
  {
    set p | p in plan :: WorkerId(p.0)
  }

  lemma IdsOfCons(plan: seq<(Hash, nat)>)
    requires plan != []
    ensures IdsOf(plan) == {WorkerId(plan[0].0)} + IdsOf(plan[1..])
  {
    assert forall p | p in plan :: p == plan[0] || p in plan[1..];
  }

  function HandleIds(handles: seq<ChildHandle>): (r: set<string>)
  {
    set h | h in handles :: h.id
  }

  lemma HandleIdsCons(h: ChildHandle, rest: seq<ChildHandle>)
    ensures HandleIds([h] + rest) == {h.id} + HandleIds(rest)
  {
    assert forall x | x in [h] + rest :: x == h || x in rest;
  }

  /** The children the spawn loop starts, in order, when the IDs in `live` are running:
      a pair whose ID is running (or was started earlier in the loop) is skipped. */
  function Spawned(plan: seq<(Hash, nat)>, live: set<string>): (r: seq<ChildHandle>)
    ensures forall i | 0 <= i < |r| ::
      r[i].id !in live && r[i].id == WorkerId(r[i].sha) && (r[i].sha, r[i].duration) in plan
    ensures forall i, j | 0 <= i < j < |r| :: r[i].id != r[j].id
  {
    if plan == [] then []
    else
      var id := WorkerId(plan[0].0);
      if id in live then Spawned(plan[1..], live)
      else [ChildHandle(id, plan[0].1, plan[0].0)] + Spawned(plan[1..], live + {id})
  }

  /** After the loop every visited hash's ID is running: the IDs that were running
      plus the IDs of the children started are the running IDs plus the planned IDs. */
  lemma {:induction false} SpawnedCovers(plan: seq<(Hash, nat)>, live: set<string>)
    ensures live + HandleIds(Spawned(plan, live)) == live + IdsOf(plan)
  {
    if plan != [] {
      var id := WorkerId(plan[0].0);
      IdsOfCons(plan);
      if id in live {
        SpawnedCovers(plan[1..], live);
      } else {
        SpawnedCovers(plan[1..], live + {id});
        HandleIdsCons(ChildHandle(id, plan[0].1, plan[0].0), Spawned(plan[1..], live + {id}));
      }
    }
  }

  /** One turn of the spawn loop, on the function that specifies it. */
  lemma SpawnedStep(plan: seq<(Hash, nat)>, i: nat, live: set<string>)
    requires i < |plan|
    ensures var id := WorkerId(plan[i].0);
      Spawned(plan[i..], live) ==
        if id in live then Spawned(plan[i + 1..], live + {id})
        else [ChildHandle(id, plan[i].1, plan[i].0)] + Spawned(plan[i + 1..], live + {id})
  {
    assert plan[i..][0] == plan[i] && plan[i..][1..] == plan[i + 1..];
    var id := WorkerId(plan[i].0);
    if id in live {
      assert live + {id} == live;
    }
  }

  /** What appending one started child does to the bookkeeping of the spawn loop. */
  lemma SnocFacts(d: seq<ChildHandle>, child: ChildHandle, rest: seq<ChildHandle>)
    ensures HandleIds(d + [child]) == HandleIds(d) + {child.id}
    ensures Launches(d + [child]) == Launches(d) + [Launched(child.id)]
    ensures d + [child] + rest == d + ([child] + rest)
  {
    assert forall h | h in d + [child] :: h == child || h in d;
  }

  /** The launch records of the started children, in order. */
  function Launches(handles: seq<ChildHandle>): (r: seq<Effect>)
  {
    seq(|handles|, i requires 0 <= i < |handles| => Launched(handles[i].id))
  }

  /** The declared files come out of `sorted` as ones, twos, threes, so they are
      paired with 3, 9 and 20 seconds. */
  lemma DeclaredPlan()
    ensures SpawnOrder(DeclaredFiles) == Plan
  {
    var order := [Ones, Twos, Threes];
    assert Ones[0] == '1' && Twos[0] == '2' && Threes[0] == '3';
    assert Below(Ones, Twos) && Below(Ones, Threes) && Below(Twos, Threes);
    assert Ascending(order);
    assert |DeclaredFiles| == 3;
    AscendingUnique(SortedOf(DeclaredFiles), order);
  }

  /** The three declared files get three different child IDs. */
  lemma DeclaredIdsDistinct()
    ensures WorkerId(Ones) != WorkerId(Twos)
    ensures WorkerId(Ones) != WorkerId(Threes)
    ensures WorkerId(Twos) != WorkerId(Threes)
  {
    WorkerIdSameIff(Ones, Twos);
    WorkerIdSameIff(Ones, Threes);
    WorkerIdSameIff(Twos, Threes);
    assert ShortSha(Ones)[0] == '1' && ShortSha(Twos)[0] == '2' && ShortSha(Threes)[0] == '3';
  }

  /** Of two files sharing their first seven characters only the first is started:
      the second is reported as already running. */
  lemma SharedPrefixSkipped(a: Hash, da: nat, b: Hash, db: nat, live: set<string>)
    requires ShortSha(a) == ShortSha(b)
    requires WorkerId(a) !in live
    ensures Spawned([(a, da), (b, db)], live) == [ChildHandle(WorkerId(a), da, a)]
  {
    var id := WorkerId(a);
    assert WorkerId(b) == id;
    assert [(a, da), (b, db)][1..] == [(b, db)];
    assert [(b, db)][1..] == [];
    assert Spawned([(b, db)], live + {id}) == [];
  }

  /** The body of the spawn loop: one download child per planned pair, under the
      ID derived from its hash; a child already running is skipped and the loop
      goes on. Returns the handles of the children it started. */
  method StartDownloads(cluster: Cluster, plan: seq<(Hash, nat)>) returns (started: seq<ChildHandle>)
    modifies cluster
    ensures started == Spawned(plan, old(cluster.live))
    ensures cluster.live == old(cluster.live) + IdsOf(plan)
    ensures cluster.history == old(cluster.history) + Launches(started)
  {
    ghost var live0 := cluster.live;
    started := [];
    var i := 0;
    assert plan[i..] == plan;
    while i < |plan|
      invariant 0 <= i <= |plan|
      invariant started + Spawned(plan[i..], cluster.live) == Spawned(plan, live0)
      invariant cluster.live == live0 + HandleIds(started)
      invariant cluster.history == old(cluster.history) + Launches(started)
    {
      var id := WorkerId(plan[i].0);
      var child := ChildHandle(id, plan[i].1, plan[i].0);
      SpawnedStep(plan, i, cluster.live);
      var r := cluster.StartChild(id);
      if r == Started {
        SnocFacts(started, child, Spawned(plan[i + 1..], cluster.live));
        started := started + [child];
      }
      i := i + 1;
    }
    SpawnedCovers(plan, live0);
  }

  /** The coordinator, `MasterWorkflow`. */
  class Master {
    /** `_files_to_download` */
    var pending: set<Hash>
    /** the pairs `zip(sorted(...), [3, 9, 20])` computed when the files are known */
    var plan: seq<(Hash, nat)>
    /** `download_workflows`: the children this run started */
    var downloads: seq<ChildHandle>
    var phase: Phase
    var cleanupRuns: nat

    ghost predicate Valid()
      reads this
    {
      && (phase == Starting ==> pending == {} && plan == [])
      && (phase != Starting ==> pending <= DeclaredFiles)
      && (phase == Starting || phase == Spawning ==> downloads == [])
      && (phase == Done ==> pending == {})
      && cleanupRuns == if phase == Done then 1 else 0
    }

    constructor()
      ensures Valid()
      ensures phase == Starting && pending == {} && downloads == [] && cleanupRuns == 0
    {
      pending := {};
      plan := [];
      downloads := [];
      phase := Starting;
      cleanupRuns := 0;
    }

    /** The startup computation, then `_files_to_download` is filled and the
        spawn order is fixed. */
    method Startup(cluster: Cluster)
      requires Valid() && phase == Starting
      modifies this`pending, this`plan, this`phase, cluster`history
      ensures Valid() && phase == Spawning
      ensures pending == DeclaredFiles
      ensures plan == Plan
      ensures cluster.history == old(cluster.history) + [Worked(Calculate, 3)]
    {
      cluster.Record(Worked(Calculate, 3));
      pending := DeclaredFiles;
      DeclaredPlan();
      plan := SpawnOrder(pending);
      phase := Spawning;
    }

    /** The spawn loop of `run`; signals arriving at its suspension points only
        touch `pending`, which the loop does not read. */
    method SpawnAll(cluster: Cluster)
      requires Valid() && phase == Spawning
      modifies this`downloads, this`phase, cluster
      ensures Valid() && phase == Gathering
      ensures downloads == Spawned(plan, old(cluster.live))
      ensures cluster.live == old(cluster.live) + IdsOf(plan)
      ensures cluster.history == old(cluster.history) + Launches(downloads)
    {
      downloads := StartDownloads(cluster, plan);
      phase := Gathering;
    }

    /** `asyncio.gather` over the started children: it completes once none of
        them is running. */
    method AwaitDownloads(cluster: Cluster) returns (done: bool)
      requires Valid() && phase == Gathering
      modifies this`phase
      ensures Valid()
      ensures done <==> forall h | h in downloads :: h.id !in cluster.live
      ensures phase == if done then Waiting else Gathering
    {
      done := forall h | h in downloads :: h.id !in cluster.live;
      if done {
        phase := Waiting;
      }
    }

    /** One evaluation of the wait condition; when the pending set is empty the
        cleanup child is executed to completion and the run ends. */
    method TryCleanup(cluster: Cluster) returns (ran: bool)
      requires Valid() && phase == Waiting
      modifies this`phase, this`cleanupRuns, cluster
      ensures Valid()
      ensures ran <==> pending == {}
      ensures phase == if ran then Done else Waiting
      ensures cleanupRuns == old(cleanupRuns) + if ran then 1 else 0
      ensures ran ==> cluster.live == old(cluster.live) - {CleanupId}
      ensures ran ==>
        cluster.history == old(cluster.history) + [Launched(CleanupId), Worked(RecordDb, 2), Worked(Finalize, 2)]
      ensures !ran ==> cluster.live == old(cluster.live) && cluster.history == old(cluster.history)
    {
      ran := pending == {};
      if ran {
        cluster.StartReplacing(CleanupId);
        RunCleanup(cluster);
        cluster.Close(CleanupId);
        cleanupRuns := cleanupRuns + 1;
        phase := Done;
      }
    }

    /** The `file_completed_download` signal handler. */
    method FileCompletedDownload(sha: Hash) returns (outcome: Removal)
      requires Valid()
      modifies this`pending
      ensures Valid()
      ensures outcome == if sha in old(pending) then Removed else NotPresent
      ensures pending == old(pending) - {sha}
    {
      if sha in pending {
        pending := pending - {sha};
        outcome := Removed;
      } else {
        outcome := NotPresent;
      }
    }
  }
}
