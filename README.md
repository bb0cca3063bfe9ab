# Download coordinator workflows

A Dafny model of the three Temporal workflows in `workflows.py`.

- **MasterWorkflow**, the coordinator:
  - computes the set of files to download (`_files_to_download`);
  - starts one `DownloadWorkflow` child per file, under an ID derived from the file's hash;
  - treats a child that is already running as a skip, not a fault;
  - waits for its children and for the set to empty;
  - then executes a `CleanupWorkflow` child.
- **DownloadWorkflow** does its work. It then sends exactly one `file_completed_download` signal, carrying its full hash, to `"master-workflow"`.
- **CleanupWorkflow** is a database step followed by `_do_cleanup`.

The orchestration substrate is the class `Workflows.Cluster`. It holds the set of IDs of running child workflows (`live`) and the ordered history of effects. An effect is:

- a child launched;
- a timed piece of work;
- a signal sent.

Starting a child under a live ID reports `AlreadyStarted`, which stands for `WorkflowAlreadyStartedError`. The cleanup child is started with `TERMINATE_IF_RUNNING`, so it replaces a running child with its ID.

The coordinator is the class `Workflows.Master`. Its `run` coroutine is cut at its suspension points into event methods:

- `Startup`: the startup sleep, then filling the set and fixing the spawn order;
- `SpawnAll`: the spawn loop;
- `AwaitDownloads`: the `asyncio.gather`;
- `TryCleanup`: one evaluation of the `wait_condition`, and the cleanup child when it holds.

The signal handler is `FileCompletedDownload`. The ghost predicate `Master.Valid` is the invariant every event keeps:

- the pending set is empty until `Startup`;
- after `Startup` the pending set is a subset of the declared files;
- children are recorded only once spawning is over;
- the cleanup has run once exactly when the run is done, and never otherwise.

Only `Startup` and `FileCompletedDownload` may write `pending`, as their `modifies` clauses say. So once filled, the set only shrinks, and only through the handler.

`Sorting` models the two Python built-ins the spawn loop relies on. `sorted` over a set of strings gives the unique strictly ascending enumeration. `zip` pairs positionally and stops at the shorter list.

`Scenarios` drives whole runs event by event:

- an undisturbed run;
- the restart traced in the driver script. There, a child of the first run finishes while the second run is still computing its files.

## Model

| member | source | states |
|---|---|---|
| Sorting.Below | workflows.py:54 | Python's `<=` on `str`, the order `sorted` uses: a prefix sorts first (with `BelowTotal`, `BelowAntisymmetric` and `BelowTransitive` it is a total order) |
| Sorting.SortedOf | workflows.py:54 | `sorted(files)`: a strictly ascending list (Python string order) with exactly the members of the set, as many as the set has |
| Sorting.AscendingUnique | workflows.py:54 | any two strictly ascending lists with the same members are equal, so the sorted order is unique |
| Sorting.Zip | workflows.py:54 | `zip`: as many pairs as the shorter list, the i-th pair made of the i-th elements |
| Workflows.ShortSha | workflows.py:60 | `sha[:7]`: the first seven characters, or the whole of a shorter string |
| Workflows.WorkerId | workflows.py:60 | the ID `f"download-workflow-{sha[:7]}"` starts with the download prefix |
| Workflows.WorkerIdShape | workflows.py:60 | after the prefix the ID holds the hash's first seven characters (all of a shorter hash), and nothing more |
| Workflows.WorkerIdSameIff | workflows.py:60 | two hashes get the same child ID exactly when their first seven characters agree |
| Workflows.SpawnOrder | workflows.py:54 | `zip(sorted(files), [3, 9, 20])`: the files in strictly ascending order, each with the duration at its position, as many pairs as the shorter of the two lists |
| Workflows.SpawnOrderKeepsLeast | workflows.py:54 | when `zip` cuts the sorted files short, every file left out sorts after every file kept |
| Workflows.DeclaredPlan | workflows.py:51-54 | sorting the declared files and zipping them with 3, 9 and 20 gives ones/3, twos/9, threes/20 |
| Workflows.DeclaredIdsDistinct | workflows.py:51-60 | the three declared files get three different child IDs |
| Workflows.Cluster.StartChild | workflows.py:57-64 | starting under a live ID reports already-started and launches nothing; otherwise the ID becomes live and one launch is recorded |
| Workflows.Cluster.StartReplacing | workflows.py:75-79 | with `TERMINATE_IF_RUNNING` the child is always launched and its ID is live afterwards |
| Workflows.Cluster.Close | workflows.py:11-18 | a child's run has ended: its ID is no longer live, and nothing else changes |
| Workflows.RunDownload | workflows.py:11-17 | a download child works for its duration, then signals its full hash to `"master-workflow"` |
| Workflows.DownloadSignalsOnce | workflows.py:11-17 | a download run adds exactly one signal to the coordinator, carrying the full hash, and no signal to any other workflow |
| Workflows.RunCleanup | workflows.py:24-29 | the cleanup child records the database step, then the finalize step, in that order |
| Workflows.DoCleanup | workflows.py:31-36 | `_do_cleanup` is the single finalize step |
| Workflows.CleanupSignalsNothing | workflows.py:24-36 | a cleanup run sends no signal to anybody |
| Workflows.SignalsToAppend | workflows.py:14-17 | the signals sent over two stretches of history are those of the first stretch followed by those of the second |
| Workflows.Deliver | workflows.py:82-90 | `file_completed_download` called on each signal in turn: the set only shrinks, and no signalled hash is left in it |
| Workflows.DeliverRemovesExactly | workflows.py:82-90 | handling any sequence of completion signals removes exactly the signalled hashes; order, duplicates and unknown hashes do not matter |
| Workflows.Converges | workflows.py:82-90 | the pending set empties exactly when every pending hash has been signalled |
| Workflows.Spawned | workflows.py:53-68 | the children the spawn loop starts: none has a live ID, each ID is derived from its hash, each (hash, duration) is a planned pair, and no ID is started twice |
| Workflows.SpawnedCovers | workflows.py:53-68 | after the loop every visited hash's ID is live: running IDs plus started IDs equal running IDs plus planned IDs |
| Workflows.SharedPrefixSkipped | workflows.py:60-65 | of two hashes sharing their first seven characters only the first is started; the second is skipped as already running |
| Workflows.StartDownloads | workflows.py:53-68 | the loop starts exactly `Spawned(plan, live)` in order, makes every planned ID live and records one launch per started child |
| Workflows.Master.constructor | workflows.py:41-43 | a new coordinator has an empty pending set and has started nothing |
| Workflows.Master.Startup | workflows.py:47-54 | after the startup work the pending set is exactly the declared set and the plan is the sorted pairing with 3, 9 and 20 |
| Workflows.Master.SpawnAll | workflows.py:53-68 | the handles kept are the children the loop started; the live IDs grow by the planned IDs |
| Workflows.Master.AwaitDownloads | workflows.py:70 | the gather completes exactly when none of the started children is running |
| Workflows.Master.TryCleanup | workflows.py:72-80 | the cleanup child runs exactly when the pending set is empty, under `"cleanup-workflow"`, once per run, and is closed when it returns; otherwise nothing changes |
| Workflows.Master.FileCompletedDownload | workflows.py:82-90 | a known hash is removed and nothing else; an unknown hash leaves the set unchanged without failing |
| Scenarios.SpawnOnIdleCluster | workflows.py:53-68 | on an idle cluster the loop starts ones, twos and threes in that order with 3, 9 and 20 |
| Scenarios.SpawnWithTwoRunning | workflows.py:53-68 | with the children for twos and threes running, only ones is started |
| Scenarios.SpawnThree | workflows.py:53-68 | three pairs with distinct, non-live IDs are all started, in order |
| Scenarios.SpawnFirstOnly | workflows.py:64-68 | three pairs of which the last two are live: only the first is started and the loop does not fail |
| Scenarios.CompleteDownload | workflows.py:82-90 | a finished download closes its run and its signal removes its hash from the coordinator's pending set, if present |
| Scenarios.StartRun | workflows.py:41-68 | a fresh coordinator on an idle cluster fills its set and starts the children for all planned pairs |
| Scenarios.FinishRun | workflows.py:70-90 | once the three downloads signal, the gather completes, the pending set is empty and the cleanup runs exactly once |
| Scenarios.NormalRun | workflows.py:41-90 | an undisturbed run starts the three children in sorted order, ends with an empty set and runs the cleanup once |
| Scenarios.Restart | run_workflow.py:43-52 | a signal that reaches a restarted coordinator before it has computed its files finds nothing to remove |
| Scenarios.RestartRun | run_workflow.py:43-61 | after a restart the new run starts the finished file again, skips the two still running, and still converges with one cleanup |

## Left out

- Timing and output are not modelled: real-time sleeps, `print` and `workflow.logger`. A sleep is recorded as a `Worked` effect with its duration.
- Temporal's durability, replay, signal buffering and retries are not modelled. Nor is the scheduling of `wait_condition`. Signals are delivered by calling the handler. `AwaitDownloads` and `TryCleanup` are single evaluations that the driver repeats.
- Workflows.Master.SpawnAll: the loop is modelled as one atomic step. Signals that arrive at its suspension points touch only `pending`, which the loop does not read, so they commute with it. Children that finish at those suspension points are not modelled. Each `await` of a child start is such a point, and the loop reads the live IDs through each start. If a running child finishes between two starts, the source starts it again, where the model reports it as running and skips it. So `Workflows.Spawned`, `Workflows.SharedPrefixSkipped`, `Scenarios.SpawnWithTwoRunning` and `Scenarios.SpawnFirstOnly` describe only schedules in which no child finishes while the loop runs.
- `ParentClosePolicy` is not modelled as a mechanism. `ABANDON` appears only in that a coordinator's children stay live when it is replaced. The cleanup child is executed to completion inside `TryCleanup`, so `TERMINATE` on it is never observable.
- Workflows.Master.AwaitDownloads: the gather is modelled only as completion. A failing child would make the gather raise; children here cannot fail.
- The declared set `{"1"*64, "2"*64, "3"*64}` and the durations `[3, 9, 20]` are constants, as in the code. They are not parameters.
- The driver script run_workflow.py is modelled only as the restart scenario. Its other pieces are not modelled:
  - client connection;
  - `MasterInputParam`, `DownloadFileParam` and `MASTER_WORKFLOW_ID`, which `workflows.py` does not define;
  - the stale-download cancellation it describes, which has no implementation in `workflows.py`.
- run_worker.py and activities.py are not modelled. One registers a worker process; the other wraps the client's `count_workflows` query, which is network I/O.
