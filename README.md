# paratest: the work-dispatch protocol, modelled in Dafny

paratest runs the tests a plugin finds, spread over several worker threads.
The `run` action of `process` does four things:

- It puts every test identifier the plugin's `find` yields on a shared FIFO queue, and counts them.
- It creates `min(environments, tids)` `Worker` threads.
- It starts them one at a time, putting one `None` sentinel on the queue after each start.
- It waits on `shared_queue.join()` (the queue's unfinished-task count reaching zero), then joins each worker.

Each worker does the following:

- It calls `init_environment(1)` once.
- It then loops on `get` / `process` / `task_done` for as long as the entry it got is truthy.
- `process` ignores `None`. For any other entry it calls the plugin's `run` and logs any exception that call raises.

Separately, `configure_logging` turns the number of `-v` flags into a logging level.

The project has six modules:

- `Common` (common.dfy): Python's `min` on naturals, plus sums, multiset unions and concatenations of a per-element measure over a sequence, with their algebra.
- `Logging` (logging_level.dfy): the verbosity clamp of `configure_logging`.
- `WorkQueue` (work_queue.dfy): `queue.Queue` as a class with its entries and its unfinished-task count.
- `Plugins` (plugins.dfy): what the scheduler sees of a plugin:
  - the identifiers `find` yields;
  - which identifiers make `run` raise;
  - Python truthiness of queue entries;
  - the calls a worker makes into the plugin.
- `Workers` (workers.dfy): `Worker.process` as a function, and one atomic step of `Worker.run` as a method on the shared queue.
- `Paratest` (paratest.dfy): the `run` branch of `process`, as a method.

The threads become one sequential loop in `Paratest.Process`. At each iteration any thread that can move is chosen, with `:|`, and takes its next step. A worker's `get`, `process` and `task_done` are separate steps. So everything proved about the loop holds for every interleaving of the threads.

The loop invariant `Inv` relates the following:

- the queue;
- the entries taken so far, in the order they were taken;
- the per-worker program counters;
- the log of plugin calls.

The loop decreases a potential, so the loop ends. When it ends, either `process` has returned, or every thread is blocked for good. The main result is an if-and-only-if. `process` returns exactly when both of these hold:

- every identifier `find` yields is truthy (non-empty);
- there is at least one environment whenever there is something to run.

In that case, each of the following holds:

- Every identifier was handed to `run` once per occurrence.
- Every worker made its `init_environment(1)` call and returned.
- The queue is empty.

In every case, the entries were taken in queue order, with every identifier ahead of every sentinel. Nothing outside `find`'s output is ever run. With a single worker, `run` receives the identifiers in `find`'s order.

Notes on the code's behaviour, which the model follows:

- A worker stops on any falsy entry, not only on the `None` sentinel: an empty-string identifier is run, and then stops its worker.
- The main thread waits on `shared_queue.join()` before joining the workers.
- `init_environment` always receives 1, whichever worker calls it.
- The code runs no setup or teardown commands, sets no exit code and creates no per-worker workspace; a worker only calls `init_environment` and `run`.

## Model

| member | source | states |
|---|---|---|
| Logging.LevelIndex | paratest.py:13 | the index is the verbosity count clamped at the last table entry, so it is always in bounds |
| Logging.ConfiguredLevel | paratest.py:12-13 | 0 gives ERROR, 1 WARNING, 2 INFO, and 3 or more DEBUG, each as an if-and-only-if |
| Logging.MoreVerboseLogsMore | paratest.py:12-18 | an extra `-v` never raises the logger's threshold severity |
| WorkQueue.SharedQueue.constructor | paratest.py:8 | a new queue is empty, with no unfinished task |
| WorkQueue.SharedQueue.Put | paratest.py:77 | `put` appends at the tail and counts one more unfinished task; unfinished stays puts minus successful task_done calls |
| WorkQueue.SharedQueue.Get | paratest.py:105 | `get` on a non-empty queue returns the head and removes it, leaving the unfinished count unchanged |
| WorkQueue.SharedQueue.TaskDone | paratest.py:107 | `task_done` lowers the unfinished count by one, and raises (changing nothing) exactly when it is already zero |
| Workers.Process | paratest.py:109-115 | `None` leads to no plugin call; an identifier leads to exactly one `run` call on it, whose failure is caught and logged exactly when the plugin fails on it |
| Workers.Step | paratest.py:100-107 | one step of `Worker.run` (init_environment, get, process, or task_done with the `while item` test) takes the thread and the queue to the successor that `StepRel` defines |
| Paratest.Wrap | paratest.py:76-77 | the identifiers become queue entries one for one, in order |
| Paratest.Sentinels | paratest.py:85-87 | k sentinels are k `None` entries |
| Paratest.WrapIds | paratest.py:76-77 | the identifiers put are exactly those `find` yielded, with multiplicity |
| Paratest.WrapFalsy | paratest.py:104 | no identifier entry is falsy if and only if every identifier is non-empty |
| Paratest.QueuedList | paratest.py:76-87 | read in order, all entries ever queued carry `find`'s output in `find`'s order |
| Paratest.QueuedCounts | paratest.py:76-87 | all entries queued carry `find`'s output, and the falsy ones are the falsy identifiers plus one sentinel per started worker |
| Paratest.PrefixFalsy | paratest.py:76-87 | with truthy identifiers, the first L entries hold exactly max(0, L - tids) falsy entries: every sentinel sits behind every identifier |
| Paratest.FillQueue | paratest.py:75-78 | the queue holds every identifier in `find`'s order, with one unfinished task each, and `tids` is their number |
| Paratest.NewWorkers | paratest.py:80-82 | the requested number of workers is created, none of them started |
| Paratest.InitialInv | paratest.py:74-82 | the invariant holds once the queue is filled and the workers are created |
| Paratest.StartKeeps | paratest.py:85-86 | `t.start()` keeps the invariant and lowers the potential |
| Paratest.PutKeeps | paratest.py:87 | putting the sentinel after a start keeps the invariant and lowers the potential |
| Paratest.MainStep | paratest.py:85-92 | one main-thread step is the `MainStepRel` successor: start worker k (pc to Putting(k), worker k Started), put `None` at the tail with one more unfinished task (pc to Starting(k+1)), enter `shared_queue.join()` once all are started, return from it, or return from the `t.join()` loop; it keeps the invariant and lowers the potential |
| Paratest.StepIsMove | paratest.py:100-107 | every worker step whose `task_done` finds an unfinished entry changes the unfinished count, the falsy-entry count, the pending run and the call log consistently with the entries it takes |
| Paratest.InitIsMove | paratest.py:102 | `init_environment(1)` adds one init call and nothing else |
| Paratest.GetIsMove | paratest.py:105 | `get` moves the queue head into the worker |
| Paratest.ProcessIsMove | paratest.py:106 | `process` turns the held identifier into one `run` call |
| Paratest.TaskDoneIsMove | paratest.py:104-107 | `task_done` on an unfinished entry lowers the count, and the worker loops again on a truthy entry and returns on a falsy one |
| Paratest.WorkerStepKeeps | paratest.py:100-107 | every worker step keeps the invariant and lowers the potential; in particular `task_done` never raises |
| Paratest.StepKeeps | paratest.py:100-107 | any such move of one worker keeps every part of the invariant |
| Paratest.WorkerStep | paratest.py:100-107 | one step of worker a: only worker a changes, and to its `StepRel` successor against the old queue; the calls it makes are appended after the existing log; the queue head it takes, if any, is appended to `taken`; the invariant is kept and the potential lowered |
| Paratest.CondMeansProgress | paratest.py:85-107 | with truthy identifiers, and an environment whenever there is work, some thread can always move until the main thread returns |
| Paratest.JoinedWorkersStopped | paratest.py:89-92 | once `shared_queue.join()` returned, every worker has returned, so the `t.join()` loop does not wait |
| Paratest.WaitingQueueMoves | paratest.py:89-107 | with truthy identifiers, and an environment whenever there is work, some worker can take a step while `shared_queue.join()` waits with tasks unfinished |
| Paratest.FinishedMeansCond | paratest.py:80-107 | the main thread returns only if every identifier is truthy and there is an environment whenever there is work |
| Paratest.FinishedOutcome | paratest.py:76-107 | on return, the queue is empty; everything queued was taken; every identifier was run once per occurrence; one init call was made per worker |
| Paratest.RunsWithinFound | paratest.py:76-115 | at every point, only identifiers `find` yielded have been run, each at most as often as it was yielded |
| Paratest.SingleWorkerOrder | paratest.py:76-107 | with one worker, the identifiers run so far are a prefix of `find`'s output, and all of it on return |
| Paratest.SingleWorkerSplit | paratest.py:76-107 | with one worker, `find`'s output is, in order, what was run, what the worker holds, then what is queued |
| Paratest.Process | paratest.py:70-92 | the full `run` action: `tids` is the number found, min(environments, tids) workers are created, entries are taken in queue order, only found identifiers run, failures logged as the plugin decides; completes iff identifiers are truthy and an environment exists when needed; if it completes, all are run once per occurrence, one init per worker, all workers returned, and with one worker in `find`'s order |
| Paratest.DummyRun | plugins/dummy.py:6-14 | the dummy plugin with the default five environments: three workers, the run completes, and 'foo', 'bar', 'bazz' are each run once with no failure logged |
| Paratest.FailingDummyRun | paratest/plugins/dummy.py:6-11 | the variant whose `run` raises on 'bazz', with two environments: the run completes, all three are run, and a failure is logged exactly for 'bazz' |

## Left out

- Real threads, blocking `get`, and `Thread.start`/`join`. They are replaced by a loop that interleaves the threads' atomic steps in any order. A blocked thread is one that is never scheduled, and a run where every thread blocks is reported as not completed.
- Paratest.Process: does not claim that `run` receives the identifiers in queue order when there is more than one worker. A worker's `get` and its `run` call are separate steps, so a second worker can run a later identifier first. Only the dequeue order is proved FIFO in general. Call order is proved only for a single worker.
- The `plugins` action, yapsy plugin discovery and `getPluginByName`. These are a foreign library plus console output. The plugin is a parameter: what its `find` yields, and which identifiers make its `run` raise.
- argparse and `main`. `-n` has no `type=int`, so a value given on the command line would reach `min` as a string. The model takes `environments` as a natural number, as on the default path. Verbosity is likewise a natural number.
- Logging handlers, formatters and the `logger.debug` / `logger.exception` output. A caught `run` failure is recorded in the call log as `raised`.
- `init_environment` and `run` are assumed to return or raise without side effects on the scheduler. An exception from `init_environment` would end its worker; this is not modelled.
- Plugins.Plugin.fails: a failing `run` is always caught and logged. paratest.py:114 catches only `Exception`; a `BaseException` such as `SystemExit` or `KeyboardInterrupt` raised by `run` would end its worker before its `task_done`, so `shared_queue.join()` would wait forever. That path is not modelled.
- Plugins.Plugin.found: `find` is a finished sequence. An exception raised by `find` while it is iterated (paratest.py:76) would leave the identifiers yielded so far queued and propagate out of `process` before any worker exists. That path is not modelled.
- Plugins.TestId: identifiers are strings. A `None` (or other non-string) yielded by `find` is not modelled. A `None` would be queued as a sentinel and would stop a worker without any `run` call.
- A `task_done` that raises ValueError is modelled as the end of its worker. The invariant shows that this never happens.
- plugins/nunit.py. Its `find` walks the file system, which is I/O.
- The signatures of paratest/plugins/dummy.py do not match the calls the scheduler makes. Only its identifiers and its failure rule are used, in Paratest.FailingDummyRun.
- The tests under tests/. They drive the command line and refer to actions and options that are not part of this model.
