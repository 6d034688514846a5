# mpi_queue: the coordinator/worker work-queue protocol in Dafny

`mpi_queue` spreads calls of one function over many argument sets across MPI
processes. Rank 0 is the coordinator (`MainNode`). It keeps the FIFO list of
pending argument sets (`queues`), the busy ranks (`working_node`), the
`results` and the `errors`. Every other rank is a worker (`SubNode`). A worker
loops: it sends `ready`, receives a directive and acts on it. On `task` it
runs the task and reports `done` with the result, or `error` with the task it
was given. On `end` it stops. The coordinator handles one status signal at a
time. After each one it tests whether the queue and the busy map are both
empty. When they are, it sends `end` to every rank 1..size-1 and stops.

This project models both roles as sequential state machines. The MPI
transport is replaced by streams of inbound messages and outboxes of sent
messages.

- `protocol.dfy` (module `Protocol`): ranks, tags, the string signals as a
  datatype, the task and result wrappers, and messages.
- `coordinator.dfy` (module `Coordinator`) models `mpi_queue/MainNode.py`.
  - `Handle` is one loop iteration before the termination test; `Run` is the
    whole loop over a stream of status signals. Both are pure functions.
  - The lemmas about `Run` state FIFO dispatch, conservation of argument sets,
    exactly one `end` per worker, and that nothing is read after the broadcast.
  - Class `MainNode` holds the four collections as fields. Its constructor
    runs the receive loop, as `MainNode.__init__` does, and is proved to agree
    with `Run`. Its methods are the event handlers and the finish test.
- `worker.dfy` (module `Worker`) models `mpi_queue/SubNode.py`.
  - `Serve` is the worker loop as a pure function of the directive stream
    (tag 0) and the task-payload stream (tag 1).
  - Its lemmas state that each iteration starts with `ready`, that only `end`
    stops the loop, that nothing follows `end`, and that each task is
    reported exactly once.
  - Class `SubNode`'s constructor runs the loop and is proved to agree with
    `Serve`.
- `exchange.dfy` (module `Exchange`) connects the roles. A worker's report is
  exactly what the coordinator's `done`/`error` handlers accept and record.

Modelling decisions:
- The work function is an opaque outcome. Each task payload a worker receives
  comes paired with `Success(v)` or `Failure`: the outcome of calling the
  function on it.
- A coordinator inbound event is a status signal from `src`, plus the tag-2
  message that the coordinator reads from `src` after `done` or `error`.
- The source raises in two places: `dict.pop` on a rank that is not busy, and
  reading `.result` or `.args` from a follow-up of the wrong kind. The model
  states these as preconditions (`Enabled`, `Admissible`). The methods
  `ReceiveResult` and `ErrorTreatment` require `src in busy`.
- `working_node` is a set of ranks.
- A finite stream stands for the prefix of messages delivered so far, and
  running out of it means blocking in `recv`. The ghost fields
  `MainNode.finished` and `SubNode.halt` record why a run stopped. The source
  has no such fields.
- The coordinator never sends `wait`. When `ready` arrives and the queue is
  empty, `_send_task` sends nothing (`mpi_queue/MainNode.py:65-66`). An idle
  worker then stays blocked in `recv` until the final `end` broadcast. The
  worker's `wait` branch can never be taken against this coordinator. It is
  still modelled, because `SubNode` handles it. A protocol in which the
  coordinator answers an empty queue with `wait` is not what the code does,
  and the model follows the code.
- Conservation needs tasks to go only to ranks that are not busy. A second
  `ready` from a busy rank with a non-empty queue overwrites its
  `working_node` entry, so one argument set is lost from the accounting. The
  predicate `ReadyFromIdle` states the hypothesis. The worker's own loop
  satisfies it: a worker sends `ready` only after reporting its task.

## Model

| member | source | states |
|---|---|---|
| `Coordinator.MainNode.constructor` | mpi_queue/MainNode.py:16-51 | starting from `queues = args` with nothing busy, the loop's final queue, busy set, results, errors and everything sent equal those of the specification `Run`, and it stops exactly when `Run` does |
| `Coordinator.MainNode.SendTask` | mpi_queue/MainNode.py:64-73 | with an empty queue nothing changes and nothing is sent; otherwise the front argument set is removed and the rest stays in order, `task` (tag 0) then a task wrapper holding `function` and that argument set (tag 1) go to `src`, and `src` becomes busy; results and errors are unchanged |
| `Coordinator.MainNode.ReceiveResult` | mpi_queue/MainNode.py:75-82 | requires `src` busy (the pop raises otherwise); `src` leaves the busy set and exactly the received result is appended to results; queue, errors and outbox are unchanged |
| `Coordinator.MainNode.ErrorTreatment` | mpi_queue/MainNode.py:84-89 | requires `src` busy; `src` leaves the busy set and the returned task's `args` are appended to errors; queue, results and outbox are unchanged |
| `Coordinator.MainNode.FinishCondition` | mpi_queue/MainNode.py:91-106 | returns true exactly when the queue and the busy set are empty; then, and only then, appends the `end` broadcast to the outbox; the four collections are unchanged |
| `Coordinator.Broadcast` | mpi_queue/MainNode.py:100-104 | the broadcast has size-1 messages, the k-th being `end` on tag 0 to rank k+1 |
| `Coordinator.BroadcastEndsOnce` | mpi_queue/MainNode.py:100-104 | the broadcast holds exactly one `end` for each rank 1..size-1 and none for rank 0 or any other rank |
| `Coordinator.HandleSendsNoEnd` | mpi_queue/MainNode.py:43-48 | handling a status signal never sends `end` to any rank |
| `Coordinator.StepFifo` | mpi_queue/MainNode.py:68-72 | the argument sets a step dispatches, followed by the new queue, are exactly the old queue |
| `Coordinator.StepConserves` | mpi_queue/MainNode.py:64-89 | if a task goes only to a rank that is not busy, a step keeps len(queue) + busy ranks + len(results) + len(errors) unchanged |
| `Coordinator.RunFifo` | mpi_queue/MainNode.py:40-51 | over any run, the argument sets dispatched followed by the queue stay the same sequence: dispatch is FIFO and nothing is dispatched twice |
| `Coordinator.FifoFromStart` | mpi_queue/MainNode.py:21-21 | from `queues = args`, the dispatched argument sets are always a prefix of `args` and the queue is the matching suffix |
| `Coordinator.RunConserves` | mpi_queue/MainNode.py:64-89 | over a run where a task goes only to a rank that is not busy, len(queue) + busy ranks + len(results) + len(errors) keeps its initial value |
| `Coordinator.RunEndsOnce` | mpi_queue/MainNode.py:50-51 | a run adds exactly one `end` per rank 1..size-1 if it finishes, and no `end` to any rank otherwise |
| `Coordinator.RunFinishedIff` | mpi_queue/MainNode.py:91-95 | once a signal was handled, the loop has stopped if and only if the queue and the busy set are both empty |
| `Coordinator.RunIgnoresLaterSignals` | mpi_queue/MainNode.py:50-51 | after the loop breaks, no further signal is read: appending any signals to the stream changes nothing (termination is final, nothing is dispatched after it) |
| `Coordinator.CompletedRun` | mpi_queue/MainNode.py:40-51 | a run from `args` that finishes has dispatched all of `args` once and in order, len(results) + len(errors) == len(args), and has sent exactly one `end` to each rank 1..size-1 |
| `Coordinator.IgnoredSignalIsNoOp` | mpi_queue/MainNode.py:43-50 | an unrecognised signal, or `ready` with an empty queue, while not finished, can be dropped from the stream without changing the run |
| `Worker.Report` | mpi_queue/SubNode.py:78-90 | two messages to rank 0: `done` (tag 0) exactly when the call returned, followed by the result wrapper with the returned value (tag 2); otherwise `error` and the unchanged task (tag 2) with no result; no `ready` |
| `Worker.ServeShape` | mpi_queue/SubNode.py:32-37 | the first message of the loop is `ready` to rank 0 on tag 0; every message it sends goes to rank 0; it reads no more directives or task payloads than were delivered |
| `Worker.ServeReadyCount` | mpi_queue/SubNode.py:32-37 | exactly one `ready` is sent per directive received, plus one when the loop is still waiting for a directive |
| `Worker.ServeEndsOnlyOnEnd` | mpi_queue/SubNode.py:40-51 | the loop stops with `Ended` only when the last directive read is `end`, and no earlier directive read is `end`; success, failure, `wait` and unknown directives never end it |
| `Worker.ServeReadsAll` | mpi_queue/SubNode.py:32-48 | given a payload per `task`, a stream with no `end` before its last directive is read completely; the loop ends exactly when that last directive is `end`, and then it has sent as many `ready` signals as directives received |
| `Worker.ServeStopsAfterEnd` | mpi_queue/SubNode.py:44-47 | after `end` nothing more is read or sent: extending either stream changes nothing |
| `Worker.ServeResults` | mpi_queue/SubNode.py:85-87 | the result payloads sent are the values of the successful calls, one each and in order |
| `Worker.ServeReturnedTasks` | mpi_queue/SubNode.py:88-90 | the tasks sent back are exactly those whose call raised, unchanged, one each and in order |
| `Worker.ServePayloadPerTask` | mpi_queue/SubNode.py:48-51 | one task payload is read per `task` directive read, except one the worker is still waiting for |
| `Worker.IgnoredDirective` | mpi_queue/SubNode.py:40-43 | after `wait` or an unrecognised directive nothing is sent before the next `ready` |
| `Worker.TaskDirective` | mpi_queue/SubNode.py:73-90 | after `task` the worker sends that task's report and then, with nothing in between, the next `ready` |
| `Worker.SubNode.constructor` | mpi_queue/SubNode.py:17-52 | the loop sends exactly the messages of the specification `Serve` and stops for the reason `Serve` gives |
| `Worker.SubNode.SendStatusSignal` | mpi_queue/SubNode.py:54-58 | appends the signal to the outbox, addressed to rank 0 on tag 0 |
| `Worker.SubNode.ReceiveControlSignal` | mpi_queue/SubNode.py:60-65 | the control signal becomes the directive received; nothing is sent |
| `Worker.SubNode.ExecuteTask` | mpi_queue/SubNode.py:73-90 | appends exactly the report of the task's outcome to the outbox |
| `Exchange.Received` | mpi_queue/SubNode.py:85-90 | the coordinator receives `done` from a report exactly when the call succeeded, and `error` exactly when it raised |
| `Exchange.ReportResolvesTask` | mpi_queue/MainNode.py:75-89 | a report from a busy rank is handled without raising; the rank becomes idle; a successful value is appended to results, or a failed task's original arguments to errors; nothing is sent and the queue is unchanged |
| `Exchange.RoundTrip` | mpi_queue/MainNode.py:64-89 | `ready` from an idle rank sends it the front argument set; when that rank runs exactly this task and reports, its report is handled without raising, and the coordinator ends as before with that argument set moved from the queue to the results (the returned value) or to the errors (the same arguments); nothing else changes |

## Left out

- The MPI transport (`MPI.COMM_WORLD`, `send`/`recv`, `Status`) is not modelled. Inbound messages are finite sequences and sent messages an outbox. Tags are kept only as numbers on messages.
- The dispatch time stored in `working_node` (`time.time()`) is not modelled, because it is never read; the busy map is a set of ranks.
- Worker.SubNode.Sleep: `time.sleep(self.wait_time)` is a step that changes nothing, because time is not modelled.
- Debug `print` output is left out, and so are the worker's `rank`, `size` and `debug` fields, which only feed it.
- The work function is not called. Its effect is the opaque `Outcome` paired with each task payload, so Python's `*args` call semantics and the exception's detail are not modelled.
- `mpi_queue/__init__.py` is not part of this model. It only picks a role from `rank == 0` and forwards to the constructors.
- Concurrency between processes is not modelled. The coordinator's inbound signals are an arbitrary sequence, and the two roles are related only through `Exchange`.
- Status signals and directives are strings in the source. Here they form a closed datatype, with `Unknown(text)` for any other string.
- Coordinator.RunConserves: holds only under `ReadyFromIdle`, because the source loses count when a busy rank sends `ready` while the queue is non-empty.
- Coordinator.CompletedRun: states how many results and errors there are, not which ones. Which values are recorded is stated per signal by `ReceiveResult`, `ErrorTreatment` and `Exchange.ReportResolvesTask`.
