/**
 * A worker (any rank but 0). The pure function Serve states what the worker
 * loop sends for a stream of directives (tag 0) and a stream of task payloads
 * (tag 1); the lemmas prove that every iteration starts with `ready`, that
 * only `end` stops the loop and nothing follows it, and that every executed
 * task is reported once, as a result or as the returned task. The class
 * SubNode is the imperative worker whose constructor runs the loop.
 */
module Worker {
  import opened Protocol

  /** What calling the work function on a task's arguments does: it returns a value or raises. */
  datatype Outcome = Success(value: Value) | Failure

  /** A task payload as received on tag 1, with the outcome of calling its function. */
  datatype Assignment = Assignment(task: TaskWrapper, outcome: Outcome)

  /**
   * Why a finite run of the loop stops: `end` was received, or the worker is
   * blocked waiting for a directive, or for the payload of a `task` directive.
   */
  datatype Halt = Ended | AwaitingDirective | AwaitingTask

  /** Everything sent, why the loop stopped, and how many directives and payloads it read. */
  datatype Trace = Trace(sent: seq<Message>, halt: Halt, directivesRead: nat, tasksRead: nat)

  /** The values carried by result payloads in `msgs`, in sending order. */
  function ResultValues(msgs: seq<Message>): seq<Value> {
    if msgs == [] then []
    else (if msgs[0].tag == RESULT_TAG && msgs[0].body.ResultBody? then [msgs[0].body.wrapper.result] else [])
         + ResultValues(msgs[1..])
  }

  /** The tasks returned as failed in `msgs`, in sending order. */
  function ReturnedTasks(msgs: seq<Message>): seq<TaskWrapper> {
    if msgs == [] then []
    else (if msgs[0].tag == RESULT_TAG && msgs[0].body.TaskBody? then [msgs[0].body.task] else [])
         + ReturnedTasks(msgs[1..])
  }

  /** The values returned by the successful calls among `xs`, in order. */
  function Successes(xs: seq<Assignment>): seq<Value> {
    if xs == [] then []
    else (if xs[0].outcome.Success? then [xs[0].outcome.value] else []) + Successes(xs[1..])
  }

  /** The tasks whose call raised among `xs`, in order. */
  function Failures(xs: seq<Assignment>): seq<TaskWrapper> {
    if xs == [] then []
    else (if xs[0].outcome.Failure? then [xs[0].task] else []) + Failures(xs[1..])
  }

  /** Number of `task` directives in `ds`. */
  function CountTasks(ds: seq<Signal>): nat {
    if ds == [] then 0 else (if ds[0] == Task then 1 else 0) + CountTasks(ds[1..])
  }

  /**
   * The two messages that report one executed task to rank 0: `done` and the
   * result when the call returned, `error` and the unchanged task when it raised.
   */
  function Report(a: Assignment): (r: seq<Message>)
    ensures |r| == 2 && r[0].dest == MAIN_RANK && r[1].dest == MAIN_RANK
    ensures r[0].tag == CONTROL_TAG && r[1].tag == RESULT_TAG
    ensures r[0] == SignalMessage(MAIN_RANK, Done) <==> a.outcome.Success?
    ensures r[0] == SignalMessage(MAIN_RANK, Error) <==> a.outcome.Failure?
    ensures ResultValues(r) == if a.outcome.Success? then [a.outcome.value] else []
    ensures ReturnedTasks(r) == if a.outcome.Failure? then [a.task] else []
    ensures CountSignal(r, MAIN_RANK, Ready) == 0
  {
    var r := if a.outcome.Success?
      then [SignalMessage(MAIN_RANK, Done), Message(MAIN_RANK, RESULT_TAG, ResultBody(ResultWrapper(a.outcome.value)))]
      else [SignalMessage(MAIN_RANK, Error), Message(MAIN_RANK, RESULT_TAG, TaskBody(a.task))];
    assert r[1..] == [r[1]] && r[1..][1..] == [];
    assert ResultValues(r[1..]) == if a.outcome.Success? then [a.outcome.value] else [];
    assert ReturnedTasks(r[1..]) == if a.outcome.Failure? then [a.task] else [];
    assert CountSignal(r[1..], MAIN_RANK, Ready) == 0;
    r
  }

  /**
   * The messages a worker loop sends over the directives `ds` and the task
   * payloads `ts`: send `ready`, read a directive, act on it, repeat.
   * `wait` and unrecognised directives send nothing more.
   */
  function Serve(ds: seq<Signal>, ts: seq<Assignment>): Trace
    decreases |ds|
  {
    var ready := [SignalMessage(MAIN_RANK, Ready)];
    if ds == [] then Trace(ready, AwaitingDirective, 0, 0)
    else if ds[0] == End then Trace(ready, Ended, 1, 0)
    else if ds[0] == Task then
      if ts == [] then Trace(ready, AwaitingTask, 1, 0)
      else
        var t := Serve(ds[1..], ts[1..]);
        Trace(ready + Report(ts[0]) + t.sent, t.halt, t.directivesRead + 1, t.tasksRead + 1)
    else
      var t := Serve(ds[1..], ts);
      Trace(ready + t.sent, t.halt, t.directivesRead + 1, t.tasksRead)
  }

  // ---------------------------------------------------------------------------
  // Helpers on message sequences

  lemma {:induction false} ResultValuesAppend(a: seq<Message>, b: seq<Message>)
    ensures ResultValues(a + b) == ResultValues(a) + ResultValues(b)
  {
    if a == [] {
      assert a + b == b;
    } else {
      assert (a + b)[0] == a[0] && (a + b)[1..] == a[1..] + b;
      ResultValuesAppend(a[1..], b);
    }
  }

  lemma {:induction false} ReturnedTasksAppend(a: seq<Message>, b: seq<Message>)
    ensures ReturnedTasks(a + b) == ReturnedTasks(a) + ReturnedTasks(b)
  {
    if a == [] {
      assert a + b == b;
    } else {
      assert (a + b)[0] == a[0] && (a + b)[1..] == a[1..] + b;
      ReturnedTasksAppend(a[1..], b);
    }
  }

  /** The first n + 1 elements of `xs` are its head followed by the first n of its tail. */
  lemma TakeCons<T>(xs: seq<T>, n: nat)
    requires n < |xs|
    ensures xs[..n + 1] != [] && xs[..n + 1][0] == xs[0] && xs[..n + 1][1..] == xs[1..][..n]
  {
  }

  lemma SuccessesCons(ts: seq<Assignment>, n: nat)
    requires n < |ts|
    ensures Successes(ts[..n + 1]) == (if ts[0].outcome.Success? then [ts[0].outcome.value] else []) + Successes(ts[1..][..n])
  {
    TakeCons(ts, n);
  }

  lemma FailuresCons(ts: seq<Assignment>, n: nat)
    requires n < |ts|
    ensures Failures(ts[..n + 1]) == (if ts[0].outcome.Failure? then [ts[0].task] else []) + Failures(ts[1..][..n])
  {
    TakeCons(ts, n);
  }

  // ---------------------------------------------------------------------------
  // Properties of the worker loop

  /**
   * The first message of every run is `ready` to rank 0 on tag 0, every
   * message goes to rank 0, and no more is read than was delivered.
   */
  lemma {:induction false} ServeShape(ds: seq<Signal>, ts: seq<Assignment>)
    decreases |ds|
    ensures var t := Serve(ds, ts);
      |t.sent| >= 1 && t.sent[0] == SignalMessage(MAIN_RANK, Ready) &&
      (forall k :: 0 <= k < |t.sent| ==> t.sent[k].dest == MAIN_RANK) &&
      t.directivesRead <= |ds| && t.tasksRead <= |ts|
  {
    if ds != [] && ds[0] != End {
      if ds[0] == Task {
        if ts != [] {
          ServeShape(ds[1..], ts[1..]);
        }
      } else {
        ServeShape(ds[1..], ts);
      }
    }
  }

  /**
   * Every iteration sends exactly one `ready`: one per directive read, plus the
   * one still waiting for an answer when the directives ran out.
   */
  lemma {:induction false} ServeReadyCount(ds: seq<Signal>, ts: seq<Assignment>)
    decreases |ds|
    ensures var t := Serve(ds, ts);
      CountSignal(t.sent, MAIN_RANK, Ready) == t.directivesRead + (if t.halt == AwaitingDirective then 1 else 0)
  {
    var ready := [SignalMessage(MAIN_RANK, Ready)];
    assert CountSignal(ready, MAIN_RANK, Ready) == 1;
    if ds != [] && ds[0] != End {
      if ds[0] == Task {
        if ts != [] {
          var t := Serve(ds[1..], ts[1..]);
          ServeReadyCount(ds[1..], ts[1..]);
          CountSignalAppend(ready, Report(ts[0]), MAIN_RANK, Ready);
          CountSignalAppend(ready + Report(ts[0]), t.sent, MAIN_RANK, Ready);
        }
      } else {
        ServeReadyCount(ds[1..], ts);
        CountSignalAppend(ready, Serve(ds[1..], ts).sent, MAIN_RANK, Ready);
      }
    }
  }

  /** Only `end` stops the loop: it ends exactly when the last directive read is `end`, and no earlier one is. */
  lemma {:induction false} ServeEndsOnlyOnEnd(ds: seq<Signal>, ts: seq<Assignment>)
    decreases |ds|
    ensures var t := Serve(ds, ts);
      t.directivesRead <= |ds| &&
      (t.halt == Ended ==> t.directivesRead >= 1 && ds[t.directivesRead - 1] == End) &&
      (forall k :: 0 <= k < t.directivesRead && ds[k] == End ==> k == t.directivesRead - 1 && t.halt == Ended)
  {
    if ds != [] && ds[0] != End && !(ds[0] == Task && ts == []) {
      var rest := if ds[0] == Task then ts[1..] else ts;
      var u := Serve(ds[1..], rest);
      assert Serve(ds, ts).halt == u.halt && Serve(ds, ts).directivesRead == u.directivesRead + 1;
      ServeEndsOnlyOnEnd(ds[1..], rest);
      forall k | 0 <= k < u.directivesRead + 1 && ds[k] == End
        ensures k == u.directivesRead && u.halt == Ended
      {
        assert k != 0;
        assert ds[1..][k - 1] == ds[k];
      }
    }
  }

  /**
   * Given a payload for every `task` directive, the worker reads the whole
   * stream: it terminates on a final `end`, having sent one `ready` per
   * directive, and without an `end` it is still waiting after the last one.
   */
  lemma {:induction false} ServeReadsAll(ds: seq<Signal>, ts: seq<Assignment>)
    requires forall k :: 0 <= k < |ds| - 1 ==> ds[k] != End
    requires CountTasks(ds) <= |ts|
    decreases |ds|
    ensures var t := Serve(ds, ts);
      t.directivesRead == |ds| && t.tasksRead == CountTasks(ds) &&
      (t.halt == Ended <==> ds != [] && ds[|ds| - 1] == End) &&
      (ds != [] && ds[|ds| - 1] == End ==> CountSignal(t.sent, MAIN_RANK, Ready) == |ds|)
  {
    ServeReadyCount(ds, ts);
    if ds != [] && ds[0] != End {
      assert forall k :: 0 <= k < |ds[1..]| - 1 ==> ds[1..][k] == ds[k + 1];
      if ds[0] == Task {
        ServeReadsAll(ds[1..], ts[1..]);
      } else {
        ServeReadsAll(ds[1..], ts);
      }
      if ds[1..] != [] {
        assert ds[1..][|ds[1..]| - 1] == ds[|ds| - 1];
      }
    }
  }

  /** Nothing is read or sent after `end`: whatever follows it in either stream changes nothing. */
  lemma {:induction false} ServeStopsAfterEnd(ds: seq<Signal>, ts: seq<Assignment>, more: seq<Signal>, moreTasks: seq<Assignment>)
    requires Serve(ds, ts).halt == Ended
    decreases |ds|
    ensures Serve(ds + more, ts + moreTasks) == Serve(ds, ts)
  {
    assert ds != [];
    assert (ds + more)[0] == ds[0] && (ds + more)[1..] == ds[1..] + more;
    if ds[0] != End {
      if ds[0] == Task {
        assert ts != [];
        assert (ts + moreTasks)[0] == ts[0] && (ts + moreTasks)[1..] == ts[1..] + moreTasks;
        ServeStopsAfterEnd(ds[1..], ts[1..], more, moreTasks);
      } else {
        ServeStopsAfterEnd(ds[1..], ts, more, moreTasks);
      }
    }
  }

  /** Each successful call read is reported once, in order, by a result carrying its value. */
  lemma {:induction false} ServeResults(ds: seq<Signal>, ts: seq<Assignment>)
    decreases |ds|
    ensures var t := Serve(ds, ts);
      t.tasksRead <= |ts| && ResultValues(t.sent) == Successes(ts[..t.tasksRead])
  {
    var ready := [SignalMessage(MAIN_RANK, Ready)];
    assert ResultValues(ready) == [];
    assert ts[..0] == [];
    if ds != [] && ds[0] != End {
      if ds[0] == Task {
        if ts != [] {
          var u := Serve(ds[1..], ts[1..]);
          assert Serve(ds, ts) == Trace(ready + Report(ts[0]) + u.sent, u.halt, u.directivesRead + 1, u.tasksRead + 1);
          ServeResults(ds[1..], ts[1..]);
          ResultValuesAppend(ready, Report(ts[0]));
          ResultValuesAppend(ready + Report(ts[0]), u.sent);
          SuccessesCons(ts, u.tasksRead);
        }
      } else {
        var u := Serve(ds[1..], ts);
        assert Serve(ds, ts) == Trace(ready + u.sent, u.halt, u.directivesRead + 1, u.tasksRead);
        ServeResults(ds[1..], ts);
        ResultValuesAppend(ready, u.sent);
      }
    }
  }

  /** Each failed call read is reported once, in order, by returning its unchanged task. */
  lemma {:induction false} ServeReturnedTasks(ds: seq<Signal>, ts: seq<Assignment>)
    decreases |ds|
    ensures var t := Serve(ds, ts);
      t.tasksRead <= |ts| && ReturnedTasks(t.sent) == Failures(ts[..t.tasksRead])
  {
    var ready := [SignalMessage(MAIN_RANK, Ready)];
    assert ReturnedTasks(ready) == [];
    assert ts[..0] == [];
    if ds != [] && ds[0] != End {
      if ds[0] == Task {
        if ts != [] {
          var u := Serve(ds[1..], ts[1..]);
          assert Serve(ds, ts) == Trace(ready + Report(ts[0]) + u.sent, u.halt, u.directivesRead + 1, u.tasksRead + 1);
          ServeReturnedTasks(ds[1..], ts[1..]);
          ReturnedTasksAppend(ready, Report(ts[0]));
          ReturnedTasksAppend(ready + Report(ts[0]), u.sent);
          FailuresCons(ts, u.tasksRead);
        }
      } else {
        var u := Serve(ds[1..], ts);
        assert Serve(ds, ts) == Trace(ready + u.sent, u.halt, u.directivesRead + 1, u.tasksRead);
        ServeReturnedTasks(ds[1..], ts);
        ReturnedTasksAppend(ready, u.sent);
      }
    }
  }

  /** A payload is read for every `task` directive read, except one the worker is still waiting for. */
  lemma {:induction false} ServePayloadPerTask(ds: seq<Signal>, ts: seq<Assignment>)
    decreases |ds|
    ensures var t := Serve(ds, ts);
      t.directivesRead <= |ds| &&
      t.tasksRead + (if t.halt == AwaitingTask then 1 else 0) == CountTasks(ds[..t.directivesRead])
  {
    if ds != [] {
      if ds[0] == End || (ds[0] == Task && ts == []) {
        assert ds[..1] == [ds[0]] && [ds[0]][1..] == [];
      } else {
        var rest := if ds[0] == Task then ts[1..] else ts;
        ServePayloadPerTask(ds[1..], rest);
        var k := Serve(ds[1..], rest).directivesRead;
        TakeCons(ds, k);
      }
    }
  }

  /**
   * `wait` and unrecognised directives send nothing: the `ready` that fetched
   * them is followed directly by the next `ready`.
   */
  lemma IgnoredDirective(d: Signal, ds: seq<Signal>, ts: seq<Assignment>)
    requires d != End && d != Task
    ensures var t := Serve([d] + ds, ts);
      |t.sent| >= 2 && t.sent[..2] == [SignalMessage(MAIN_RANK, Ready), SignalMessage(MAIN_RANK, Ready)]
  {
    assert ([d] + ds)[1..] == ds;
    ServeShape(ds, ts);
  }

  /**
   * After a `task` directive the worker sends the report of that task and
   * then, with nothing in between, the next `ready`.
   */
  lemma TaskDirective(ds: seq<Signal>, a: Assignment, ts: seq<Assignment>)
    ensures var t := Serve([Task] + ds, [a] + ts);
      |t.sent| >= 4 &&
      t.sent[..4] == [SignalMessage(MAIN_RANK, Ready)] + Report(a) + [SignalMessage(MAIN_RANK, Ready)]
  {
    assert ([Task] + ds)[1..] == ds && ([a] + ts)[1..] == ts;
    ServeShape(ds, ts);
  }

  /** One iteration of the loop at position `i` of the directives and `j` of the payloads. */
  lemma ServeAt(ds: seq<Signal>, i: nat, ts: seq<Assignment>, j: nat)
    requires i < |ds| && j <= |ts|
    ensures var t, ready := Serve(ds[i..], ts[j..]), [SignalMessage(MAIN_RANK, Ready)];
      (ds[i] == End ==> t.sent == ready && t.halt == Ended) &&
      (ds[i] == Task && j == |ts| ==> t.sent == ready && t.halt == AwaitingTask) &&
      (ds[i] == Task && j < |ts| ==>
        t.sent == ready + Report(ts[j]) + Serve(ds[i + 1..], ts[j + 1..]).sent &&
        t.halt == Serve(ds[i + 1..], ts[j + 1..]).halt) &&
      (ds[i] != End && ds[i] != Task ==>
        t.sent == ready + Serve(ds[i + 1..], ts[j..]).sent && t.halt == Serve(ds[i + 1..], ts[j..]).halt)
  {
    assert ds[i..][0] == ds[i] && ds[i..][1..] == ds[i + 1..];
    if j < |ts| {
      assert ts[j..][0] == ts[j] && ts[j..][1..] == ts[j + 1..];
    } else {
      assert ts[j..] == [];
    }
  }

  lemma Regroup(a: seq<Message>, b: seq<Message>, c: seq<Message>, d: seq<Message>)
    ensures (a + b + c) + d == a + (b + c + d)
    ensures c == [] ==> a + b + d == a + (b + d) && b + c == b
  {
  }

  // ---------------------------------------------------------------------------
  // The imperative worker

  class SubNode {
    /** The last directive received; the empty string before the first one. */
    var controlSignal: Signal
    /** Everything sent to rank 0 so far, in order. */
    var outbox: seq<Message>
    /** Why the loop stopped. */
    ghost var halt: Halt

    /**
     * Runs the worker loop over the directives and task payloads that rank 0
     * sends; it stops on `end`, or when it would block on an empty stream.
     */
    constructor (directives: seq<Signal>, tasks: seq<Assignment>)
      ensures var t := Serve(directives, tasks); outbox == t.sent && halt == t.halt
    {
      controlSignal := Unknown("");
      outbox := [];
      halt := AwaitingDirective;
      new;
      ghost var whole := Serve(directives, tasks);
      var i, j := 0, 0;
      while true
        invariant 0 <= i <= |directives| && 0 <= j <= |tasks|
        invariant outbox + Serve(directives[i..], tasks[j..]).sent == whole.sent
        invariant Serve(directives[i..], tasks[j..]).halt == whole.halt
        decreases |directives| - i
      {
        ghost var sentBefore := outbox;
        ghost var i0, j0 := i, j;
        SendStatusSignal(Ready);
        if i == |directives| {
          assert directives[i..] == [];
          halt := AwaitingDirective;
          break;
        }
        ReceiveControlSignal(directives[i]);
        ServeAt(directives, i, tasks, j);
        i := i + 1;
        if controlSignal == Wait {
          Sleep();
          Regroup(sentBefore, [SignalMessage(MAIN_RANK, Ready)], [], Serve(directives[i..], tasks[j..]).sent);
        } else if controlSignal == End {
          halt := Ended;
          break;
        } else if controlSignal == Task {
          if j == |tasks| {
            halt := AwaitingTask;
            break;
          }
          ExecuteTask(tasks[j]);
          j := j + 1;
          Regroup(sentBefore, [SignalMessage(MAIN_RANK, Ready)], Report(tasks[j0]), Serve(directives[i..], tasks[j..]).sent);
        } else {
          Regroup(sentBefore, [SignalMessage(MAIN_RANK, Ready)], [], Serve(directives[i..], tasks[j..]).sent);
        }
      }
    }

    method SendStatusSignal(signal: Signal)
      modifies this
      ensures outbox == old(outbox) + [SignalMessage(MAIN_RANK, signal)]
      ensures controlSignal == old(controlSignal) && halt == old(halt)
    {
      outbox := outbox + [SignalMessage(MAIN_RANK, signal)];
    }

    method ReceiveControlSignal(signal: Signal)
      modifies this
      ensures controlSignal == signal
      ensures outbox == old(outbox) && halt == old(halt)
    {
      controlSignal := signal;
    }

    /** Sleeps for a fixed interval; time is not modelled, so this is a step that changes nothing. */
    method Sleep() {
    }

    /** Runs one task and reports its outcome to rank 0. */
    method ExecuteTask(a: Assignment)
      modifies this
      ensures outbox == old(outbox) + Report(a)
      ensures controlSignal == old(controlSignal) && halt == old(halt)
    {
      var flag := a.outcome.Success?;
      if flag {
        SendStatusSignal(Done);
        outbox := outbox + [Message(MAIN_RANK, RESULT_TAG, ResultBody(ResultWrapper(a.outcome.value)))];
      } else {
        SendStatusSignal(Error);
        outbox := outbox + [Message(MAIN_RANK, RESULT_TAG, TaskBody(a.task))];
      }
    }
  }
}
