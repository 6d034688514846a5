/**
 * The coordinator (rank 0). The pure part states what one loop iteration does
 * to the coordinator's bookkeeping (Handle), when the loop stops (Finished)
 * and what a whole run over a stream of inbound status signals produces (Run);
 * the lemmas prove FIFO dispatch, conservation of argument sets, the one-time
 * `end` broadcast and that nothing is read after it. The class MainNode is the
 * imperative coordinator whose constructor runs the receive loop.
 */
module Coordinator {
  import opened Protocol

  /** The coordinator's bookkeeping: pending argument sets, busy ranks, results, errors. */
  datatype State = State(queue: seq<ArgSet>, busy: set<Rank>, results: seq<Value>, errors: seq<ArgSet>)

  function Initial(args: seq<ArgSet>): State {
    State(args, {}, [], [])
  }

  /**
   * One status signal received from rank `src`. After `done` or `error` the
   * coordinator reads one more message from `src` (tag 2), `followUp`; for
   * the other signals `followUp` is not read.
   */
  datatype Inbound = Inbound(src: Rank, signal: Signal, followUp: Body)

  /**
   * What the source needs for a signal to be handled without raising: the
   * busy-map entry popped on `done`/`error` exists, and the follow-up has the
   * attribute that is read from it.
   */
  predicate Enabled(s: State, e: Inbound) {
    (e.signal == Done ==> e.src in s.busy && e.followUp.ResultBody?) &&
    (e.signal == Error ==> e.src in s.busy && e.followUp.TaskBody?)
  }

  /** The two messages that hand the argument set `args` to rank `dest`. */
  function TaskMessages(dest: Rank, func: FunctionRef, args: ArgSet): seq<Message> {
    [SignalMessage(dest, Task), Message(dest, TASK_TAG, TaskBody(TaskWrapper(func, args)))]
  }

  /** The termination test: nothing pending and no rank holding a task. */
  predicate Finished(s: State) {
    s.queue == [] && s.busy == {}
  }

  /** A new state and the messages sent while reaching it. */
  datatype Step = Step(state: State, sent: seq<Message>)

  /** One loop iteration before the termination test: dispatch on the status signal. */
  function Handle(s: State, e: Inbound, func: FunctionRef): Step
    requires Enabled(s, e)
  {
    match e.signal
    case Ready =>
      if s.queue == [] then Step(s, [])
      else Step(s.(queue := s.queue[1..], busy := s.busy + {e.src}), TaskMessages(e.src, func, s.queue[0]))
    case Done => Step(s.(busy := s.busy - {e.src}, results := s.results + [e.followUp.wrapper.result]), [])
    case Error => Step(s.(busy := s.busy - {e.src}, errors := s.errors + [e.followUp.task.args]), [])
    case _ => Step(s, [])
  }

  /** The `end` directives of the termination broadcast, one to each rank 1..size-1 in order. */
  function Broadcast(size: nat): (r: seq<Message>)
    ensures |r| == if size == 0 then 0 else size - 1
    ensures forall k :: 0 <= k < |r| ==> r[k] == SignalMessage(k + 1, End)
  {
    if size <= 1 then [] else Broadcast(size - 1) + [SignalMessage(size - 1, End)]
  }

  /** The state after a run, everything sent until then, and whether the loop stopped. */
  datatype Trace = Trace(state: State, sent: seq<Message>, finished: bool)

  /** Every signal the loop gets to handle is handled without raising. */
  predicate Admissible(s: State, inbound: seq<Inbound>, func: FunctionRef)
    decreases |inbound|
  {
    inbound == [] ||
    (Enabled(s, inbound[0]) &&
     var next := Handle(s, inbound[0], func).state;
     Finished(next) || Admissible(next, inbound[1..], func))
  }

  /**
   * The coordinator loop from state `s`, having sent `sent` so far, over the
   * signals `inbound`. The loop stops after the broadcast once Finished holds;
   * when the signals run out first it is still waiting (finished is false).
   */
  function Run(s: State, sent: seq<Message>, inbound: seq<Inbound>, func: FunctionRef, size: nat): Trace
    requires Admissible(s, inbound, func)
    decreases |inbound|
  {
    if inbound == [] then Trace(s, sent, false)
    else
      var step := Handle(s, inbound[0], func);
      if Finished(step.state) then Trace(step.state, sent + step.sent + Broadcast(size), true)
      else Run(step.state, sent + step.sent, inbound[1..], func, size)
  }

  /** The argument sets carried by the task payloads in `msgs`, in sending order. */
  function DispatchedArgs(msgs: seq<Message>): seq<ArgSet> {
    if msgs == [] then []
    else (if msgs[0].tag == TASK_TAG && msgs[0].body.TaskBody? then [msgs[0].body.task.args] else [])
         + DispatchedArgs(msgs[1..])
  }

  lemma {:induction false} DispatchedArgsAppend(a: seq<Message>, b: seq<Message>)
    ensures DispatchedArgs(a + b) == DispatchedArgs(a) + DispatchedArgs(b)
  {
    if a == [] {
      assert a + b == b;
    } else {
      assert (a + b)[0] == a[0] && (a + b)[1..] == a[1..] + b;
      DispatchedArgsAppend(a[1..], b);
    }
  }

  /** Number of argument sets held by the coordinator's four collections. */
  function Total(s: State): nat {
    |s.queue| + |s.busy| + |s.results| + |s.errors|
  }

  /** Every `ready` answered with a task comes from a rank that holds no task. */
  predicate ReadyFromIdle(s: State, inbound: seq<Inbound>, func: FunctionRef)
    decreases |inbound|
  {
    inbound == [] ||
    (Enabled(s, inbound[0]) &&
     (inbound[0].signal == Ready && s.queue != [] ==> inbound[0].src !in s.busy) &&
     var next := Handle(s, inbound[0], func).state;
     Finished(next) || ReadyFromIdle(next, inbound[1..], func))
  }

  // ---------------------------------------------------------------------------
  // Properties of one step

  /** The broadcast reaches every worker rank exactly once and never rank 0. */
  lemma {:induction false} BroadcastEndsOnce(size: nat, w: Rank)
    ensures CountSignal(Broadcast(size), w, End) == if 1 <= w < size then 1 else 0
  {
    if size > 1 {
      BroadcastEndsOnce(size - 1, w);
      CountSignalAppend(Broadcast(size - 1), [SignalMessage(size - 1, End)], w, End);
    }
  }

  /** The broadcast carries no task payload. */
  lemma {:induction false} BroadcastDispatchesNothing(size: nat)
    ensures DispatchedArgs(Broadcast(size)) == []
  {
    if size > 1 {
      BroadcastDispatchesNothing(size - 1);
      DispatchedArgsAppend(Broadcast(size - 1), [SignalMessage(size - 1, End)]);
    }
  }

  /** Handling a signal never sends `end`. */
  lemma HandleSendsNoEnd(s: State, e: Inbound, func: FunctionRef, w: Rank)
    requires Enabled(s, e)
    ensures CountSignal(Handle(s, e, func).sent, w, End) == 0
  {
    var sent := Handle(s, e, func).sent;
    if sent != [] {
      assert sent == TaskMessages(e.src, func, s.queue[0]);
      assert sent[1..] == [sent[1]] && sent[1..][1..] == [];
      assert CountSignal(sent[1..][1..], w, End) == 0;
    }
  }

  /** What a step dispatches is exactly what it removes from the front of the queue. */
  lemma StepFifo(s: State, e: Inbound, func: FunctionRef)
    requires Enabled(s, e)
    ensures var step := Handle(s, e, func);
      DispatchedArgs(step.sent) + step.state.queue == s.queue
  {
    var step := Handle(s, e, func);
    if step.sent != [] {
      var m := step.sent;
      assert m == TaskMessages(e.src, func, s.queue[0]);
      assert m[1..] == [m[1]] && m[1..][1..] == [];
      assert DispatchedArgs(m[1..]) == [s.queue[0]] + DispatchedArgs(m[1..][1..]);
      assert DispatchedArgs(m) == [s.queue[0]];
      assert [s.queue[0]] + s.queue[1..] == s.queue;
    }
  }

  /** A step moves an argument set between collections but never creates or loses one. */
  lemma StepConserves(s: State, e: Inbound, func: FunctionRef)
    requires Enabled(s, e)
    requires e.signal == Ready && s.queue != [] ==> e.src !in s.busy
    ensures Total(Handle(s, e, func).state) == Total(s)
  {
    if e.signal == Done || e.signal == Error {
      assert s.busy == (s.busy - {e.src}) + {e.src};
    }
  }

  // ---------------------------------------------------------------------------
  // Properties of a run

  /** FIFO: the dispatched argument sets followed by the queue are always the same sequence. */
  lemma {:induction false} RunFifo(s: State, sent: seq<Message>, inbound: seq<Inbound>, func: FunctionRef, size: nat)
    decreases |inbound|
    requires Admissible(s, inbound, func)
    ensures var r := Run(s, sent, inbound, func, size);
      DispatchedArgs(r.sent) + r.state.queue == DispatchedArgs(sent) + s.queue
  {
    if inbound != [] {
      var step := Handle(s, inbound[0], func);
      var mid := sent + step.sent;
      StepFifo(s, inbound[0], func);
      DispatchedArgsAppend(sent, step.sent);
      assert DispatchedArgs(mid) + step.state.queue == DispatchedArgs(sent) + s.queue by {
        assert DispatchedArgs(mid) + step.state.queue
            == DispatchedArgs(sent) + (DispatchedArgs(step.sent) + step.state.queue);
      }
      if Finished(step.state) {
        assert Run(s, sent, inbound, func, size) == Trace(step.state, mid + Broadcast(size), true);
        DispatchedArgsAppend(mid, Broadcast(size));
        BroadcastDispatchesNothing(size);
        assert DispatchedArgs(mid + Broadcast(size)) == DispatchedArgs(mid) + [];
      } else {
        assert Run(s, sent, inbound, func, size) == Run(step.state, mid, inbound[1..], func, size);
        RunFifo(step.state, mid, inbound[1..], func, size);
      }
    }
  }

  /** From the start, what was dispatched is a prefix of the argument list and the queue is the rest. */
  lemma FifoFromStart(args: seq<ArgSet>, inbound: seq<Inbound>, func: FunctionRef, size: nat)
    requires Admissible(Initial(args), inbound, func)
    ensures var r := Run(Initial(args), [], inbound, func, size);
      var n := |DispatchedArgs(r.sent)|;
      n <= |args| && DispatchedArgs(r.sent) == args[..n] && r.state.queue == args[n..]
  {
    RunFifo(Initial(args), [], inbound, func, size);
    var r := Run(Initial(args), [], inbound, func, size);
    assert DispatchedArgs(r.sent) + r.state.queue == args;
  }

  /** Conservation over a run in which only idle ranks are given tasks. */
  lemma {:induction false} RunConserves(s: State, sent: seq<Message>, inbound: seq<Inbound>, func: FunctionRef, size: nat)
    decreases |inbound|
    requires Admissible(s, inbound, func)
    requires ReadyFromIdle(s, inbound, func)
    ensures Total(Run(s, sent, inbound, func, size).state) == Total(s)
  {
    if inbound != [] {
      var step := Handle(s, inbound[0], func);
      StepConserves(s, inbound[0], func);
      if !Finished(step.state) {
        RunConserves(step.state, sent + step.sent, inbound[1..], func, size);
      }
    }
  }

  /** A run adds one `end` for each worker rank if it finishes, and none otherwise. */
  lemma {:induction false} RunEndsOnce(s: State, sent: seq<Message>, inbound: seq<Inbound>, func: FunctionRef, size: nat, w: Rank)
    decreases |inbound|
    requires Admissible(s, inbound, func)
    ensures var r := Run(s, sent, inbound, func, size);
      CountSignal(r.sent, w, End) == CountSignal(sent, w, End) + (if r.finished && 1 <= w < size then 1 else 0)
  {
    if inbound != [] {
      var step := Handle(s, inbound[0], func);
      HandleSendsNoEnd(s, inbound[0], func, w);
      CountSignalAppend(sent, step.sent, w, End);
      if Finished(step.state) {
        CountSignalAppend(sent + step.sent, Broadcast(size), w, End);
        BroadcastEndsOnce(size, w);
      } else {
        RunEndsOnce(step.state, sent + step.sent, inbound[1..], func, size, w);
      }
    }
  }

  /** Once at least one signal was handled, the loop has stopped exactly when the termination test holds. */
  lemma {:induction false} RunFinishedIff(s: State, sent: seq<Message>, inbound: seq<Inbound>, func: FunctionRef, size: nat)
    decreases |inbound|
    requires Admissible(s, inbound, func)
    requires inbound != []
    ensures var r := Run(s, sent, inbound, func, size);
      r.finished <==> Finished(r.state)
  {
    var step := Handle(s, inbound[0], func);
    if !Finished(step.state) && inbound[1..] != [] {
      RunFinishedIff(step.state, sent + step.sent, inbound[1..], func, size);
    }
  }

  /** After the broadcast the coordinator reads no further signal: later ones change nothing. */
  lemma {:induction false} RunIgnoresLaterSignals(s: State, sent: seq<Message>, inbound: seq<Inbound>, more: seq<Inbound>, func: FunctionRef, size: nat)
    decreases |inbound|
    requires Admissible(s, inbound, func)
    requires Run(s, sent, inbound, func, size).finished
    ensures Admissible(s, inbound + more, func)
    ensures Run(s, sent, inbound + more, func, size) == Run(s, sent, inbound, func, size)
  {
    assert inbound != [];
    assert (inbound + more)[0] == inbound[0];
    assert (inbound + more)[1..] == inbound[1..] + more;
    var step := Handle(s, inbound[0], func);
    if !Finished(step.state) {
      RunIgnoresLaterSignals(step.state, sent + step.sent, inbound[1..], more, func, size);
    }
  }

  /**
   * A run from the initial state that finishes has dispatched every argument
   * set once, in order, ends with every one of them resolved to a result or an
   * error, and has sent exactly one `end` to each worker rank.
   */
  lemma CompletedRun(args: seq<ArgSet>, inbound: seq<Inbound>, func: FunctionRef, size: nat)
    requires Admissible(Initial(args), inbound, func)
    requires ReadyFromIdle(Initial(args), inbound, func)
    requires Run(Initial(args), [], inbound, func, size).finished
    ensures var r := Run(Initial(args), [], inbound, func, size);
      DispatchedArgs(r.sent) == args &&
      Finished(r.state) &&
      |r.state.results| + |r.state.errors| == |args| &&
      forall w: Rank :: CountSignal(r.sent, w, End) == if 1 <= w < size then 1 else 0
  {
    var r := Run(Initial(args), [], inbound, func, size);
    assert inbound != [];
    RunFinishedIff(Initial(args), [], inbound, func, size);
    RunFifo(Initial(args), [], inbound, func, size);
    RunConserves(Initial(args), [], inbound, func, size);
    assert DispatchedArgs(r.sent) + [] == args;
    forall w: Rank
      ensures CountSignal(r.sent, w, End) == if 1 <= w < size then 1 else 0
    {
      RunEndsOnce(Initial(args), [], inbound, func, size, w);
    }
  }

  /**
   * A signal that changes nothing (an unrecognised one, or `ready` with an
   * empty queue) can be dropped from the stream while the coordinator is not
   * done: the run sends and records the same.
   */
  lemma IgnoredSignalIsNoOp(s: State, sent: seq<Message>, e: Inbound, inbound: seq<Inbound>, func: FunctionRef, size: nat)
    requires (e.signal != Ready && e.signal != Done && e.signal != Error) || (e.signal == Ready && s.queue == [])
    requires !Finished(s)
    requires Admissible(s, inbound, func)
    ensures Admissible(s, [e] + inbound, func)
    ensures Run(s, sent, [e] + inbound, func, size) == Run(s, sent, inbound, func, size)
  {
    assert ([e] + inbound)[1..] == inbound;
    assert Handle(s, e, func) == Step(s, []);
    assert sent + [] == sent;
  }

  // ---------------------------------------------------------------------------
  // The imperative coordinator

  class MainNode {
    const func: FunctionRef
    const size: nat
    var queue: seq<ArgSet>
    /** The keys of the busy map; the dispatch time stored as its values is never read. */
    var busy: set<Rank>
    var results: seq<Value>
    var errors: seq<ArgSet>
    /** Everything sent so far, in order. */
    var outbox: seq<Message>
    /** Whether the loop stopped after the termination broadcast. */
    ghost var finished: bool

    function AsState(): State
      reads this
    {
      State(queue, busy, results, errors)
    }

    /**
     * Runs the coordinator loop over the status signals `inbound`: each
     * signal is handled, then the termination test runs; the loop stops when
     * it succeeds or when no signal is left to receive.
     */
    constructor (func: FunctionRef, args: seq<ArgSet>, size: nat, inbound: seq<Inbound>)
      requires Admissible(Initial(args), inbound, func)
      ensures this.func == func && this.size == size
      ensures var r := Run(Initial(args), [], inbound, func, size);
        AsState() == r.state && outbox == r.sent && finished == r.finished
    {
      this.func := func;
      this.size := size;
      queue := args;
      busy := {};
      results := [];
      errors := [];
      outbox := [];
      finished := false;
      new;
      var i := 0;
      while i < |inbound|
        invariant 0 <= i <= |inbound|
        invariant this.func == func && this.size == size && !finished
        invariant Admissible(AsState(), inbound[i..], func)
        invariant Run(AsState(), outbox, inbound[i..], func, size) == Run(Initial(args), [], inbound, func, size)
      {
        var e := inbound[i];
        assert inbound[i..][0] == e && inbound[i..][1..] == inbound[i + 1..];
        ghost var before, sentBefore := AsState(), outbox;
        if e.signal == Ready {
          SendTask(e.src);
        } else if e.signal == Done {
          ReceiveResult(e.src, e.followUp.wrapper);
        } else if e.signal == Error {
          ErrorTreatment(e.src, e.followUp.task);
        }
        ghost var step := Handle(before, e, func);
        assert AsState() == step.state && outbox == sentBefore + step.sent;
        var done := FinishCondition();
        if done {
          finished := true;
          break;
        }
        assert outbox == sentBefore + step.sent + [];
        assert outbox == sentBefore + step.sent;
        i := i + 1;
      }
    }

    /** Answers `ready` from `src`: hands it the front argument set, or sends nothing if none is left. */
    method SendTask(src: Rank)
      modifies this
      ensures old(queue) == [] ==> queue == [] && busy == old(busy) && outbox == old(outbox)
      ensures old(queue) != [] ==>
        queue == old(queue)[1..] && busy == old(busy) + {src} &&
        outbox == old(outbox) + TaskMessages(src, func, old(queue)[0])
      ensures results == old(results) && errors == old(errors) && finished == old(finished)
    {
      if queue != [] {
        var args := queue[0];
        queue := queue[1..];
        outbox := outbox + [SignalMessage(src, Task)];
        outbox := outbox + [Message(src, TASK_TAG, TaskBody(TaskWrapper(func, args)))];
        busy := busy + {src};
      }
    }

    /** Handles `done` from `src`: frees it and records the result it sent. */
    method ReceiveResult(src: Rank, wrapper: ResultWrapper)
      requires src in busy
      modifies this
      ensures busy == old(busy) - {src} && results == old(results) + [wrapper.result]
      ensures queue == old(queue) && errors == old(errors) && outbox == old(outbox) && finished == old(finished)
    {
      busy := busy - {src};
      results := results + [wrapper.result];
    }

    /** Handles `error` from `src`: frees it and records the arguments of the task it returned. */
    method ErrorTreatment(src: Rank, task: TaskWrapper)
      requires src in busy
      modifies this
      ensures busy == old(busy) - {src} && errors == old(errors) + [task.args]
      ensures queue == old(queue) && results == old(results) && outbox == old(outbox) && finished == old(finished)
    {
      busy := busy - {src};
      errors := errors + [task.args];
    }

    /** The termination test; when it holds, sends `end` to every rank but 0. */
    method FinishCondition() returns (done: bool)
      modifies this
      ensures done <==> Finished(AsState())
      ensures outbox == old(outbox) + (if done then Broadcast(size) else [])
      ensures AsState() == old(AsState()) && finished == old(finished)
    {
      if queue != [] {
        return false;
      }
      if |busy| != 0 {
        return false;
      }
      for i := 0 to size
        invariant outbox == old(outbox) + Broadcast(i)
        invariant AsState() == old(AsState()) && finished == old(finished)
      {
        if i != 0 {
          outbox := outbox + [SignalMessage(i, End)];
        }
      }
      return true;
    }
  }
}
