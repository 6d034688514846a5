/**
 * Where the two roles meet: the report a worker sends after a task is what
 * the coordinator's `done`/`error` handlers read, so a report from a busy
 * rank is always handled and records exactly the outcome of the task.
 */
module Exchange {
  import opened Protocol
  import Coordinator
  import Worker

  /** The signal and follow-up of a worker's report, as the coordinator receives them from `src`. */
  function Received(src: Rank, a: Worker.Assignment): (e: Coordinator.Inbound)
    ensures e.src == src
    ensures e.signal == Done <==> a.outcome.Success?
    ensures e.signal == Error <==> a.outcome.Failure?
  {
    var r := Worker.Report(a);
    Coordinator.Inbound(src, r[0].body.signal, r[1].body)
  }

  /**
   * A report from a busy rank is handled without raising: the rank becomes
   * idle, the value of a successful call is appended to the results, the
   * arguments of a failed one to the errors, and nothing else changes.
   */
  lemma ReportResolvesTask(s: Coordinator.State, src: Rank, a: Worker.Assignment, func: FunctionRef)
    requires src in s.busy
    ensures Coordinator.Enabled(s, Received(src, a))
    ensures var step := Coordinator.Handle(s, Received(src, a), func);
      step.sent == [] &&
      step.state.queue == s.queue &&
      step.state.busy == s.busy - {src} &&
      step.state.results == s.results + Worker.Successes([a]) &&
      step.state.errors == s.errors + (if a.outcome.Failure? then [a.task.args] else [])
  {
    var r := Worker.Report(a);
    assert [a][1..] == [];
    if a.outcome.Success? {
      assert r[1].body == ResultBody(ResultWrapper(a.outcome.value)) by {
        assert Worker.ResultValues(r) == [a.outcome.value];
        assert r[1..] == [r[1]] && r[1..][1..] == [];
      }
    } else {
      assert r[1].body == TaskBody(a.task) by {
        assert Worker.ReturnedTasks(r) == [a.task];
        assert r[1..] == [r[1]] && r[1..][1..] == [];
      }
    }
  }

  /**
   * A full round trip with an idle worker: `ready` from `src` hands it the
   * front argument set, the worker runs exactly that task, and its report
   * leaves the coordinator as before except that the argument set has moved
   * from the queue to the results (its value) or to the errors (its arguments).
   */
  lemma RoundTrip(s: Coordinator.State, src: Rank, a: Worker.Assignment, func: FunctionRef)
    requires s.queue != [] && src !in s.busy
    requires a.task == TaskWrapper(func, s.queue[0])
    ensures var ready := Coordinator.Inbound(src, Ready, SignalBody(Ready));
      var first := Coordinator.Handle(s, ready, func);
      first.sent == Coordinator.TaskMessages(src, func, s.queue[0]) &&
      Coordinator.Enabled(first.state, Received(src, a)) &&
      Coordinator.Handle(first.state, Received(src, a), func).state ==
        s.(queue := s.queue[1..],
           results := s.results + Worker.Successes([a]),
           errors := s.errors + (if a.outcome.Failure? then [s.queue[0]] else []))
  {
    var ready := Coordinator.Inbound(src, Ready, SignalBody(Ready));
    var first := Coordinator.Handle(s, ready, func);
    assert first.state.busy == s.busy + {src};
    ReportResolvesTask(first.state, src, a, func);
    assert s.busy + {src} - {src} == s.busy;
  }
}
