/**
 * The messages that the coordinator (rank 0) and the workers (ranks 1..size-1)
 * exchange. The transport itself is not modelled: a message is a value that
 * one side appends to its outbox and the other side finds in its inbound stream.
 */
module Protocol {

  /** A process identity in the communication group; rank 0 is the coordinator. */
  type Rank = nat

  const MAIN_RANK: Rank := 0

  /** Tag 0 carries status signals and directives, tag 1 task payloads, tag 2 results and failed tasks. */
  const CONTROL_TAG: nat := 0
  const TASK_TAG: nat := 1
  const RESULT_TAG: nat := 2

  /** Stand-in for an arbitrary value of the host language (an argument or a result). */
  datatype Value = Value(id: int)

  /** One argument set: the positional arguments of one call of the work function. */
  type ArgSet = seq<Value>

  /** Reference to the user-supplied work function; only its identity travels. */
  datatype FunctionRef = FunctionRef(name: string)

  /**
   * The strings sent on the control tag. The source compares bare strings;
   * `Unknown(text)` stands for every string other than the six named ones.
   */
  datatype Signal = Ready | Done | Error | Task | Wait | End | Unknown(text: string)

  /** The task object sent with a `task` directive (and echoed back on failure). */
  datatype TaskWrapper = TaskWrapper(func: FunctionRef, args: ArgSet)

  /** The object a worker sends back after a successful call. */
  datatype ResultWrapper = ResultWrapper(result: Value)

  datatype Body =
    | SignalBody(signal: Signal)
    | TaskBody(task: TaskWrapper)
    | ResultBody(wrapper: ResultWrapper)

  datatype Message = Message(dest: Rank, tag: nat, body: Body)

  /** A status signal or directive addressed to `dest`. */
  function SignalMessage(dest: Rank, signal: Signal): Message {
    Message(dest, CONTROL_TAG, SignalBody(signal))
  }

  /** Number of messages in `msgs` that carry `signal` to `dest` on the control tag. */
  function CountSignal(msgs: seq<Message>, dest: Rank, signal: Signal): nat {
    if msgs == [] then 0
    else (if msgs[0] == SignalMessage(dest, signal) then 1 else 0) + CountSignal(msgs[1..], dest, signal)
  }

  lemma {:induction false} CountSignalAppend(a: seq<Message>, b: seq<Message>, dest: Rank, signal: Signal)
    ensures CountSignal(a + b, dest, signal) == CountSignal(a, dest, signal) + CountSignal(b, dest, signal)
  {
    if a == [] {
      assert a + b == b;
    } else {
      assert (a + b)[0] == a[0] && (a + b)[1..] == a[1..] + b;
      CountSignalAppend(a[1..], b, dest, signal);
    }
  }
}
