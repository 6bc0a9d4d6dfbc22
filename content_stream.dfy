/**
 * The appearance content stream the generator writes into. Operator
 * serialisation is not modelled: the stream records the operators it has
 * accepted, whether it is closed, and the position at which the underlying
 * output fails, which stands for an `IOException` from the device.
 */
module ContentStreams {
  import opened Wrappers
  import opened InkProgram

  /** How the output device behaves during one generation. */
  datatype Io = Io(openFails: bool, writeFailsAt: Option<nat>)

  /** A write of `program` is cut short by a failure at `failsAt`. */
  predicate Interrupted(program: seq<Op>, failsAt: Option<nat>)
  {
    failsAt.Some? && failsAt.value < |program|
  }

  /**
   * What a stream that fails at `failsAt` holds once `program` has been
   * written to it operator by operator, stopping at the first failure.
   */
  function Written(program: seq<Op>, failsAt: Option<nat>): (r: seq<Op>)
    ensures r <= program
    ensures r == program <==> !Interrupted(program, failsAt)
    ensures Interrupted(program, failsAt) ==> |r| == failsAt.value
  {
    if Interrupted(program, failsAt) then program[..failsAt.value] else program
  }

  /**
   * A prefix of the program that is as long as the failure position is
   * exactly what the failing stream holds.
   */
  lemma WrittenAtFailure(program: seq<Op>, ops: seq<Op>, k: nat)
    requires ops <= program && |ops| == k && k < |program|
    ensures Written(program, Some(k)) == ops
  {
  }

  /**
   * A failure inside a prefix of a program leaves what it would leave in
   * the whole program.
   */
  lemma WrittenOfPrefix(prefix: seq<Op>, program: seq<Op>, failsAt: Option<nat>)
    requires prefix <= program && Interrupted(prefix, failsAt)
    ensures Written(program, failsAt) == Written(prefix, failsAt)
  {
  }

  /**
   * A failure while the part `rest` of a program is being written after
   * `state` leaves `state` and the part `done` of `rest` written so far.
   */
  lemma WrittenAtFailureAfter(state: seq<Op>, done: seq<Op>, rest: seq<Op>)
    requires done <= rest && |done| < |rest|
    ensures Written(state + rest, Some(|state| + |done|)) == state + done
  {
    assert (state + rest)[..|state| + |done|] == state + done;
  }

  class ContentStream {
    var ops: seq<Op>
    var closed: bool
    const failsAt: Option<nat>

    /** A freshly opened, empty stream over a device that fails at `failsAt`. */
    constructor (failsAt: Option<nat>)
      ensures ops == [] && !closed && this.failsAt == failsAt
    {
      ops := [];
      closed := false;
      this.failsAt := failsAt;
    }

    /**
     * Writes one operator. The write fails, leaving the stream as it was,
     * on a closed stream or when the device fails at this position.
     */
    method Write(op: Op) returns (ok: bool)
      modifies this
      ensures ok <==> !old(closed) && failsAt != Some(|old(ops)|)
      ensures ops == if ok then old(ops) + [op] else old(ops)
      ensures closed == old(closed)
    {
      ok := !closed && failsAt != Some(|ops|);
      if ok {
        ops := ops + [op];
      }
    }

    /** Closes the stream, quietly: closing never fails and keeps what was written. */
    method Close()
      modifies this
      ensures closed && ops == old(ops)
    {
      closed := true;
    }
  }
}
