/**
 * The payload-lifecycle `Builder` of beacon/prysm/builder.go. It has no state
 * of its own: it drives the engine and hands back what the engine answered.
 * Each operation is given twice: a pure run function over the engine's oracle
 * and log, whose contract states the rules, and the method that makes the
 * calls and is proved to do exactly what the run function says.
 */
module PrysmBuilder {
  import opened GoTypes
  import opened EngineApi

  /** The second argument both callers pass to GetPayload. */
  const GetPayloadSlot: uint64 := 100_000_000_000

  /** The payload attributes BlockValidation sends to ForkchoiceUpdated. */
  const ValidationAttributes: Attributer := EmptyWithVersion(3)

  /** What BlockValidation returns: a payload id, a latest valid hash and an error. */
  datatype Validation = Validation(payloadId: Option<PayloadId>, latestValidHash: Slice, err: Option<Error>)

  /** What BlockProposal returns when it does not panic: the built payload and an error. */
  datatype Proposal = Proposal(built: Option<ExecutionData>, err: Option<Error>)

  /**
   * BlockValidation against an engine that answers with `o` after the calls `log`.
   * NewPayload comes first; its failure ends the operation; otherwise one
   * forkchoice update follows with head, safe and finalized all set to the
   * hash NewPayload returned, and that hash is returned whatever the update says.
   */
  function ValidationRun(o: Oracle, log: seq<Call>, payload: Option<ExecutionData>): (run: Run<Validation>)
    ensures var np := o.newPayload(log, payload);
      && 1 <= |run.calls| <= 2
      && run.calls[0] == NewPayloadCall(payload, np)
      && (np.npErr.Some? <==> |run.calls| == 1)
      && (np.npErr.Some? ==> run.result == Validation(None, None, np.npErr))
      && (np.npErr.None? ==>
            var h := np.latestValidHash;
            && run.calls[1].ForkchoiceUpdatedCall?
            && run.calls[1].state == ForkchoiceState(h, h, h)
            && run.calls[1].attrs == ValidationAttributes
            && run.calls[1].fcuReply == o.forkchoiceUpdated(log + [run.calls[0]], run.calls[1].state, ValidationAttributes)
            && run.result.latestValidHash == h
            && run.result.payloadId == run.calls[1].fcuReply.payloadId
            && run.result.err == run.calls[1].fcuReply.fcuErr)
  {
    var np := o.newPayload(log, payload);
    var first := NewPayloadCall(payload, np);
    if np.npErr.Some? then
      Run(Validation(None, None, np.npErr), [first])
    else
      var h := np.latestValidHash;
      var st := ForkchoiceState(h, h, h);
      var fcu := o.forkchoiceUpdated(log + [first], st, ValidationAttributes);
      Run(Validation(fcu.payloadId, h, fcu.fcuErr), [first, ForkchoiceUpdatedCall(st, ValidationAttributes, fcu)])
  }

  /**
   * BlockProposal against `o` after `log`. It takes no attributes: the source's
   * `attrs` argument is never read. A validation error is passed on unchanged
   * and a nil hash ends the operation, both without GetPayload; a nil payload
   * id is dereferenced and panics; otherwise GetPayload is called once with the
   * validation's payload id and the constant slot, and its answer is returned.
   */
  function ProposalRun(o: Oracle, log: seq<Call>, payload: Option<ExecutionData>): (run: Run<Outcome<Proposal>>)
    ensures var v := ValidationRun(o, log, payload);
      && v.calls <= run.calls
      && (v.result.err.Some? ==> run == Run(Returned(Proposal(None, v.result.err)), v.calls))
      && (v.result.err.None? && v.result.latestValidHash.None? ==> run == Run(Returned(Proposal(None, None)), v.calls))
      && (v.result.err.None? && v.result.latestValidHash.Some? && v.result.payloadId.None? ==>
            run.result.Panicked? && run.calls == v.calls)
      && (v.result.err.None? && v.result.latestValidHash.Some? && v.result.payloadId.Some? ==>
            var gp := o.getPayload(log + v.calls, v.result.payloadId.value, GetPayloadSlot);
            run == Run(Returned(Proposal(gp.data, gp.gpErr)), v.calls + [GetPayloadCall(v.result.payloadId.value, GetPayloadSlot, gp)]))
  {
    var v := ValidationRun(o, log, payload);
    if v.result.err.Some? then
      Run(Returned(Proposal(None, v.result.err)), v.calls)
    else if v.result.latestValidHash.None? then
      Run(Returned(Proposal(None, v.result.err)), v.calls)
    else if v.result.payloadId.None? then
      Run(Panicked("nil payload id dereferenced"), v.calls)
    else
      var id := v.result.payloadId.value;
      var gp := o.getPayload(log + v.calls, id, GetPayloadSlot);
      Run(Returned(Proposal(gp.data, gp.gpErr)), v.calls + [GetPayloadCall(id, GetPayloadSlot, gp)])
  }

  /** At most one GetPayload, and only after a successful validation with a non-nil hash. */
  lemma ProposalGetPayloadOnlyAfterValidation(o: Oracle, log: seq<Call>, payload: Option<ExecutionData>)
    ensures var v := ValidationRun(o, log, payload);
      var run := ProposalRun(o, log, payload);
      && |run.calls| <= |v.calls| + 1
      && (|run.calls| == |v.calls| + 1 <==>
            v.result.err.None? && v.result.latestValidHash.Some? && v.result.payloadId.Some?)
      && forall i :: 0 <= i < |v.calls| ==> !run.calls[i].GetPayloadCall?
  {
  }

  /** `Builder.BlockValidation`: submit the payload, then advance forkchoice to the hash the engine returned. */
  method BlockValidation(engine: Engine, payload: Option<ExecutionData>) returns (r: Validation)
    modifies engine
    ensures var run := ValidationRun(engine.oracle, old(engine.log), payload);
      r == run.result && engine.log == old(engine.log) + run.calls
  {
    var np := engine.NewPayload(payload);
    if np.npErr.Some? {
      return Validation(None, None, np.npErr);
    }
    var latestValidHash := np.latestValidHash;
    var fcu := engine.ForkchoiceUpdated(ForkchoiceState(latestValidHash, latestValidHash, latestValidHash), ValidationAttributes);
    r := Validation(fcu.payloadId, latestValidHash, fcu.fcuErr);
  }

  /** `Builder.BlockProposal`: validate, then redeem the payload id with GetPayload. */
  method BlockProposal(engine: Engine, payload: Option<ExecutionData>, attrs: Attributer) returns (r: Outcome<Proposal>)
    modifies engine
    ensures var run := ProposalRun(engine.oracle, old(engine.log), payload);
      r == run.result && engine.log == old(engine.log) + run.calls
  {
    var v := BlockValidation(engine, payload);
    if v.err.Some? {
      return Returned(Proposal(None, v.err));
    }
    if v.latestValidHash.None? {
      return Returned(Proposal(None, v.err));
    }
    if v.payloadId.None? {
      return Panicked("nil payload id dereferenced");
    }
    var gp := engine.GetPayload(v.payloadId.value, GetPayloadSlot);
    r := Returned(Proposal(gp.data, gp.gpErr));
  }
}
