/**
 * The block-building `Miner` of cosmos/runtime/miner/miner.go. Its one piece
 * of mutable bridge state is the forkchoice record `curForkchoiceState`,
 * which only `SetCurrentState` writes, always with head == safe. `BuildBlock`
 * first re-reads the node's head (the rewind guard), then asks the engine to
 * build on it: ForkchoiceUpdated with attributes, GetPayload, NewPayload, and
 * a closing ForkchoiceUpdated with empty attributes.
 *
 * As in the builder, each engine-driving method is proved equal to a pure
 * run function whose contract states the rules.
 */
module RuntimeMiner {
  import opened GoTypes
  import opened EngineApi
  import PrysmBuilder

  /** `common.Address{}`: the miner's `etherbase` is never assigned, so it stays 20 zero bytes. */
  const ZeroAddress: Bytes := [0, 0, 0, 0, 0, 0, 0, 0, 0, 0, 0, 0, 0, 0, 0, 0, 0, 0, 0, 0]

  /**
   * What buildBlock takes from its surroundings: the block time of the SDK
   * context in Unix seconds, and the 32 bytes read from crypto/rand (any value).
   */
  datatype BlockContext = BlockContext(unixTime: int64, random: Hash32)

  /** What buildBlock returns when it does not panic: bytes (nil or empty) and an error. */
  datatype BuildResult = BuildResult(bz: Slice, err: Option<Error>)

  datatype ResponsePrepareProposal = ResponsePrepareProposal(txs: seq<Bytes>)

  /** What PrepareProposal returns when it does not panic: a response (nil or not) and an error. */
  datatype PrepareResult = PrepareResult(response: Option<ResponsePrepareProposal>, err: Option<Error>)

  /** A run of a miner operation: result, engine calls in order, and the forkchoice record afterwards. */
  datatype Step<+T> = Step(result: T, calls: seq<Call>, state: ForkchoiceState)

  /** The record's invariant: the safe hash is the head hash. */
  predicate HeadIsSafe(st: ForkchoiceState)
  {
    st.headBlockHash == st.safeBlockHash
  }

  /** The calls a build issues after the rewind guard, in the order the source issues them. */
  const BuildOrder: seq<CallKind> := [ForkchoiceUpdatedKind, GetPayloadKind, NewPayloadKind, ForkchoiceUpdatedKind]

  /** The attributes request of a build: block time, the never-assigned etherbase, no withdrawals, the random bytes. */
  function BuildRequest(ctx: BlockContext): PayloadAttributesV2
  {
    PayloadAttributesV2(ToUint64(ctx.unixTime), Some(ctx.random), Some(ZeroAddress), None)
  }

  /**
   * `finalizedBlockHash(number)`: one BlockByNumber lookup at the same number;
   * the hash of the block found, or nil when the lookup fails or finds nothing.
   */
  function FinalizedLookup(o: Oracle, log: seq<Call>, number: uint64): (run: Run<Option<Hash32>>)
    ensures var br := o.blockByNumber(log, ToInt64(number));
      && run.calls == [BlockByNumberCall(ToInt64(number), br)]
      && (run.result.Some? <==> br.block.Some? && br.blockErr.None?)
      && (run.result.Some? ==> run.result.value == br.block.value.hash)
  {
    var n := ToInt64(number);
    var br := o.blockByNumber(log, n);
    var calls := [BlockByNumberCall(n, br)];
    if br.block.Some? && br.blockErr.None? then Run(Some(br.block.value.hash), calls) else Run(None, calls)
  }

  /**
   * The rewind guard: read the node's block number and the block at that
   * number. Errors of both lookups are only printed. When the cached head hash
   * differs from that block's hash, the record is reset to (that hash, the
   * hash a second lookup finds at the same number); otherwise it is untouched.
   * A nil block, or a nil hash from the second lookup, is dereferenced and panics.
   */
  function RewindRun(o: Oracle, log: seq<Call>, st: ForkchoiceState): (run: Step<Outcome<()>>)
    ensures var bn := o.blockNumber(log);
      var n := ToInt64(bn.number);
      var br := o.blockByNumber(log + [BlockNumberCall(bn)], n);
      var lookups := [BlockNumberCall(bn), BlockByNumberCall(n, br)];
      && lookups <= run.calls
      && (br.blockErr.Some? ==> run == Step(Returned(()), lookups, st))
      && (br.blockErr.None? && br.block.None? ==> run.result.Panicked? && run.state == st)
      && (br.blockErr.None? && br.block.Some? ==>
            var head := br.block.value;
            && (SliceBytes(st.headBlockHash) == head.hash ==> run == Step(Returned(()), lookups, st))
            && (SliceBytes(st.headBlockHash) != head.hash ==>
                  var fin := FinalizedLookup(o, log + lookups, head.number);
                  && run.calls == lookups + fin.calls
                  && (fin.result.None? ==> run.result.Panicked? && run.state == st)
                  && (fin.result.Some? ==>
                        run.result.Returned? &&
                        run.state == ForkchoiceState(Some(head.hash), Some(head.hash), Some(fin.result.value)))))
    ensures run.state == st || HeadIsSafe(run.state)
  {
    var bn := o.blockNumber(log);
    var n := ToInt64(bn.number);
    var br := o.blockByNumber(log + [BlockNumberCall(bn)], n);
    var lookups := [BlockNumberCall(bn), BlockByNumberCall(n, br)];
    if br.blockErr.Some? then
      Step(Returned(()), lookups, st)
    else if br.block.None? then
      Step(Panicked("nil header dereferenced"), lookups, st)
    else
      var head := br.block.value;
      if SliceBytes(st.headBlockHash) == head.hash then
        Step(Returned(()), lookups, st)
      else
        var fin := FinalizedLookup(o, log + lookups, head.number);
        if fin.result.None? then
          Step(Panicked("nil finalized hash dereferenced"), lookups + fin.calls, st)
        else
          Step(Returned(()), lookups + fin.calls, ForkchoiceState(Some(head.hash), Some(head.hash), Some(fin.result.value)))
  }

  /**
   * The build after the rewind guard, from record `st`. The calls made are a
   * prefix of BuildOrder. Errors of both forkchoice updates and of GetPayload
   * are only printed: the result carries an error only from building the
   * attributes or from NewPayload. A NewPayload failure returns that error and
   * leaves the record alone, with no further call. After NewPayload succeeds the
   * record becomes head = safe = the built payload's hash, finalized = the
   * latest valid hash of the first update, and a run that gets that far returns
   * empty bytes and no error unless the second attributes cannot be built.
   */
  function BuildPayloadRun(o: Oracle, log: seq<Call>, st: ForkchoiceState, ctx: BlockContext,
                           newAttributes: PayloadAttributesV2 -> Result<Attributer>): (run: Step<Outcome<BuildResult>>)
    ensures Kinds(run.calls) <= BuildOrder
    ensures |run.calls| >= 1 ==> run.calls[0].ForkchoiceUpdatedCall?
    ensures |run.calls| >= 2 ==> run.calls[1].GetPayloadCall? && run.calls[0].fcuReply.payloadId.Some?
    ensures |run.calls| >= 3 ==> run.calls[2].NewPayloadCall?
    ensures |run.calls| == 4 ==> run.calls[3].ForkchoiceUpdatedCall?
    ensures newAttributes(BuildRequest(ctx)).Err? ==>
      run == Step(Returned(BuildResult(None, Some(newAttributes(BuildRequest(ctx)).error))), [], st)
    ensures newAttributes(BuildRequest(ctx)).Ok? ==>
      |run.calls| >= 1 && run.calls[0].state == st && run.calls[0].attrs == newAttributes(BuildRequest(ctx)).value
    ensures |run.calls| >= 2 ==>
      run.calls[1].id == run.calls[0].fcuReply.payloadId.value && run.calls[1].slot == PrysmBuilder.GetPayloadSlot
    ensures |run.calls| >= 3 ==> run.calls[2].payload == run.calls[1].gpReply.data
    ensures |run.calls| >= 3 && run.calls[2].npReply.npErr.Some? ==>
      run == Step(Returned(BuildResult(None, run.calls[2].npReply.npErr)), run.calls[..3], st)
    ensures run.state != st ==>
      && |run.calls| >= 3 && run.calls[2].npReply.npErr.None? && run.calls[1].gpReply.data.Some?
      && var h := Some(run.calls[1].gpReply.data.value.BlockHash());
         run.state == ForkchoiceState(h, h, run.calls[0].fcuReply.fcuValidHash)
    ensures |run.calls| == 4 ==> run.calls[3].state == run.state
    ensures run.result == Returned(BuildResult(Some([]), None)) <==> |run.calls| == 4
    ensures run.result.Returned? && run.result.value.err.Some? ==>
      || newAttributes(BuildRequest(ctx)).Err?
      || newAttributes(EmptyAttributesV2).Err?
      || (|run.calls| == 3 && run.result.value.err == run.calls[2].npReply.npErr)
    ensures run.state == st || HeadIsSafe(run.state)
    // Every reply is the engine's answer to its request after the calls before it.
    ensures newAttributes(BuildRequest(ctx)).Ok? ==>
      run.calls[0].fcuReply == o.forkchoiceUpdated(log, st, newAttributes(BuildRequest(ctx)).value)
    ensures |run.calls| >= 2 ==> run.calls[1].gpReply == o.getPayload(log + run.calls[..1], run.calls[1].id, run.calls[1].slot)
    ensures |run.calls| >= 3 ==> run.calls[2].npReply == o.newPayload(log + run.calls[..2], run.calls[2].payload)
    ensures |run.calls| == 4 ==>
      run.calls[3].fcuReply == o.forkchoiceUpdated(log + run.calls[..3], run.calls[3].state, run.calls[3].attrs)
    // A nil payload id panics after the first update; otherwise GetPayload and NewPayload are both made.
    ensures |run.calls| >= 1 && run.calls[0].fcuReply.payloadId.None? ==>
      run.result.Panicked? && |run.calls| == 1 && run.state == st
    ensures |run.calls| >= 1 && run.calls[0].fcuReply.payloadId.Some? ==> |run.calls| >= 3
    // After NewPayload succeeds: nil data panics; otherwise the record is set and the closing update follows.
    ensures |run.calls| >= 3 && run.calls[2].npReply.npErr.None? && run.calls[1].gpReply.data.None? ==>
      run.result.Panicked? && |run.calls| == 3 && run.state == st
    ensures |run.calls| >= 3 && run.calls[2].npReply.npErr.None? && run.calls[1].gpReply.data.Some? ==>
      var h := Some(run.calls[1].gpReply.data.value.BlockHash());
      && run.state == ForkchoiceState(h, h, run.calls[0].fcuReply.fcuValidHash)
      && (newAttributes(EmptyAttributesV2).Ok? ==>
            && |run.calls| == 4
            && run.calls[3].attrs == newAttributes(EmptyAttributesV2).value
            && run.result == Returned(BuildResult(Some([]), None)))
      && (newAttributes(EmptyAttributesV2).Err? ==>
            && |run.calls| == 3
            && run.result == Returned(BuildResult(None, Some(newAttributes(EmptyAttributesV2).error))))
  {
    match newAttributes(BuildRequest(ctx))
    case Err(e) => Step(Returned(BuildResult(None, Some(e))), [], st)
    case Ok(attrs) =>
      var fcu := o.forkchoiceUpdated(log, st, attrs);
      var c1 := [ForkchoiceUpdatedCall(st, attrs, fcu)];
      if fcu.payloadId.None? then
        Step(Panicked("nil payload id dereferenced"), c1, st)
      else
        var id := fcu.payloadId.value;
        var gp := o.getPayload(log + c1, id, PrysmBuilder.GetPayloadSlot);
        var c2 := c1 + [GetPayloadCall(id, PrysmBuilder.GetPayloadSlot, gp)];
        var np := o.newPayload(log + c2, gp.data);
        var c3 := c2 + [NewPayloadCall(gp.data, np)];
        assert c2[..1] == c1 && c3[..1] == c1 && c3[..2] == c2;
        if np.npErr.Some? then
          Step(Returned(BuildResult(None, np.npErr)), c3, st)
        else if gp.data.None? then
          Step(Panicked("nil payload dereferenced"), c3, st)
        else
          var h := Some(gp.data.value.BlockHash());
          var built := ForkchoiceState(h, h, fcu.fcuValidHash);
          match newAttributes(EmptyAttributesV2)
          case Err(e) => Step(Returned(BuildResult(None, Some(e))), c3, built)
          case Ok(attrs2) =>
            var fcu2 := o.forkchoiceUpdated(log + c3, built, attrs2);
            var c4 := c3 + [ForkchoiceUpdatedCall(built, attrs2, fcu2)];
            assert c4[..1] == c1 && c4[..2] == c2 && c4[..3] == c3;
            Step(Returned(BuildResult(Some([]), None)), c4, built)
  }

  /** buildBlock: the rewind guard, then the build from the record the guard leaves. */
  function BuildRun(o: Oracle, log: seq<Call>, st: ForkchoiceState, ctx: BlockContext,
                    newAttributes: PayloadAttributesV2 -> Result<Attributer>): (run: Step<Outcome<BuildResult>>)
    ensures var g := RewindRun(o, log, st);
      && g.calls <= run.calls
      && (g.result.Panicked? ==> run == Step(Panicked(g.result.reason), g.calls, g.state))
      && (g.result.Returned? ==>
            var b := BuildPayloadRun(o, log + g.calls, g.state, ctx, newAttributes);
            run == Step(b.result, g.calls + b.calls, b.state))
    ensures HeadIsSafe(st) ==> HeadIsSafe(run.state)
  {
    var g := RewindRun(o, log, st);
    if g.result.Panicked? then
      Step(Panicked(g.result.reason), g.calls, g.state)
    else
      var b := BuildPayloadRun(o, log + g.calls, g.state, ctx, newAttributes);
      Step(b.result, g.calls + b.calls, b.state)
  }

  /** PrepareProposal: an empty transaction list when the build returns no error; a nil response and the error otherwise. */
  function PrepareOf(build: Outcome<BuildResult>): (r: Outcome<PrepareResult>)
    ensures build.Panicked? <==> r.Panicked?
    ensures build.Returned? && build.value.err.None? ==> r == Returned(PrepareResult(Some(ResponsePrepareProposal([])), None))
    ensures build.Returned? && build.value.err.Some? ==> r == Returned(PrepareResult(None, build.value.err))
  {
    match build
    case Panicked(why) => Panicked(why)
    case Returned(b) =>
      if b.err.Some? then Returned(PrepareResult(None, b.err))
      else Returned(PrepareResult(Some(ResponsePrepareProposal([])), None))
  }

  class Miner {
    /** The embedded `eth.ConsensusAPI`. */
    const engine: Engine
    /** `etherbase`: nothing in the miner assigns it. */
    const etherbase: Bytes
    var curForkchoiceState: ForkchoiceState

    ghost predicate Valid()
      reads this
    {
      HeadIsSafe(curForkchoiceState) && etherbase == ZeroAddress
    }

    /** `New`: a miner over the given engine with a zero-valued forkchoice record. */
    constructor New(gm: Engine)
      ensures engine == gm && curForkchoiceState == ZeroForkchoice && Valid()
    {
      engine := gm;
      etherbase := ZeroAddress;
      curForkchoiceState := ZeroForkchoice;
    }

    /** `setCurrentState`: replace the whole record, head = safe = `headHash`. */
    method SetCurrentState(headHash: Slice, finalizedHash: Slice)
      modifies this`curForkchoiceState
      ensures curForkchoiceState == ForkchoiceState(headHash, headHash, finalizedHash)
      ensures HeadIsSafe(curForkchoiceState)
    {
      curForkchoiceState := ForkchoiceState(headHash, headHash, finalizedHash);
    }

    /** `finalizedBlockHash`. */
    method FinalizedBlockHash(number: uint64) returns (h: Option<Hash32>)
      modifies engine
      ensures var run := FinalizedLookup(engine.oracle, old(engine.log), number);
        h == run.result && engine.log == old(engine.log) + run.calls
    {
      var finalizedBlock := engine.BlockByNumber(ToInt64(number));
      if finalizedBlock.block.Some? && finalizedBlock.blockErr.None? {
        return Some(finalizedBlock.block.value.hash);
      }
      return None;
    }

    /** The rewind guard at the head of `buildBlock`. */
    method ResetOnRewind() returns (r: Outcome<()>)
      requires Valid()
      modifies this, engine
      ensures var run := RewindRun(engine.oracle, old(engine.log), old(curForkchoiceState));
        && r == run.result
        && engine.log == old(engine.log) + run.calls
        && curForkchoiceState == run.state
      ensures Valid()
    {
      // Reset to the current block in case the chain was rewound; lookup errors are only printed.
      ghost var log0 := engine.log;
      var number := engine.BlockNumber();
      var header := engine.BlockByNumber(ToInt64(number.number));
      ghost var lookups := [BlockNumberCall(number), BlockByNumberCall(ToInt64(number.number), header)];
      assert engine.log == log0 + lookups;
      if header.blockErr.Some? {
        return Returned(());
      }
      if header.block.None? {
        return Panicked("nil header dereferenced");
      }
      var head := header.block.value;
      if SliceBytes(curForkchoiceState.headBlockHash) != head.hash {
        var finalizedHash := FinalizedBlockHash(head.number);
        assert engine.log == log0 + (lookups + FinalizedLookup(engine.oracle, log0 + lookups, head.number).calls);
        if finalizedHash.None? {
          return Panicked("nil finalized hash dereferenced");
        }
        SetCurrentState(Some(head.hash), Some(finalizedHash.value));
      }
      return Returned(());
    }

    /** The rest of `buildBlock`: build a payload on the current record, mark it canonical and settle forkchoice. */
    method BuildOnHead(ctx: BlockContext, newAttributes: PayloadAttributesV2 -> Result<Attributer>) returns (r: Outcome<BuildResult>)
      requires Valid()
      modifies this, engine
      ensures var run := BuildPayloadRun(engine.oracle, old(engine.log), old(curForkchoiceState), ctx, newAttributes);
        && r == run.result
        && engine.log == old(engine.log) + run.calls
        && curForkchoiceState == run.state
      ensures Valid()
    {
      ghost var run := BuildPayloadRun(engine.oracle, engine.log, curForkchoiceState, ctx, newAttributes);
      var attrs := newAttributes(PayloadAttributesV2(ToUint64(ctx.unixTime), Some(ctx.random), Some(etherbase), None));
      if attrs.Err? {
        return Returned(BuildResult(None, Some(attrs.error)));
      }
      // The error of this update is only printed; its payload id is dereferenced.
      var fcResponse := engine.ForkchoiceUpdated(curForkchoiceState, attrs.value);
      if fcResponse.payloadId.None? {
        return Panicked("nil payload id dereferenced");
      }
      // The error of GetPayload is only printed.
      var data := engine.GetPayload(fcResponse.payloadId.value, PrysmBuilder.GetPayloadSlot);
      assert engine.log == old(engine.log) + ([ForkchoiceUpdatedCall(old(curForkchoiceState), attrs.value, fcResponse)]
        + [GetPayloadCall(fcResponse.payloadId.value, PrysmBuilder.GetPayloadSlot, data)]);
      // Mark the payload as canonical.
      var np := engine.NewPayload(data.data);
      assert engine.log == old(engine.log) + [ForkchoiceUpdatedCall(old(curForkchoiceState), attrs.value, fcResponse),
        GetPayloadCall(fcResponse.payloadId.value, PrysmBuilder.GetPayloadSlot, data), NewPayloadCall(data.data, np)];
      assert run.calls[..3] == [run.calls[0], run.calls[1], run.calls[2]];
      if np.npErr.Some? {
        return Returned(BuildResult(None, np.npErr));
      }
      if data.data.None? {
        return Panicked("nil payload dereferenced");
      }
      SetCurrentState(Some(data.data.value.BlockHash()), fcResponse.fcuValidHash);
      var attrs2 := newAttributes(EmptyAttributesV2);
      if attrs2.Err? {
        return Returned(BuildResult(None, Some(attrs2.error)));
      }
      // The error of the closing update is only printed.
      var _ := engine.ForkchoiceUpdated(curForkchoiceState, attrs2.value);
      return Returned(BuildResult(Some([]), None));
    }

    /** `buildBlock`: the rewind guard, then the build. */
    method BuildBlock(ctx: BlockContext, newAttributes: PayloadAttributesV2 -> Result<Attributer>) returns (r: Outcome<BuildResult>)
      requires Valid()
      modifies this, engine
      ensures var run := BuildRun(engine.oracle, old(engine.log), old(curForkchoiceState), ctx, newAttributes);
        && r == run.result
        && engine.log == old(engine.log) + run.calls
        && curForkchoiceState == run.state
      ensures Valid()
    {
      var guard := ResetOnRewind();
      if guard.Panicked? {
        return Panicked(guard.reason);
      }
      r := BuildOnHead(ctx, newAttributes);
    }

    /** `PrepareProposal`: build a block and propose no transactions. */
    method PrepareProposal(ctx: BlockContext, newAttributes: PayloadAttributesV2 -> Result<Attributer>) returns (r: Outcome<PrepareResult>)
      requires Valid()
      modifies this, engine
      ensures var run := BuildRun(engine.oracle, old(engine.log), old(curForkchoiceState), ctx, newAttributes);
        && r == PrepareOf(run.result)
        && engine.log == old(engine.log) + run.calls
        && curForkchoiceState == run.state
      ensures Valid()
    {
      var built := BuildBlock(ctx, newAttributes);
      match built
      case Panicked(why) =>
        return Panicked(why);
      case Returned(b) =>
        if b.err.Some? {
          return Returned(PrepareResult(None, b.err));
        }
        return Returned(PrepareResult(Some(ResponsePrepareProposal([])), None));
    }
  }
}
