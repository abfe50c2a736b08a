/**
 * The execution engine as the bridge sees it: the Engine API calls of
 * `EngineCaller` (NewPayload, ForkchoiceUpdated, GetPayload) and the two chain
 * queries `ConsensusAPI` adds to them (BlockByNumber, BlockNumber), declared
 * in beacon/eth/execution.go:63-67.
 *
 * What the engine answers is not part of the bridge, so it is an arbitrary
 * `Oracle`: every reply may depend on the request and on every earlier call
 * with its reply. The `Engine` object keeps the log of calls made so far; the
 * bridge's own rules are then statements about that log.
 */
module EngineApi {
  import opened GoTypes

  /** The Capella execution payload a vote extension decodes to (`ExecutionPayloadCapella`). */
  datatype ExecutionPayloadCapella = ExecutionPayloadCapella(
    parentHash: Bytes,
    blockNumber: uint64,
    blockHash: Bytes,
    transactions: seq<Bytes>)

  /** `interfaces.ExecutionData`: a payload as handed to and from the engine. */
  datatype ExecutionData = WrappedCapella(payload: ExecutionPayloadCapella, valueGwei: nat)
  {
    function BlockHash(): Bytes { payload.blockHash }
  }

  /** An 8-byte payload id (`PayloadIDBytes`). */
  type PayloadId = s: Bytes | |s| == 8 witness seq(8, _ => 0)

  /** The (head, safe, finalized) triple of `ForkchoiceState`; each field is a byte slice that may be nil. */
  datatype ForkchoiceState = ForkchoiceState(headBlockHash: Slice, safeBlockHash: Slice, finalizedBlockHash: Slice)

  /** `&pb.ForkchoiceState{}`: every hash nil. */
  const ZeroForkchoice: ForkchoiceState := ForkchoiceState(None, None, None)

  datatype Withdrawal = Withdrawal(index: uint64, validatorIndex: uint64, address: Bytes, amount: uint64)

  /** The fields of `PayloadAttributesV2` (Shanghai); a nil slice field is `None`. */
  datatype PayloadAttributesV2 = PayloadAttributesV2(
    timestamp: uint64,
    prevRandao: Slice,
    suggestedFeeRecipient: Slice,
    withdrawals: Option<seq<Withdrawal>>)

  /** `&pb.PayloadAttributesV2{}`: every field at its zero value. */
  const EmptyAttributesV2: PayloadAttributesV2 := PayloadAttributesV2(0, None, None, None)

  /**
   * `payloadattribute.Attributer`: the payload attributes handed to ForkchoiceUpdated,
   * either the empty attributes of a fork version or those built from a V2 request.
   */
  datatype Attributer = EmptyWithVersion(version: nat) | FromV2(fields: PayloadAttributesV2)

  /** A block as returned by BlockByNumber; only its number and hash are used. */
  datatype Block = Block(number: uint64, hash: Hash32)

  /** Replies of the five calls. Go returns the value and the error side by side, so both are kept. */
  datatype NewPayloadReply = NewPayloadReply(latestValidHash: Slice, npErr: Option<Error>)
  datatype ForkchoiceReply = ForkchoiceReply(payloadId: Option<PayloadId>, fcuValidHash: Slice, fcuErr: Option<Error>)
  datatype GetPayloadReply = GetPayloadReply(data: Option<ExecutionData>, gpErr: Option<Error>)
  datatype BlockReply = BlockReply(block: Option<Block>, blockErr: Option<Error>)
  datatype NumberReply = NumberReply(number: uint64, numberErr: Option<Error>)

  /** One call to the engine, with what the engine answered. */
  datatype Call =
    | NewPayloadCall(payload: Option<ExecutionData>, npReply: NewPayloadReply)
    | ForkchoiceUpdatedCall(state: ForkchoiceState, attrs: Attributer, fcuReply: ForkchoiceReply)
    | GetPayloadCall(id: PayloadId, slot: uint64, gpReply: GetPayloadReply)
    | BlockByNumberCall(blockNumber: int, blockReply: BlockReply)
    | BlockNumberCall(numberReply: NumberReply)

  datatype CallKind = NewPayloadKind | ForkchoiceUpdatedKind | GetPayloadKind | BlockByNumberKind | BlockNumberKind

  function KindOf(c: Call): CallKind
  {
    match c
    case NewPayloadCall(_, _) => NewPayloadKind
    case ForkchoiceUpdatedCall(_, _, _) => ForkchoiceUpdatedKind
    case GetPayloadCall(_, _, _) => GetPayloadKind
    case BlockByNumberCall(_, _) => BlockByNumberKind
    case BlockNumberCall(_) => BlockNumberKind
  }

  /** Which calls were made, in order. */
  function Kinds(cs: seq<Call>): seq<CallKind>
  {
    seq(|cs|, i requires 0 <= i < |cs| => KindOf(cs[i]))
  }

  /** How the engine answers each call, given every call made before it. */
  datatype Oracle = Oracle(
    newPayload: (seq<Call>, Option<ExecutionData>) -> NewPayloadReply,
    forkchoiceUpdated: (seq<Call>, ForkchoiceState, Attributer) -> ForkchoiceReply,
    getPayload: (seq<Call>, PayloadId, uint64) -> GetPayloadReply,
    blockByNumber: (seq<Call>, int) -> BlockReply,
    blockNumber: seq<Call> -> NumberReply)

  /** What a bridge operation returns together with the engine calls it made, in order. */
  datatype Run<+T> = Run(result: T, calls: seq<Call>)

  /**
   * The remote execution node. Each method makes one call: the reply is what the
   * oracle gives for the calls so far, and the call is appended to the log.
   * The versioned-hashes and parent-beacon-root arguments of NewPayload are nil
   * at every call site of the bridge and are left out.
   */
  class Engine {
    const oracle: Oracle
    var log: seq<Call>

    constructor (oracle: Oracle)
      ensures this.oracle == oracle && log == []
    {
      this.oracle := oracle;
      log := [];
    }

    method NewPayload(payload: Option<ExecutionData>) returns (r: NewPayloadReply)
      modifies this
      ensures r == oracle.newPayload(old(log), payload)
      ensures log == old(log) + [NewPayloadCall(payload, r)]
    {
      r := oracle.newPayload(log, payload);
      log := log + [NewPayloadCall(payload, r)];
    }

    method ForkchoiceUpdated(state: ForkchoiceState, attrs: Attributer) returns (r: ForkchoiceReply)
      modifies this
      ensures r == oracle.forkchoiceUpdated(old(log), state, attrs)
      ensures log == old(log) + [ForkchoiceUpdatedCall(state, attrs, r)]
    {
      r := oracle.forkchoiceUpdated(log, state, attrs);
      log := log + [ForkchoiceUpdatedCall(state, attrs, r)];
    }

    method GetPayload(id: PayloadId, slot: uint64) returns (r: GetPayloadReply)
      modifies this
      ensures r == oracle.getPayload(old(log), id, slot)
      ensures log == old(log) + [GetPayloadCall(id, slot, r)]
    {
      r := oracle.getPayload(log, id, slot);
      log := log + [GetPayloadCall(id, slot, r)];
    }

    /** `BlockByNumber(ctx, big.NewInt(n))`: the number is the signed value the caller built. */
    method BlockByNumber(n: int) returns (r: BlockReply)
      modifies this
      ensures r == oracle.blockByNumber(old(log), n)
      ensures log == old(log) + [BlockByNumberCall(n, r)]
    {
      r := oracle.blockByNumber(log, n);
      log := log + [BlockByNumberCall(n, r)];
    }

    method BlockNumber() returns (r: NumberReply)
      modifies this
      ensures r == oracle.blockNumber(old(log))
      ensures log == old(log) + [BlockNumberCall(r)]
    {
      r := oracle.blockNumber(log);
      log := log + [BlockNumberCall(r)];
    }
  }
}
