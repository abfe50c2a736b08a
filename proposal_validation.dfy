/**
 * Proposal-time checks of cosmos/abci/proposal/validate.go. A commit's vote
 * extensions must first pass the supermajority check; then every vote is
 * checked in order: its validator address must decode, and its extension must
 * be an SSZ-encoded Capella payload that the execution engine accepts through
 * the builder's BlockValidation. The first failure ends the check with that
 * failure's error.
 *
 * The decoding steps and the supermajority check belong to libraries that are
 * not part of this model, so they are parameters.
 */
module ProposalValidation {
  import opened GoTypes
  import opened EngineApi
  import PrysmBuilder
  import RuntimeMiner

  /** The part of `abci.ExtendedVoteInfo` the check reads. */
  datatype VoteInfo = VoteInfo(validatorAddress: Bytes, power: int64, voteExtension: Bytes)

  /** `abci.ExtendedCommitInfo`. */
  datatype ExtendedCommitInfo = ExtendedCommitInfo(round: int, votes: seq<VoteInfo>)

  /**
   * The library decoders the check relies on: `ExecutionPayloadCapella.UnmarshalSSZ`,
   * `blocks.WrappedExecutionPayloadCapella` (applied to the payload and the
   * value of the never-assigned payload value), and `ConsAddress.Unmarshal`.
   */
  datatype Decoders = Decoders(
    unmarshalSSZ: Bytes -> Result<ExecutionPayloadCapella>,
    wrapCapella: ExecutionPayloadCapella -> Result<ExecutionData>,
    unmarshalAddress: Bytes -> Option<Error>)

  const ValidationFailed: string := "failed to validate payload"

  /** The payload a vote extension decodes to, or the decoder's error. */
  function Decoded(d: Decoders, ext: Bytes): Result<ExecutionData>
  {
    match d.unmarshalSSZ(ext)
    case Err(e) => Err(e)
    case Ok(p) => d.wrapCapella(p)
  }

  /**
   * ValidateOracleVoteExtension against `o` after `log`. Nothing reaches the
   * engine unless the extension decodes; a decoded payload goes through
   * BlockValidation, whose failure is wrapped and whose payload id and hash
   * are dropped. An empty extension is not treated apart from any other bytes.
   */
  function ExtensionRun(o: Oracle, d: Decoders, log: seq<Call>, ext: Bytes): (run: Run<Option<Error>>)
    ensures Decoded(d, ext).Err? ==> run == Run(Some(Decoded(d, ext).error), [])
    ensures Decoded(d, ext).Ok? ==>
      var v := PrysmBuilder.ValidationRun(o, log, Some(Decoded(d, ext).value));
      && run.calls == v.calls
      && (v.result.err.None? ==> run.result.None?)
      && (v.result.err.Some? ==> run.result == Some(Wrapped(ValidationFailed, v.result.err.value)))
  {
    match Decoded(d, ext)
    case Err(e) => Run(Some(e), [])
    case Ok(data) =>
      var v := PrysmBuilder.ValidationRun(o, log, Some(data));
      if v.result.err.Some? then Run(Some(Wrapped(ValidationFailed, v.result.err.value)), v.calls)
      else Run(None, v.calls)
  }

  /**
   * An extension is accepted exactly when it decodes, the engine's NewPayload
   * accepts the payload and the forkchoice update to the hash it returned
   * reports no error.
   */
  lemma ExtensionAcceptedIff(o: Oracle, d: Decoders, log: seq<Call>, ext: Bytes)
    ensures ExtensionRun(o, d, log, ext).result.None? <==>
      && Decoded(d, ext).Ok?
      && var np := o.newPayload(log, Some(Decoded(d, ext).value));
         var h := np.latestValidHash;
         && np.npErr.None?
         && o.forkchoiceUpdated(log + [NewPayloadCall(Some(Decoded(d, ext).value), np)],
                                ForkchoiceState(h, h, h), PrysmBuilder.ValidationAttributes).fcuErr.None?
  {
    if Decoded(d, ext).Ok? {
      var v := PrysmBuilder.ValidationRun(o, log, Some(Decoded(d, ext).value));
      assert |v.calls| == 2 ==> v.calls[1].fcuReply.fcuErr == v.result.err;
    }
  }

  /** One vote: its validator address must decode, then its extension must pass. */
  function VoteRun(o: Oracle, d: Decoders, log: seq<Call>, vote: VoteInfo): (run: Run<Option<Error>>)
    ensures d.unmarshalAddress(vote.validatorAddress).Some? ==>
      run == Run(d.unmarshalAddress(vote.validatorAddress), [])
    ensures d.unmarshalAddress(vote.validatorAddress).None? ==> run == ExtensionRun(o, d, log, vote.voteExtension)
  {
    var addrErr := d.unmarshalAddress(vote.validatorAddress);
    if addrErr.Some? then Run(addrErr, []) else ExtensionRun(o, d, log, vote.voteExtension)
  }

  /** A check of one item against the engine log so far. */
  type Check<!X> = (seq<Call>, X) -> Run<Option<Error>>

  /** The items in order, each checked against the log the ones before it left; the first failure ends the run. */
  function InOrder<X>(check: Check<X>, log: seq<Call>, items: seq<X>): Run<Option<Error>>
    decreases |items|
  {
    if items == [] then Run(None, [])
    else
      var first := check(log, items[0]);
      if first.result.Some? then first
      else
        var rest := InOrder(check, log + first.calls, items[1..]);
        Run(rest.result, first.calls + rest.calls)
  }

  /** Checking one more item after a list that passed checks it against the log the list left. */
  lemma {:induction false} InOrderSnoc<X>(check: Check<X>, log: seq<Call>, items: seq<X>, item: X)
    ensures var p := InOrder(check, log, items);
      var last := check(log + p.calls, item);
      InOrder(check, log, items + [item]) ==
        if p.result.Some? then p else Run(last.result, p.calls + last.calls)
    decreases |items|
  {
    if items == [] {
      assert items + [item] == [item];
      assert log + [] == log;
      var last := check(log, item);
      assert last.calls + [] == last.calls;
    } else {
      var first := check(log, items[0]);
      assert (items + [item])[0] == items[0];
      assert (items + [item])[1..] == items[1..] + [item];
      if first.result.None? {
        InOrderSnoc(check, log + first.calls, items[1..], item);
        var rest := InOrder(check, log + first.calls, items[1..]);
        assert log + first.calls + rest.calls == log + (first.calls + rest.calls);
        if rest.result.None? {
          var last := check(log + (first.calls + rest.calls), item);
          assert first.calls + (rest.calls + last.calls) == first.calls + rest.calls + last.calls;
        }
      }
    }
  }

  /** Once a list fails, the items after it are never looked at. */
  lemma {:induction false} FailureAbsorbs<X>(check: Check<X>, log: seq<Call>, items: seq<X>, more: seq<X>)
    requires InOrder(check, log, items).result.Some?
    ensures InOrder(check, log, items + more) == InOrder(check, log, items)
    decreases |items|
  {
    assert items != [];
    assert (items + more)[0] == items[0];
    assert (items + more)[1..] == items[1..] + more;
    var first := check(log, items[0]);
    if first.result.None? {
      FailureAbsorbs(check, log + first.calls, items[1..], more);
    }
  }

  /** A list is accepted exactly when every item passes against the log the items before it left. */
  lemma {:induction false} AcceptedIff<X>(check: Check<X>, log: seq<Call>, items: seq<X>)
    ensures InOrder(check, log, items).result.None? <==>
      forall k :: 0 <= k < |items| ==> check(log + InOrder(check, log, items[..k]).calls, items[k]).result.None?
    decreases |items|
  {
    if items != [] {
      var n := |items| - 1;
      var init := items[..n];
      assert items == init + [items[n]];
      InOrderSnoc(check, log, init, items[n]);
      AcceptedIff(check, log, init);
      forall k | 0 <= k < n
        ensures items[..k] == init[..k] && items[k] == init[k]
      {
      }
      if InOrder(check, log, init).result.Some? {
        var k :| 0 <= k < |init| && check(log + InOrder(check, log, init[..k]).calls, init[k]).result.Some?;
        assert items[..k] == init[..k] && items[k] == init[k];
      }
    }
  }

  /**
   * A failing list fails at one item k: every item before it passes, item k
   * fails against the log they left, and the run's error and calls are theirs
   * and item k's, no item after k being examined.
   */
  lemma {:induction false} FirstFailure<X>(check: Check<X>, log: seq<Call>, items: seq<X>) returns (k: nat)
    requires InOrder(check, log, items).result.Some?
    ensures k < |items|
    ensures var p := InOrder(check, log, items[..k]);
      var v := check(log + p.calls, items[k]);
      && p.result.None?
      && v.result.Some?
      && InOrder(check, log, items) == Run(v.result, p.calls + v.calls)
    decreases |items|
  {
    var n := |items| - 1;
    var init := items[..n];
    assert items == init + [items[n]];
    InOrderSnoc(check, log, init, items[n]);
    if InOrder(check, log, init).result.Some? {
      k := FirstFailure(check, log, init);
      FailureAbsorbs(check, log, init, [items[n]]);
      assert items[..k] == init[..k] && items[k] == init[k];
    } else {
      k := n;
    }
  }

  /**
   * One step of checking a list in order: after the first i items passed, item
   * i either fails, deciding the whole run, or passes, extending the run.
   */
  lemma InOrderStep<X>(check: Check<X>, log: seq<Call>, items: seq<X>, i: nat)
    requires i < |items| && InOrder(check, log, items[..i]).result.None?
    ensures var p := InOrder(check, log, items[..i]);
      var v := check(log + p.calls, items[i]);
      && (v.result.Some? ==> InOrder(check, log, items) == Run(v.result, p.calls + v.calls))
      && (v.result.None? ==> InOrder(check, log, items[..i + 1]) == Run(None, p.calls + v.calls))
  {
    InOrderSnoc(check, log, items[..i], items[i]);
    assert items[..i + 1] == items[..i] + [items[i]];
    var v := check(log + InOrder(check, log, items[..i]).calls, items[i]);
    if v.result.Some? {
      assert items == items[..i + 1] + items[i + 1..];
      FailureAbsorbs(check, log, items[..i + 1], items[i + 1..]);
    }
  }

  /** The check applied to each vote. */
  function VoteCheck(o: Oracle, d: Decoders): Check<VoteInfo>
  {
    (log: seq<Call>, vote: VoteInfo) => VoteRun(o, d, log, vote)
  }

  /** The votes of a commit, checked in order against the engine `o`; the first failure ends the run. */
  function VotesRun(o: Oracle, d: Decoders, log: seq<Call>, votes: seq<VoteInfo>): Run<Option<Error>>
  {
    InOrder(VoteCheck(o, d), log, votes)
  }

  /**
   * ValidateExtendedCommitInfo: a supermajority failure is returned as it is
   * with no engine call; otherwise the votes are checked in order.
   */
  function CommitRun(o: Oracle, d: Decoders, supermajority: (int64, ExtendedCommitInfo) -> Option<Error>,
                     log: seq<Call>, height: int64, info: ExtendedCommitInfo): (run: Run<Option<Error>>)
    ensures supermajority(height, info).Some? ==> run == Run(supermajority(height, info), [])
    ensures supermajority(height, info).None? ==> run == VotesRun(o, d, log, info.votes)
  {
    if supermajority(height, info).Some? then Run(supermajority(height, info), []) else VotesRun(o, d, log, info.votes)
  }

  /**
   * A commit is accepted exactly when the supermajority check passes and every
   * vote passes against the log the votes before it left.
   */
  lemma CommitAcceptedIff(o: Oracle, d: Decoders, supermajority: (int64, ExtendedCommitInfo) -> Option<Error>,
                          log: seq<Call>, height: int64, info: ExtendedCommitInfo)
    ensures CommitRun(o, d, supermajority, log, height, info).result.None? <==>
      && supermajority(height, info).None?
      && forall k :: 0 <= k < |info.votes| ==>
           VoteRun(o, d, log + VotesRun(o, d, log, info.votes[..k]).calls, info.votes[k]).result.None?
  {
    AcceptedIff(VoteCheck(o, d), log, info.votes);
  }

  /** A failed supermajority check examines no vote and makes no engine call. */
  lemma SupermajorityFailureStops(o: Oracle, d: Decoders, supermajority: (int64, ExtendedCommitInfo) -> Option<Error>,
                                  log: seq<Call>, height: int64, info: ExtendedCommitInfo)
    requires supermajority(height, info).Some?
    ensures CommitRun(o, d, supermajority, log, height, info) == Run(supermajority(height, info), [])
  {
  }

  /**
   * An empty extension is decoded like any other bytes: it is rejected, with no
   * engine call, whenever the decoder rejects it. This is ExtensionRun's first
   * ensures at `ext == []`, stated on its own because the design says an empty
   * extension never rejects a commit.
   */
  lemma EmptyExtensionIsDecoded(o: Oracle, d: Decoders, log: seq<Call>)
    requires d.unmarshalSSZ([]).Err?
    ensures ExtensionRun(o, d, log, []) == Run(Some(d.unmarshalSSZ([]).error), [])
  {
  }

  /** `ProposalHandler`: the miner, which also serves as the builder's engine, and the supermajority check. */
  class ProposalHandler {
    const miner: RuntimeMiner.Miner
    const validateVoteExtensionsFn: (int64, ExtendedCommitInfo) -> Option<Error>

    constructor (miner: RuntimeMiner.Miner, validateVoteExtensionsFn: (int64, ExtendedCommitInfo) -> Option<Error>)
      ensures this.miner == miner && this.validateVoteExtensionsFn == validateVoteExtensionsFn
    {
      this.miner := miner;
      this.validateVoteExtensionsFn := validateVoteExtensionsFn;
    }

    /** `ValidateOracleVoteExtension`; the height is only logged. */
    method ValidateOracleVoteExtension(voteExtension: Bytes, height: uint64, d: Decoders) returns (err: Option<Error>)
      modifies miner.engine
      ensures var run := ExtensionRun(miner.engine.oracle, d, old(miner.engine.log), voteExtension);
        err == run.result && miner.engine.log == old(miner.engine.log) + run.calls
    {
      var payload := d.unmarshalSSZ(voteExtension);
      if payload.Err? {
        return Some(payload.error);
      }
      var data := d.wrapCapella(payload.value);
      if data.Err? {
        return Some(data.error);
      }
      var validation := PrysmBuilder.BlockValidation(miner.engine, Some(data.value));
      if validation.err.Some? {
        return Some(Wrapped(ValidationFailed, validation.err.value));
      }
      return None;
    }

    /** `ValidateExtendedCommitInfo`: the extensions of a commit are those of the previous block. */
    method ValidateExtendedCommitInfo(height: int64, extendedCommitInfo: ExtendedCommitInfo, d: Decoders) returns (err: Option<Error>)
      modifies miner.engine
      ensures var run := CommitRun(miner.engine.oracle, d, validateVoteExtensionsFn, old(miner.engine.log), height, extendedCommitInfo);
        err == run.result && miner.engine.log == old(miner.engine.log) + run.calls
    {
      err := validateVoteExtensionsFn(height, extendedCommitInfo);
      if err.Some? {
        assert miner.engine.log + [] == miner.engine.log;
        return err;
      }
      ghost var log0 := miner.engine.log;
      ghost var check := VoteCheck(miner.engine.oracle, d);
      var votes := extendedCommitInfo.votes;
      var i := 0;
      while i < |votes|
        invariant 0 <= i <= |votes|
        invariant err.None?
        invariant InOrder(check, log0, votes[..i]).result.None?
        invariant miner.engine.log == log0 + InOrder(check, log0, votes[..i]).calls
      {
        var vote := votes[i];
        ghost var before := miner.engine.log;
        ghost var v := VoteRun(miner.engine.oracle, d, before, vote);
        assert check(before, vote) == v;
        InOrderStep(check, log0, votes, i);
        err := d.unmarshalAddress(vote.validatorAddress);
        if err.Some? {
          assert before + [] == before;
          return err;
        }
        err := ValidateOracleVoteExtension(vote.voteExtension, ToUint64(height - 1), d);
        if err.Some? {
          return err;
        }
        i := i + 1;
      }
      assert votes[..i] == votes;
    }
  }
}
