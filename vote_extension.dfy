/**
 * The vote-extension handlers of cosmos/abci/ve/handler.go. Extending a vote
 * asks the miner for extension bytes and never fails: a build error or a
 * panic gives an empty extension and a nil error. Verifying a vote extension
 * accepts it whatever it holds.
 *
 * `Miner.BuildVoteExtension` is not part of this model; the handler holds it
 * as a function from the requested height to how the call ends.
 */
module VoteExtension {
  import opened GoTypes

  /** What `BuildVoteExtension` returns when it does not panic. */
  datatype BuildReply = BuildReply(bz: Slice, err: Option<Error>)

  /** The handler's fields: the timeout (a duration in nanoseconds) and the miner's extension builder. */
  datatype VoteExtensionHandler = VoteExtensionHandler(timeout: int64, buildVoteExtension: int64 -> Outcome<BuildReply>)

  datatype RequestExtendVote = RequestExtendVote(height: int64)
  datatype ResponseExtendVote = ResponseExtendVote(voteExtension: Slice)

  datatype RequestVerifyVoteExtension = RequestVerifyVoteExtension(height: int64, voteExtension: Bytes)
  datatype VerifyStatus = Unknown | Accept | Reject
  datatype ResponseVerifyVoteExtension = ResponseVerifyVoteExtension(status: VerifyStatus)

  /** What a handler returns: a response and an error. */
  datatype Reply<+R> = Reply(resp: R, err: Option<Error>)

  /** `[]byte{}`: an empty, non-nil extension. */
  const EmptyExtension: Slice := Some([])

  /** `NewVoteExtensionHandler`. */
  function NewVoteExtensionHandler(timeout: int64, buildVoteExtension: int64 -> Outcome<BuildReply>): (h: VoteExtensionHandler)
    ensures h.timeout == timeout && h.buildVoteExtension == buildVoteExtension
  {
    VoteExtensionHandler(timeout, buildVoteExtension)
  }

  /**
   * The handler `ExtendVoteHandler` returns, applied to a request. The error is
   * always nil; the extension is the builder's bytes for the request's height
   * when it returns them with no error, and empty when it fails or panics.
   */
  function ExtendVote(h: VoteExtensionHandler, req: RequestExtendVote): (r: Reply<ResponseExtendVote>)
    ensures r.err.None?
    ensures h.buildVoteExtension(req.height).Returned? && h.buildVoteExtension(req.height).value.err.None? ==>
      r.resp.voteExtension == h.buildVoteExtension(req.height).value.bz
    ensures h.buildVoteExtension(req.height).Panicked? ==> r.resp.voteExtension == EmptyExtension
    ensures h.buildVoteExtension(req.height).Returned? && h.buildVoteExtension(req.height).value.err.Some? ==>
      r.resp.voteExtension == EmptyExtension
  {
    match h.buildVoteExtension(req.height)
    // The deferred recover turns a panic into an empty extension.
    case Panicked(_) => Reply(ResponseExtendVote(EmptyExtension), None)
    case Returned(BuildReply(bz, err)) =>
      if err.Some? then Reply(ResponseExtendVote(EmptyExtension), None)
      else Reply(ResponseExtendVote(bz), None)
  }

  /** The timeout is never applied to the builder: handlers that differ only in it extend every vote alike. */
  lemma ExtendVoteIgnoresTimeout(h: VoteExtensionHandler, timeout: int64, req: RequestExtendVote)
    ensures ExtendVote(h.(timeout := timeout), req) == ExtendVote(h, req)
  {
  }

  /**
   * An extension with bytes in it comes only from a build that returned those
   * bytes with no error.
   */
  lemma NonEmptyExtensionWasBuilt(h: VoteExtensionHandler, req: RequestExtendVote)
    requires SliceBytes(ExtendVote(h, req).resp.voteExtension) != []
    ensures h.buildVoteExtension(req.height) == Returned(BuildReply(ExtendVote(h, req).resp.voteExtension, None))
  {
  }

  /**
   * The handler `VerifyVoteExtensionHandler` returns, applied to a request: it
   * accepts with a nil error, whatever the extension.
   */
  function VerifyVoteExtension(h: VoteExtensionHandler, req: RequestVerifyVoteExtension): (r: Reply<ResponseVerifyVoteExtension>)
    ensures r.resp.status == Accept && r.err.None?
  {
    Reply(ResponseVerifyVoteExtension(Accept), None)
  }
}
