# Polaris execution–consensus bridge, modelled in Dafny

This project models the bridge in Polaris that drives an Ethereum execution engine from a
Cosmos consensus node. It covers the following parts:

- **`Builder`** (`PrysmBuilder`): `BlockValidation` submits a payload with NewPayload and then
  advances forkchoice to the returned hash. `BlockProposal` validates and then redeems the
  payload id with GetPayload.
- **`Miner`** (`RuntimeMiner`): owns the one piece of mutable bridge state, the forkchoice
  record `curForkchoiceState`. `buildBlock` first resets the record when the node's head moved
  (the rewind guard). It then issues ForkchoiceUpdated(attributes), GetPayload, NewPayload and a
  closing ForkchoiceUpdated(empty attributes). `PrepareProposal` wraps `buildBlock`.
- **Commit validation** (`ProposalValidation`): a supermajority check, then every vote's
  validator address and vote extension in order. An extension is SSZ-decoded to a Capella
  payload and run through `BlockValidation`. The first failure rejects the commit.
- **Vote-extension handlers** (`VoteExtension`): extending a vote never fails. Verifying one
  always accepts.
- **Connecting to the execution layer** (`ExecutionClient`, with `GoStrings`):
  - The endpoint is bearer-authenticated whenever the JWT secret is not empty.
  - `key=value` header flags are parsed.
  - The chain id is asked for at most 100 times.
- **Forkchoice KV record** (`ForkchoiceStore`): a fixed-key 32-byte get/set over a key-value
  store.

The execution engine is the class `EngineApi.Engine`. It holds an arbitrary `Oracle`, which
answers each call from the request and every call made before it, and a `log` of the calls
made with their replies.

Each method that drives the engine is proved equal to a pure run function over the oracle and
the log. The run function gives the result, the calls appended and, for the miner, the new
record. The bridge's rules are stated on the run functions and in lemmas: call order, error
short-circuits, the forkchoice triples sent, and when the record changes.

Modelling choices:

- A Go nil dereference is a `Panicked` outcome, not a precondition. The values it dereferences
  are engine replies, which no caller controls.
- A Go `[]byte` that may be nil is `Slice = Option<Bytes>`.
- Go's integer conversions `uint64(int64)` and `int64(uint64)` are written out with
  wrap-around (`GoTypes.ToUint64`, `GoTypes.ToInt64`).

Library code that is not part of this model is a parameter. This covers:

- `payloadattribute.New`, `UnmarshalSSZ`, `WrappedExecutionPayloadCapella` and
  `ConsAddress.Unmarshal`;
- the supermajority check and `Miner.BuildVoteExtension`;
- prysm's `network.HttpEndpoint`, which parses the endpoint string (and any authorization in
  it);
- `AuthorizationData.ToHeaderValue` and `http.Header` key canonicalisation;
- the RPC dial and the per-attempt `ChainID` reply;
- `common.FromHex(strings.TrimSpace(...))`;
- the block time and the 32 random bytes of `buildBlock`.

Where the code and its documented design differ, the model follows the code:

- An empty vote extension goes through the SSZ decoder like any other bytes, so the decoder
  decides whether it is accepted (`ProposalValidation.EmptyExtensionIsDecoded`). The design says
  an empty extension never rejects a commit.
- The vote-extension timeout is created and never applied to the build
  (`VoteExtension.ExtendVoteIgnoresTimeout`).
- `buildBlock` only prints the errors of both ForkchoiceUpdated calls and of GetPayload. The
  design says errors are propagated.
- `VerifyVoteExtensionHandler` accepts every extension and does no sanity check; the check is
  commented out.
- `buildBlock` panics on a nil payload id, a nil header, a nil finalized hash and nil payload
  data. The design says per-height failures never crash the process.
- Nothing in the code orders forkchoice advances by height.
- cosmos/abci/proposal/validate.go:114 assigns the three results of `BlockValidation` to two
  variables, which Go does not compile. The model takes the error to be the third result, as
  the surrounding code evidently means.

## Model

| member | source | states |
|---|---|---|
| GoTypes.ToUint64 | cosmos/runtime/miner/miner.go:135 | Go's `uint64` of a signed value: unchanged when in range, plus 2^64 when negative |
| GoTypes.ToInt64 | cosmos/runtime/miner/miner.go:121 | Go's `int64` of a `uint64`: converts back to the same `uint64`; negative exactly when the value is at least 2^63 |
| EngineApi.Engine.NewPayload | beacon/eth/execution.go:64 | the reply is the oracle's answer for the calls so far; the call and reply are appended to the log |
| EngineApi.Engine.ForkchoiceUpdated | beacon/eth/execution.go:64 | the reply is the oracle's answer for the state and attributes; the call is appended to the log |
| EngineApi.Engine.GetPayload | beacon/eth/execution.go:64 | the reply is the oracle's answer for the payload id and slot; the call is appended to the log |
| EngineApi.Engine.BlockByNumber | beacon/eth/execution.go:65 | the reply is the oracle's answer for the signed block number; the call is appended to the log |
| EngineApi.Engine.BlockNumber | beacon/eth/execution.go:66 | the reply is the oracle's answer; the call is appended to the log |
| PrysmBuilder.ValidationRun | beacon/prysm/builder.go:59-81 | NewPayload comes first; its error ends the run with nil id, nil hash and no forkchoice update; otherwise exactly one update follows with head = safe = finalized = the returned hash and version-3 empty attributes; the result is that hash with the update's id and error |
| PrysmBuilder.BlockValidation | beacon/prysm/builder.go:59-81 | makes exactly the calls ValidationRun lists and returns its result |
| PrysmBuilder.ProposalRun | beacon/prysm/builder.go:36-51 | a validation error is passed on unchanged, and a nil hash gives (nil, nil), both with no GetPayload; a nil payload id panics; otherwise one GetPayload with the validation's id and slot 100000000000, whose payload and error are returned |
| PrysmBuilder.ProposalGetPayloadOnlyAfterValidation | beacon/prysm/builder.go:39-50 | at most one call beyond the validation's, made exactly when validation gave no error, a hash and a payload id; no GetPayload among the validation's calls |
| PrysmBuilder.BlockProposal | beacon/prysm/builder.go:36-51 | makes exactly the calls ProposalRun lists and returns its result; the attributes argument does not enter the contract |
| RuntimeMiner.FinalizedLookup | cosmos/runtime/miner/miner.go:90-104 | one BlockByNumber at the same number; a hash exactly when a block is found with no error, and then that block's hash |
| RuntimeMiner.Miner.FinalizedBlockHash | cosmos/runtime/miner/miner.go:90-104 | makes exactly FinalizedLookup's call and returns its result |
| RuntimeMiner.RewindRun | cosmos/runtime/miner/miner.go:115-128 | BlockNumber, then BlockByNumber at that number; a lookup error leaves the record untouched; a nil block panics; an unchanged head leaves it untouched; a new head resets it to (head hash, head hash, hash found at the head's number), or panics when that lookup finds nothing; the record is untouched or has head = safe |
| RuntimeMiner.Miner.ResetOnRewind | cosmos/runtime/miner/miner.go:115-128 | makes exactly RewindRun's calls, returns its result, leaves the record it gives, and keeps head = safe |
| RuntimeMiner.BuildPayloadRun | cosmos/runtime/miner/miner.go:130-192 | calls are a prefix of FCU(BuildRequest's attributes) → GetPayload(id, 100000000000) → NewPayload(payload) → FCU(empty), each reply the engine's answer after the calls before it; an attributes error ends the run with no call; a nil payload id panics after the first update, and otherwise GetPayload and NewPayload are both made; a NewPayload error is returned with the record untouched and no further call; after NewPayload succeeds, nil data panics with the record untouched, and otherwise the record is set to head = safe = payload hash with finalized = the first update's latest valid hash; then either the empty attributes fail and their error is returned with no fourth call, or the closing update carries those attributes and the new record and the run returns empty bytes with a nil error; the record changes only there |
| RuntimeMiner.Miner.BuildOnHead | cosmos/runtime/miner/miner.go:130-192 | makes exactly BuildPayloadRun's calls, returns its result, leaves its record, and keeps head = safe |
| RuntimeMiner.BuildRequest | cosmos/runtime/miner/miner.go:130-139 | the attributes of a build: `uint64` of the block time in Unix seconds, the random bytes, the never-assigned zero fee recipient, no withdrawals; BuildPayloadRun states that the first update carries what `payloadattribute.New` makes of them |
| RuntimeMiner.BuildRun | cosmos/runtime/miner/miner.go:108-193 | the rewind guard's calls come first; its panic ends the build; otherwise the build from the record the guard leaves; head = safe is preserved |
| RuntimeMiner.Miner.BuildBlock | cosmos/runtime/miner/miner.go:108-193 | makes exactly BuildRun's calls, returns its result, leaves its record, and keeps head = safe |
| RuntimeMiner.PrepareOf | cosmos/runtime/miner/miner.go:77-86 | a build that panics panics; one with no error gives an empty transaction list and nil error; one with an error gives a nil response and that error |
| RuntimeMiner.Miner.PrepareProposal | cosmos/runtime/miner/miner.go:77-86 | builds a block exactly as BuildBlock and returns PrepareOf of its result |
| RuntimeMiner.Miner.New | cosmos/runtime/miner/miner.go:64-69 | the miner over the given engine starts with the zero forkchoice record |
| RuntimeMiner.Miner.SetCurrentState | cosmos/runtime/miner/miner.go:196-202 | the whole record becomes (head, head, finalized) |
| ProposalValidation.Decoded | cosmos/abci/proposal/validate.go:88-110 | the SSZ decode and then the Capella wrap, the first error returned as it is; ExtensionRun and ExtensionAcceptedIff state how it decides the engine calls |
| ProposalValidation.ExtensionRun | cosmos/abci/proposal/validate.go:82-120 | a decode or wrap failure returns that error with no engine call; otherwise exactly BlockValidation's calls on the decoded payload; its error is returned wrapped as "failed to validate payload"; its payload id and hash are dropped |
| ProposalValidation.ExtensionAcceptedIff | cosmos/abci/proposal/validate.go:90-119 | an extension is accepted exactly when it decodes, NewPayload accepts it, and the update to the returned hash reports no error |
| ProposalValidation.EmptyExtensionIsDecoded | cosmos/abci/proposal/validate.go:88-98 | an empty extension is rejected, with no engine call, whenever the decoder rejects empty bytes |
| ProposalValidation.ProposalHandler.ValidateOracleVoteExtension | cosmos/abci/proposal/validate.go:82-120 | makes exactly ExtensionRun's calls and returns its result |
| ProposalValidation.VoteRun | cosmos/abci/proposal/validate.go:56-76 | an address decode failure returns its error with no engine call; otherwise the vote's extension is checked |
| ProposalValidation.InOrder | cosmos/abci/proposal/validate.go:55-77 | the items checked in order, each against the log the earlier ones left, the first failure ending the run; specified by InOrderSnoc, FailureAbsorbs, AcceptedIff, FirstFailure and InOrderStep |
| ProposalValidation.VotesRun | cosmos/abci/proposal/validate.go:55-79 | the loop over the votes: InOrder with VoteRun as the check; CommitAcceptedIff states when it accepts |
| ProposalValidation.InOrderSnoc | cosmos/abci/proposal/validate.go:55-77 | checking one more vote after a passing list checks it against the log that list left |
| ProposalValidation.FailureAbsorbs | cosmos/abci/proposal/validate.go:55-77 | once a list of votes fails, appending votes changes neither result nor calls |
| ProposalValidation.AcceptedIff | cosmos/abci/proposal/validate.go:55-79 | a list is accepted exactly when every vote passes against the log the earlier votes left |
| ProposalValidation.FirstFailure | cosmos/abci/proposal/validate.go:55-77 | a failing list fails at one vote k, after which nothing is checked: the earlier votes pass, and the result and calls are theirs plus vote k's |
| ProposalValidation.InOrderStep | cosmos/abci/proposal/validate.go:55-77 | after i passing votes, a failing vote i decides the whole run, and a passing one extends it |
| ProposalValidation.CommitRun | cosmos/abci/proposal/validate.go:37-80 | a supermajority failure returns its error with no engine call; otherwise the votes are checked in order |
| ProposalValidation.CommitAcceptedIff | cosmos/abci/proposal/validate.go:43-79 | a commit is accepted exactly when the supermajority check passes and every vote passes against the log the earlier votes left |
| ProposalValidation.SupermajorityFailureStops | cosmos/abci/proposal/validate.go:43-51 | a failed supermajority check examines no vote and makes no engine call |
| ProposalValidation.ProposalHandler.ValidateExtendedCommitInfo | cosmos/abci/proposal/validate.go:37-80 | the loop makes exactly CommitRun's calls and returns its result |
| VoteExtension.NewVoteExtensionHandler | cosmos/abci/ve/handler.go:30-36 | the handler keeps the given timeout and builder |
| VoteExtension.ExtendVote | cosmos/abci/ve/handler.go:42-86 | the error is always nil; the build is asked for the request's height; its bytes are returned when it succeeds; an empty extension when it fails or panics |
| VoteExtension.ExtendVoteIgnoresTimeout | cosmos/abci/ve/handler.go:56-67 | handlers that differ only in their timeout answer every request alike |
| VoteExtension.NonEmptyExtensionWasBuilt | cosmos/abci/ve/handler.go:67-84 | an extension with bytes in it is exactly what a successful build returned |
| VoteExtension.VerifyVoteExtension | cosmos/abci/ve/handler.go:92-117 | every request is accepted with a nil error |
| GoStrings.Split | beacon/eth/execution.go:133 | at least one piece; exactly one when the separator is absent; otherwise the text before the first separator, then the pieces of the rest |
| GoStrings.Join | beacon/eth/execution.go:138 | `strings.Join` with a one-character separator; JoinSplit states that it undoes Split |
| GoStrings.SplitPiecesLackSeparator | beacon/eth/execution.go:133 | no piece of a split holds the separator |
| GoStrings.JoinSplit | beacon/eth/execution.go:133-138 | joining the pieces of a split with the separator gives the string back |
| GoTypes.BytesToString | beacon/eth/execution.go:152 | Go's `string(secret)`: one character per byte, with that byte as its code |
| GoTypes.AsciiBytes | cosmos/x/evm/store/forkchoice.go:16 | the bytes of the key string: one byte per character, with that character's code |
| ExecutionClient.NewPrysmEndpoint | beacon/eth/execution.go:145-156 | an empty secret gives the endpoint `network.HttpEndpoint` parses from the string; otherwise that endpoint's URL with Bearer authorization carrying the secret's bytes as a string, whatever authorization the string carried |
| ExecutionClient.SecretGivesBearerHeader | beacon/eth/execution.go:120-154 | with a non-empty secret and no flag setting it, the dialled Authorization header holds the encoded Bearer authorization of the secret |
| ExecutionClient.ParseHeader | beacon/eth/execution.go:130-138 | one header flag: empty or `=`-less flags are skipped; otherwise the key before the first `=` and the rest as value; specified by ParseHeaderIff and ParseHeaderKeepsLaterSeparators |
| ExecutionClient.AuthHeaders | beacon/eth/execution.go:121-128 | the headers before any flag: none for an unauthenticated endpoint, an encoding error returned, otherwise the Authorization header; AuthorizationHeaderIff states what reaches the dial |
| ExecutionClient.ApplyHeaders | beacon/eth/execution.go:129-139 | the flags applied in order, each used flag setting its canonical key; specified by UntouchedKey and LastSetWins, and NewRPCClientWithAuth's loop is proved equal to it |
| ExecutionClient.ParseHeaderIff | beacon/eth/execution.go:129-139 | a header flag is used exactly when it holds `=`; it is then key, `=`, value, with no `=` in the key |
| ExecutionClient.ParseHeaderKeepsLaterSeparators | beacon/eth/execution.go:138 | `a=b=c` sets `a` to `b=c` |
| ExecutionClient.UntouchedKey | beacon/eth/execution.go:129-139 | a key that no used flag sets keeps its value, or stays absent |
| ExecutionClient.LastSetWins | beacon/eth/execution.go:129-139 | a key's value is that of the last used flag setting it |
| ExecutionClient.AuthorizationHeaderIff | beacon/eth/execution.go:121-139 | with no flag setting it, the Authorization header is present exactly when the endpoint is authenticated, and then holds the encoded authorization |
| ExecutionClient.NewRPCClientWithAuth | beacon/eth/execution.go:120-143 | a header-value encoding error is returned; otherwise the dial is made with the authorization header followed by the flags applied in order |
| ExecutionClient.FirstAnswer | beacon/eth/execution.go:95-105 | the first attempt below the bound that answers, every earlier one having failed; none exactly when all attempts fail |
| ExecutionClient.NewRemoteExecutionClient | beacon/eth/execution.go:78-117 | header and dial errors are returned with no attempt; then 1 to 100 chain-id attempts, stopping after the first answer, which gives the client; when all 100 fail, the last error is wrapped as "failed to establish connection to execution layer" |
| ForkchoiceStore.KVStore.Get | cosmos/x/evm/store/forkchoice.go:16 | the stored value when the key is present; nil otherwise |
| ForkchoiceStore.KVStore.Set | cosmos/x/evm/store/forkchoice.go:20 | the key now maps to the value and nothing else changes |
| ForkchoiceStore.StoredHash | cosmos/x/evm/store/forkchoice.go:15-17 | a hash exactly when the fixed key holds at least 32 bytes, and then its first 32; a panic otherwise |
| ForkchoiceStore.SetThenGet | cosmos/x/evm/store/forkchoice.go:15-21 | reading back a hash just set gives that hash |
| ForkchoiceStore.SetIsIdempotent | cosmos/x/evm/store/forkchoice.go:19-21 | setting a hash twice leaves the store as one set does; other keys are unchanged |
| ForkchoiceStore.Forkchoice.NewForkchoice | cosmos/x/evm/store/forkchoice.go:9-13 | the record is over the given store |
| ForkchoiceStore.Forkchoice.FinalizedPayloadBlockHash | cosmos/x/evm/store/forkchoice.go:15-17 | returns what StoredHash gives for the store's contents |
| ForkchoiceStore.Forkchoice.SetFinalizedPayloadBlockHash | cosmos/x/evm/store/forkchoice.go:19-21 | only the fixed key changes, to the hash; reading back gives the hash |

## Left out

- What the engine does with each call is left out: the oracle is arbitrary, so no claim
  depends on engine behaviour. The nil versioned-hashes and parent-root arguments of
  NewPayload are also left out; they are nil at every call site.
- Sleeps, `crypto/rand`, the block clock, logging and the printing of errors are left out.
  The random bytes and the block time are inputs of a build.
- `time.Sleep` in the connection retry loop is left out. An attempt's reply is a function of
  the attempt number.
- The context timeout of the vote-extension handler is left out. It is created and cancelled
  but never passed on, so it has no effect on results.
- The order of Go map iteration in `newRPCClientWithAuth` is not modelled: the header flags are
  a sequence in some order. The lemmas about them are order-independent, except that the last
  flag setting a key wins.
- `NewRemoteExecutionClient` is modelled with no header flags: its only call passes a nil map.
- The nil-client test after the loop is not modelled: a successful dial here always yields a
  client.
- `Miner.Init` and `constructPayloadArgs` are left out. The serializer is never used by the
  modelled code, and `constructPayloadArgs` is never called.
- The node wiring in eth/polar/backend.go, cosmos/runtime/runtime.go, cosmos/main.go and
  cosmos/x/evm/keeper/processor.go is not part of this model.
- ProposalValidation.ProposalHandler.ValidateOracleVoteExtension: its height argument is only
  logged, so no contract mentions it. The loop passes it as `uint64(height - 1)`, with Go's
  wrap-around.
- The Go constructor of `ProposalHandler` is not part of this model. The Dafny constructor
  only sets the two fields the validation code reads.
- ExecutionClient.NewPrysmEndpoint: with an empty secret the endpoint is whatever prysm's
  `network.HttpEndpoint` parses, so no contract says whether it is authenticated.
