# Block fetcher and sampling worker of a data-availability light node

This project models two sequential parts of the node in Dafny and proves properties about them.

**The block fetcher** (`core/fetcher.go`) talks to a consensus node ("Core") over gRPC. It turns an optional height into a concrete one. It fetches a commit and then the validator set at that commit's own height. It also collects the parts of a block from a server stream and reassembles them into a block. The gRPC client is an oracle: a record of total functions whose every answer may depend on the calls made before it. The library code is a second oracle (`Types`): the `FromProto` conversions, the part set and the block decoder. Every fetcher operation takes the log of calls made so far and returns its result together with the extended log. "Makes no call" therefore means "returns the log unchanged", and "queries the validator set at height H" means "appends `ValidatorSetCall(H)`". Go's `(value, error)` pairs are `Result`s. A pointer that may be nil is an `Option`. Go's `(nil, nil)` from `partsToBlock` is `Ok(None)`. `GetSignedBlock` dereferences that nil block, and its outcome is then `Panicked`. A server stream is a `Stream` object holding the messages the server sends and a receive counter. Receiving past the last message yields end-of-stream, which is gRPC's `io.EOF`. The three loops (`receiveBlockByHeight`, `receiveBlockByHash` and `partsToBlock`) are methods. Each is proved equal to a specification function, and the properties are proved about those functions. The new-block subscription loop is a sequential trace. It stops at the first receive error or failed fetch.

**The sampling worker** (`das/worker.go`) walks the heights `[From, To]` of a job in ascending order. For each height it gets the header and samples it only if the get succeeded. It stops on a cancellation and records every other failure. The worker is a class whose `state` field is the `WorkerState` record. The `multierr` chain is a list of `(height, error)` entries, and `Err` is nil exactly when that list is empty.

Two behaviours of the code differ from what one might expect, and the model keeps them as written:
- `GetBlockByHash` rejects only a nil hash. An empty but non-nil hash is sent to the node.
- A part that the part set refuses without an error makes `partsToBlock` return no block and no error, not a reconstruction error.

## Model

| member | source | states |
|---|---|---|
| `Fetcher.ResolveHeight` | core/fetcher.go:106-116 | An explicit height comes back unchanged and no call is made. A nil height costs exactly one Status call and becomes the node's latest height, or Status's error unchanged. |
| `Fetcher.Commit` | core/fetcher.go:145-165 | If height resolution fails, there is no Commit query. Otherwise there is exactly one Commit query at the resolved height. A transport error propagates. A present answer without a commit is `NotFound(CommitEntity)`. A present payload gives the decoder's answer: the decoded commit, or the decoding error. |
| `Fetcher.ValidatorSet` | core/fetcher.go:170-190 | The same as Commit, for the validator set: one query at the resolved height, the transport error, `NotFound(ValidatorSetEntity)` when the payload is nil, and otherwise the decoder's answer. |
| `Fetcher.GetBlockInfo` | core/fetcher.go:50-67 | If the commit fetch fails, the wrapped error comes back and no validator-set query is made. Otherwise the next and last call is a validator-set query at `commit.height`. Its wrapped error or its validator set is returned with the commit. |
| `Fetcher.ValidatorSetPinnedToCommitHeight` | core/fetcher.go:56-61 | For any height argument, nil included, every validator-set query GetBlockInfo makes is at the returned commit's height, and it is the last call. When the commit fetch fails, no validator-set query is made. |
| `Fetcher.GetBlock` | core/fetcher.go:71-86 | One block-by-height stream is opened at the resolved height (none if resolution fails). The result is the stream's error, or the block collected from it, which may be nil. |
| `Fetcher.GetBlockAllOrNothing` | core/fetcher.go:77-85 | If the stream breaks before its last part, GetBlock returns an error. A block comes back only if it was reassembled from every part up to the last one. |
| `Fetcher.GetBlockByHash` | core/fetcher.go:88-102 | A nil hash returns `InvalidArgument` and makes no call. Any other hash opens exactly one by-hash stream, and the result is that stream's collected block or error. |
| `Fetcher.GetSignedBlock` | core/fetcher.go:120-140 | A failed resolution is returned without a stream call. Otherwise exactly one block-by-height call is made, at the resolved height. A failed stream open or a failed by-height collection is `Failed` with that error. A collection that gives no block and no error is `Panicked`. A collected block gives `Signed` with the block's header and data and the collection's commit and validator set. |
| `Fetcher.SignedBlockFromOneStream` | core/fetcher.go:126-139 | A signed block is built from one stream: its commit and validator set are decoded from the first message, and its header and data come from the block reassembled from all parts. A panic happens only when that reassembly gave neither a block nor an error. |
| `Fetcher.SignedBlockOutcome` | core/fetcher.go:126-139 | The converse: once the stream opened, a receive error on the first message fails the call. Once the first message decodes, a collection error or reassembly error is `Failed`, a reassembly to no block and no error is `Panicked`, and a reassembled block is `Signed` with the first message's commit and validator set. |
| `Fetcher.IsSyncing` | core/fetcher.go:245-251 | Exactly one Status call is made. The result is its catching-up flag when Status succeeds, and its error otherwise. |
| `Receive.StopIndex` | core/fetcher.go:276-284 | The index of the first message at or after the start that ends a loop: a receive error or a part flagged last. No earlier message ends it. |
| `Receive.CollectPartsUpToLast` | core/fetcher.go:293-302 | Collection succeeds exactly when the message that ends it is a last-flagged part. The parts are then those of every message from the start to that one, in receive order. Otherwise the result is the error that ended it. |
| `Receive.CollectPartsIgnoresRest` | core/fetcher.go:295-302 | Messages after the one that ends the loop never affect the result or where it stops. |
| `Receive.ByHashAllOrNothing` | core/fetcher.go:292-304 | A receive error before the last part is the by-hash result. Any other result comes from reassembling every part up to the last one. |
| `Receive.ByHeightFromFirstMessage` | core/fetcher.go:257-289 | On success, BlockMeta, Commit and ValidatorSet are decoded from the first message, and the block is reassembled from the parts of all messages up to the last one. |
| `Receive.ByHeightAsCollected` | core/fetcher.go:257-289 | Once the first message's meta, commit and validator set decode, the by-height result is the collection of all parts from the first message, reassembled, with those three decoded values. |
| `Receive.ByHeightAllOrNothing` | core/fetcher.go:257-284 | A receive error before the last part makes the by-height collection fail. The error is exactly the receive error when it is the first message, or when the first message decoded. |
| `Receive.ByHeightIgnoresLaterFields` | core/fetcher.go:276-284 | The BlockMeta, Commit and ValidatorSet fields of messages after the first are never read. |
| `Receive.ReceiveBlockByHash` | core/fetcher.go:292-304 | The loop returns what `ReceivedByHash` specifies. It receives exactly up to the message that ends the loop, never past it. |
| `Receive.ReceiveBlockByHeight` | core/fetcher.go:253-290 | The loop returns what `ReceivedByHeight` specifies. It never receives past the message that ends the loop, and on success it receives exactly up to it. |
| `PartSets.Total32` | core/fetcher.go:307-309 | The declared total is the number of parts as a uint32: below 2^32, and equal to the count when the count fits. |
| `PartSets.AddPartsOutcome` | core/fetcher.go:310-318 | The first add that is not clean decides the outcome: its error if it has one, otherwise a refusal. When every add is clean, all parts are kept in receive order. |
| `PartSets.ReassembledOutcome` | core/fetcher.go:306-333 | With total = number of parts, partsToBlock aborts on the first add error. It returns no block and no error on the first refusal. Otherwise it reads back exactly the parts received, in order, and decodes those bytes, and returns the read or decode error if either fails. |
| `PartSets.NoBlockNoError` | core/fetcher.go:315-317 | partsToBlock returns `(nil, nil)` exactly when some part is refused without an error after every earlier part was accepted. |
| `PartSets.PartsToBlock` | core/fetcher.go:306-333 | The loop over a fresh part set returns what `Reassembled` specifies. |
| `Subscription.SignedBlockFetch` | core/fetcher.go:220 | The loop's fetch, GetSignedBlock at the announced height, makes exactly one block-by-height call at that height and no Status call. |
| `Subscription.ForwardCalls` | core/fetcher.go:208-224 | The loop makes exactly one block-by-height call per announcement it handles, at the announced height and in announcement order, and no other calls. |
| `Subscription.ForwardLogExtends` | core/fetcher.go:208-224 | The loop only appends to the client log, one call per announcement it handles. |
| `Subscription.ForwardEvents` | core/fetcher.go:220-231 | The j-th event emitted is the signed block fetched for the j-th announcement. |
| `Subscription.ForwardStops` | core/fetcher.go:213-224 | The loop ends at the announcement after the last event: on a receive error there, or on the failed or panicking fetch for it. Nothing after a failed fetch is fetched or emitted. |
| `Subscription.SubscribeNewBlockEvent` | core/fetcher.go:194-204 | One SubscribeNewHeights call is made. Its error is returned. On success the result is `Ok` of the receive loop's trace (`Forward` with the GetSignedBlock fetch) over the announcements, starting after that call, and the loop's calls follow it in the log. |
| `DasWorker.SampleOnlyAfterGet` | das/worker.go:49-56 | When the header get fails, the height's outcome is that error, whatever the sampler would say. |
| `DasWorker.CancelPoint` | das/worker.go:46-61 | The walk stops at the first height in `[From, To]` whose outcome is a cancellation, or after `To`. Every height before it is in the job and was not canceled. |
| `DasWorker.RecordedSound` | das/worker.go:46-64 | Every recorded entry is a height of the interval with the error it produced, in strictly increasing height order. |
| `DasWorker.RecordedComplete` | das/worker.go:46-64 | Every height of the interval whose get or sample failed is recorded. |
| `DasWorker.FailedHeightsOfRun` | das/worker.go:46-64 | A height is in `failed` exactly when it lies in `[From, To]`, comes before the first cancellation, and its get or sample failed. No recorded error is a cancellation, and the heights strictly increase. |
| `DasWorker.EmptyJob` | das/worker.go:46-77 | When `From > To`, no height is processed, nothing is recorded, and the run leaves the state exactly as it was, so the report carries the original job, `failed` and error chain. |
| `DasWorker.ErrNilIffNoFailures` | das/worker.go:95-98 | In a valid state there is one error entry per failed height, so `Err` is nil exactly when `failed` is empty. |
| `DasWorker.RunKeepsValid` | das/worker.go:46-64 | A run on a worker as newWorker leaves it keeps the invariant: `failed` matches the error chain, strictly increases, lies in `[From, To]`, does not exceed `Curr`, and holds no cancellation. |
| `DasWorker.Worker.constructor` | das/worker.go:82-90 | newWorker: the given job, `Curr == From`, no failures, nil `Err`, and the invariant holds. |
| `DasWorker.Worker.SetResult` | das/worker.go:92-100 | The new state is `WithResult`: `Curr` always becomes `curr`. An error appends `curr` to `failed` and exactly one entry to the chain. No error leaves both unchanged. |
| `DasWorker.SetResultKeepsValid` | das/worker.go:92-100 | setResult keeps the invariant when run calls it: with a height of the job above every failed one and an error that is not a cancellation. |
| `DasWorker.Worker.GetState` | das/worker.go:102-106 | Returns the worker's current state. |
| `DasWorker.Worker.Run` | das/worker.go:37-80 | The new state records exactly the failures of the heights before the first cancellation. `Curr` is the last height processed, or unchanged when none was. The job is unchanged, and the reported result carries the job, `failed` and `Err`. A fresh worker stays valid. |

## Left out

- Subscription cancellation and shutdown are concurrency and are not modelled: `Stop`, the `cancel`/`doneCh` fields, the `select` on `ctx.Done()`, channel closing and the timed wait (core/fetcher.go:39-47, 195-197, 205-237). The loop is modelled as a trace that stops only at a receive error, a failed fetch or a panic.
- The worker's `sync.Mutex` and the `select` around the `resultCh` send (das/worker.go:16, 72-79) are concurrency. `Run` always reports its result.
- The gRPC client, the `FromProto` conversions, the part set, `io.ReadAll`, `proto.Unmarshal`/`BlockFromProto` and `multierr` are foreign code and appear only as oracles. For that reason, no property about the part set's own index handling (such as the order of misordered parts) can be stated.
- Logging, metrics and `time.Now` durations are instrumentation and are not modelled.
- Error message text is not modelled: the `fmt.Errorf` messages, including the pointer printed as `%d`. Wrapping is kept as `Wrapped(stage, cause)`.
- Two nil dereferences that crash are not modelled: on a nil response in `Commit`/`ValidatorSet`, and on a nil `BlockPart` in a stream message. The panic of `GetSignedBlock` on a nil block is modelled.
- `Fetcher.ResolveHeight`: on a Status error, the Go code also returns height 0. The model returns only the error, because every caller discards the height when the error is non-nil.
- `errors.Is(err, context.Canceled)` is modelled as equality with `Canceled`. A cancellation wrapped inside another error is not distinguished.
- Heights are unbounded integers. The fetcher does no arithmetic on its signed 64-bit heights. The worker's uint64 heights are natural numbers.
- `DasWorker.Worker.Run`: requires `To < 2^64-1`, because at `To == 2^64-1` the Go loop's `curr++` wraps around to 0 and never ends. The wrap-around is not modelled.
- `NewBlockFetcher` only stores the client and is not modelled. Every operation takes the client directly.
- nodebuilder/core/config_test.go and node/light.go are not part of this model: one tests a validation function that is not part of this model, and the other is dependency-injection wiring.
