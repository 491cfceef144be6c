/**
 * The data the block fetcher of core/fetcher.go handles, and the external collaborators it
 * calls: the Core node's gRPC client and the decoding / part-set code of the consensus library.
 * The collaborators are oracles (records of total functions), so every property of the
 * fetcher holds whatever they answer.
 */
module CoreTypes {
  import opened Wrappers

  type Bytes = seq<bv8>

  /** Which entity a "not found at height" error is about. */
  datatype Entity = CommitEntity | ValidatorSetEntity

  /** Which step of GetBlockInfo a wrapped error comes from. */
  datatype Stage = GettingCommit | GettingValidatorSet

  /** Errors as the fetcher distinguishes them; the message text is not modelled. */
  datatype Error =
    | Transport(reason: string)           // a failed remote call or receive, as the client reports it
    | EndOfStream                         // io.EOF: the server closed the stream
    | Canceled                            // the caller's context was canceled
    | Malformed(reason: string)           // a decoder or the part set refused its input
    | NotFound(entity: Entity)            // the node answered, but without the payload
    | InvalidArgument                     // GetBlockByHash was given a nil hash
    | Wrapped(stage: Stage, cause: Error) // fmt.Errorf("...: %w", cause)

  /** One chunk of a serialized block (the proof a part may carry is not modelled). */
  datatype Part = Part(index: nat, bytes: Bytes)

  datatype Header = Header(height: int, raw: Bytes)
  datatype Block = Block(header: Header, data: Bytes)
  datatype BlockMeta = BlockMeta(raw: Bytes)
  datatype Commit = Commit(height: int, signatures: Bytes)
  datatype ValidatorSet = ValidatorSet(validators: Bytes)

  /** ResultSignedBlock / EventDataSignedBlock: a block with the commit and validator set of its height. */
  datatype SignedBlock = SignedBlock(header: Header, commit: Commit, data: Bytes, validatorSet: ValidatorSet)

  /** The node's Status answer, reduced to the two fields the fetcher reads. */
  datatype Status = Status(latestBlockHeight: int, catchingUp: bool)

  /** Unary answers; a `None` payload is a nil protobuf field. Protobuf messages are kept as bytes. */
  datatype CommitResponse = CommitResponse(commit: Option<Bytes>)
  datatype ValidatorSetResponse = ValidatorSetResponse(validatorSet: Option<Bytes>)

  /**
   * One message of a block stream. The by-height stream fills the three protobuf fields
   * on its first message; the by-hash stream never does, and the fetcher never reads them there.
   */
  datatype BlockResponse = BlockResponse(
    blockPart: Part,
    isLast: bool,
    blockMeta: Option<Bytes>,
    commit: Option<Bytes>,
    validatorSet: Option<Bytes>)

  /** What one call to Recv on a server stream gives back. */
  datatype Received<+T> = Response(resp: T) | RecvError(err: Error)

  /** The i-th Recv on a stream whose server sends `items` and then closes it. */
  function RecvAt<T>(items: seq<Received<T>>, i: nat): (r: Received<T>)
    ensures i >= |items| ==> r == RecvError(EndOfStream)
    ensures i < |items| ==> r == items[i]
  {
    if i < |items| then items[i] else RecvError(EndOfStream)
  }

  /** A remote call issued by the fetcher, in the order issued. Receives on a stream are not calls. */
  datatype Call =
    | StatusCall
    | CommitCall(height: int)
    | ValidatorSetCall(height: int)
    | BlockByHeightCall(height: int)
    | BlockByHashCall(hash: Bytes)
    | SubscribeNewHeightsCall

  /**
   * The Core node's gRPC client. Each answer may depend on every call made before it
   * (its first argument), so the chain may grow between two round trips.
   * A streaming call answers with the whole sequence of messages the server sends.
   */
  datatype Client = Client(
    status: seq<Call> -> Result<Status, Error>,
    commit: (seq<Call>, int) -> Result<CommitResponse, Error>,
    validatorSet: (seq<Call>, int) -> Result<ValidatorSetResponse, Error>,
    blockByHeight: (seq<Call>, int) -> Result<seq<Received<BlockResponse>>, Error>,
    blockByHash: (seq<Call>, Bytes) -> Result<seq<Received<BlockResponse>>, Error>,
    subscribeNewHeights: seq<Call> -> Result<seq<Received<int>>, Error>)

  /** The answer of PartSet.AddPartWithoutProof: `(ok, err)`. */
  datatype AddResult = AddResult(ok: bool, err: Option<Error>)

  /**
   * The consumed library code: the FromProto conversions, the part set and the block decoder.
   * A part set is determined by its declared total and the parts it accepted so far, so its
   * add and read operations are functions of exactly these.
   */
  datatype Types = Types(
    blockMetaFromProto: Option<Bytes> -> Result<BlockMeta, Error>,
    commitFromProto: Option<Bytes> -> Result<Commit, Error>,
    validatorSetFromProto: Option<Bytes> -> Result<ValidatorSet, Error>,
    addPartWithoutProof: (nat, seq<Part>, Part) -> AddResult,
    readAll: (nat, seq<Part>) -> Result<Bytes, Error>,
    decodeBlock: Bytes -> Result<Block, Error>)   // proto.Unmarshal followed by BlockFromProto

  /** A result paired with the client log after the operation. */
  datatype Out<+T> = Out(result: T, log: seq<Call>)
}
