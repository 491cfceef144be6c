/**
 * The query operations of BlockFetcher (core/fetcher.go). Each takes the client and the log of
 * calls made so far, and returns its result with the log extended by the calls it made.
 */
module Fetcher {
  import opened Wrappers
  import opened CoreTypes
  import opened PartSets
  import opened Receive

  /**
   * resolveHeight: an explicit height is returned unchanged without any call; a nil height
   * costs one Status call and becomes the node's latest height, or that call's error.
   */
  function ResolveHeight(c: Client, log: seq<Call>, height: Option<int>): (r: Out<Result<int, Error>>)
    ensures height.Some? ==> r == Out(Ok(height.value), log)
    ensures height.None? ==> r.log == log + [StatusCall]
    ensures height.None? ==>
      r.result == match c.status(log)
                  case Ok(st) => Ok(st.latestBlockHeight)
                  case Err(e) => Err(e)
  {
    match height
    case Some(h) => Out(Ok(h), log)
    case None =>
      var status := c.status(log);
      var log' := log + [StatusCall];
      match status
      case Err(e) => Out(Err(e), log')
      case Ok(st) => Out(Ok(st.latestBlockHeight), log')
  }

  /**
   * Commit: one Commit query at the resolved height. A present answer without a commit is a
   * "not found" error; a present payload gives the decoder's answer, the commit or its error.
   */
  function Commit(c: Client, t: Types, log: seq<Call>, height: Option<int>): (r: Out<Result<CoreTypes.Commit, Error>>)
    ensures var rh := ResolveHeight(c, log, height);
      match rh.result
      case Err(e) => r == Out(Err(e), rh.log)
      case Ok(h) =>
        r.log == rh.log + [CommitCall(h)] &&
        (c.commit(rh.log, h).Err? ==> r.result == Err(c.commit(rh.log, h).error)) &&
        (c.commit(rh.log, h).Ok? && c.commit(rh.log, h).value.commit.None? ==> r.result == Err(NotFound(CommitEntity))) &&
        (c.commit(rh.log, h).Ok? && c.commit(rh.log, h).value.commit.Some? ==>
           r.result == t.commitFromProto(c.commit(rh.log, h).value.commit))
  {
    var rh := ResolveHeight(c, log, height);
    match rh.result
    case Err(e) => Out(Err(e), rh.log)
    case Ok(h) =>
      var log' := rh.log + [CommitCall(h)];
      match c.commit(rh.log, h)
      case Err(e) => Out(Err(e), log')
      case Ok(res) =>
        if res.commit.None? then Out(Err(NotFound(CommitEntity)), log')
        else Out(t.commitFromProto(res.commit), log')
  }

  /** ValidatorSet: the same shape as Commit, for the validator set. */
  function ValidatorSet(c: Client, t: Types, log: seq<Call>, height: Option<int>): (r: Out<Result<CoreTypes.ValidatorSet, Error>>)
    ensures var rh := ResolveHeight(c, log, height);
      match rh.result
      case Err(e) => r == Out(Err(e), rh.log)
      case Ok(h) =>
        r.log == rh.log + [ValidatorSetCall(h)] &&
        (c.validatorSet(rh.log, h).Err? ==> r.result == Err(c.validatorSet(rh.log, h).error)) &&
        (c.validatorSet(rh.log, h).Ok? && c.validatorSet(rh.log, h).value.validatorSet.None? ==> r.result == Err(NotFound(ValidatorSetEntity))) &&
        (c.validatorSet(rh.log, h).Ok? && c.validatorSet(rh.log, h).value.validatorSet.Some? ==>
           r.result == t.validatorSetFromProto(c.validatorSet(rh.log, h).value.validatorSet))
  {
    var rh := ResolveHeight(c, log, height);
    match rh.result
    case Err(e) => Out(Err(e), rh.log)
    case Ok(h) =>
      var log' := rh.log + [ValidatorSetCall(h)];
      match c.validatorSet(rh.log, h)
      case Err(e) => Out(Err(e), log')
      case Ok(res) =>
        if res.validatorSet.None? then Out(Err(NotFound(ValidatorSetEntity)), log')
        else Out(t.validatorSetFromProto(res.validatorSet), log')
  }

  datatype BlockInfo = BlockInfo(commit: CoreTypes.Commit, validatorSet: CoreTypes.ValidatorSet)

  /**
   * GetBlockInfo: the commit at the requested height, then the validator set at the commit's
   * own height. A failed commit fetch is returned wrapped, with no validator-set query.
   */
  function GetBlockInfo(c: Client, t: Types, log: seq<Call>, height: Option<int>): (r: Out<Result<BlockInfo, Error>>)
    ensures var cm := Commit(c, t, log, height);
      match cm.result
      case Err(e) => r == Out(Err(Wrapped(GettingCommit, e)), cm.log)
      case Ok(commit) =>
        var vs := ValidatorSet(c, t, cm.log, Some(commit.height));
        r.log == cm.log + [ValidatorSetCall(commit.height)] &&
        (vs.result.Err? ==> r.result == Err(Wrapped(GettingValidatorSet, vs.result.error))) &&
        (vs.result.Ok? ==> r.result == Ok(BlockInfo(commit, vs.result.value)))
  {
    var cm := Commit(c, t, log, height);
    match cm.result
    case Err(e) => Out(Err(Wrapped(GettingCommit, e)), cm.log)
    case Ok(commit) =>
      var vs := ValidatorSet(c, t, cm.log, Some(commit.height));
      match vs.result
      case Err(e) => Out(Err(Wrapped(GettingValidatorSet, e)), vs.log)
      case Ok(valSet) => Out(Ok(BlockInfo(commit, valSet)), vs.log)
  }

  /** The calls an operation made on top of `log`. */
  function CallsMade(before: seq<Call>, after: seq<Call>): seq<Call>
    requires |before| <= |after|
  {
    after[|before|..]
  }

  /**
   * Whatever the height argument, nil included, the only validator-set query GetBlockInfo makes
   * is at the height of the commit it returns, and it comes after the commit query.
   */
  lemma ValidatorSetPinnedToCommitHeight(c: Client, t: Types, log: seq<Call>, height: Option<int>)
    ensures var r := GetBlockInfo(c, t, log, height);
      |log| <= |r.log| &&
      (r.result.Ok? ==>
        var calls := CallsMade(log, r.log);
        calls[|calls| - 1] == ValidatorSetCall(r.result.value.commit.height) &&
        forall k :: 0 <= k < |calls| && calls[k].ValidatorSetCall? ==> calls[k].height == r.result.value.commit.height) &&
      (r.result.Err? && Commit(c, t, log, height).result.Err? ==>
        forall call :: call in CallsMade(log, r.log) ==> !call.ValidatorSetCall?)
  {
    var cm := Commit(c, t, log, height);
    var calls := CallsMade(log, cm.log);
    assert forall call :: call in calls ==> !call.ValidatorSetCall?;
  }

  /**
   * GetBlock: a block-by-height stream at the resolved height, collected and reassembled.
   * The block may be nil without an error (a part refused by the part set).
   */
  function GetBlock(c: Client, t: Types, log: seq<Call>, height: Option<int>): (r: Out<Result<Option<Block>, Error>>)
    ensures var rh := ResolveHeight(c, log, height);
      match rh.result
      case Err(e) => r == Out(Err(e), rh.log)
      case Ok(h) =>
        r.log == rh.log + [BlockByHeightCall(h)] &&
        match c.blockByHeight(rh.log, h)
        case Err(e) => r.result == Err(e)
        case Ok(items) =>
          (ReceivedByHeight(t, items, 0).Err? ==> r.result == Err(ReceivedByHeight(t, items, 0).error)) &&
          (ReceivedByHeight(t, items, 0).Ok? ==> r.result == Ok(ReceivedByHeight(t, items, 0).value.block))
  {
    var rh := ResolveHeight(c, log, height);
    match rh.result
    case Err(e) => Out(Err(e), rh.log)
    case Ok(h) =>
      var log' := rh.log + [BlockByHeightCall(h)];
      match c.blockByHeight(rh.log, h)
      case Err(e) => Out(Err(e), log')
      case Ok(items) =>
        match ReceivedByHeight(t, items, 0)
        case Err(e) => Out(Err(e), log')
        case Ok(hb) => Out(Ok(hb.block), log')
  }

  /**
   * GetBlock is all or nothing: when the stream breaks before its last part, no block comes back,
   * only an error; a block comes back only reassembled from every part up to the last one.
   */
  lemma GetBlockAllOrNothing(c: Client, t: Types, log: seq<Call>, height: Option<int>)
    ensures var rh := ResolveHeight(c, log, height);
      rh.result.Ok? && c.blockByHeight(rh.log, rh.result.value).Ok? ==>
        var items := c.blockByHeight(rh.log, rh.result.value).value;
        var r := GetBlock(c, t, log, height);
        (RecvAt(items, StopIndex(items, 0)).RecvError? ==> r.result.Err?) &&
        (r.result.Ok? ==> CollectParts(items, 0).Ok? && Reassembled(t, CollectParts(items, 0).value) == r.result)
  {
    var rh := ResolveHeight(c, log, height);
    if rh.result.Ok? && c.blockByHeight(rh.log, rh.result.value).Ok? {
      var items := c.blockByHeight(rh.log, rh.result.value).value;
      ByHeightAllOrNothing(t, items, 0);
      ByHeightFromFirstMessage(t, items, 0);
    }
  }

  /**
   * GetBlockByHash: a nil hash is an error before any call; any other hash (an empty one too)
   * opens one block-by-hash stream, collected and reassembled.
   */
  function GetBlockByHash(c: Client, t: Types, log: seq<Call>, hash: Option<Bytes>): (r: Out<Result<Option<Block>, Error>>)
    ensures hash.None? ==> r == Out(Err(InvalidArgument), log)
    ensures hash.Some? ==>
      r.log == log + [BlockByHashCall(hash.value)] &&
      r.result == match c.blockByHash(log, hash.value)
                  case Err(e) => Err(e)
                  case Ok(items) => ReceivedByHash(t, items, 0)
  {
    match hash
    case None => Out(Err(InvalidArgument), log)
    case Some(hv) =>
      var log' := log + [BlockByHashCall(hv)];
      match c.blockByHash(log, hv)
      case Err(e) => Out(Err(e), log')
      case Ok(items) => Out(ReceivedByHash(t, items, 0), log')
  }

  /** What GetSignedBlock does: a signed block, an error, or a nil-pointer dereference. */
  datatype SignedOutcome = Signed(block: SignedBlock) | Failed(err: Error) | Panicked

  /**
   * GetSignedBlock: one block-by-height stream gives the block and, from its first message, the
   * commit and validator set. A nil block with no error is dereferenced (block.Header) and panics.
   */
  function GetSignedBlock(c: Client, t: Types, log: seq<Call>, height: Option<int>): (r: Out<SignedOutcome>)
    ensures var rh := ResolveHeight(c, log, height);
      match rh.result
      case Err(e) => r == Out(Failed(e), rh.log)
      case Ok(h) =>
        r.log == rh.log + [BlockByHeightCall(h)] &&
        match c.blockByHeight(rh.log, h)
        case Err(e) => r.result == Failed(e)
        case Ok(items) =>
          var hb := ReceivedByHeight(t, items, 0);
          (hb.Err? ==> r.result == Failed(hb.error)) &&
          (hb.Ok? && hb.value.block.None? ==> r.result == Panicked) &&
          (hb.Ok? && hb.value.block.Some? ==>
             r.result.Signed? && r.result.block.header == hb.value.block.value.header &&
             r.result.block.data == hb.value.block.value.data &&
             r.result.block.commit == hb.value.commit && r.result.block.validatorSet == hb.value.validatorSet)
  {
    var rh := ResolveHeight(c, log, height);
    match rh.result
    case Err(e) => Out(Failed(e), rh.log)
    case Ok(h) =>
      var log' := rh.log + [BlockByHeightCall(h)];
      match c.blockByHeight(rh.log, h)
      case Err(e) => Out(Failed(e), log')
      case Ok(items) =>
        match ReceivedByHeight(t, items, 0)
        case Err(e) => Out(Failed(e), log')
        case Ok(hb) =>
          match hb.block
          case None => Out(Panicked, log')
          case Some(b) => Out(Signed(SignedBlock(b.header, hb.commit, b.data, hb.validatorSet)), log')
  }

  /**
   * A signed block is assembled from a single by-height stream at the resolved height: block,
   * commit and validator set come from the same stream, the last two from its first message.
   * It panics exactly when that stream reassembled to no block and no error.
   */
  lemma SignedBlockFromOneStream(c: Client, t: Types, log: seq<Call>, height: Option<int>)
    ensures var r := GetSignedBlock(c, t, log, height);
      var rh := ResolveHeight(c, log, height);
      (r.result.Signed? || r.result.Panicked?) ==>
        rh.result.Ok? && c.blockByHeight(rh.log, rh.result.value).Ok? &&
        var items := c.blockByHeight(rh.log, rh.result.value).value;
        items != [] && items[0].Response? &&
        (r.result.Signed? ==>
          var sb := r.result.block;
          t.commitFromProto(items[0].resp.commit) == Ok(sb.commit) &&
          t.validatorSetFromProto(items[0].resp.validatorSet) == Ok(sb.validatorSet) &&
          CollectParts(items, 0).Ok? &&
          Reassembled(t, CollectParts(items, 0).value) == Ok(Some(Block(sb.header, sb.data)))) &&
        (r.result.Panicked? ==> CollectParts(items, 0).Ok? && Reassembled(t, CollectParts(items, 0).value) == Ok(None))
  {
    var rh := ResolveHeight(c, log, height);
    if rh.result.Ok? && c.blockByHeight(rh.log, rh.result.value).Ok? {
      ByHeightFromFirstMessage(t, c.blockByHeight(rh.log, rh.result.value).value, 0);
    }
  }

  /**
   * Conversely, once the stream opened and its first message's meta, commit and validator set
   * decode, the outcome is fixed by the parts: a receive error or reassembly error fails the call,
   * a reassembly to no block and no error panics, and a reassembled block is signed with the
   * first message's commit and validator set.
   */
  lemma SignedBlockOutcome(c: Client, t: Types, log: seq<Call>, height: Option<int>)
    ensures var r := GetSignedBlock(c, t, log, height);
      var rh := ResolveHeight(c, log, height);
      rh.result.Ok? && c.blockByHeight(rh.log, rh.result.value).Ok? ==>
        var items := c.blockByHeight(rh.log, rh.result.value).value;
        var first := RecvAt(items, 0);
        (first.RecvError? ==> r.result == Failed(first.err)) &&
        (first.Response? && t.blockMetaFromProto(first.resp.blockMeta).Ok? && t.commitFromProto(first.resp.commit).Ok? &&
         t.validatorSetFromProto(first.resp.validatorSet).Ok? ==>
           r.result == match CollectParts(items, 0)
                       case Err(e) => Failed(e)
                       case Ok(ps) =>
                         match Reassembled(t, ps)
                         case Err(e) => Failed(e)
                         case Ok(None) => Panicked
                         case Ok(Some(b)) => Signed(SignedBlock(b.header, t.commitFromProto(first.resp.commit).value, b.data,
                                                                t.validatorSetFromProto(first.resp.validatorSet).value)))
  {
    var rh := ResolveHeight(c, log, height);
    if rh.result.Ok? && c.blockByHeight(rh.log, rh.result.value).Ok? {
      var items := c.blockByHeight(rh.log, rh.result.value).value;
      var first := RecvAt(items, 0);
      if first.Response? && t.blockMetaFromProto(first.resp.blockMeta).Ok? && t.commitFromProto(first.resp.commit).Ok? &&
         t.validatorSetFromProto(first.resp.validatorSet).Ok? {
        ByHeightAsCollected(t, items, 0);
      }
    }
  }

  /** IsSyncing: one Status call; its catching-up flag, or its error. */
  function IsSyncing(c: Client, log: seq<Call>): (r: Out<Result<bool, Error>>)
    ensures r.log == log + [StatusCall]
    ensures r.result.Ok? <==> c.status(log).Ok?
    ensures r.result.Ok? ==> r.result.value == c.status(log).value.catchingUp
    ensures r.result.Err? ==> r.result.error == c.status(log).error
  {
    match c.status(log)
    case Err(e) => Out(Err(e), log + [StatusCall])
    case Ok(st) => Out(Ok(st.catchingUp), log + [StatusCall])
  }
}
