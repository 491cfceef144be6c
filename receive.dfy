/**
 * The two stream-collection loops of core/fetcher.go: receiveBlockByHeight (lines 253-290)
 * and receiveBlockByHash (lines 292-304). Each reads messages until the first one flagged
 * last, aborting on the first receive error, and hands the parts to partsToBlock.
 */
module Receive {
  import opened Wrappers
  import opened CoreTypes
  import opened Streams
  import opened PartSets

  /** A message that ends a collection loop: a receive error, or a part flagged last. */
  predicate Ends(r: Received<BlockResponse>) {
    r.RecvError? || r.resp.isLast
  }

  /** Two messages that carry the same part and flag, or the same error. */
  predicate SamePart(a: Received<BlockResponse>, b: Received<BlockResponse>) {
    match a
    case RecvError(e) => b == RecvError(e)
    case Response(x) => b.Response? && b.resp.blockPart == x.blockPart && b.resp.isLast == x.isLast
  }

  /** The index of the Recv that ends a loop started at receive number `i`. */
  function StopIndex(items: seq<Received<BlockResponse>>, i: nat): (k: nat)
    ensures i <= k
    ensures k <= |items| || k == i
    ensures Ends(RecvAt(items, k))
    ensures forall j :: i <= j < k ==> !Ends(RecvAt(items, j))
    decreases |items| - i
  {
    if Ends(RecvAt(items, i)) then i else StopIndex(items, i + 1)
  }

  /** The parts a loop starting at receive number `i` collects, or the receive error that aborts it. */
  function CollectParts(items: seq<Received<BlockResponse>>, i: nat): Result<seq<Part>, Error>
    decreases |items| - i
  {
    match RecvAt(items, i)
    case RecvError(e) => Err(e)
    case Response(r) =>
      if r.isLast then Ok([r.blockPart])
      else
        match CollectParts(items, i + 1)
        case Err(e) => Err(e)
        case Ok(rest) => Ok([r.blockPart] + rest)
  }

  /**
   * Collection succeeds exactly when the message that ends it is a part flagged last; the parts
   * are then those of the messages from `i` to that one, in receive order. Otherwise the result
   * is the receive error that ended it.
   */
  lemma {:induction false} CollectPartsUpToLast(items: seq<Received<BlockResponse>>, i: nat)
    ensures var k := StopIndex(items, i);
      match CollectParts(items, i)
      case Ok(ps) =>
        RecvAt(items, k).Response? && |ps| == k - i + 1 &&
        forall j :: 0 <= j < |ps| ==> RecvAt(items, i + j).Response? && ps[j] == RecvAt(items, i + j).resp.blockPart
      case Err(e) => RecvAt(items, k) == RecvError(e)
    decreases |items| - i
  {
    match RecvAt(items, i)
    case RecvError(e) =>
    case Response(r) =>
      if !r.isLast {
        CollectPartsUpToLast(items, i + 1);
        match CollectParts(items, i + 1)
        case Err(e) =>
        case Ok(rest) =>
          var ps := [r.blockPart] + rest;
          forall j | 0 <= j < |ps|
            ensures RecvAt(items, i + j).Response? && ps[j] == RecvAt(items, i + j).resp.blockPart
          {
            if j > 0 { assert ps[j] == rest[j - 1]; }
          }
      }
  }

  /** The loop never looks past the message that ends it: later messages do not matter. */
  lemma {:induction false} CollectPartsIgnoresRest(items: seq<Received<BlockResponse>>, other: seq<Received<BlockResponse>>, i: nat)
    requires forall j :: i <= j <= StopIndex(items, i) ==> SamePart(RecvAt(items, j), RecvAt(other, j))
    ensures CollectParts(other, i) == CollectParts(items, i)
    ensures StopIndex(other, i) == StopIndex(items, i)
    decreases |items| - i
  {
    assert SamePart(RecvAt(items, i), RecvAt(other, i));
    if !Ends(RecvAt(items, i)) {
      CollectPartsIgnoresRest(items, other, i + 1);
    }
  }

  /** The parts `ps` collected so far in front of what the rest of a loop collects. */
  function Prepend(ps: seq<Part>, r: Result<seq<Part>, Error>): Result<seq<Part>, Error> {
    match r
    case Err(e) => Err(e)
    case Ok(rest) => Ok(ps + rest)
  }

  /** receiveBlockByHash, as a function of the messages the server sends. */
  function ReceivedByHash(t: Types, items: seq<Received<BlockResponse>>, i: nat): Result<Option<Block>, Error> {
    match CollectParts(items, i)
    case Err(e) => Err(e)
    case Ok(parts) => Reassembled(t, parts)
  }

  /** What receiveBlockByHeight returns on success; the block alone may be nil. */
  datatype HeightBlock = HeightBlock(block: Option<Block>, blockMeta: BlockMeta, commit: Commit, validatorSet: ValidatorSet)

  /** receiveBlockByHeight, as a function of the messages the server sends. */
  function ReceivedByHeight(t: Types, items: seq<Received<BlockResponse>>, i: nat): Result<HeightBlock, Error> {
    match RecvAt(items, i)
    case RecvError(e) => Err(e)
    case Response(first) =>
      match t.blockMetaFromProto(first.blockMeta)
      case Err(e) => Err(e)
      case Ok(meta) =>
        match t.commitFromProto(first.commit)
        case Err(e) => Err(e)
        case Ok(commit) =>
          match t.validatorSetFromProto(first.validatorSet)
          case Err(e) => Err(e)
          case Ok(vs) =>
            match (if first.isLast then Ok([]) else CollectParts(items, i + 1))
            case Err(e) => Err(e)
            case Ok(rest) =>
              match Reassembled(t, [first.blockPart] + rest)
              case Err(e) => Err(e)
              case Ok(b) => Ok(HeightBlock(b, meta, commit, vs))
  }

  /**
   * By hash, all or nothing: a receive error before the last part is the result; a result that is
   * not an error comes from reassembling every part up to and including the last one.
   */
  lemma ByHashAllOrNothing(t: Types, items: seq<Received<BlockResponse>>, i: nat)
    ensures var k := StopIndex(items, i);
      (RecvAt(items, k).RecvError? ==> ReceivedByHash(t, items, i) == Err(RecvAt(items, k).err)) &&
      (RecvAt(items, k).Response? ==> CollectParts(items, i).Ok? && ReceivedByHash(t, items, i) == Reassembled(t, CollectParts(items, i).value))
  {
    CollectPartsUpToLast(items, i);
  }

  /**
   * By height: BlockMeta, Commit and ValidatorSet come from the first message only, and the
   * block from the parts of every message up to the last one; the result is the same as if the
   * three fields were decoded and then the whole part stream collected from the first message.
   */
  lemma ByHeightFromFirstMessage(t: Types, items: seq<Received<BlockResponse>>, i: nat)
    ensures match ReceivedByHeight(t, items, i)
      case Ok(hb) =>
        var first := RecvAt(items, i);
        first.Response? &&
        t.blockMetaFromProto(first.resp.blockMeta) == Ok(hb.blockMeta) &&
        t.commitFromProto(first.resp.commit) == Ok(hb.commit) &&
        t.validatorSetFromProto(first.resp.validatorSet) == Ok(hb.validatorSet) &&
        CollectParts(items, i).Ok? &&
        Reassembled(t, CollectParts(items, i).value) == Ok(hb.block)
      case Err(_) => true
  {
    var first := RecvAt(items, i);
    if first.Response? && first.resp.isLast {
      assert [first.resp.blockPart] + [] == [first.resp.blockPart];
    }
  }

  /**
   * By height, once the first message's meta, commit and validator set decode, the result is
   * whatever collecting the parts from the first message on and reassembling them gives.
   */
  lemma ByHeightAsCollected(t: Types, items: seq<Received<BlockResponse>>, i: nat)
    requires RecvAt(items, i).Response?
    requires t.blockMetaFromProto(RecvAt(items, i).resp.blockMeta).Ok?
    requires t.commitFromProto(RecvAt(items, i).resp.commit).Ok?
    requires t.validatorSetFromProto(RecvAt(items, i).resp.validatorSet).Ok?
    ensures var first := RecvAt(items, i).resp;
      ReceivedByHeight(t, items, i) ==
        match CollectParts(items, i)
        case Err(e) => Err(e)
        case Ok(ps) =>
          match Reassembled(t, ps)
          case Err(e) => Err(e)
          case Ok(b) => Ok(HeightBlock(b, t.blockMetaFromProto(first.blockMeta).value,
                                      t.commitFromProto(first.commit).value, t.validatorSetFromProto(first.validatorSet).value))
  {
    var first := RecvAt(items, i).resp;
    if first.isLast {
      assert [first.blockPart] + [] == [first.blockPart];
    }
  }

  /**
   * By height, all or nothing: a receive error before the last part makes the whole call fail.
   * Its error is the receive error unless the first message already failed to decode.
   */
  lemma ByHeightAllOrNothing(t: Types, items: seq<Received<BlockResponse>>, i: nat)
    ensures var k := StopIndex(items, i);
      RecvAt(items, k).RecvError? ==>
        ReceivedByHeight(t, items, i).Err? &&
        (k == i ==> ReceivedByHeight(t, items, i) == Err(RecvAt(items, k).err)) &&
        (var first := RecvAt(items, i);
         k > i && t.blockMetaFromProto(first.resp.blockMeta).Ok? && t.commitFromProto(first.resp.commit).Ok?
           && t.validatorSetFromProto(first.resp.validatorSet).Ok?
         ==> ReceivedByHeight(t, items, i) == Err(RecvAt(items, k).err))
  {
    var k := StopIndex(items, i);
    if RecvAt(items, k).RecvError? && k > i {
      CollectPartsUpToLast(items, i + 1);
    }
  }

  /** By height, the fields of messages after the first one are never read. */
  lemma ByHeightIgnoresLaterFields(t: Types, items: seq<Received<BlockResponse>>, other: seq<Received<BlockResponse>>, i: nat)
    requires RecvAt(other, i) == RecvAt(items, i)
    requires forall j :: i < j <= StopIndex(items, i) ==> SamePart(RecvAt(items, j), RecvAt(other, j))
    ensures ReceivedByHeight(t, other, i) == ReceivedByHeight(t, items, i)
  {
    if !Ends(RecvAt(items, i)) {
      CollectPartsIgnoresRest(items, other, i + 1);
    }
  }

  /** receiveBlockByHash: collects parts until the last one, aborting on any receive error. */
  method ReceiveBlockByHash(t: Types, stream: Stream<BlockResponse>) returns (r: Result<Option<Block>, Error>)
    modifies stream
    ensures r == ReceivedByHash(t, stream.items, old(stream.received))
    ensures stream.received == StopIndex(stream.items, old(stream.received)) + 1
  {
    ghost var start := stream.received;
    var parts: seq<Part> := [];
    var isLast := false;
    assert forall rest: seq<Part> :: [] + rest == rest;
    while !isLast
      invariant start <= stream.received
      invariant !isLast ==> stream.received == start + |parts|
      invariant !isLast ==> StopIndex(stream.items, start) == StopIndex(stream.items, stream.received)
      invariant !isLast ==> CollectParts(stream.items, start) == Prepend(parts, CollectParts(stream.items, stream.received))
      invariant isLast ==> CollectParts(stream.items, start) == Ok(parts)
      invariant isLast ==> stream.received == StopIndex(stream.items, start) + 1
      decreases if isLast then 0 else |stream.items| + 1 - stream.received
    {
      var resp := stream.Recv();
      if resp.RecvError? {
        return Err(resp.err);
      }
      assert parts + [resp.resp.blockPart] + [] == parts + [resp.resp.blockPart];
      assert forall rest :: (parts + [resp.resp.blockPart]) + rest == parts + ([resp.resp.blockPart] + rest);
      parts := parts + [resp.resp.blockPart];
      isLast := resp.resp.isLast;
    }
    r := PartsToBlock(t, parts);
  }

  /** receiveBlockByHeight: decodes the first message's fields, then collects parts as above. */
  method ReceiveBlockByHeight(t: Types, stream: Stream<BlockResponse>) returns (r: Result<HeightBlock, Error>)
    modifies stream
    ensures r == ReceivedByHeight(t, stream.items, old(stream.received))
    ensures stream.received <= StopIndex(stream.items, old(stream.received)) + 1
    ensures r.Ok? ==> stream.received == StopIndex(stream.items, old(stream.received)) + 1
  {
    ghost var start := stream.received;
    var parts: seq<Part> := [];
    var resp := stream.Recv();
    if resp.RecvError? {
      return Err(resp.err);
    }
    var blockMeta := t.blockMetaFromProto(resp.resp.blockMeta);
    if blockMeta.Err? {
      return Err(blockMeta.error);
    }
    var commit := t.commitFromProto(resp.resp.commit);
    if commit.Err? {
      return Err(commit.error);
    }
    var validatorSet := t.validatorSetFromProto(resp.resp.validatorSet);
    if validatorSet.Err? {
      return Err(validatorSet.error);
    }
    parts := parts + [resp.resp.blockPart];
    var isLast := resp.resp.isLast;
    ghost var restStart := stream.received;
    ghost var collected: seq<Part> := [];
    assert forall rest: seq<Part> :: [] + rest == rest;
    while !isLast
      invariant restStart == start + 1 <= stream.received
      invariant parts == [resp.resp.blockPart] + collected
      invariant !resp.resp.isLast ==> StopIndex(stream.items, start) == StopIndex(stream.items, restStart)
      invariant !isLast ==> stream.received == restStart + |collected|
      invariant !isLast ==> StopIndex(stream.items, restStart) == StopIndex(stream.items, stream.received)
      invariant !isLast ==> CollectParts(stream.items, restStart) == Prepend(collected, CollectParts(stream.items, stream.received))
      invariant isLast && !resp.resp.isLast ==> CollectParts(stream.items, restStart) == Ok(collected)
      invariant isLast ==> stream.received == StopIndex(stream.items, start) + 1
      invariant resp.resp.isLast ==> collected == []
      decreases if isLast then 0 else |stream.items| + 1 - stream.received
    {
      var next := stream.Recv();
      if next.RecvError? {
        return Err(next.err);
      }
      assert forall rest :: (collected + [next.resp.blockPart]) + rest == collected + ([next.resp.blockPart] + rest);
      assert collected + [next.resp.blockPart] + [] == collected + [next.resp.blockPart];
      collected := collected + [next.resp.blockPart];
      parts := parts + [next.resp.blockPart];
      isLast := next.resp.isLast;
    }
    var block := PartsToBlock(t, parts);
    if block.Err? {
      return Err(block.error);
    }
    return Ok(HeightBlock(block.value, blockMeta.value, commit.value, validatorSet.value));
  }
}
