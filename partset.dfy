/**
 * Reassembly of a block from the parts received over a stream (partsToBlock,
 * core/fetcher.go:306-333). The part set itself is library code: its answers come from
 * the `Types` oracle.
 */
module PartSets {
  import opened Wrappers
  import opened CoreTypes

  const Uint32Modulus: nat := 0x1_0000_0000

  /** `uint32(n)`: the total the part set header declares for n received parts. */
  function Total32(n: nat): (t: nat)
    ensures t < Uint32Modulus
    ensures n < Uint32Modulus ==> t == n
  {
    n % Uint32Modulus
  }

  /** A part set built from a header declaring `total` parts. */
  class PartSet {
    const types: Types
    const total: nat
    /** The parts the set accepted, in the order they were added. */
    var accepted: seq<Part>

    constructor FromHeader(types: Types, total: nat)
      ensures this.types == types && this.total == total && accepted == []
    {
      this.types := types;
      this.total := total;
      accepted := [];
    }

    /** Offers one part; the set keeps it only when it answers ok without an error. */
    method AddPartWithoutProof(p: Part) returns (ok: bool, err: Option<Error>)
      modifies this
      ensures AddResult(ok, err) == types.addPartWithoutProof(total, old(accepted), p)
      ensures accepted == if ok && err.None? then old(accepted) + [p] else old(accepted)
    {
      var res := types.addPartWithoutProof(total, accepted, p);
      ok, err := res.ok, res.err;
      if ok && err.None? {
        accepted := accepted + [p];
      }
    }

    /** `io.ReadAll(partSet.GetReader())`. */
    method ReadAll() returns (r: Result<Bytes, Error>)
      ensures r == types.readAll(total, accepted)
    {
      r := types.readAll(total, accepted);
    }
  }

  /** An add that neither fails nor is refused. */
  predicate Clean(a: AddResult) {
    a.ok && a.err.None?
  }

  /** How adding a sequence of parts ends: all accepted, an error, or a refusal without error. */
  datatype Accumulated = Added(parts: seq<Part>) | AddFailed(err: Error) | Rejected

  /** Adds `parts` in order to a set that declares `total` and already holds `added`. */
  function AddParts(t: Types, total: nat, added: seq<Part>, parts: seq<Part>): Accumulated
    decreases |parts|
  {
    if parts == [] then Added(added)
    else
      var res := t.addPartWithoutProof(total, added, parts[0]);
      if res.err.Some? then AddFailed(res.err.value)
      else if !res.ok then Rejected
      else AddParts(t, total, added + [parts[0]], parts[1..])
  }

  /**
   * The index of the first part whose add is not clean when `parts` are offered in order
   * to a set holding `added`, or |parts| when every add is clean.
   */
  function FirstUnclean(t: Types, total: nat, added: seq<Part>, parts: seq<Part>): (j: nat)
    ensures j <= |parts|
    ensures forall k :: 0 <= k < j ==> Clean(t.addPartWithoutProof(total, added + parts[..k], parts[k]))
    ensures j < |parts| ==> !Clean(t.addPartWithoutProof(total, added + parts[..j], parts[j]))
    decreases |parts|
  {
    if parts == [] then 0
    else if !Clean(t.addPartWithoutProof(total, added, parts[0])) then
      assert added + parts[..0] == added;
      0
    else
      var j := 1 + FirstUnclean(t, total, added + [parts[0]], parts[1..]);
      assert forall k :: 1 <= k <= |parts| ==> added + parts[..k] == (added + [parts[0]]) + parts[1..][..k-1];
      assert added + parts[..0] == added;
      j
  }

  /**
   * The outcome of adding `parts` is decided by the first add that is not clean: its error if it
   * has one, a refusal if it only answered not-ok; when there is none, every part is kept in order.
   */
  lemma {:induction false} AddPartsOutcome(t: Types, total: nat, added: seq<Part>, parts: seq<Part>)
    ensures var j := FirstUnclean(t, total, added, parts);
      AddParts(t, total, added, parts) ==
        if j == |parts| then Added(added + parts)
        else
          var res := t.addPartWithoutProof(total, added + parts[..j], parts[j]);
          if res.err.Some? then AddFailed(res.err.value) else Rejected
    decreases |parts|
  {
    if parts != [] {
      assert added + parts[..0] == added;
      if Clean(t.addPartWithoutProof(total, added, parts[0])) {
        AddPartsOutcome(t, total, added + [parts[0]], parts[1..]);
        var j := FirstUnclean(t, total, added, parts);
        assert (added + [parts[0]]) + parts[1..] == added + parts;
        assert j < |parts| ==> added + parts[..j] == (added + [parts[0]]) + parts[1..][..j-1];
      }
    }
  }

  /** What partsToBlock returns: a block, an error, or neither (Go's `(nil, nil)`). */
  function Reassembled(t: Types, parts: seq<Part>): Result<Option<Block>, Error> {
    var total := Total32(|parts|);
    match AddParts(t, total, [], parts)
    case AddFailed(e) => Err(e)
    case Rejected => Ok(None)
    case Added(acc) =>
      match t.readAll(total, acc)
      case Err(e) => Err(e)
      case Ok(bz) =>
        match t.decodeBlock(bz)
        case Err(e) => Err(e)
        case Ok(b) => Ok(Some(b))
  }

  /**
   * partsToBlock declares as total the number of parts received (as a uint32) and adds the parts
   * in receive order. A block comes back only when every add was clean and the set's bytes for
   * exactly those parts decode; a part refused without error yields neither block nor error.
   */
  lemma ReassembledOutcome(t: Types, parts: seq<Part>)
    ensures Reassembled(t, parts) ==
      var total := Total32(|parts|);
      var j := FirstUnclean(t, total, [], parts);
      if j < |parts| then
        var res := t.addPartWithoutProof(total, parts[..j], parts[j]);
        if res.err.Some? then Err(res.err.value) else Ok(None)
      else
        match t.readAll(total, parts)
        case Err(e) => Err(e)
        case Ok(bz) =>
          match t.decodeBlock(bz)
          case Err(e) => Err(e)
          case Ok(b) => Ok(Some(b))
  {
    var total := Total32(|parts|);
    AddPartsOutcome(t, total, [], parts);
    assert [] + parts == parts;
    var j := FirstUnclean(t, total, [], parts);
    assert j < |parts| ==> [] + parts[..j] == parts[..j];
  }

  /**
   * The `(nil, nil)` quirk: partsToBlock returns no block and no error exactly when some part
   * is refused (not ok, nil error) after every earlier part was accepted.
   */
  lemma NoBlockNoError(t: Types, parts: seq<Part>)
    ensures var total := Total32(|parts|);
      Reassembled(t, parts) == Ok(None) <==>
        exists j :: 0 <= j < |parts| &&
          (forall k :: 0 <= k < j ==> Clean(t.addPartWithoutProof(total, parts[..k], parts[k]))) &&
          t.addPartWithoutProof(total, parts[..j], parts[j]) == AddResult(false, None)
  {
    var total := Total32(|parts|);
    ReassembledOutcome(t, parts);
    var j := FirstUnclean(t, total, [], parts);
    assert forall k :: 0 <= k <= |parts| ==> [] + parts[..k] == parts[..k];
    if Reassembled(t, parts) == Ok(None) {
      assert j < |parts|;
      assert t.addPartWithoutProof(total, parts[..j], parts[j]) == AddResult(false, None);
    }
    if exists j' :: 0 <= j' < |parts| &&
          (forall k :: 0 <= k < j' ==> Clean(t.addPartWithoutProof(total, parts[..k], parts[k]))) &&
          t.addPartWithoutProof(total, parts[..j'], parts[j']) == AddResult(false, None) {
      var j' :| 0 <= j' < |parts| &&
          (forall k :: 0 <= k < j' ==> Clean(t.addPartWithoutProof(total, parts[..k], parts[k]))) &&
          t.addPartWithoutProof(total, parts[..j'], parts[j']) == AddResult(false, None);
      assert !Clean(t.addPartWithoutProof(total, parts[..j'], parts[j']));
      assert j <= j';
      assert j == j';
    }
  }

  /** partsToBlock: a fresh part set sized to the parts received, filled in receive order, then decoded. */
  method PartsToBlock(t: Types, parts: seq<Part>) returns (r: Result<Option<Block>, Error>)
    ensures r == Reassembled(t, parts)
  {
    var total := Total32(|parts|);
    var partSet := new PartSet.FromHeader(t, total);
    for i := 0 to |parts|
      invariant partSet.types == t && partSet.total == total
      invariant partSet.accepted == parts[..i]
      invariant AddParts(t, total, [], parts) == AddParts(t, total, parts[..i], parts[i..])
    {
      var ok, err := partSet.AddPartWithoutProof(parts[i]);
      if err.Some? {
        return Err(err.value);
      }
      if !ok {
        return Ok(None);
      }
      assert parts[..i] + [parts[i]] == parts[..i + 1];
      assert parts[i..][1..] == parts[i + 1..];
    }
    assert parts[..|parts|] == parts;
    var bz := partSet.ReadAll();
    if bz.Err? {
      return Err(bz.error);
    }
    var decoded := t.decodeBlock(bz.value);
    if decoded.Err? {
      return Err(decoded.error);
    }
    return Ok(Some(decoded.value));
  }
}
