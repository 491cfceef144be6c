/**
 * The receive loop of SubscribeNewBlockEvent (core/fetcher.go:194-240) as a sequential trace:
 * for each new height the node announces, fetch the signed block at that height and emit it,
 * until the first receive error or failed fetch.
 */
module Subscription {
  import opened Wrappers
  import opened CoreTypes
  import opened Fetcher

  /** Why the loop ended. A fetch that panics ends the whole process. */
  datatype StopReason = ReceiveFailed(err: Error) | FetchFailed(height: int, err: Error) | Crashed(height: int)

  /** The events emitted in order, the client log, and why the loop ended. */
  datatype Trace = Trace(events: seq<SignedBlock>, log: seq<Call>, stop: StopReason)

  /** The signed-block fetch the loop makes for an announced height, with the log before it. */
  type Fetch = (seq<Call>, int) -> Out<SignedOutcome>

  /** A fetch that issues exactly one block-by-height call, at the height it is given. */
  ghost predicate FetchesAtHeight(fetch: Fetch) {
    forall log, h :: fetch(log, h).log == log + [BlockByHeightCall(h)]
  }

  /** The loop from the i-th announcement on. */
  function Forward(fetch: Fetch, log: seq<Call>, notices: seq<Received<int>>, i: nat): Trace
    decreases |notices| - i
  {
    match RecvAt(notices, i)
    case RecvError(e) => Trace([], log, ReceiveFailed(e))
    case Response(h) =>
      var sb := fetch(log, h);
      match sb.result
      case Failed(e) => Trace([], sb.log, FetchFailed(h, e))
      case Panicked => Trace([], sb.log, Crashed(h))
      case Signed(b) =>
        var rest := Forward(fetch, sb.log, notices, i + 1);
        Trace([b] + rest.events, rest.log, rest.stop)
  }

  /** The number of announcements the loop fetched a block for. */
  function Handled(tr: Trace): nat {
    |tr.events| + if tr.stop.ReceiveFailed? then 0 else 1
  }

  /** The loop's fetch: GetSignedBlock at the announced height, an explicit one. */
  function SignedBlockFetch(c: Client, t: Types): (fetch: Fetch)
    ensures FetchesAtHeight(fetch)
  {
    (log, h) => GetSignedBlock(c, t, log, Some(h))
  }

  /**
   * The loop issues exactly one block-by-height call per announcement it handles, at the announced
   * height and in announcement order, and never a Status call.
   */
  lemma {:induction false} ForwardCalls(fetch: Fetch, log: seq<Call>, notices: seq<Received<int>>, i: nat)
    requires FetchesAtHeight(fetch)
    ensures var tr := Forward(fetch, log, notices, i);
      |tr.log| == |log| + Handled(tr) && tr.log[..|log|] == log &&
      forall k :: i <= k < i + Handled(tr) ==>
        RecvAt(notices, k).Response? && tr.log[|log| + (k - i)] == BlockByHeightCall(RecvAt(notices, k).resp)
    decreases |notices| - i
  {
    if RecvAt(notices, i).Response? {
      var h := RecvAt(notices, i).resp;
      var sb := fetch(log, h);
      if sb.result.Signed? {
        ForwardCalls(fetch, sb.log, notices, i + 1);
        var rest := Forward(fetch, sb.log, notices, i + 1);
        var tr := Forward(fetch, log, notices, i);
        assert tr.log == rest.log && |tr.events| == 1 + |rest.events| && tr.stop == rest.stop;
        assert tr.log[..|log|] == log by {
          assert rest.log[..|sb.log|] == sb.log;
        }
        forall k | i <= k < i + Handled(tr)
          ensures RecvAt(notices, k).Response? && tr.log[|log| + (k - i)] == BlockByHeightCall(RecvAt(notices, k).resp)
        {
          if k > i {
            assert tr.log[|log| + (k - i)] == rest.log[|sb.log| + (k - (i + 1))];
          } else {
            assert tr.log[|log|] == sb.log[|log|];
          }
        }
      }
    }
  }

  /**
   * The loop only appends to the log: one call per announcement it handles. These are the first
   * two facts of ForwardCalls on their own, for the proofs below that need nothing more.
   */
  lemma {:induction false} ForwardLogExtends(fetch: Fetch, log: seq<Call>, notices: seq<Received<int>>, i: nat)
    requires FetchesAtHeight(fetch)
    ensures var tr := Forward(fetch, log, notices, i);
      |tr.log| == |log| + Handled(tr) && tr.log[..|log|] == log
    decreases |notices| - i
  {
    if RecvAt(notices, i).Response? {
      var h := RecvAt(notices, i).resp;
      var sb := fetch(log, h);
      assert sb.log == log + [BlockByHeightCall(h)];
      if sb.result.Signed? {
        ForwardLogExtends(fetch, sb.log, notices, i + 1);
        var rest := Forward(fetch, sb.log, notices, i + 1);
        assert rest.log[..|log|] == rest.log[..|sb.log|][..|log|];
      }
    }
  }

  /**
   * The j-th event is the signed block fetched for the j-th announcement, with the client log as
   * it stood after the earlier fetches.
   */
  lemma {:induction false} ForwardEvents(fetch: Fetch, log: seq<Call>, notices: seq<Received<int>>, i: nat)
    requires FetchesAtHeight(fetch)
    ensures var tr := Forward(fetch, log, notices, i);
      |log| + |tr.events| <= |tr.log| &&
      forall k :: i <= k < i + |tr.events| ==>
        RecvAt(notices, k).Response? &&
        fetch(tr.log[..|log| + (k - i)], RecvAt(notices, k).resp).result == Signed(tr.events[k - i])
    decreases |notices| - i
  {
    ForwardLogExtends(fetch, log, notices, i);
    if RecvAt(notices, i).Response? {
      var h := RecvAt(notices, i).resp;
      var sb := fetch(log, h);
      if sb.result.Signed? {
        assert sb.log == log + [BlockByHeightCall(h)];
        ForwardEvents(fetch, sb.log, notices, i + 1);
        var rest := Forward(fetch, sb.log, notices, i + 1);
        var tr := Forward(fetch, log, notices, i);
        assert tr.log == rest.log && tr.events == [sb.result.block] + rest.events;
        forall k | i <= k < i + |tr.events|
          ensures RecvAt(notices, k).Response? &&
            fetch(tr.log[..|log| + (k - i)], RecvAt(notices, k).resp).result == Signed(tr.events[k - i])
        {
          if k > i {
            assert tr.events[k - i] == rest.events[k - (i + 1)];
          }
        }
      }
    }
  }

  /**
   * The loop ends at the announcement after the last event: on a receive error there, or on the
   * failed or panicking fetch for it. Nothing after a failed fetch is fetched or emitted.
   */
  lemma {:induction false} ForwardStops(fetch: Fetch, log: seq<Call>, notices: seq<Received<int>>, i: nat)
    requires FetchesAtHeight(fetch)
    ensures var tr := Forward(fetch, log, notices, i);
      var k := i + |tr.events|;
      (tr.stop.ReceiveFailed? ==> RecvAt(notices, k) == RecvError(tr.stop.err) && |tr.log| == |log| + |tr.events|) &&
      (tr.stop.FetchFailed? ==>
        RecvAt(notices, k) == Response(tr.stop.height) && |tr.log| == |log| + |tr.events| + 1 &&
        fetch(tr.log[..|tr.log| - 1], tr.stop.height).result == Failed(tr.stop.err)) &&
      (tr.stop.Crashed? ==>
        RecvAt(notices, k) == Response(tr.stop.height) && |tr.log| == |log| + |tr.events| + 1 &&
        fetch(tr.log[..|tr.log| - 1], tr.stop.height).result == Panicked)
    decreases |notices| - i
  {
    ForwardLogExtends(fetch, log, notices, i);
    if RecvAt(notices, i).Response? {
      var h := RecvAt(notices, i).resp;
      var sb := fetch(log, h);
      if sb.result.Signed? {
        ForwardStops(fetch, sb.log, notices, i + 1);
      } else {
        assert sb.log[..|sb.log| - 1] == log;
      }
    }
  }

  /**
   * SubscribeNewBlockEvent: one SubscribeNewHeights call; its error is returned, otherwise the
   * receive loop runs over the announcements the node sends.
   */
  function SubscribeNewBlockEvent(c: Client, t: Types, log: seq<Call>): (r: Out<Result<Trace, Error>>)
    ensures c.subscribeNewHeights(log).Err? ==>
      r == Out(Err(c.subscribeNewHeights(log).error), log + [SubscribeNewHeightsCall])
    ensures c.subscribeNewHeights(log).Ok? ==>
      r == Out(Ok(Forward(SignedBlockFetch(c, t), log + [SubscribeNewHeightsCall], c.subscribeNewHeights(log).value, 0)),
               log + [SubscribeNewHeightsCall])
    ensures r.result.Ok? ==>
      c.subscribeNewHeights(log).Ok? && r.log == log + [SubscribeNewHeightsCall] &&
      |r.log| <= |r.result.value.log| && r.result.value.log[..|r.log|] == r.log
  {
    var log' := log + [SubscribeNewHeightsCall];
    match c.subscribeNewHeights(log)
    case Err(e) => Out(Err(e), log')
    case Ok(notices) =>
      ForwardCalls(SignedBlockFetch(c, t), log', notices, 0);
      Out(Ok(Forward(SignedBlockFetch(c, t), log', notices, 0)), log')
  }
}
