/**
 * The sampling worker of das/worker.go: it walks the heights of one job in ascending order,
 * samples each header it could get, and records the heights that failed with their errors.
 */
module DasWorker {
  import opened Wrappers

  const MaxUint64: nat := 0xFFFF_FFFF_FFFF_FFFF

  /** An error from the header getter or the sampler: a cancellation or anything else. */
  datatype SampleError = Canceled | Other(reason: string)

  /** The interval of heights [from, to] one worker processes. */
  datatype Job = Job(id: int, from: nat, to: nat)

  /** One entry of the accumulated error chain: `height: <h>, err: <e>`. */
  datatype ErrEntry = ErrEntry(height: nat, err: SampleError)

  datatype Header = Header(height: nat, raw: seq<bv8>)

  /** The heights of an error chain, in chain order. */
  function Heights(errs: seq<ErrEntry>): (hs: seq<nat>)
    ensures |hs| == |errs|
    ensures forall i :: 0 <= i < |errs| ==> hs[i] == errs[i].height
  {
    seq(|errs|, i requires 0 <= i < |errs| => errs[i].height)
  }

  /** The heights of a concatenated chain are the concatenated heights. */
  lemma HeightsAppend(a: seq<ErrEntry>, b: seq<ErrEntry>)
    ensures Heights(a + b) == Heights(a) + Heights(b)
  {
  }

  /**
   * The worker's state. `err` is the error chain; Go's `Err` is nil exactly when it is empty.
   */
  datatype WorkerState = WorkerState(job: Job, curr: nat, err: seq<ErrEntry>, failed: seq<nat>) {
    /**
     * The invariant a worker keeps: failed lists the chain's heights, strictly increasing, within
     * the job and not above `curr`; no cancellation is ever recorded.
     */
    predicate Valid() {
      job.from <= curr &&
      failed == Heights(err) &&
      (forall i :: 0 <= i < |err| ==> err[i].err.Other?) &&
      (forall i :: 0 <= i < |failed| ==> job.from <= failed[i] <= job.to && failed[i] <= curr) &&
      (forall i, j :: 0 <= i < j < |failed| ==> failed[i] < failed[j])
    }
  }

  /** In a valid state the error chain is nil exactly when no height failed. */
  lemma ErrNilIffNoFailures(s: WorkerState)
    requires s.Valid()
    ensures s.err == [] <==> s.failed == []
    ensures |s.err| == |s.failed|
  {
  }

  /** What the worker reports when its job ends. */
  datatype JobResult = JobResult(job: Job, failed: seq<nat>, err: seq<ErrEntry>)

  /** The error of one height: the getter's, or, only when the getter succeeded, the sampler's. */
  function HeightOutcome(get: nat -> Result<Header, SampleError>, sample: Header -> Option<SampleError>, h: nat): Option<SampleError> {
    match get(h)
    case Err(e) => Some(e)
    case Ok(header) => sample(header)
  }

  /** The sampler is never consulted for a height whose header could not be got. */
  lemma SampleOnlyAfterGet(get: nat -> Result<Header, SampleError>, s1: Header -> Option<SampleError>, s2: Header -> Option<SampleError>, h: nat)
    requires get(h).Err?
    ensures HeightOutcome(get, s1, h) == HeightOutcome(get, s2, h) == Some(get(h).error)
  {
  }

  /**
   * The height at which the walk from `h` to `last` stops: the first one whose outcome is a
   * cancellation, or the height after `last` when there is none.
   */
  function CancelPoint(get: nat -> Result<Header, SampleError>, sample: Header -> Option<SampleError>, h: nat, last: nat): (k: nat)
    ensures h <= k
    ensures k <= last + 1 || k == h
    ensures k <= last ==> HeightOutcome(get, sample, k) == Some(Canceled)
    ensures forall j :: h <= j < k ==> j <= last && HeightOutcome(get, sample, j) != Some(Canceled)
    decreases last + 1 - h
  {
    if h > last then h
    else if HeightOutcome(get, sample, h) == Some(Canceled) then h
    else CancelPoint(get, sample, h + 1, last)
  }

  /** The error entries recorded for the heights in [from, stop), in ascending order. */
  function Recorded(get: nat -> Result<Header, SampleError>, sample: Header -> Option<SampleError>, from: nat, stop: nat): seq<ErrEntry>
    decreases stop
  {
    if stop <= from then []
    else
      var earlier := Recorded(get, sample, from, stop - 1);
      match HeightOutcome(get, sample, stop - 1)
      case None => earlier
      case Some(e) => earlier + [ErrEntry(stop - 1, e)]
  }

  /** Recording one more height appends its entry when, and only when, its outcome is an error. */
  lemma RecordedStep(get: nat -> Result<Header, SampleError>, sample: Header -> Option<SampleError>, from: nat, h: nat)
    requires from <= h
    ensures Recorded(get, sample, from, h + 1) ==
      Recorded(get, sample, from, h) + match HeightOutcome(get, sample, h)
                                       case None => []
                                       case Some(e) => [ErrEntry(h, e)]
  {
  }

  /** Every entry for [from, stop) is a height of that interval with its error, in increasing order. */
  lemma {:induction false} RecordedSound(get: nat -> Result<Header, SampleError>, sample: Header -> Option<SampleError>, from: nat, stop: nat)
    ensures forall i :: 0 <= i < |Recorded(get, sample, from, stop)| ==>
      var entry := Recorded(get, sample, from, stop)[i];
      from <= entry.height < stop && HeightOutcome(get, sample, entry.height) == Some(entry.err)
    ensures forall i, j :: 0 <= i < j < |Recorded(get, sample, from, stop)| ==>
      Recorded(get, sample, from, stop)[i].height < Recorded(get, sample, from, stop)[j].height
    decreases stop
  {
    if stop > from {
      RecordedSound(get, sample, from, stop - 1);
      var earlier := Recorded(get, sample, from, stop - 1);
      var errs := Recorded(get, sample, from, stop);
      match HeightOutcome(get, sample, stop - 1)
      case None =>
        assert errs == earlier;
      case Some(e) =>
        assert errs == earlier + [ErrEntry(stop - 1, e)];
        forall i | 0 <= i < |errs|
          ensures from <= errs[i].height < stop && HeightOutcome(get, sample, errs[i].height) == Some(errs[i].err)
        {
          if i < |earlier| { assert errs[i] == earlier[i]; }
        }
        forall i, j | 0 <= i < j < |errs|
          ensures errs[i].height < errs[j].height
        {
          assert errs[i] == earlier[i];
          if j < |earlier| { assert errs[j] == earlier[j]; }
        }
    }
  }

  /** Every height of [from, stop) whose outcome is an error has an entry. */
  lemma {:induction false} RecordedComplete(get: nat -> Result<Header, SampleError>, sample: Header -> Option<SampleError>, from: nat, stop: nat, h: nat)
    requires from <= h < stop && HeightOutcome(get, sample, h).Some?
    ensures h in Heights(Recorded(get, sample, from, stop))
    decreases stop
  {
    var errs := Recorded(get, sample, from, stop);
    if h < stop - 1 {
      RecordedComplete(get, sample, from, stop - 1, h);
      var earlier := Recorded(get, sample, from, stop - 1);
      var i :| 0 <= i < |earlier| && Heights(earlier)[i] == h;
      assert errs[i] == earlier[i];
      assert Heights(errs)[i] == h;
    } else {
      assert Heights(errs)[|errs| - 1] == h;
    }
  }

  /**
   * A run of a job fails exactly at the heights of the job, below the first cancellation, whose
   * get or sample returned an error; that error is never a cancellation.
   */
  lemma FailedHeightsOfRun(get: nat -> Result<Header, SampleError>, sample: Header -> Option<SampleError>, job: Job)
    ensures var stop := CancelPoint(get, sample, job.from, job.to);
      var errs := Recorded(get, sample, job.from, stop);
      (forall h :: h in Heights(errs) <==>
        job.from <= h <= job.to && h < stop && HeightOutcome(get, sample, h).Some?) &&
      (forall i :: 0 <= i < |errs| ==> errs[i].err.Other?) &&
      (forall i, j :: 0 <= i < j < |errs| ==> errs[i].height < errs[j].height)
  {
    var stop := CancelPoint(get, sample, job.from, job.to);
    var errs := Recorded(get, sample, job.from, stop);
    RecordedSound(get, sample, job.from, stop);
    forall h | job.from <= h <= job.to && h < stop && HeightOutcome(get, sample, h).Some?
      ensures h in Heights(errs)
    {
      RecordedComplete(get, sample, job.from, stop, h);
    }
  }

  /** The state a run leaves behind, from the state it starts in. */
  function AfterRun(s: WorkerState, get: nat -> Result<Header, SampleError>, sample: Header -> Option<SampleError>): WorkerState {
    var stop := CancelPoint(get, sample, s.job.from, s.job.to);
    var errs := Recorded(get, sample, s.job.from, stop);
    s.(curr := if stop > s.job.from then stop - 1 else s.curr,
       err := s.err + errs,
       failed := s.failed + Heights(errs))
  }

  /**
   * An empty job, From > To, processes nothing: it stops at once, records nothing, and leaves the
   * worker as it found it, so the report carries the original job, failures and error chain.
   */
  lemma EmptyJob(s: WorkerState, get: nat -> Result<Header, SampleError>, sample: Header -> Option<SampleError>)
    requires s.job.from > s.job.to
    ensures CancelPoint(get, sample, s.job.from, s.job.to) == s.job.from
    ensures Recorded(get, sample, s.job.from, s.job.from) == []
    ensures AfterRun(s, get, sample) == s
  {
    assert s.err + [] == s.err;
    assert s.failed + Heights([]) == s.failed;
  }

  /** Appending increasing, in-job, non-cancellation entries below `stop` to an empty chain keeps the invariant. */
  lemma ValidAfterAppend(s: WorkerState, stop: nat, errs: seq<ErrEntry>)
    requires s.Valid() && s.failed == [] && s.job.from <= stop
    requires forall i :: 0 <= i < |errs| ==> errs[i].err.Other? && s.job.from <= errs[i].height <= s.job.to && errs[i].height < stop
    requires forall i, j :: 0 <= i < j < |errs| ==> errs[i].height < errs[j].height
    ensures s.(curr := if stop > s.job.from then stop - 1 else s.curr, err := s.err + errs, failed := s.failed + Heights(errs)).Valid()
  {
    var s' := s.(curr := if stop > s.job.from then stop - 1 else s.curr, err := s.err + errs, failed := s.failed + Heights(errs));
    assert |s.err| == 0;
    assert s'.err == errs by { assert s.err + errs == errs; }
    assert s'.failed == Heights(errs) by { assert s.failed + Heights(errs) == Heights(errs); }
    if errs != [] {
      assert errs[0].height < stop;
    }
    forall i, j | 0 <= i < j < |s'.failed|
      ensures s'.failed[i] < s'.failed[j]
    {
      assert s'.failed[i] == errs[i].height && s'.failed[j] == errs[j].height;
    }
  }

  /**
   * A run started as newWorker leaves a worker keeps the invariant: failed is strictly
   * increasing, inside [From, To], matches the error chain, and never exceeds Curr.
   */
  lemma RunKeepsValid(s: WorkerState, get: nat -> Result<Header, SampleError>, sample: Header -> Option<SampleError>)
    requires s.Valid() && s.failed == []
    ensures AfterRun(s, get, sample).Valid()
  {
    var stop := CancelPoint(get, sample, s.job.from, s.job.to);
    var errs := Recorded(get, sample, s.job.from, stop);
    RecordedSound(get, sample, s.job.from, stop);
    forall i | 0 <= i < |errs|
      ensures errs[i].err.Other? && s.job.from <= errs[i].height <= s.job.to && errs[i].height < stop
    {
      assert HeightOutcome(get, sample, errs[i].height) == Some(errs[i].err);
    }
    ValidAfterAppend(s, stop, errs);
  }

  /** The state setResult leaves: Curr moves to `curr`, and an error adds `curr` and its entry. */
  function WithResult(s: WorkerState, curr: nat, err: Option<SampleError>): WorkerState {
    match err
    case None => s.(curr := curr)
    case Some(e) => s.(curr := curr, failed := s.failed + [curr], err := s.err + [ErrEntry(curr, e)])
  }

  /**
   * setResult keeps the invariant when it is called as run calls it: with a height of the job above
   * every failed one, and never with a cancellation. This is the per-call view; Run's own proof of
   * the invariant goes through the whole-run function AfterRun and RunKeepsValid instead.
   */
  lemma SetResultKeepsValid(s: WorkerState, curr: nat, err: Option<SampleError>)
    requires s.Valid() && s.job.from <= curr <= s.job.to && err != Some(Canceled)
    requires forall i :: 0 <= i < |s.failed| ==> s.failed[i] < curr
    ensures WithResult(s, curr, err).Valid()
  {
    if err.Some? {
      var s' := WithResult(s, curr, err);
      assert s'.failed == Heights(s'.err) by { HeightsAppend(s.err, [ErrEntry(curr, err.value)]); }
    }
  }

  class Worker {
    var state: WorkerState

    /** newWorker: the job, Curr at its first height, no failures and no error. */
    constructor (j: Job)
      ensures state == WorkerState(j, j.from, [], [])
      ensures state.Valid()
    {
      state := WorkerState(j, j.from, [], []);
    }

    /**
     * setResult: always moves Curr to `curr`; an error appends `curr` to failed and exactly one
     * entry to the error chain, and no error leaves both unchanged.
     */
    method SetResult(curr: nat, err: Option<SampleError>)
      modifies this
      ensures state == WithResult(old(state), curr, err)
    {
      if err.Some? {
        state := state.(failed := state.failed + [curr], err := state.err + [ErrEntry(curr, err.value)]);
      }
      state := state.(curr := curr);
    }

    /** getState: a copy of the current state. */
    method GetState() returns (s: WorkerState)
      ensures s == state
    {
      s := state;
    }

    /**
     * run: visits From, From+1, ... up to To, stopping before the first height whose outcome is a
     * cancellation; records every other failed height; Curr ends at the last height processed.
     * The result reports the job, the failed heights and the error chain.
     */
    method Run(get: nat -> Result<Header, SampleError>, sample: Header -> Option<SampleError>) returns (res: JobResult)
      requires state.job.to < MaxUint64
      modifies this
      ensures state == AfterRun(old(state), get, sample)
      ensures res == JobResult(state.job, state.failed, state.err)
      ensures old(state.Valid()) && old(state.failed) == [] ==> state.Valid()
    {
      ghost var from := state.job.from;
      ghost var stop := CancelPoint(get, sample, from, state.job.to);
      var curr := state.job.from;
      while curr <= state.job.to
        invariant state.job == old(state.job)
        invariant from <= curr <= stop
        invariant CancelPoint(get, sample, curr, state.job.to) == stop
        invariant state.err == old(state.err) + Recorded(get, sample, from, curr)
        invariant state.failed == old(state.failed) + Heights(Recorded(get, sample, from, curr))
        invariant state.curr == if curr > from then curr - 1 else old(state.curr)
        decreases state.job.to + 1 - curr
      {
        var header := get(curr);
        var err := if header.Ok? then sample(header.value) else Some(header.error);
        assert err == HeightOutcome(get, sample, curr);
        if err == Some(Canceled) {
          break;
        }
        SetResult(curr, err);
        RecordedStep(get, sample, from, curr);
        HeightsAppend(Recorded(get, sample, from, curr), if err.Some? then [ErrEntry(curr, err.value)] else []);
        curr := curr + 1;
      }
      assert curr == stop;
      if old(state.Valid()) && old(state.failed) == [] {
        RunKeepsValid(old(state), get, sample);
      }
      res := JobResult(state.job, state.failed, state.err);
    }
  }
}
