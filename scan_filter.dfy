/**
  Reference definition of the per-sample filter and rate limiter that both
  loggers run over every grabbed batch, and the properties it guarantees.

  The state carried across samples and batches is the 360-entry
  points-per-degree counter array, the decimation flag, the angle of the
  previous sample and the scan counter. The two variants differ in one
  place only: the data logger also increments the scan counter when the
  angle regresses (countWraps), the visual logger does not.
 */
module ScanFilter {
  import opened LidarTypes

  datatype FilterState = FilterState(counts: seq<int>, skipNext: bool, lastQ14: int, scanCount: int)

  /** State and the records emitted so far. */
  datatype Progress = Progress(state: FilterState, records: seq<Record>)

  /** Every counter lies in [0, MAX_POINTS_PER_DEGREE]. */
  predicate CountsValid(counts: seq<int>)
  {
    |counts| == BARCOUNT && forall d :: 0 <= d < |counts| ==> 0 <= counts[d] <= MAX_POINTS_PER_DEGREE
  }

  function Zeros(): (z: seq<int>)
    ensures |z| == BARCOUNT && forall d :: 0 <= d < BARCOUNT ==> z[d] == 0
  {
    seq(BARCOUNT, _ => 0)
  }

  /** State before the first batch: counters zero, no skip, previous angle 0, scan count 0. */
  function Initial(): (st: FilterState)
    ensures CountsValid(st.counts)
  {
    FilterState(Zeros(), false, 0, 0)
  }

  /** The acceptance decision for one sample. */
  predicate Accepts(st: FilterState, s: Sample)
    requires |st.counts| == BARCOUNT
  {
    var d := Degree(s.angleQ14);
    s.distQ2 > 0 && !st.skipNext && 0 <= d < BARCOUNT && st.counts[d] < MAX_POINTS_PER_DEGREE
  }

  /** The record written for sample s when it is accepted, stamped with the current scan count. */
  function RecordOf(st: FilterState, s: Sample, now: int): Record
  {
    Record(now, s.angleQ14, s.distQ2, s.quality, st.scanCount)
  }

  /**
    One sample: decide and count, flip the decimation flag, then reset all
    counters if the angle went backwards, and remember the angle. The reset
    comes after the decision, so a regressing sample that was accepted loses
    its increment.
   */
  function Step(st: FilterState, s: Sample, now: int, countWraps: bool): (p: Progress)
    requires |st.counts| == BARCOUNT
    ensures CountsValid(st.counts) ==> CountsValid(p.state.counts)
    ensures |p.state.counts| == BARCOUNT
    ensures p.state.skipNext == !st.skipNext
    ensures p.state.lastQ14 == s.angleQ14
    ensures p.records == if Accepts(st, s) then [RecordOf(st, s, now)] else []
    // a regression clears every counter and, in the data logger, counts one more scan
    ensures s.angleQ14 < st.lastQ14 ==> p.state.counts == Zeros()
    ensures p.state.scanCount == st.scanCount + (if countWraps && s.angleQ14 < st.lastQ14 then 1 else 0)
    // otherwise only the counter of the accepted sample's own degree moves, by one
    ensures s.angleQ14 >= st.lastQ14 ==>
      forall d :: 0 <= d < BARCOUNT ==>
        p.state.counts[d] == st.counts[d] + (if Accepts(st, s) && d == Degree(s.angleQ14) then 1 else 0)
  {
    var d := Degree(s.angleQ14);
    var accept := Accepts(st, s);
    var counted := if accept then st.counts[d := st.counts[d] + 1] else st.counts;
    var wrapped := s.angleQ14 < st.lastQ14;
    Progress(
      FilterState(
        if wrapped then Zeros() else counted,
        !st.skipNext,
        s.angleQ14,
        if wrapped && countWraps then st.scanCount + 1 else st.scanCount),
      if accept then [RecordOf(st, s, now)] else [])
  }

  /** The angle the next sample is compared with after processing samples. */
  function LastAngle(last: int, samples: seq<Sample>): int
  {
    if samples == [] then last else samples[|samples| - 1].angleQ14
  }

  /** Number of samples whose angle is below the angle before it. */
  function Regressions(last: int, samples: seq<Sample>): (n: nat)
    ensures n <= |samples|
  {
    if samples == [] then 0
    else
      var k := |samples| - 1;
      Regressions(last, samples[..k]) + (if samples[k].angleQ14 < LastAngle(last, samples[..k]) then 1 else 0)
  }

  /** No sample's angle is below the angle before it. */
  predicate NoRegression(last: int, samples: seq<Sample>)
  {
    Regressions(last, samples) == 0
  }

  function Odd(n: nat): bool
  {
    n % 2 == 1
  }

  /** The samples of one batch in order, from state st. */
  function Run(st: FilterState, samples: seq<Sample>, clock: seq<int>, countWraps: bool): (p: Progress)
    requires |st.counts| == BARCOUNT && |clock| == |samples|
    ensures |p.state.counts| == BARCOUNT
    ensures CountsValid(st.counts) ==> CountsValid(p.state.counts)
    ensures p.state.skipNext == (st.skipNext != Odd(|samples|))
    ensures p.state.lastQ14 == LastAngle(st.lastQ14, samples)
    ensures p.state.scanCount == st.scanCount + (if countWraps then Regressions(st.lastQ14, samples) else 0)
    ensures |p.records| <= |samples|
    decreases |samples|
  {
    if samples == [] then Progress(st, [])
    else
      var k := |samples| - 1;
      var before := Run(st, samples[..k], clock[..k], countWraps);
      var after := Step(before.state, samples[k], clock[k], countWraps);
      Progress(after.state, before.records + after.records)
  }

  /** One successful grab: the scan counter goes up by one, then the samples run. */
  function Batch(st: FilterState, samples: seq<Sample>, clock: seq<int>, countWraps: bool): (p: Progress)
    requires |st.counts| == BARCOUNT && |clock| == |samples|
    ensures |p.state.counts| == BARCOUNT
    ensures CountsValid(st.counts) ==> CountsValid(p.state.counts)
    ensures p.state.scanCount == st.scanCount + 1 + (if countWraps then Regressions(st.lastQ14, samples) else 0)
  {
    Run(st.(scanCount := st.scanCount + 1), samples, clock, countWraps)
  }

  predicate CyclesValid(cycles: seq<Cycle>)
  {
    forall i :: 0 <= i < |cycles| ==> PollValid(cycles[i].poll)
  }

  /** Successful grabs among the cycles. */
  function Grabs(cycles: seq<Cycle>): (n: nat)
    ensures n <= |cycles|
  {
    if cycles == [] then 0
    else Grabs(cycles[..|cycles| - 1]) + (if cycles[|cycles| - 1].poll.Grabbed? then 1 else 0)
  }

  /** The samples of the successful grabs among the cycles, in the order they are examined. */
  function SessionSamples(cycles: seq<Cycle>): seq<Sample>
  {
    if cycles == [] then []
    else
      var k := |cycles| - 1;
      SessionSamples(cycles[..k]) + (if cycles[k].poll.Grabbed? then cycles[k].poll.samples else [])
  }

  /** One poll: a failed grab changes nothing, a successful one runs its batch. */
  function AfterPoll(st: FilterState, p: Poll, countWraps: bool): (r: Progress)
    requires |st.counts| == BARCOUNT && PollValid(p)
    ensures |r.state.counts| == BARCOUNT
    ensures CountsValid(st.counts) ==> CountsValid(r.state.counts)
    ensures r.state.scanCount == st.scanCount + (if p.Grabbed? then 1 else 0) +
      (if countWraps && p.Grabbed? then Regressions(st.lastQ14, p.samples) else 0)
  {
    match p
    case Failed => Progress(st, [])
    case Grabbed(samples, clock) => Batch(st, samples, clock, countWraps)
  }

  /** A sequence of loop iterations, one poll each. */
  function Session(st: FilterState, cycles: seq<Cycle>, countWraps: bool): (p: Progress)
    requires |st.counts| == BARCOUNT && CyclesValid(cycles)
    ensures |p.state.counts| == BARCOUNT
    ensures CountsValid(st.counts) ==> CountsValid(p.state.counts)
    ensures !countWraps ==> p.state.scanCount == st.scanCount + Grabs(cycles)
    ensures countWraps ==> p.state.scanCount >= st.scanCount + Grabs(cycles)
    decreases |cycles|
  {
    if cycles == [] then Progress(st, [])
    else
      var k := |cycles| - 1;
      var before := Session(st, cycles[..k], countWraps);
      var after := AfterPoll(before.state, cycles[k].poll, countWraps);
      Progress(after.state, before.records + after.records)
  }

  /** Extending the processed prefix of a session by one loop iteration. */
  lemma SessionPrefixStep(st: FilterState, cycles: seq<Cycle>, i: nat, countWraps: bool)
    requires |st.counts| == BARCOUNT && CyclesValid(cycles) && i < |cycles|
    ensures CyclesValid(cycles[..i]) && CyclesValid(cycles[..i + 1]) && PollValid(cycles[i].poll)
    ensures var before := Session(st, cycles[..i], countWraps);
            var after := AfterPoll(before.state, cycles[i].poll, countWraps);
            Session(st, cycles[..i + 1], countWraps) == Progress(after.state, before.records + after.records)
  {
    assert cycles[..i + 1][..i] == cycles[..i];
  }

  /** Records whose angle falls in degree d. */
  function CountDegree(records: seq<Record>, d: int): (n: nat)
    ensures n <= |records|
  {
    if records == [] then 0
    else
      var k := |records| - 1;
      CountDegree(records[..k], d) + (if Degree(records[k].angleQ14) == d then 1 else 0)
  }

  lemma {:induction false} CountDegreeAppend(a: seq<Record>, b: seq<Record>, d: int)
    ensures CountDegree(a + b, d) == CountDegree(a, d) + CountDegree(b, d)
    decreases |b|
  {
    if b == [] {
      assert a + b == a;
    } else {
      var k := |b| - 1;
      assert (a + b)[..|a + b| - 1] == a + b[..k];
      CountDegreeAppend(a, b[..k], d);
    }
  }

  lemma {:induction false} RegressionsAppend(last: int, a: seq<Sample>, b: seq<Sample>)
    ensures Regressions(last, a + b) == Regressions(last, a) + Regressions(LastAngle(last, a), b)
    decreases |b|
  {
    if b == [] {
      assert a + b == a;
    } else {
      var k := |b| - 1;
      assert (a + b)[..|a + b| - 1] == a + b[..k];
      RegressionsAppend(last, a, b[..k]);
      assert LastAngle(last, a + b[..k]) == LastAngle(LastAngle(last, a), b[..k]);
    }
  }

  lemma AppendAssoc<T>(x: seq<T>, y: seq<T>, z: seq<T>)
    ensures x + y + z == x + (y + z)
  {
  }

  /** Unfolding Run once at the end of its samples. */
  lemma RunSnoc(st: FilterState, samples: seq<Sample>, clock: seq<int>, x: Sample, t: int, countWraps: bool)
    requires |st.counts| == BARCOUNT && |clock| == |samples|
    ensures var before := Run(st, samples, clock, countWraps);
            var last := Step(before.state, x, t, countWraps);
            Run(st, samples + [x], clock + [t], countWraps) == Progress(last.state, before.records + last.records)
  {
    assert (samples + [x])[..|samples|] == samples;
    assert (clock + [t])[..|clock|] == clock;
  }

  /** Extending the processed prefix of a batch by one sample is one more Step. */
  lemma RunPrefixStep(st: FilterState, samples: seq<Sample>, clock: seq<int>, pos: nat, countWraps: bool)
    requires |st.counts| == BARCOUNT && |clock| == |samples| && pos < |samples|
    ensures var before := Run(st, samples[..pos], clock[..pos], countWraps);
            var last := Step(before.state, samples[pos], clock[pos], countWraps);
            Run(st, samples[..pos + 1], clock[..pos + 1], countWraps) == Progress(last.state, before.records + last.records)
  {
    assert samples[..pos + 1] == samples[..pos] + [samples[pos]];
    assert clock[..pos + 1] == clock[..pos] + [clock[pos]];
    RunSnoc(st, samples[..pos], clock[..pos], samples[pos], clock[pos], countWraps);
  }

  /** Running two pieces one after the other is running their concatenation. */
  lemma {:induction false} RunAppend(st: FilterState, a: seq<Sample>, ca: seq<int>, b: seq<Sample>, cb: seq<int>, countWraps: bool)
    requires |st.counts| == BARCOUNT && |ca| == |a| && |cb| == |b|
    ensures var pa := Run(st, a, ca, countWraps);
            var pb := Run(pa.state, b, cb, countWraps);
            Run(st, a + b, ca + cb, countWraps) == Progress(pb.state, pa.records + pb.records)
    decreases |b|
  {
    if b == [] {
      assert a + b == a && ca + cb == ca;
    } else {
      var k := |b| - 1;
      RunAppend(st, a, ca, b[..k], cb[..k], countWraps);
      RunAppendStep(st, a, ca, b, cb, countWraps);
    }
  }

  /** A non-empty sequence, alone or after another, is its prefix followed by its last element. */
  lemma SplitLast<T>(a: seq<T>, b: seq<T>)
    requires b != []
    ensures b == b[..|b| - 1] + [b[|b| - 1]]
    ensures a + b == (a + b[..|b| - 1]) + [b[|b| - 1]]
  {
    assert b == b[..|b| - 1] + [b[|b| - 1]];
  }

  /** The inductive step of RunAppend: one more sample at the end of the second piece. */
  lemma RunAppendStep(st: FilterState, a: seq<Sample>, ca: seq<int>, b: seq<Sample>, cb: seq<int>, countWraps: bool)
    requires |st.counts| == BARCOUNT && |ca| == |a| && |cb| == |b| && b != []
    requires var pa := Run(st, a, ca, countWraps);
             var pb := Run(pa.state, b[..|b| - 1], cb[..|b| - 1], countWraps);
             Run(st, a + b[..|b| - 1], ca + cb[..|b| - 1], countWraps) == Progress(pb.state, pa.records + pb.records)
    ensures var pa := Run(st, a, ca, countWraps);
            var pb := Run(pa.state, b, cb, countWraps);
            Run(st, a + b, ca + cb, countWraps) == Progress(pb.state, pa.records + pb.records)
  {
    var pa := Run(st, a, ca, countWraps);
    var k := |b| - 1;
    var b', cb', x, t := b[..k], cb[..k], b[k], cb[k];
    SplitLast(a, b);
    SplitLast(ca, cb);
    RunSnoc(st, a + b', ca + cb', x, t, countWraps);
    RunSnoc(pa.state, b', cb', x, t, countWraps);
    var pb := Run(pa.state, b', cb', countWraps);
    var last := Step(pb.state, x, t, countWraps);
    AppendAssoc(pa.records, pb.records, last.records);
  }


  /** Every record comes from a sample of the batch with positive distance and an in-range degree, and carries that sample's clock value. */
  lemma {:induction false} RecordsComeFromSamples(st: FilterState, samples: seq<Sample>, clock: seq<int>, countWraps: bool)
    requires |st.counts| == BARCOUNT && |clock| == |samples|
    ensures forall r :: r in Run(st, samples, clock, countWraps).records ==>
      r.distQ2 > 0 && 0 <= Degree(r.angleQ14) < BARCOUNT &&
      exists i :: 0 <= i < |samples| && samples[i] == Sample(r.angleQ14, r.distQ2, r.quality) && clock[i] == r.timestamp
    decreases |samples|
  {
    if samples != [] {
      var k := |samples| - 1;
      RecordsComeFromSamples(st, samples[..k], clock[..k], countWraps);
      var before := Run(st, samples[..k], clock[..k], countWraps);
      forall r | r in Run(st, samples, clock, countWraps).records
        ensures r.distQ2 > 0 && 0 <= Degree(r.angleQ14) < BARCOUNT &&
          exists i :: 0 <= i < |samples| && samples[i] == Sample(r.angleQ14, r.distQ2, r.quality) && clock[i] == r.timestamp
      {
        if r in before.records {
          var i :| 0 <= i < k && samples[..k][i] == Sample(r.angleQ14, r.distQ2, r.quality) && clock[..k][i] == r.timestamp;
          assert samples[i] == samples[..k][i];
        } else {
          assert samples[k] == Sample(r.angleQ14, r.distQ2, r.quality) && clock[k] == r.timestamp;
        }
      }
    }
  }

  /**
    Decimation: of N consecutive samples at most ceil(N/2) can be accepted,
    and at most floor(N/2) when the first of them is skipped.
   */
  lemma {:induction false} DecimationBound(st: FilterState, samples: seq<Sample>, clock: seq<int>, countWraps: bool)
    requires |st.counts| == BARCOUNT && |clock| == |samples|
    ensures |Run(st, samples, clock, countWraps).records| <= (|samples| + (if st.skipNext then 0 else 1)) / 2
    decreases |samples|
  {
    if samples != [] {
      var k := |samples| - 1;
      DecimationBound(st, samples[..k], clock[..k], countWraps);
      var before := Run(st, samples[..k], clock[..k], countWraps);
      if Accepts(before.state, samples[k]) {
        assert before.state.skipNext == false;
        assert st.skipNext == Odd(k);
      }
    }
  }

  /**
    Without an angle regression every counter grows by exactly the number
    of records written for its degree.
   */
  lemma {:induction false} CountsTrackRecords(st: FilterState, samples: seq<Sample>, clock: seq<int>, countWraps: bool)
    requires |st.counts| == BARCOUNT && |clock| == |samples|
    requires NoRegression(st.lastQ14, samples)
    ensures var p := Run(st, samples, clock, countWraps);
            forall d :: 0 <= d < BARCOUNT ==> p.state.counts[d] == st.counts[d] + CountDegree(p.records, d)
    decreases |samples|
  {
    if samples != [] {
      var k := |samples| - 1;
      CountsTrackRecords(st, samples[..k], clock[..k], countWraps);
      var before := Run(st, samples[..k], clock[..k], countWraps);
      var last := Step(before.state, samples[k], clock[k], countWraps);
      assert Run(st, samples, clock, countWraps) == Progress(last.state, before.records + last.records);
      forall d | 0 <= d < BARCOUNT
        ensures last.state.counts[d] == st.counts[d] + CountDegree(before.records + last.records, d)
      {
        CountDegreeAppend(before.records, last.records, d);
        if last.records != [] {
          assert last.records[..0] == [];
        }
      }
    }
  }

  /**
    The per-degree cap: from a valid state, over samples whose angles do not
    go backwards except possibly at the very last one, at most
    MAX_POINTS_PER_DEGREE - counts[d] records are written for degree d.
   */
  lemma {:induction false} RevolutionCap(st: FilterState, samples: seq<Sample>, clock: seq<int>, countWraps: bool, d: int)
    requires CountsValid(st.counts) && |clock| == |samples| && 0 <= d < BARCOUNT
    requires samples == [] || NoRegression(st.lastQ14, samples[..|samples| - 1])
    ensures CountDegree(Run(st, samples, clock, countWraps).records, d) <= MAX_POINTS_PER_DEGREE - st.counts[d]
  {
    if samples != [] {
      var k := |samples| - 1;
      CountsTrackRecords(st, samples[..k], clock[..k], countWraps);
      var before := Run(st, samples[..k], clock[..k], countWraps);
      var last := Step(before.state, samples[k], clock[k], countWraps);
      CountDegreeAppend(before.records, last.records, d);
      CapStep(before.state, samples[k], clock[k], countWraps, d);
      assert Run(st, samples, clock, countWraps).records == before.records + last.records;
    }
  }

  /** The last sample of a revolution adds a record for degree d only while its counter is below the cap. */
  lemma CapStep(st: FilterState, s: Sample, now: int, countWraps: bool, d: int)
    requires CountsValid(st.counts) && 0 <= d < BARCOUNT
    ensures st.counts[d] + CountDegree(Step(st, s, now, countWraps).records, d) <= MAX_POINTS_PER_DEGREE
  {
    var r := Step(st, s, now, countWraps).records;
    if r != [] {
      assert r[..0] == [];
    }
  }

  /** When the last of some samples goes backwards, every counter is zero afterwards. */
  lemma RegressionClearsCounts(st: FilterState, samples: seq<Sample>, clock: seq<int>, countWraps: bool)
    requires |st.counts| == BARCOUNT && |clock| == |samples| && samples != []
    requires samples[|samples| - 1].angleQ14 < LastAngle(st.lastQ14, samples[..|samples| - 1])
    ensures Run(st, samples, clock, countWraps).state.counts == Zeros()
  {
    var k := |samples| - 1;
    var before := Run(st, samples[..k], clock[..k], countWraps);
    assert before.state.lastQ14 == LastAngle(st.lastQ14, samples[..k]);
  }

  /**
    Across grabs, without an angle regression every counter grows by exactly
    the number of records written for its degree: a grab changes only the
    scan count before its samples run.
   */
  lemma {:induction false} SessionCountsTrack(st: FilterState, cycles: seq<Cycle>, countWraps: bool)
    requires |st.counts| == BARCOUNT && CyclesValid(cycles)
    requires NoRegression(st.lastQ14, SessionSamples(cycles))
    ensures var p := Session(st, cycles, countWraps);
            p.state.lastQ14 == LastAngle(st.lastQ14, SessionSamples(cycles)) &&
            forall d :: 0 <= d < BARCOUNT ==> p.state.counts[d] == st.counts[d] + CountDegree(p.records, d)
    decreases |cycles|
  {
    if cycles != [] {
      var k := |cycles| - 1;
      var prev := SessionSamples(cycles[..k]);
      var before := Session(st, cycles[..k], countWraps);
      match cycles[k].poll
      case Failed =>
        assert SessionSamples(cycles) == prev + [] == prev;
        SessionCountsTrack(st, cycles[..k], countWraps);
        assert Session(st, cycles, countWraps) == Progress(before.state, before.records + []);
        assert before.records + [] == before.records;
      case Grabbed(samples, clock) =>
        assert SessionSamples(cycles) == prev + samples;
        RegressionsAppend(st.lastQ14, prev, samples);
        SessionCountsTrack(st, cycles[..k], countWraps);
        var mid := before.state.(scanCount := before.state.scanCount + 1);
        CountsTrackRecords(mid, samples, clock, countWraps);
        var after := Run(mid, samples, clock, countWraps);
        assert Session(st, cycles, countWraps) == Progress(after.state, before.records + after.records);
        if samples == [] {
          assert prev + samples == prev;
        }
        forall d | 0 <= d < BARCOUNT
          ensures after.state.counts[d] == st.counts[d] + CountDegree(before.records + after.records, d)
        {
          CountDegreeAppend(before.records, after.records, d);
        }
    }
  }

  /** A poll that delivers no samples writes nothing. */
  lemma PollWithoutSamples(st: FilterState, p: Poll, countWraps: bool)
    requires |st.counts| == BARCOUNT && PollValid(p) && (p.Grabbed? ==> p.samples == [])
    ensures AfterPoll(st, p, countWraps).records == []
  {
  }

  /** A session whose grabs delivered no samples writes nothing. */
  lemma {:induction false} SessionWithoutSamples(st: FilterState, cycles: seq<Cycle>, countWraps: bool)
    requires |st.counts| == BARCOUNT && CyclesValid(cycles) && SessionSamples(cycles) == []
    ensures Session(st, cycles, countWraps).records == []
    decreases |cycles|
  {
    if cycles != [] {
      var k := |cycles| - 1;
      var prev := SessionSamples(cycles[..k]);
      var b := if cycles[k].poll.Grabbed? then cycles[k].poll.samples else [];
      assert |prev + b| == |prev| + |b| == 0;
      SessionWithoutSamples(st, cycles[..k], countWraps);
      PollWithoutSamples(Session(st, cycles[..k], countWraps).state, cycles[k].poll, countWraps);
    }
  }

  /** No regression before the last of a + b means none in a, and none in b before its last. */
  lemma NoRegressionSplit(last: int, a: seq<Sample>, b: seq<Sample>)
    requires b != [] && NoRegression(last, (a + b)[..|a + b| - 1])
    ensures NoRegression(last, a) && NoRegression(LastAngle(last, a), b[..|b| - 1])
  {
    assert (a + b)[..|a + b| - 1] == a + b[..|b| - 1];
    RegressionsAppend(last, a, b[..|b| - 1]);
  }

  /** The per-degree cap over the samples of one poll. */
  lemma PollCap(st: FilterState, p: Poll, countWraps: bool, d: int)
    requires CountsValid(st.counts) && PollValid(p) && 0 <= d < BARCOUNT
    requires p.Grabbed? && p.samples != [] ==> NoRegression(st.lastQ14, p.samples[..|p.samples| - 1])
    ensures CountDegree(AfterPoll(st, p, countWraps).records, d) <= MAX_POINTS_PER_DEGREE - st.counts[d]
  {
    if p.Grabbed? {
      RevolutionCap(st.(scanCount := st.scanCount + 1), p.samples, p.clock, countWraps, d);
    }
  }

  /**
    The per-degree cap across grabs: from a valid state, the rest b of the
    current batch followed by the later loop iterations, with no angle going
    backwards except possibly the very last, write at most
    MAX_POINTS_PER_DEGREE - counts[d] records for degree d.
   */
  lemma SessionRevolutionCap(st: FilterState, b: seq<Sample>, cb: seq<int>, cycles: seq<Cycle>, countWraps: bool, d: int)
    requires CountsValid(st.counts) && |cb| == |b| && CyclesValid(cycles) && 0 <= d < BARCOUNT
    requires var rest := b + SessionSamples(cycles); rest == [] || NoRegression(st.lastQ14, rest[..|rest| - 1])
    ensures var pb := Run(st, b, cb, countWraps);
            CountDegree(pb.records + Session(pb.state, cycles, countWraps).records, d) <= MAX_POINTS_PER_DEGREE - st.counts[d]
  {
    if SessionSamples(cycles) == [] {
      assert b + SessionSamples(cycles) == b;
      CapWithinBatch(st, b, cb, cycles, countWraps, d);
    } else {
      CapAcrossGrabs(st, b, cb, cycles, countWraps, d);
    }
  }

  /** SessionRevolutionCap when the later iterations grab no samples: only the rest of the batch writes. */
  lemma CapWithinBatch(st: FilterState, b: seq<Sample>, cb: seq<int>, cycles: seq<Cycle>, countWraps: bool, d: int)
    requires CountsValid(st.counts) && |cb| == |b| && CyclesValid(cycles) && 0 <= d < BARCOUNT
    requires SessionSamples(cycles) == [] && (b == [] || NoRegression(st.lastQ14, b[..|b| - 1]))
    ensures var pb := Run(st, b, cb, countWraps);
            CountDegree(pb.records + Session(pb.state, cycles, countWraps).records, d) <= MAX_POINTS_PER_DEGREE - st.counts[d]
  {
    var pb := Run(st, b, cb, countWraps);
    SessionWithoutSamples(pb.state, cycles, countWraps);
    assert pb.records + Session(pb.state, cycles, countWraps).records == pb.records;
    RevolutionCap(st, b, cb, countWraps, d);
  }

  /** SessionRevolutionCap when later iterations grab samples: the rest of the batch is regression-free and counted. */
  lemma CapAcrossGrabs(st: FilterState, b: seq<Sample>, cb: seq<int>, cycles: seq<Cycle>, countWraps: bool, d: int)
    requires CountsValid(st.counts) && |cb| == |b| && CyclesValid(cycles) && 0 <= d < BARCOUNT
    requires var later := SessionSamples(cycles); later != [] && NoRegression(st.lastQ14, (b + later)[..|b + later| - 1])
    ensures var pb := Run(st, b, cb, countWraps);
            CountDegree(pb.records + Session(pb.state, cycles, countWraps).records, d) <= MAX_POINTS_PER_DEGREE - st.counts[d]
  {
    var pb := Run(st, b, cb, countWraps);
    var ps := Session(pb.state, cycles, countWraps);
    CountDegreeAppend(pb.records, ps.records, d);
    NoRegressionSplit(st.lastQ14, b, SessionSamples(cycles));
    CountsTrackRecords(st, b, cb, countWraps);
    SessionRevolutionCapFrom(pb.state, cycles, countWraps, d);
  }

  /** SessionRevolutionCap with no partial batch in front: the induction over loop iterations. */
  lemma {:induction false} SessionRevolutionCapFrom(st: FilterState, cycles: seq<Cycle>, countWraps: bool, d: int)
    requires CountsValid(st.counts) && CyclesValid(cycles) && 0 <= d < BARCOUNT
    requires var all := SessionSamples(cycles); all == [] || NoRegression(st.lastQ14, all[..|all| - 1])
    ensures CountDegree(Session(st, cycles, countWraps).records, d) <= MAX_POINTS_PER_DEGREE - st.counts[d]
    decreases |cycles|
  {
    if cycles != [] {
      var k := |cycles| - 1;
      var p := cycles[k].poll;
      if p.Grabbed? && p.samples != [] {
        CapAfterGrab(st, cycles, countWraps, d);
      } else {
        var prev := SessionSamples(cycles[..k]);
        assert SessionSamples(cycles) == prev + [] == prev;
        SessionRevolutionCapFrom(st, cycles[..k], countWraps, d);
        var before := Session(st, cycles[..k], countWraps);
        PollWithoutSamples(before.state, p, countWraps);
        assert Session(st, cycles, countWraps).records == before.records + [] == before.records;
      }
    }
  }

  /**
    The step of SessionRevolutionCapFrom at a grab that delivered samples:
    nothing before them went backwards, so the counters account for every
    earlier record and the grab adds at most what is left under the cap.
   */
  lemma CapAfterGrab(st: FilterState, cycles: seq<Cycle>, countWraps: bool, d: int)
    requires CountsValid(st.counts) && CyclesValid(cycles) && 0 <= d < BARCOUNT
    requires cycles != [] && cycles[|cycles| - 1].poll.Grabbed? && cycles[|cycles| - 1].poll.samples != []
    requires var all := SessionSamples(cycles); NoRegression(st.lastQ14, all[..|all| - 1])
    ensures CountDegree(Session(st, cycles, countWraps).records, d) <= MAX_POINTS_PER_DEGREE - st.counts[d]
  {
    var k := |cycles| - 1;
    var p := cycles[k].poll;
    var prev := SessionSamples(cycles[..k]);
    assert SessionSamples(cycles) == prev + p.samples;
    NoRegressionSplit(st.lastQ14, prev, p.samples);
    SessionCountsTrack(st, cycles[..k], countWraps);
    var before := Session(st, cycles[..k], countWraps);
    PollCap(before.state, p, countWraps, d);
    var after := AfterPoll(before.state, p, countWraps);
    assert Session(st, cycles, countWraps).records == before.records + after.records;
    CountDegreeAppend(before.records, after.records, d);
  }

  /**
    One revolution: after the sample at which a regression is detected (the
    last of a), the rest b of that batch and the later loop iterations, up
    to and including the next regressing sample, yield at most
    MAX_POINTS_PER_DEGREE records per degree, however many grabs the
    revolution spans.
   */
  lemma RevolutionAfterReset(st: FilterState, a: seq<Sample>, ca: seq<int>, b: seq<Sample>, cb: seq<int>,
                             cycles: seq<Cycle>, countWraps: bool, d: int)
    requires |st.counts| == BARCOUNT && |ca| == |a| && |cb| == |b| && CyclesValid(cycles) && 0 <= d < BARCOUNT
    requires a != [] && a[|a| - 1].angleQ14 < LastAngle(st.lastQ14, a[..|a| - 1])
    requires var rest := b + SessionSamples(cycles);
             rest == [] || NoRegression(LastAngle(st.lastQ14, a), rest[..|rest| - 1])
    ensures var pa := Run(st, a, ca, countWraps);
            var pb := Run(pa.state, b, cb, countWraps);
            CountDegree(pb.records + Session(pb.state, cycles, countWraps).records, d) <= MAX_POINTS_PER_DEGREE
  {
    RegressionClearsCounts(st, a, ca, countWraps);
    var pa := Run(st, a, ca, countWraps);
    SessionRevolutionCap(pa.state, b, cb, cycles, countWraps, d);
  }

  /** n copies of x. */
  function Repeat<T>(x: T, n: nat): (r: seq<T>)
    ensures |r| == n && forall i :: 0 <= i < n ==> r[i] == x
  {
    seq(n, _ => x)
  }

  /** One pair of samples at a non-decreasing angle from an undecimated state: the first is written, the second decimated. */
  lemma PairStep(st: FilterState, s: Sample, t: int, countWraps: bool)
    requires |st.counts| == BARCOUNT && !st.skipNext && st.lastQ14 <= s.angleQ14 && s.distQ2 > 0
    requires st.counts[Degree(s.angleQ14)] < MAX_POINTS_PER_DEGREE
    ensures var p := Run(st, [s, s], [t, t], countWraps);
            p.records == [RecordOf(st, s, t)] && !p.state.skipNext && p.state.lastQ14 == s.angleQ14 &&
            p.state.counts[Degree(s.angleQ14)] == st.counts[Degree(s.angleQ14)] + 1
  {
    assert [s, s] == [] + [s] + [s] && [t, t] == [] + [t] + [t];
    RunSnoc(st, [], [], s, t, countWraps);
    RunSnoc(st, [s], [t], s, t, countWraps);
    var one := Step(st, s, t, countWraps);
    var two := Step(one.state, s, t, countWraps);
    assert one.records == [RecordOf(st, s, t)];
    assert two.records == [];
  }

  /**
    n such pairs: n records for the degree, as long as its counter stays
    under the cap.
   */
  lemma {:induction false} PairsRun(st: FilterState, s: Sample, t: int, n: nat, countWraps: bool)
    requires |st.counts| == BARCOUNT && !st.skipNext && st.lastQ14 <= s.angleQ14 && s.distQ2 > 0
    requires st.counts[Degree(s.angleQ14)] + n <= MAX_POINTS_PER_DEGREE
    ensures PairsRan(st, s, t, n, countWraps)
    decreases n
  {
    if n == 0 {
      assert Repeat(s, 0) == [] && Repeat(t, 0) == [];
    } else {
      PairsRun(st, s, t, n - 1, countWraps);
      PairsExtend(st, s, t, n, countWraps);
    }
  }

  /** What n pairs of s from st produce: n records for its degree, the counter up by n, no decimation pending. */
  predicate PairsRan(st: FilterState, s: Sample, t: int, n: nat, countWraps: bool)
    requires |st.counts| == BARCOUNT
  {
    var p := Run(st, Repeat(s, 2 * n), Repeat(t, 2 * n), countWraps);
    CountDegree(p.records, Degree(s.angleQ14)) == n && !p.state.skipNext &&
    p.state.counts[Degree(s.angleQ14)] == st.counts[Degree(s.angleQ14)] + n &&
    p.state.lastQ14 == (if n == 0 then st.lastQ14 else s.angleQ14)
  }

  /** The inductive step of PairsRun: one more pair after n - 1. */
  lemma PairsExtend(st: FilterState, s: Sample, t: int, n: nat, countWraps: bool)
    requires |st.counts| == BARCOUNT && !st.skipNext && st.lastQ14 <= s.angleQ14 && s.distQ2 > 0
    requires 0 < n && st.counts[Degree(s.angleQ14)] + n <= MAX_POINTS_PER_DEGREE
    requires PairsRan(st, s, t, n - 1, countWraps)
    ensures PairsRan(st, s, t, n, countWraps)
  {
    var D := Degree(s.angleQ14);
    var xs, cs := Repeat(s, 2 * n), Repeat(t, 2 * n);
    var ys, ds := Repeat(s, 2 * (n - 1)), Repeat(t, 2 * (n - 1));
    assert xs == ys + [s, s];
    assert cs == ds + [t, t];
    var p := Run(st, ys, ds, countWraps);
    RunAppend(st, ys, ds, [s, s], [t, t], countWraps);
    PairStep(p.state, s, t, countWraps);
    var q := Run(p.state, [s, s], [t, t], countWraps);
    assert CountDegree(q.records, D) == 1 by {
      assert q.records[..0] == [];
    }
    CountDegreeAppend(p.records, q.records, D);
  }

  /**
    The reset comes after the acceptance decision, so a regressing sample
    is written against the old counter and its increment is then cleared.
    Counted from that sample, one batch can therefore write
    MAX_POINTS_PER_DEGREE + 1 records for one degree: a sample x that
    regresses and is accepted, a decimated sample s of the same degree, and
    five more pairs of s.
   */
  lemma SixthRecord(st: FilterState, x: Sample, s: Sample, t: int, countWraps: bool)
    requires |st.counts| == BARCOUNT && !st.skipNext && st.counts[Degree(x.angleQ14)] < MAX_POINTS_PER_DEGREE
    requires x.distQ2 > 0 && s.distQ2 > 0 && x.angleQ14 < st.lastQ14 && x.angleQ14 <= s.angleQ14
    requires Degree(s.angleQ14) == Degree(x.angleQ14)
    ensures var p := Run(st, [x, s] + Repeat(s, 10), Repeat(t, 12), countWraps);
            CountDegree(p.records, Degree(x.angleQ14)) == MAX_POINTS_PER_DEGREE + 1
  {
    var D := Degree(x.angleQ14);
    ResetOpening(st, x, s, t, countWraps);
    var head := Run(st, [x, s], [t, t], countWraps);
    assert CountDegree(head.records, D) == 1 by {
      assert head.records[..0] == [];
    }
    assert Repeat(t, 12) == [t, t] + Repeat(t, 10);
    RunAppend(st, [x, s], [t, t], Repeat(s, 10), Repeat(t, 10), countWraps);
    PairsRun(head.state, s, t, 5, countWraps);
    var tail := Run(head.state, Repeat(s, 10), Repeat(t, 10), countWraps);
    assert CountDegree(tail.records, D) == 5;
    assert Run(st, [x, s] + Repeat(s, 10), Repeat(t, 12), countWraps).records == head.records + tail.records;
    CountDegreeAppend(head.records, tail.records, D);
  }

  /** The first two samples of SixthRecord: x is written, every counter is cleared, and s is decimated. */
  lemma ResetOpening(st: FilterState, x: Sample, s: Sample, t: int, countWraps: bool)
    requires |st.counts| == BARCOUNT && !st.skipNext && st.counts[Degree(x.angleQ14)] < MAX_POINTS_PER_DEGREE
    requires x.distQ2 > 0 && x.angleQ14 < st.lastQ14 && x.angleQ14 <= s.angleQ14
    ensures var head := Run(st, [x, s], [t, t], countWraps);
            head.records == [RecordOf(st, x, t)] && head.state.counts[Degree(s.angleQ14)] == 0 &&
            !head.state.skipNext && head.state.lastQ14 == s.angleQ14
  {
    var one := Step(st, x, t, countWraps);
    var two := Step(one.state, s, t, countWraps);
    assert one.records == [RecordOf(st, x, t)] && one.state.counts == Zeros();
    assert two.records == [] && two.state.counts[Degree(s.angleQ14)] == 0;
    assert [x, s] == [] + [x] + [s] && [t, t] == [] + [t] + [t];
    RunSnoc(st, [], [], x, t, countWraps);
    RunSnoc(st, [x], [t], s, t, countWraps);
    assert Run(st, [x, s], [t, t], countWraps).records == [] + one.records + [];
  }

  /** An instance of SixthRecord: six records for degree 0, one more than the cap, in one batch. */
  lemma SixthRecordAtReset(countWraps: bool)
    ensures var st := FilterState(Zeros(), false, 100, 7);
            var x, s := Sample(50, 4000, 47), Sample(60, 4000, 47);
            var p := Run(st, [x, s] + Repeat(s, 10), Repeat(0, 12), countWraps);
            CountDegree(p.records, 0) == MAX_POINTS_PER_DEGREE + 1
  {
    assert Degree(50) == 0 && Degree(60) == 0;
    SixthRecord(FilterState(Zeros(), false, 100, 7), Sample(50, 4000, 47), Sample(60, 4000, 47), 0, countWraps);
  }

  /** In the visual logger the records of SixthRecordAtReset all carry the scan number of their batch. */
  lemma SixthRecordSameScan()
    ensures var p := Run(FilterState(Zeros(), false, 100, 7), [Sample(50, 4000, 47), Sample(60, 4000, 47)] + Repeat(Sample(60, 4000, 47), 10), Repeat(0, 12), false);
            forall r :: r in p.records ==> r.scanNumber == 7
  {
    RunScanNumbers(FilterState(Zeros(), false, 100, 7), [Sample(50, 4000, 47), Sample(60, 4000, 47)] + Repeat(Sample(60, 4000, 47), 10), Repeat(0, 12), false);
  }

  /** The angles 10, 20, 5 and 15 degrees regress exactly once, between 20 and 5. */
  lemma {:induction false} WrapDetectedOnce(samples: seq<Sample>)
    requires samples == [Sample(1821, 4000, 47), Sample(3641, 4000, 47), Sample(911, 4000, 47), Sample(2731, 4000, 47)]
    ensures Regressions(0, samples) == 1
  {
    assert samples[..3][..2] == samples[..2] && samples[..2][..1] == samples[..1] && samples[..1][..0] == [];
    assert Regressions(0, samples[..1]) == 0;
    assert Regressions(0, samples[..2]) == 0;
    assert Regressions(0, samples[..3]) == 1;
    assert samples[..4] == samples;
  }

  /**
    A batch at 10, 20, 5 and 15 degrees from the initial state: the samples
    at 10 and 5 degrees are written with scan number 1 and the other two are
    decimated; the regression at 5 degrees is counted once, and its reset
    leaves every counter at zero, so neither the count for 10 degrees nor the
    one for 5 degrees carries into the next revolution.
   */
  lemma {:induction false} WrapExample(samples: seq<Sample>, clock: seq<int>, countWraps: bool)
    requires samples == [Sample(1821, 4000, 47), Sample(3641, 4000, 47), Sample(911, 4000, 47), Sample(2731, 4000, 47)]
    requires clock == [100, 101, 102, 103]
    ensures var p := Batch(Initial(), samples, clock, countWraps);
            p.records == [Record(100, 1821, 4000, 47, 1), Record(102, 911, 4000, 47, 1)] &&
            p.state.counts == Zeros() && p.state.lastQ14 == 2731 &&
            p.state.scanCount == if countWraps then 2 else 1
  {
    var d := samples[3];
    assert samples == samples[..3] + [d] && clock == clock[..3] + [103];
    WrapDetectedOnce(samples);
    WrapExampleReset(samples, clock, countWraps);
    var st := Initial().(scanCount := 1);
    var p3 := Run(st, samples[..3], clock[..3], countWraps);
    RunSnoc(st, samples[..3], clock[..3], d, 103, countWraps);
    var s4 := Step(p3.state, d, 103, countWraps);
    assert !Accepts(p3.state, d) && s4.records == [];
    assert s4.state.counts == Zeros();
  }

  /** The third sample of WrapExample: 5 degrees is written, and its regression clears every counter. */
  lemma WrapExampleReset(samples: seq<Sample>, clock: seq<int>, countWraps: bool)
    requires samples == [Sample(1821, 4000, 47), Sample(3641, 4000, 47), Sample(911, 4000, 47), Sample(2731, 4000, 47)]
    requires clock == [100, 101, 102, 103]
    ensures var p := Run(Initial().(scanCount := 1), samples[..3], clock[..3], countWraps);
            p.records == [Record(100, 1821, 4000, 47, 1), Record(102, 911, 4000, 47, 1)] &&
            p.state.counts == Zeros() && p.state.skipNext && p.state.lastQ14 == 911
  {
    var c := samples[2];
    var r1, r2 := Record(100, 1821, 4000, 47, 1), Record(102, 911, 4000, 47, 1);
    assert [r1] + [r2] == [r1, r2];
    assert samples[..3] == samples[..2] + [c] && clock[..3] == clock[..2] + [102];
    assert Degree(911) == 5;
    WrapExampleOpening(samples, clock, countWraps);
    var st := Initial().(scanCount := 1);
    var p2 := Run(st, samples[..2], clock[..2], countWraps);
    RunSnoc(st, samples[..2], clock[..2], c, 102, countWraps);
    assert Accepts(p2.state, c) && RecordOf(p2.state, c, 102) == r2;
  }

  /** The first two samples of WrapExample: 10 degrees is written, 20 degrees is decimated. */
  lemma WrapExampleOpening(samples: seq<Sample>, clock: seq<int>, countWraps: bool)
    requires samples == [Sample(1821, 4000, 47), Sample(3641, 4000, 47), Sample(911, 4000, 47), Sample(2731, 4000, 47)]
    requires clock == [100, 101, 102, 103]
    ensures var p := Run(Initial().(scanCount := 1), samples[..2], clock[..2], countWraps);
            p.records == [Record(100, 1821, 4000, 47, 1)] && !p.state.skipNext && p.state.lastQ14 == 3641 &&
            p.state.scanCount == 1 && p.state.counts[5] == 0
  {
    var b := samples[1];
    assert samples[..2] == samples[..1] + [b] && clock[..2] == clock[..1] + [101];
    WrapExampleFirst(samples, clock, countWraps);
    var st := Initial().(scanCount := 1);
    var p1 := Run(st, samples[..1], clock[..1], countWraps);
    RunSnoc(st, samples[..1], clock[..1], b, 101, countWraps);
    assert !Accepts(p1.state, b);
  }

  /** The first sample of WrapExample, at 10 degrees, is written with scan number 1. */
  lemma WrapExampleFirst(samples: seq<Sample>, clock: seq<int>, countWraps: bool)
    requires samples == [Sample(1821, 4000, 47), Sample(3641, 4000, 47), Sample(911, 4000, 47), Sample(2731, 4000, 47)]
    requires clock == [100, 101, 102, 103]
    ensures var p := Run(Initial().(scanCount := 1), samples[..1], clock[..1], countWraps);
            p.records == [Record(100, 1821, 4000, 47, 1)] && p.state.skipNext && p.state.lastQ14 == 1821 &&
            p.state.scanCount == 1 && p.state.counts[5] == 0
  {
    var a := samples[0];
    assert samples[..1] == [] + [a] && clock[..1] == [] + [100];
    var st := Initial().(scanCount := 1);
    assert Degree(1821) == 10;
    RunSnoc(st, [], [], a, 100, countWraps);
  }

  /** Scan numbers in records never go down and lie between the scan count before and after. */
  predicate ScanNumbersWithin(records: seq<Record>, lo: int, hi: int)
  {
    (forall i :: 0 <= i < |records| ==> lo <= records[i].scanNumber <= hi) &&
    (forall i, j :: 0 <= i < j < |records| ==> records[i].scanNumber <= records[j].scanNumber)
  }

  /** Two runs of scan numbers, the second starting where the first may end, join into one. */
  lemma ScanNumbersJoin(a: seq<Record>, b: seq<Record>, lo: int, mid: int, hi: int)
    requires lo <= mid <= hi && ScanNumbersWithin(a, lo, mid) && ScanNumbersWithin(b, mid, hi)
    ensures ScanNumbersWithin(a + b, lo, hi)
  {
    var ab := a + b;
    forall i | 0 <= i < |ab| ensures lo <= ab[i].scanNumber <= hi {
      if i < |a| { assert ab[i] == a[i]; } else { assert ab[i] == b[i - |a|]; }
    }
    forall i, j | 0 <= i < j < |ab| ensures ab[i].scanNumber <= ab[j].scanNumber {
      if j < |a| {
        assert ab[i] == a[i] && ab[j] == a[j];
      } else if i >= |a| {
        assert ab[i] == b[i - |a|] && ab[j] == b[j - |a|];
      } else {
        assert ab[i] == a[i] && ab[j] == b[j - |a|];
      }
    }
  }

  lemma {:induction false} RunScanNumbers(st: FilterState, samples: seq<Sample>, clock: seq<int>, countWraps: bool)
    requires |st.counts| == BARCOUNT && |clock| == |samples|
    ensures var p := Run(st, samples, clock, countWraps);
            ScanNumbersWithin(p.records, st.scanCount, p.state.scanCount)
    ensures !countWraps ==> forall r :: r in Run(st, samples, clock, countWraps).records ==> r.scanNumber == st.scanCount
    decreases |samples|
  {
    if samples != [] {
      var k := |samples| - 1;
      RunScanNumbers(st, samples[..k], clock[..k], countWraps);
      var before := Run(st, samples[..k], clock[..k], countWraps);
      var after := Step(before.state, samples[k], clock[k], countWraps);
      assert Run(st, samples, clock, countWraps) == Progress(after.state, before.records + after.records);
      assert ScanNumbersWithin(after.records, before.state.scanCount, after.state.scanCount);
      ScanNumbersJoin(before.records, after.records, st.scanCount, before.state.scanCount, after.state.scanCount);
      if !countWraps {
        forall r | r in before.records + after.records ensures r.scanNumber == st.scanCount {
          if r !in before.records {
            assert r in after.records;
          }
        }
      }
    }
  }

  /**
    Per successful grab the scan count rises by one plus, in the data
    logger, the number of regressions; every record of the batch carries a
    value in that range, in non-decreasing order, and in the visual logger
    exactly the batch's value.
   */
  lemma BatchScanNumbers(st: FilterState, samples: seq<Sample>, clock: seq<int>, countWraps: bool)
    requires |st.counts| == BARCOUNT && |clock| == |samples|
    ensures var p := Batch(st, samples, clock, countWraps);
            ScanNumbersWithin(p.records, st.scanCount + 1, p.state.scanCount)
    ensures !countWraps ==> forall r :: r in Batch(st, samples, clock, countWraps).records ==> r.scanNumber == st.scanCount + 1
  {
    RunScanNumbers(st.(scanCount := st.scanCount + 1), samples, clock, countWraps);
  }

  /**
    Across a whole session the scan count never decreases and the scan
    numbers in the file are non-decreasing.
   */
  lemma {:induction false} SessionScanNumbers(st: FilterState, cycles: seq<Cycle>, countWraps: bool)
    requires |st.counts| == BARCOUNT && CyclesValid(cycles)
    ensures var p := Session(st, cycles, countWraps);
            st.scanCount <= p.state.scanCount && ScanNumbersWithin(p.records, st.scanCount, p.state.scanCount)
    decreases |cycles|
  {
    if cycles != [] {
      var k := |cycles| - 1;
      SessionScanNumbers(st, cycles[..k], countWraps);
      var before := Session(st, cycles[..k], countWraps);
      match cycles[k].poll
      case Failed =>
        assert Session(st, cycles, countWraps) == before;
      case Grabbed(samples, clock) =>
        BatchScanNumbers(before.state, samples, clock, countWraps);
        var after := Batch(before.state, samples, clock, countWraps);
        assert Session(st, cycles, countWraps) == Progress(after.state, before.records + after.records);
        assert ScanNumbersWithin(after.records, before.state.scanCount, after.state.scanCount);
        ScanNumbersJoin(before.records, after.records, st.scanCount, before.state.scanCount, after.state.scanCount);
    }
  }

  /** The decimation flag carries across batches: after a session it reflects the parity of all samples examined. */
  lemma {:induction false} SessionDecimationBound(st: FilterState, cycles: seq<Cycle>, countWraps: bool)
    requires |st.counts| == BARCOUNT && CyclesValid(cycles)
    ensures var p := Session(st, cycles, countWraps);
            |p.records| <= (SamplesIn(cycles) + (if st.skipNext then 0 else 1)) / 2 &&
            p.state.skipNext == (st.skipNext != Odd(SamplesIn(cycles)))
    decreases |cycles|
  {
    if cycles != [] {
      SessionDecimationBound(st, cycles[..|cycles| - 1], countWraps);
      SessionDecimationExtend(st, cycles, countWraps);
    }
  }

  /** The step of SessionDecimationBound: the bound for all but the last iteration gives it for all. */
  lemma SessionDecimationExtend(st: FilterState, cycles: seq<Cycle>, countWraps: bool)
    requires |st.counts| == BARCOUNT && CyclesValid(cycles) && cycles != []
    requires var k := |cycles| - 1;
             var p := Session(st, cycles[..k], countWraps);
             |p.records| <= (SamplesIn(cycles[..k]) + (if st.skipNext then 0 else 1)) / 2 &&
             p.state.skipNext == (st.skipNext != Odd(SamplesIn(cycles[..k])))
    ensures var p := Session(st, cycles, countWraps);
            |p.records| <= (SamplesIn(cycles) + (if st.skipNext then 0 else 1)) / 2 &&
            p.state.skipNext == (st.skipNext != Odd(SamplesIn(cycles)))
  {
    var k := |cycles| - 1;
    var before := Session(st, cycles[..k], countWraps);
    var p := cycles[k].poll;
    assert PollValid(p);
    var n := SamplesIn(cycles[..k]);
    var total := SamplesIn(cycles);
    assert total == n + (if p.Grabbed? then |p.samples| else 0);
    DecimationStep(before, p, st.skipNext, n, total, countWraps);
    var after := AfterPoll(before.state, p, countWraps);
    assert Session(st, cycles, countWraps) == Progress(after.state, before.records + after.records);
  }

  /** The inductive step of SessionDecimationBound: one more poll, grabbed or not. */
  lemma DecimationStep(before: Progress, p: Poll, skip: bool, n: nat, total: nat, countWraps: bool)
    requires |before.state.counts| == BARCOUNT && PollValid(p)
    requires |before.records| <= (n + (if skip then 0 else 1)) / 2 && before.state.skipNext == (skip != Odd(n))
    requires total == n + (if p.Grabbed? then |p.samples| else 0)
    ensures var after := AfterPoll(before.state, p, countWraps);
            |before.records + after.records| <= (total + (if skip then 0 else 1)) / 2 &&
            after.state.skipNext == (skip != Odd(total))
  {
    if p.Grabbed? {
      var bs := before.state.(scanCount := before.state.scanCount + 1);
      DecimationBound(bs, p.samples, p.clock, countWraps);
      var after := Run(bs, p.samples, p.clock, countWraps);
      HalvesAdd(|before.records|, |after.records|, n, |p.samples|, skip, bs.skipNext, after.state.skipNext);
    }
  }


  /** Parity bookkeeping for splitting a run of samples in two. */
  lemma HalvesAdd(r1: nat, r2: nat, n: nat, m: nat, skip: bool, mid: bool, end: bool)
    requires r1 <= (n + (if skip then 0 else 1)) / 2 && mid == (skip != Odd(n))
    requires r2 <= (m + (if mid then 0 else 1)) / 2 && end == (mid != Odd(m))
    ensures r1 + r2 <= (n + m + (if skip then 0 else 1)) / 2
    ensures end == (skip != Odd(n + m))
  {
  }

  /** Number of samples grabbed over the cycles. */
  function SamplesIn(cycles: seq<Cycle>): (n: nat)
  {
    if cycles == [] then 0
    else
      var k := |cycles| - 1;
      SamplesIn(cycles[..k]) + (if cycles[k].poll.Grabbed? then |cycles[k].poll.samples| else 0)
  }
}
