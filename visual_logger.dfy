/**
  The visual logger (app/visual_logger/main.cpp): the same acquisition as
  the data logger, on global state, with each batch's accepted points also
  kept in a vertex buffer that is drawn once per batch.
 */
module VisualLogger {
  import opened LidarTypes
  import opened ScanFilter
  import opened Cli
  import opened Negotiation
  import opened Platform

  /** Milliseconds slept after every loop iteration. */
  const FRAME_DELAY_MS: nat := 10

  /**
    One float of the vertex buffer: distance * cos(rad) or distance * sin(rad)
    of a record, rad being its angle in radians. The terms are kept
    symbolic; their floating-point values are not modelled.
   */
  datatype Coord = CosTerm(angleQ14: u16, distQ2: u32) | SinTerm(angleQ14: u16, distQ2: u32)

  /** The two floats pushed for a record, x first. */
  function PointOf(r: Record): (xy: seq<Coord>)
    ensures |xy| == 2 && xy[0].CosTerm? && xy[1].SinTerm?
    ensures xy[0].angleQ14 == xy[1].angleQ14 == r.angleQ14 && xy[0].distQ2 == xy[1].distQ2 == r.distQ2
  {
    [CosTerm(r.angleQ14, r.distQ2), SinTerm(r.angleQ14, r.distQ2)]
  }

  /** The vertex buffer for some records: one x, y pair per record, in order. */
  function Points(records: seq<Record>): (pts: seq<Coord>)
    ensures |pts| == 2 * |records|
    ensures forall i :: 0 <= i < |records| ==> pts[2 * i..2 * i + 2] == PointOf(records[i])
  {
    if records == [] then []
    else
      var k := |records| - 1;
      var pts := Points(records[..k]) + PointOf(records[k]);
      assert forall i :: 0 <= i < k ==> pts[2 * i..2 * i + 2] == Points(records[..k])[2 * i..2 * i + 2];
      pts
  }

  lemma {:induction false} PointsAppend(a: seq<Record>, b: seq<Record>)
    ensures Points(a + b) == Points(a) + Points(b)
    decreases |b|
  {
    if b == [] {
      assert a + b == a;
    } else {
      var k := |b| - 1;
      assert (a + b)[..|a + b| - 1] == a + b[..k];
      PointsAppend(a, b[..k]);
    }
  }

  /** The vertex buffers drawn over a session, one per successful grab. */
  function Frames(st: FilterState, cycles: seq<Cycle>): (frames: seq<seq<Coord>>)
    requires |st.counts| == BARCOUNT && CyclesValid(cycles)
    ensures |frames| == Grabs(cycles)
  {
    if cycles == [] then []
    else
      var k := |cycles| - 1;
      var before := Session(st, cycles[..k], false);
      Frames(st, cycles[..k]) +
        (if cycles[k].poll.Grabbed? then [Points(AfterPoll(before.state, cycles[k].poll, false).records)] else [])
  }

  function Flatten<T>(xss: seq<seq<T>>): seq<T>
  {
    if xss == [] then [] else Flatten(xss[..|xss| - 1]) + xss[|xss| - 1]
  }

  /** The last of xs, or d when xs is empty. */
  function LastOr<T>(d: T, xs: seq<T>): (x: T)
    ensures xs == [] ==> x == d
    ensures xs != [] ==> x == xs[|xs| - 1]
  {
    if xs == [] then d else xs[|xs| - 1]
  }

  lemma FlattenSnoc<T>(xss: seq<seq<T>>, ys: seq<T>)
    ensures Flatten(xss + [ys]) == Flatten(xss) + ys
  {
    assert (xss + [ys])[..|xss|] == xss;
  }

  /**
    What is drawn is what is written: the frames of a session, put end to
    end, are exactly the points of the records the session writes to the file.
   */
  lemma {:induction false} FramesShowRecords(st: FilterState, cycles: seq<Cycle>)
    requires |st.counts| == BARCOUNT && CyclesValid(cycles)
    ensures Flatten(Frames(st, cycles)) == Points(Session(st, cycles, false).records)
    decreases |cycles|
  {
    if cycles != [] {
      var k := |cycles| - 1;
      FramesShowRecords(st, cycles[..k]);
      var before := Session(st, cycles[..k], false);
      var after := AfterPoll(before.state, cycles[k].poll, false);
      PointsAppend(before.records, after.records);
      if cycles[k].poll.Grabbed? {
        FlattenSnoc(Frames(st, cycles[..k]), Points(after.records));
      } else {
        assert Frames(st, cycles) == Frames(st, cycles[..k]);
        assert after.records == [];
      }
    }
  }

  /** The globals of the visual logger that scanning updates, and the output file. */
  class Visualizer {
    const pointsPerDegree: array<int>
    var skipNext: bool
    var lastQ14: int
    var scanCount: int
    var outFile: seq<Line>
    /** pointData: the vertex buffer of the current batch. */
    var pointData: seq<Coord>
    /** The vertex buffers renderFrame has drawn, in order. */
    var frames: seq<seq<Coord>>

    ghost predicate Valid()
      reads this
    {
      pointsPerDegree.Length == BARCOUNT
    }

    ghost function State(): (st: FilterState)
      reads this, pointsPerDegree
      requires Valid()
      ensures |st.counts| == BARCOUNT
    {
      FilterState(pointsPerDegree[..], skipNext, lastQ14, scanCount)
    }

    /** The globals' static initial values, an empty file and nothing drawn yet. */
    constructor ()
      ensures Valid() && fresh(pointsPerDegree)
      ensures State() == Initial() && outFile == [] && pointData == [] && frames == []
    {
      pointsPerDegree := new int[BARCOUNT](_ => 0);
      skipNext := false;
      lastQ14 := 0;
      scanCount := 0;
      outFile := [];
      pointData := [];
      frames := [];
    }

    method WriteHeader()
      requires Valid()
      modifies this
      ensures Valid() && State() == old(State()) && outFile == old(outFile) + [Header]
      ensures pointData == old(pointData) && frames == old(frames)
    {
      outFile := outFile + [Header];
    }

    /** Zero every per-degree counter at once. */
    method ClearCounts()
      requires Valid()
      modifies pointsPerDegree
      ensures pointsPerDegree[..] == Zeros()
    {
      forall d | 0 <= d < pointsPerDegree.Length {
        pointsPerDegree[d] := 0;
      }
    }

    /** Write a record to the file and push its point into the vertex buffer. */
    method Emit(r: Record)
      requires Valid()
      modifies this
      ensures Valid() && State() == old(State()) && frames == old(frames)
      ensures outFile == old(outFile) + DataLines([r]) && pointData == old(pointData) + Points([r])
    {
      outFile := outFile + [Data(r)];
      pointData := pointData + [CosTerm(r.angleQ14, r.distQ2), SinTerm(r.angleQ14, r.distQ2)];
      assert Points([r]) == PointOf(r);
    }

    /**
      The body of the sample loop for one sample: an accepted sample is
      written and its point pushed; the decimation flag flips; an angle
      regression clears the counters and leaves scan_count alone.
     */
    method ProcessSample(s: Sample, now: int)
      requires Valid()
      modifies this, pointsPerDegree
      ensures Valid()
      ensures State() == Step(old(State()), s, now, false).state
      ensures outFile == old(outFile) + DataLines(Step(old(State()), s, now, false).records)
      ensures pointData == old(pointData) + Points(Step(old(State()), s, now, false).records)
      ensures frames == old(frames)
    {
      if s.distQ2 > 0 && !skipNext {
        var degree := s.angleQ14 * 90 / 16384;
        if 0 <= degree < BARCOUNT {
          if pointsPerDegree[degree] < MAX_POINTS_PER_DEGREE {
            Emit(Record(now, s.angleQ14, s.distQ2, s.quality, scanCount));
            pointsPerDegree[degree] := pointsPerDegree[degree] + 1;
          }
        }
      }
      skipNext := !skipNext;
      if s.angleQ14 < lastQ14 {
        ClearCounts();
      }
      lastQ14 := s.angleQ14;
    }

    /**
      One successful grabScanDataHq: count the batch, clear the vertex
      buffer, then filter every sample.
     */
    method ProcessBatch(samples: seq<Sample>, clock: seq<int>)
      requires Valid() && |clock| == |samples|
      modifies this, pointsPerDegree
      ensures Valid()
      ensures State() == Batch(old(State()), samples, clock, false).state
      ensures outFile == old(outFile) + DataLines(Batch(old(State()), samples, clock, false).records)
      ensures pointData == Points(Batch(old(State()), samples, clock, false).records)
      ensures frames == old(frames)
    {
      scanCount := scanCount + 1;
      pointData := [];
      ghost var start := State();
      assert start == old(State()).(scanCount := old(State()).scanCount + 1);
      var pos := 0;
      while pos < |samples|
        invariant 0 <= pos <= |samples| && Valid() && frames == old(frames)
        invariant State() == Run(start, samples[..pos], clock[..pos], false).state
        invariant outFile == old(outFile) + DataLines(Run(start, samples[..pos], clock[..pos], false).records)
        invariant pointData == Points(Run(start, samples[..pos], clock[..pos], false).records)
      {
        ghost var done := Run(start, samples[..pos], clock[..pos], false);
        ghost var step := Step(done.state, samples[pos], clock[pos], false);
        RunPrefixStep(start, samples, clock, pos, false);
        DataLinesAppend(done.records, step.records);
        PointsAppend(done.records, step.records);
        AppendAssoc(old(outFile), DataLines(done.records), DataLines(step.records));
        ProcessSample(samples[pos], clock[pos]);
        pos := pos + 1;
      }
      assert samples[..pos] == samples && clock[..pos] == clock;
    }

    /** renderFrame: draw the current vertex buffer. */
    method Render()
      requires Valid()
      modifies this
      ensures Valid() && State() == old(State()) && outFile == old(outFile) && pointData == old(pointData)
      ensures frames == old(frames) + [pointData]
    {
      frames := frames + [pointData];
    }

    /** One poll of the main loop: a successful grab is processed and drawn, a failed one changes nothing. */
    method HandlePoll(p: Poll)
      requires Valid() && PollValid(p)
      modifies this, pointsPerDegree
      ensures Valid()
      ensures State() == AfterPoll(old(State()), p, false).state
      ensures outFile == old(outFile) + DataLines(AfterPoll(old(State()), p, false).records)
      ensures frames == old(frames) + if p.Grabbed? then [Points(AfterPoll(old(State()), p, false).records)] else []
      // the buffer is cleared only on a successful grab; a failed one leaves the previous batch's points
      ensures pointData == if p.Grabbed? then Points(AfterPoll(old(State()), p, false).records) else old(pointData)
    {
      match p {
        case Failed =>
        case Grabbed(samples, clock) =>
          ProcessBatch(samples, clock);
          Render();
      }
    }

    /**
      The main loop: while neither SIGINT nor the window asks to close,
      poll, process and draw a successful batch, and sleep. Returns the
      number of iterations run.
     */
    method Acquire(cycles: seq<Cycle>) returns (iterations: nat)
      requires Valid() && CyclesValid(cycles) && FirstTrue(CloseFlags(cycles)) < |cycles|
      modifies this, pointsPerDegree
      ensures Valid() && iterations == Iterations(cycles)
      ensures State() == Session(old(State()), cycles[..iterations], false).state
      ensures outFile == old(outFile) + DataLines(Session(old(State()), cycles[..iterations], false).records)
      ensures frames == old(frames) + Frames(old(State()), cycles[..iterations])
      // the buffer holds the last frame drawn, or what it held before when no grab succeeded
      ensures pointData == LastOr(old(pointData), Frames(old(State()), cycles[..iterations]))
    {
      ghost var start := State();
      ghost var n := Iterations(cycles);
      ghost var done := Progress(start, []);
      var i := 0;
      while !(cycles[i].ctrlC || cycles[i].windowClose)
        invariant 0 <= i <= n && Valid()
        invariant done == Session(start, cycles[..i], false)
        invariant State() == done.state && outFile == old(outFile) + DataLines(done.records)
        invariant frames == old(frames) + Frames(start, cycles[..i])
        invariant pointData == LastOr(old(pointData), Frames(start, cycles[..i]))
        decreases n - i
      {
        assert i < n;
        SessionPrefixStep(start, cycles, i, false);
        assert cycles[..i + 1][..i] == cycles[..i];
        ghost var after := AfterPoll(done.state, cycles[i].poll, false);
        DataLinesAppend(done.records, after.records);
        AppendAssoc(old(outFile), DataLines(done.records), DataLines(after.records));
        ghost var drawn := if cycles[i].poll.Grabbed? then [Points(after.records)] else [];
        AppendAssoc(old(frames), Frames(start, cycles[..i]), drawn);
        HandlePoll(cycles[i].poll);
        done := Progress(after.state, done.records + after.records);
        var _ := Delay(FRAME_DELAY_MS);
        i := i + 1;
      }
      iterations := i;
    }
  }

  /** The command line parses, OpenGL starts, the driver is created, the one channel it selects answers, and the device is healthy. */
  predicate Scans(args: seq<string>, defaultFile: string, env: Environment)
  {
    var r := ParseArgs(args, defaultFile);
    r.Ok? && env.glReady && env.allocates && Ready(r.value, env)
  }

  /** The iterations the main loop runs: until the first that sees a stop flag. */
  function Iterations(cycles: seq<Cycle>): (n: nat)
    requires FirstTrue(CloseFlags(cycles)) < |cycles|
    ensures n < |cycles| && (cycles[n].ctrlC || cycles[n].windowClose)
    ensures forall j :: 0 <= j < n ==> !cycles[j].ctrlC && !cycles[j].windowClose
  {
    FirstTrue(CloseFlags(cycles))
  }

  /** The file a session writes: the header, then one line per accepted sample. */
  function SessionFile(cycles: seq<Cycle>): seq<Line>
    requires CyclesValid(cycles) && FirstTrue(CloseFlags(cycles)) < |cycles|
  {
    [Header] + DataLines(Session(Initial(), cycles[..Iterations(cycles)], false).records)
  }

  /** The frames a session draws. */
  function SessionFrames(cycles: seq<Cycle>): seq<seq<Coord>>
    requires CyclesValid(cycles) && FirstTrue(CloseFlags(cycles)) < |cycles|
  {
    Frames(Initial(), cycles[..Iterations(cycles)])
  }

  /** The output file from the header on: the loop over the globals, and the frames drawn. */
  method Acquisition(cycles: seq<Cycle>) returns (file: seq<Line>, frames: seq<seq<Coord>>)
    requires CyclesValid(cycles) && FirstTrue(CloseFlags(cycles)) < |cycles|
    ensures file == SessionFile(cycles) && frames == SessionFrames(cycles)
  {
    var v := new Visualizer();
    v.WriteHeader();
    var _ := v.Acquire(cycles);
    file := v.outFile;
    frames := v.frames;
  }

  /**
    The actions of main after the connection attempt: on failure clean up
    OpenGL and jump to on_finished; otherwise check health, start the scan,
    open the file, run the loop, and clean up. Every early failure calls
    cleanupOpenGL before jumping to on_finished, which calls it again and
    deletes the driver if it still exists.
   */
  function FinishTrace(connected: bool, live: bool, env: Environment): seq<Event>
  {
    if !connected then [GLCleanedUp, GLCleanedUp] + (if live then [DriverDeleted] else [])
    else if !CheckHealth(env.health) then [GLCleanedUp, GLCleanedUp, DriverDeleted]
    // a file that does not open jumps to on_finished without stopping the scan
    else if !env.fileOpens then [ScanStarted, GLCleanedUp, GLCleanedUp, DriverDeleted]
    else [ScanStarted, ScanStopped, FileClosed, GLCleanedUp, DriverDeleted]
  }

  /** The actions of main from OpenGL's start on, when a driver is created. */
  function Trace(opts: Options, env: Environment): seq<Event>
  {
    var ch := ChannelFor(opts.transport, opts.first, opts.second);
    [GLInitialized] + AttachTrace(env.link, ch) + FinishTrace(Answers(env.link, ch), !Dropped(env.link, ch), env)
  }

  /**
    Every run that creates a driver has started OpenGL and connects exactly
    once, over the one channel the options select. A normal loop exit ends
    by stopping the scan, closing the file and cleaning up OpenGL before
    deleting the driver.
   */
  lemma TraceShape(opts: Options, env: Environment)
    ensures var events := Trace(opts, env);
            |events| >= 6 && events[..3] == [GLInitialized, DriverCreated, Connect(ChannelFor(opts.transport, opts.first, opts.second))]
    ensures var events := Trace(opts, env);
            forall e :: e in events[3..] ==> !e.Connect?
    ensures var events := Trace(opts, env);
            Ready(opts, env) && env.fileOpens ==> events[|events| - 4..] == [ScanStopped, FileClosed, GLCleanedUp, DriverDeleted]
  {
    var ch := ChannelFor(opts.transport, opts.first, opts.second);
    var events := Trace(opts, env);
    if Dropped(env.link, ch) {
      assert events == [GLInitialized, DriverCreated, Connect(ch), DriverDeleted, GLCleanedUp, GLCleanedUp];
    } else if !Answers(env.link, ch) {
      assert events == [GLInitialized, DriverCreated, Connect(ch), GLCleanedUp, GLCleanedUp, DriverDeleted];
    } else if !CheckHealth(env.health) {
      assert events == [GLInitialized, DriverCreated, Connect(ch), GLCleanedUp, GLCleanedUp, DriverDeleted];
    } else if !env.fileOpens {
      assert events == [GLInitialized, DriverCreated, Connect(ch), ScanStarted, GLCleanedUp, GLCleanedUp, DriverDeleted];
    } else {
      assert events == [GLInitialized, DriverCreated, Connect(ch), ScanStarted, ScanStopped, FileClosed, GLCleanedUp, DriverDeleted];
    }
  }

  /**
    Scanning starts only when the selected channel answers and the device is
    healthy; it is stopped only when the output file opened as well.
   */
  lemma TraceScanning(opts: Options, env: Environment)
    ensures ScanStarted in Trace(opts, env) <==> Ready(opts, env)
    ensures ScanStopped in Trace(opts, env) <==> Ready(opts, env) && env.fileOpens
  {
    var ch := ChannelFor(opts.transport, opts.first, opts.second);
    var events := Trace(opts, env);
    if Dropped(env.link, ch) {
      assert events == [GLInitialized, DriverCreated, Connect(ch), DriverDeleted, GLCleanedUp, GLCleanedUp];
    } else if !Answers(env.link, ch) {
      assert events == [GLInitialized, DriverCreated, Connect(ch), GLCleanedUp, GLCleanedUp, DriverDeleted];
    } else if !CheckHealth(env.health) {
      assert events == [GLInitialized, DriverCreated, Connect(ch), GLCleanedUp, GLCleanedUp, DriverDeleted];
    } else if !env.fileOpens {
      assert events == [GLInitialized, DriverCreated, Connect(ch), ScanStarted, GLCleanedUp, GLCleanedUp, DriverDeleted];
    } else {
      assert events == [GLInitialized, DriverCreated, Connect(ch), ScanStarted, ScanStopped, FileClosed, GLCleanedUp, DriverDeleted];
    }
  }

  /**
    The driver is deleted exactly once: right after a failed getDeviceInfo,
    otherwise as the last action. cleanupOpenGL runs once after a normal loop
    exit, just before the driver is deleted; after any early failure it runs
    twice in a row, once where the failure is noticed and once more in
    on_finished.
   */
  lemma TraceTeardown(opts: Options, env: Environment)
    // deleted right after a failed getDeviceInfo, otherwise as the last action, and nowhere else
    ensures var events := Trace(opts, env);
            var i := if Dropped(env.link, ChannelFor(opts.transport, opts.first, opts.second)) then 3 else |events| - 1;
            events[i] == DriverDeleted && DriverDeleted !in events[..i] && DriverDeleted !in events[i + 1..]
    ensures var events := Trace(opts, env);
            Ready(opts, env) && env.fileOpens ==>
              events[|events| - 2] == GLCleanedUp && GLCleanedUp !in events[..|events| - 2] && events[|events| - 1] != GLCleanedUp
    ensures var events := Trace(opts, env);
            var j := |events| - if Dropped(env.link, ChannelFor(opts.transport, opts.first, opts.second)) then 2 else 3;
            !(Ready(opts, env) && env.fileOpens) ==>
              events[j..j + 2] == [GLCleanedUp, GLCleanedUp] && GLCleanedUp !in events[..j] && GLCleanedUp !in events[j + 2..]
  {
    var ch := ChannelFor(opts.transport, opts.first, opts.second);
    var events := Trace(opts, env);
    if Dropped(env.link, ch) {
      assert events == [GLInitialized, DriverCreated, Connect(ch), DriverDeleted, GLCleanedUp, GLCleanedUp];
    } else if !Answers(env.link, ch) {
      assert events == [GLInitialized, DriverCreated, Connect(ch), GLCleanedUp, GLCleanedUp, DriverDeleted];
    } else if !CheckHealth(env.health) {
      assert events == [GLInitialized, DriverCreated, Connect(ch), GLCleanedUp, GLCleanedUp, DriverDeleted];
    } else if !env.fileOpens {
      assert events == [GLInitialized, DriverCreated, Connect(ch), ScanStarted, GLCleanedUp, GLCleanedUp, DriverDeleted];
    } else {
      assert events == [GLInitialized, DriverCreated, Connect(ch), ScanStarted, ScanStopped, FileClosed, GLCleanedUp, DriverDeleted];
    }
  }

  /** main once OpenGL is up: create the driver, connect, and go on as Finish does. */
  method Drive(opts: Options, env: Environment, cycles: seq<Cycle>)
    returns (events: seq<Event>, file: seq<Line>, frames: seq<seq<Coord>>)
    requires opts.transport == SerialTransport ==> opts.useArgcBaudrate
    requires CyclesValid(cycles) && FirstTrue(CloseFlags(cycles)) < |cycles|
    ensures events == Trace(opts, env)
    ensures file == (if Ready(opts, env) && env.fileOpens then SessionFile(cycles) else [])
    ensures frames == if Ready(opts, env) && env.fileOpens then SessionFrames(cycles) else []
  {
    var attached, connected, live;
    attached, connected, live := Attach(opts, env.link);
    var tail;
    tail, file, frames := Finish(connected, live, env, cycles);
    events := [GLInitialized] + attached + tail;
  }

  /** main after the connection attempt; returns the actions from there on. */
  method Finish(connected: bool, live: bool, env: Environment, cycles: seq<Cycle>)
    returns (events: seq<Event>, file: seq<Line>, frames: seq<seq<Coord>>)
    requires connected ==> live
    requires CyclesValid(cycles) && FirstTrue(CloseFlags(cycles)) < |cycles|
    ensures events == FinishTrace(connected, live, env)
    ensures file == (if connected && CheckHealth(env.health) && env.fileOpens then SessionFile(cycles) else [])
    ensures frames == if connected && CheckHealth(env.health) && env.fileOpens then SessionFrames(cycles) else []
  {
    file, frames := [], [];
    if !connected {
      events := [GLCleanedUp, GLCleanedUp] + (if live then [DriverDeleted] else []);
      return;
    }
    if !CheckHealth(env.health) {
      events := [GLCleanedUp, GLCleanedUp, DriverDeleted];
      return;
    }
    if !env.fileOpens {
      events := [ScanStarted, GLCleanedUp, GLCleanedUp, DriverDeleted];
      return;
    }
    file, frames := Acquisition(cycles);
    events := [ScanStarted, ScanStopped, FileClosed, GLCleanedUp, DriverDeleted];
  }

  /**
    main. Returns the exit status, the actions on OpenGL and the driver in
    order, the lines of the output file and the frames drawn. The loop only
    ends when a stop flag is seen, so the cycles must contain one that sees it.
   */
  method RunVisual(args: seq<string>, defaultFile: string, env: Environment, cycles: seq<Cycle>)
    returns (exitCode: int, events: seq<Event>, file: seq<Line>, frames: seq<seq<Coord>>)
    requires CyclesValid(cycles) && FirstTrue(CloseFlags(cycles)) < |cycles|
    // a usage error, or OpenGL failing to start, exits with -1 before anything else happens
    ensures exitCode == -1 <==> ParseArgs(args, defaultFile).Err? || !env.glReady
    ensures exitCode == -1 ==> events == []
    // a failed driver allocation cleans up OpenGL and exits with -2
    ensures exitCode == -2 <==> ParseArgs(args, defaultFile).Ok? && env.glReady && !env.allocates
    ensures exitCode == -2 ==> events == [GLInitialized, GLCleanedUp]
    // every other path returns 0 after the actions of Trace
    ensures exitCode == 0 <==> ParseArgs(args, defaultFile).Ok? && env.glReady && env.allocates
    ensures exitCode == 0 ==> events == Trace(ParseArgs(args, defaultFile).value, env)
    // the file and the frames hold the session when scanning ran to a normal exit, and nothing otherwise
    ensures file == (if Scans(args, defaultFile, env) && env.fileOpens then SessionFile(cycles) else [])
    ensures frames == if Scans(args, defaultFile, env) && env.fileOpens then SessionFrames(cycles) else []
  {
    var parsed := ParseArgs(args, defaultFile);
    if parsed.Err? {
      return parsed.error, [], [], [];
    }
    if !env.glReady {
      // OpenGL does not start: exit with -1
      return -1, [], [], [];
    }
    if !env.allocates {
      // insufficient memory: tear OpenGL down and exit with -2
      return -2, [GLInitialized, GLCleanedUp], [], [];
    }
    events, file, frames := Drive(parsed.value, env, cycles);
    exitCode := 0;
  }
}
