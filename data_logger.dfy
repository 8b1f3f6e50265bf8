/**
  The data logger (app/data_logger/main.cpp): everything main keeps in
  local variables while scanning, as one object, and main itself as a
  method over the command line and the environment's answers.
 */
module DataLogger {
  import opened LidarTypes
  import opened ScanFilter
  import opened Cli
  import opened Negotiation
  import opened Platform

  /** Milliseconds slept between two polls. */
  const POLL_DELAY_MS: nat := 50

  /** The scanning state of main: counters, decimation flag, previous angle, scan count, and the output file. */
  class Logger {
    const pointsPerDegree: array<int>
    var skipNext: bool
    var lastQ14: int
    var scanCount: int
    var outFile: seq<Line>

    ghost predicate Valid()
      reads this
    {
      pointsPerDegree.Length == BARCOUNT
    }

    ghost function State(): (st: FilterState)
      reads this, pointsPerDegree
      requires Valid()
      ensures |st.counts| == BARCOUNT
    {
      FilterState(pointsPerDegree[..], skipNext, lastQ14, scanCount)
    }

    constructor ()
      ensures Valid() && fresh(pointsPerDegree)
      ensures State() == Initial() && outFile == []
    {
      pointsPerDegree := new int[BARCOUNT](_ => 0);
      skipNext := false;
      lastQ14 := 0;
      scanCount := 0;
      outFile := [];
    }

    /** Opening the file writes the header line. */
    method WriteHeader()
      requires Valid()
      modifies this
      ensures Valid() && State() == old(State()) && outFile == old(outFile) + [Header]
    {
      outFile := outFile + [Header];
    }

    /** Zero every per-degree counter at once. */
    method ClearCounts()
      requires Valid()
      modifies pointsPerDegree
      ensures pointsPerDegree[..] == Zeros()
    {
      forall d | 0 <= d < pointsPerDegree.Length {
        pointsPerDegree[d] := 0;
      }
    }

    /**
      The body of the sample loop for one sample: accept and count, flip the
      decimation flag, reset the counters and count a scan on an angle
      regression, remember the angle.
     */
    method ProcessSample(s: Sample, now: int)
      requires Valid()
      modifies this, pointsPerDegree
      ensures Valid()
      ensures State() == Step(old(State()), s, now, true).state
      ensures outFile == old(outFile) + DataLines(Step(old(State()), s, now, true).records)
    {
      if s.distQ2 > 0 && !skipNext {
        var degree := s.angleQ14 * 90 / 16384;
        if 0 <= degree < BARCOUNT {
          if pointsPerDegree[degree] < MAX_POINTS_PER_DEGREE {
            outFile := outFile + [Data(Record(now, s.angleQ14, s.distQ2, s.quality, scanCount))];
            pointsPerDegree[degree] := pointsPerDegree[degree] + 1;
          }
        }
      }
      skipNext := !skipNext;
      if s.angleQ14 < lastQ14 {
        ClearCounts();
        scanCount := scanCount + 1;
      }
      lastQ14 := s.angleQ14;
    }

    /**
      One successful grabScanDataHq: count the batch, then filter every
      sample, writing the accepted ones to the file.
     */
    method ProcessBatch(samples: seq<Sample>, clock: seq<int>)
      requires Valid() && |clock| == |samples|
      modifies this, pointsPerDegree
      ensures Valid()
      ensures State() == Batch(old(State()), samples, clock, true).state
      ensures outFile == old(outFile) + DataLines(Batch(old(State()), samples, clock, true).records)
    {
      scanCount := scanCount + 1;
      ghost var start := State();
      assert start == old(State()).(scanCount := old(State()).scanCount + 1);
      var pos := 0;
      while pos < |samples|
        invariant 0 <= pos <= |samples| && Valid()
        invariant State() == Run(start, samples[..pos], clock[..pos], true).state
        invariant outFile == old(outFile) + DataLines(Run(start, samples[..pos], clock[..pos], true).records)
      {
        ghost var done := Run(start, samples[..pos], clock[..pos], true);
        ghost var step := Step(done.state, samples[pos], clock[pos], true);
        RunPrefixStep(start, samples, clock, pos, true);
        DataLinesAppend(done.records, step.records);
        AppendAssoc(old(outFile), DataLines(done.records), DataLines(step.records));
        ProcessSample(samples[pos], clock[pos]);
        pos := pos + 1;
      }
      assert samples[..pos] == samples && clock[..pos] == clock;
    }

    /** One poll of the main loop: a successful grab is processed, a failed one changes nothing. */
    method HandlePoll(p: Poll)
      requires Valid() && PollValid(p)
      modifies this, pointsPerDegree
      ensures Valid()
      ensures State() == AfterPoll(old(State()), p, true).state
      ensures outFile == old(outFile) + DataLines(AfterPoll(old(State()), p, true).records)
    {
      match p {
        case Failed =>
        case Grabbed(samples, clock) =>
          ProcessBatch(samples, clock);
      }
    }

    /**
      The main loop: poll, process a successful batch, stop after the
      iteration that sees SIGINT, otherwise sleep and poll again. Returns the
      number of iterations run.
     */
    method Acquire(cycles: seq<Cycle>) returns (iterations: nat)
      requires Valid() && CyclesValid(cycles) && FirstTrue(CtrlCFlags(cycles)) < |cycles|
      modifies this, pointsPerDegree
      ensures Valid() && iterations == Iterations(cycles)
      ensures State() == Session(old(State()), cycles[..iterations], true).state
      ensures outFile == old(outFile) + DataLines(Session(old(State()), cycles[..iterations], true).records)
    {
      ghost var start := State();
      ghost var n := Iterations(cycles);
      ghost var done := Progress(start, []);
      var i := 0;
      while true
        invariant 0 <= i < n && Valid()
        invariant done == Session(start, cycles[..i], true)
        invariant State() == done.state && outFile == old(outFile) + DataLines(done.records)
        decreases n - i
      {
        assert cycles[i].ctrlC <==> i == n - 1;
        SessionPrefixStep(start, cycles, i, true);
        ghost var after := AfterPoll(done.state, cycles[i].poll, true);
        DataLinesAppend(done.records, after.records);
        AppendAssoc(old(outFile), DataLines(done.records), DataLines(after.records));
        HandlePoll(cycles[i].poll);
        done := Progress(after.state, done.records + after.records);
        if cycles[i].ctrlC {
          iterations := i + 1;
          break;
        }
        var _ := Delay(POLL_DELAY_MS);
        i := i + 1;
      }
    }
  }

  /** The command line parses, the driver is created, the one channel it selects answers, and the device is healthy. */
  predicate Scans(args: seq<string>, defaultFile: string, env: Environment)
  {
    var r := ParseArgs(args, defaultFile);
    r.Ok? && env.allocates && Ready(r.value, env)
  }

  /** The iterations the main loop runs: up to and including the first that sees SIGINT. */
  function Iterations(cycles: seq<Cycle>): (n: nat)
    requires FirstTrue(CtrlCFlags(cycles)) < |cycles|
    ensures 0 < n <= |cycles| && cycles[n - 1].ctrlC
    ensures forall j :: 0 <= j < n - 1 ==> !cycles[j].ctrlC
  {
    FirstTrue(CtrlCFlags(cycles)) + 1
  }

  /** The file a session writes: the header, then one line per accepted sample. */
  function SessionFile(cycles: seq<Cycle>): seq<Line>
    requires CyclesValid(cycles) && FirstTrue(CtrlCFlags(cycles)) < |cycles|
  {
    [Header] + DataLines(Session(Initial(), cycles[..Iterations(cycles)], true).records)
  }

  /** The output file from the header on: a fresh scanning state, then the main loop. */
  method Acquisition(cycles: seq<Cycle>) returns (file: seq<Line>)
    requires CyclesValid(cycles) && FirstTrue(CtrlCFlags(cycles)) < |cycles|
    ensures file == SessionFile(cycles)
  {
    var logger := new Logger();
    logger.WriteHeader();
    var _ := logger.Acquire(cycles);
    file := logger.outFile;
  }

  /**
    The actions of main after the connection attempt: on failure jump to
    on_finished; otherwise check health, start the scan, open the file, run
    the loop, stop and close. on_finished deletes the driver if it still exists.
   */
  function FinishTrace(connected: bool, live: bool, env: Environment): seq<Event>
  {
    if !connected then (if live then [DriverDeleted] else [])
    else if !CheckHealth(env.health) then [DriverDeleted]
    // a file that does not open jumps to on_finished without stopping the scan
    else if !env.fileOpens then [ScanStarted, DriverDeleted]
    else [ScanStarted, ScanStopped, FileClosed, DriverDeleted]
  }

  /** The actions of main from the driver's creation on. */
  function Trace(opts: Options, env: Environment): seq<Event>
  {
    var ch := ChannelFor(opts.transport, opts.first, opts.second);
    AttachTrace(env.link, ch) + FinishTrace(Answers(env.link, ch), !Dropped(env.link, ch), env)
  }

  /**
    Every run that creates a driver connects exactly once, over the one
    channel the options select, and deletes the driver exactly once, as its
    last action. Scanning starts only when that channel answers and the
    device is healthy; it is stopped only after a normal loop exit, which then
    closes the file before deleting the driver.
   */
  lemma TraceShape(opts: Options, env: Environment)
    ensures var events := Trace(opts, env);
            |events| >= 3 && events[..2] == [DriverCreated, Connect(ChannelFor(opts.transport, opts.first, opts.second))]
    ensures var events := Trace(opts, env);
            forall e :: e in events[2..] ==> !e.Connect?
    ensures var events := Trace(opts, env);
            events[|events| - 1] == DriverDeleted && DriverDeleted !in events[..|events| - 1]
    ensures ScanStarted in Trace(opts, env) <==> Ready(opts, env)
    ensures ScanStopped in Trace(opts, env) <==> Ready(opts, env) && env.fileOpens
    ensures var events := Trace(opts, env);
            Ready(opts, env) && env.fileOpens ==> events[|events| - 3..] == [ScanStopped, FileClosed, DriverDeleted]
  {
    var ch := ChannelFor(opts.transport, opts.first, opts.second);
    var events := Trace(opts, env);
    if Dropped(env.link, ch) || !Answers(env.link, ch) || !CheckHealth(env.health) {
      assert events == [DriverCreated, Connect(ch), DriverDeleted];
    } else if !env.fileOpens {
      assert events == [DriverCreated, Connect(ch), ScanStarted, DriverDeleted];
    } else {
      assert events == [DriverCreated, Connect(ch), ScanStarted, ScanStopped, FileClosed, DriverDeleted];
    }
  }

  /**
    main from the driver's creation on: connect, check health, start the
    scan, open the file, run the main loop, and clean up.
   */
  method Drive(opts: Options, env: Environment, cycles: seq<Cycle>) returns (events: seq<Event>, file: seq<Line>)
    requires opts.transport == SerialTransport ==> opts.useArgcBaudrate
    requires CyclesValid(cycles) && FirstTrue(CtrlCFlags(cycles)) < |cycles|
    ensures events == Trace(opts, env)
    ensures file == if Ready(opts, env) && env.fileOpens then SessionFile(cycles) else []
  {
    var attached, connected, live;
    attached, connected, live := Attach(opts, env.link);
    var tail;
    tail, file := Finish(connected, live, env, cycles);
    events := attached + tail;
  }

  /** main after the connection attempt; returns the actions from there on. */
  method Finish(connected: bool, live: bool, env: Environment, cycles: seq<Cycle>)
    returns (events: seq<Event>, file: seq<Line>)
    requires connected ==> live
    requires CyclesValid(cycles) && FirstTrue(CtrlCFlags(cycles)) < |cycles|
    ensures events == FinishTrace(connected, live, env)
    ensures file == if connected && CheckHealth(env.health) && env.fileOpens then SessionFile(cycles) else []
  {
    file := [];
    if !connected {
      events := if live then [DriverDeleted] else [];
      return;
    }
    if !CheckHealth(env.health) {
      events := [DriverDeleted];
      return;
    }
    if !env.fileOpens {
      events := [ScanStarted, DriverDeleted];
      return;
    }
    file := Acquisition(cycles);
    events := [ScanStarted, ScanStopped, FileClosed, DriverDeleted];
  }

  /**
    main. Returns the exit status, the driver-side actions in order, and the
    lines of the output file. The loop only ends when SIGINT is seen, so the
    cycles must contain one that sees it.
   */
  method RunLogger(args: seq<string>, defaultFile: string, env: Environment, cycles: seq<Cycle>)
    returns (exitCode: int, events: seq<Event>, file: seq<Line>)
    requires CyclesValid(cycles) && FirstTrue(CtrlCFlags(cycles)) < |cycles|
    // usage errors return -1 before anything is created
    ensures exitCode == USAGE_ERROR <==> ParseArgs(args, defaultFile).Err?
    // a failed driver allocation exits with -2
    ensures exitCode == -2 <==> ParseArgs(args, defaultFile).Ok? && !env.allocates
    // every other path returns 0 after the actions of Trace
    ensures exitCode == 0 <==> ParseArgs(args, defaultFile).Ok? && env.allocates
    ensures events == if exitCode == 0 then Trace(ParseArgs(args, defaultFile).value, env) else []
    // the file holds the header and every accepted record when scanning ran to a normal exit, and nothing otherwise
    ensures file == if Scans(args, defaultFile, env) && env.fileOpens then SessionFile(cycles) else []
  {
    var parsed := ParseArgs(args, defaultFile);
    if parsed.Err? {
      return parsed.error, [], [];
    }
    if !env.allocates {
      // insufficient memory: exit with -2
      return -2, [], [];
    }
    events, file := Drive(parsed.value, env, cycles);
    exitCode := 0;
  }
}
