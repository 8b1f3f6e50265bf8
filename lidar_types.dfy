/**
  Vocabulary shared by both loggers: the fixed-width integer types of the
  SLAMTEC SDK, the measurement node the driver hands over, the record written
  to the CSV file, and the driver and environment seen as oracles.
 */
module LidarTypes {

  type u8 = x: int | 0 <= x < 0x100
  type u16 = x: int | 0 <= x < 0x1_0000
  type u32 = x: int | 0 <= x < 0x1_0000_0000

  datatype Result<T, E> = Ok(value: T) | Err(error: E)

  /** One bar per degree. */
  const BARCOUNT: int := 360
  /** At most this many records per integer degree between two counter resets. */
  const MAX_POINTS_PER_DEGREE: int := 5
  /** Health status code the SDK reports for an internal device error. */
  const SL_LIDAR_STATUS_ERROR: int := 2

  /**
    One HQ measurement node: the angle in units of 90/16384 degree, the
    distance in quarter millimetres, and the signal quality.
   */
  datatype Sample = Sample(angleQ14: u16, distQ2: u32, quality: u8)

  /**
    The integer degree of a fixed-point angle. The source computes
    (int)((q14 * 90.f) / 16384.f); q14 * 90 < 2^23 and 16384 is a power of
    two, so the single-precision value is exact and truncation is the integer
    quotient. The result is always a valid bar index.
   */
  function Degree(q14: u16): (d: int)
    ensures 0 <= d < BARCOUNT
    ensures d * 16384 <= q14 * 90 < (d + 1) * 16384
  {
    q14 * 90 / 16384
  }

  /**
    One CSV line of data, fields in the file's column order: timestamp,
    angle, distance, quality, scan_number. Angle and distance are kept in
    their exact fixed-point form (degrees = angleQ14 * 90 / 16384,
    millimetres = distQ2 / 4).
   */
  datatype Record = Record(timestamp: int, angleQ14: u16, distQ2: u32, quality: u8, scanNumber: int)

  /** A line of the output file: the header naming the five columns, or one data record. */
  datatype Line = Header | Data(record: Record)

  /** The lines of data written for records, in order. */
  function DataLines(records: seq<Record>): (lines: seq<Line>)
    ensures |lines| == |records|
    ensures forall i :: 0 <= i < |records| ==> lines[i] == Data(records[i])
  {
    seq(|records|, i requires 0 <= i < |records| => Data(records[i]))
  }

  lemma DataLinesAppend(a: seq<Record>, b: seq<Record>)
    ensures DataLines(a + b) == DataLines(a) + DataLines(b)
  {
  }

  /** The transport chosen on the command line. */
  datatype Transport = SerialTransport | UdpTransport

  /** A channel the driver is asked to connect over. */
  datatype Channel = SerialPort(device: string, baud: u32) | Udp(addr: string, port: u32)

  /**
    The driver seen from the application: whether connect over a channel
    succeeds, and whether getDeviceInfo then succeeds.
   */
  datatype Link = Link(connects: Channel -> bool, answersInfo: Channel -> bool)

  /** Both calls of one connection attempt succeed. */
  predicate Answers(link: Link, ch: Channel)
  {
    link.connects(ch) && link.answersInfo(ch)
  }

  /** Result of getHealth: whether the call succeeded, and the status it reported. */
  datatype HealthReply = HealthReply(ok: bool, status: int)

  /** Result of one grabScanDataHq call; on success the batch is already in ascending angle order. */
  datatype Poll = Failed | Grabbed(samples: seq<Sample>, clock: seq<int>)

  /**
    Each grabbed sample comes with the value time() returns if that sample is
    written, so the clock has one entry per sample.
   */
  predicate PollValid(p: Poll)
  {
    p.Grabbed? ==> |p.clock| == |p.samples|
  }

  /**
    One iteration of a logger's main loop: the poll result, and the stop
    flags as they are observed in that iteration (SIGINT; the window's close
    request in the visual variant).
   */
  datatype Cycle = Cycle(poll: Poll, ctrlC: bool, windowClose: bool)

  /** The SIGINT flag as the data logger reads it at the end of each iteration. */
  function CtrlCFlags(cycles: seq<Cycle>): (flags: seq<bool>)
    ensures |flags| == |cycles| && forall i :: 0 <= i < |cycles| ==> flags[i] == cycles[i].ctrlC
  {
    seq(|cycles|, i requires 0 <= i < |cycles| => cycles[i].ctrlC)
  }

  /** The visual logger's loop condition, negated: shouldClose or the window asks to close. */
  function CloseFlags(cycles: seq<Cycle>): (flags: seq<bool>)
    ensures |flags| == |cycles| && forall i :: 0 <= i < |cycles| ==> flags[i] == (cycles[i].ctrlC || cycles[i].windowClose)
  {
    seq(|cycles|, i requires 0 <= i < |cycles| => cycles[i].ctrlC || cycles[i].windowClose)
  }

  /** Everything the environment answers after argument parsing. */
  datatype Environment = Environment(
    glReady: bool,       // initOpenGL succeeds (visual variant only)
    allocates: bool,     // createLidarDriver returns a driver
    link: Link,
    health: HealthReply,
    fileOpens: bool)     // the output file can be opened

  /** Observable actions of a logger run, in order. */
  datatype Event =
    | GLInitialized
    | GLCleanedUp
    | DriverCreated
    | Connect(channel: Channel)
    | DriverDeleted
    | ScanStarted
    | ScanStopped
    | FileClosed

  /** The index of the first true flag, or |flags| when there is none. */
  function FirstTrue(flags: seq<bool>): (k: nat)
    ensures k <= |flags|
    ensures forall j :: 0 <= j < k ==> !flags[j]
    ensures k < |flags| ==> flags[k]
  {
    if flags == [] then 0
    else if flags[0] then 0
    else 1 + FirstTrue(flags[1..])
  }
}
