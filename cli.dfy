/**
  Command-line dispatch shared by both loggers:
    <prog> --channel (-s|--serial) <port> [baudrate] [output_file]
    <prog> --channel (-u|--udp) <ipaddr> [port] [output_file]
  and the C library's strtoul, which reads the optional numeric argument.
 */
module Cli {
  import opened LidarTypes

  /** Exit status of main on a usage error. */
  const USAGE_ERROR: int := -1

  /** unsigned long on an LP64 platform. */
  const ULONG_MAX: int := 0xFFFF_FFFF_FFFF_FFFF

  datatype Options = Options(
    transport: Transport,
    first: string,          // device path or IP address (argv[3])
    second: u32,            // baud rate or UDP port (argv[4]), 0 when absent
    outputFile: string,
    useArgcBaudrate: bool)

  predicate IsSpace(c: char)
  {
    c == ' ' || c == '\t' || c == '\n' || c == '\U{B}' || c == '\U{C}' || c == '\r'
  }

  predicate IsDigit(c: char)
  {
    '0' <= c <= '9'
  }

  function SkipSpaces(s: string): (t: string)
    ensures |t| <= |s| && t == s[|s| - |t|..]
    ensures t == [] || !IsSpace(t[0])
  {
    if s != [] && IsSpace(s[0]) then SkipSpaces(s[1..]) else s
  }

  /** The longest prefix of decimal digits. */
  function DigitPrefix(s: string): (t: string)
    ensures t <= s
    ensures forall i :: 0 <= i < |t| ==> IsDigit(t[i])
    ensures |t| < |s| ==> !IsDigit(s[|t|])
  {
    if s != [] && IsDigit(s[0]) then [s[0]] + DigitPrefix(s[1..]) else []
  }

  /** Value of a string of decimal digits, most significant first. */
  function DecimalValue(ds: string): nat
    requires forall i :: 0 <= i < |ds| ==> IsDigit(ds[i])
  {
    if ds == [] then 0
    else
      var k := |ds| - 1;
      assert IsDigit(ds[k]);
      DecimalValue(ds[..k]) * 10 + (ds[k] as int - '0' as int)
  }

  /**
    strtoul(s, NULL, 10): leading white space, an optional sign, then the
    longest run of decimal digits; a value beyond ULONG_MAX saturates, and a
    minus sign negates in unsigned arithmetic.
   */
  function Strtoul(s: string): (v: int)
    ensures 0 <= v <= ULONG_MAX
  {
    var t := SkipSpaces(s);
    var negative := t != [] && t[0] == '-';
    var body := if t != [] && (t[0] == '-' || t[0] == '+') then t[1..] else t;
    var magnitude := DecimalValue(DigitPrefix(body));
    if magnitude > ULONG_MAX then ULONG_MAX
    else if negative && magnitude != 0 then ULONG_MAX + 1 - magnitude
    else magnitude
  }

  /** Assigning the unsigned long to an sl_u32 keeps its low 32 bits. */
  function ToU32(v: int): (r: u32)
    requires 0 <= v
    ensures v < 0x1_0000_0000 ==> r == v
  {
    v % 0x1_0000_0000
  }

  /** Decimal rendering of a natural number, most significant digit first. */
  function Decimal(n: nat): (s: string)
    ensures s != [] && forall i :: 0 <= i < |s| ==> IsDigit(s[i])
  {
    if n < 10 then [('0' as int + n) as char]
    else Decimal(n / 10) + [('0' as int + n % 10) as char]
  }

  lemma {:induction false} DecimalValueOfDecimal(n: nat)
    ensures DecimalValue(Decimal(n)) == n
  {
    var s := Decimal(n);
    if n >= 10 {
      DecimalValueOfDecimal(n / 10);
      assert s[..|s| - 1] == Decimal(n / 10);
    }
  }

  lemma {:induction false} DigitPrefixOfDigits(s: string)
    requires forall i :: 0 <= i < |s| ==> IsDigit(s[i])
    ensures DigitPrefix(s) == s
  {
    if s != [] {
      DigitPrefixOfDigits(s[1..]);
    }
  }

  /** A baud rate or port written in decimal reads back as itself. */
  lemma ParsesDecimal(n: u32)
    ensures ToU32(Strtoul(Decimal(n))) == n
  {
    var s := Decimal(n);
    assert SkipSpaces(s) == s;
    DigitPrefixOfDigits(s);
    DecimalValueOfDecimal(n);
  }

  predicate IsSerialFlag(flag: string)
  {
    flag == "-s" || flag == "--serial"
  }

  predicate IsUdpFlag(flag: string)
  {
    flag == "-u" || flag == "--udp"
  }

  /**
    Argument dispatch; args is argv (args[0] is the program name).
    defaultFile is the time-stamped name used when no output file is given.
   */
  function ParseArgs(args: seq<string>, defaultFile: string): (r: Result<Options, int>)
    // usage errors: too few arguments, no --channel, or an unknown transport flag
    ensures r.Err? <==> |args| < 4 || args[1] != "--channel" || !(IsSerialFlag(args[2]) || IsUdpFlag(args[2]))
    ensures r.Err? ==> r.error == USAGE_ERROR
    ensures r.Ok? ==> (r.value.transport == SerialTransport <==> IsSerialFlag(args[2]))
    // choosing serial always selects the explicit-baud path
    ensures r.Ok? ==> (r.value.useArgcBaudrate <==> r.value.transport == SerialTransport)
    ensures r.Ok? ==> r.value.first == args[3]
    ensures r.Ok? && |args| == 4 ==> r.value.second == 0
    ensures r.Ok? && |args| > 4 ==> r.value.second == ToU32(Strtoul(args[4]))
    ensures r.Ok? ==> r.value.outputFile == if |args| > 5 then args[5] else defaultFile
  {
    if |args| < 4 then Err(USAGE_ERROR)
    else
      var second := if |args| > 4 then ToU32(Strtoul(args[4])) else 0;
      var output := if |args| > 5 then args[5] else defaultFile;
      if args[1] != "--channel" then Err(USAGE_ERROR)
      else if IsSerialFlag(args[2]) then Ok(Options(SerialTransport, args[3], second, output, true))
      else if IsUdpFlag(args[2]) then Ok(Options(UdpTransport, args[3], second, output, false))
      else Err(USAGE_ERROR)
  }

  /**
    The baud-rate probe needs serial without an explicit baud rate, which no
    command line selects.
   */
  lemma ProbeUnreachable(args: seq<string>, defaultFile: string)
    ensures var r := ParseArgs(args, defaultFile);
            r.Ok? && r.value.transport == SerialTransport ==> r.value.useArgcBaudrate
  {
  }

  /** A serial command line with a decimal baud rate connects at exactly that rate. */
  lemma ExplicitBaud(prog: string, flag: string, port: string, baud: u32, defaultFile: string)
    requires IsSerialFlag(flag)
    ensures var r := ParseArgs([prog, "--channel", flag, port, Decimal(baud)], defaultFile);
            r.Ok? && r.value.transport == SerialTransport && r.value.second == baud &&
            r.value.first == port && r.value.outputFile == defaultFile
  {
    ParsesDecimal(baud);
  }
}
