/**
  The conversation with the LIDAR before scanning starts: connection
  negotiation over a serial port or UDP, and the health decision. Both
  loggers contain the same code for these.
 */
module Negotiation {
  import opened LidarTypes
  import opened Cli

  /** Candidate serial baud rates, tried in this order when no baud rate is given. */
  const BAUDRATES: seq<u32> := [115200, 256000]

  /**
    Connected over a channel; no attempt succeeded; or the probe called
    connect on the driver it had just deleted (a null pointer dereference).
   */
  datatype Negotiated = Connected(channel: Channel) | NotConnected | NullDriverCall

  /** checkSLAMTECLIDARHealth: healthy iff getHealth succeeded and the status is not the error status. */
  function CheckHealth(reply: HealthReply): (healthy: bool)
    ensures healthy <==> reply.ok && reply.status != SL_LIDAR_STATUS_ERROR
    ensures healthy ==> reply.ok
  {
    if reply.ok then reply.status != SL_LIDAR_STATUS_ERROR else false
  }

  /** The single channel a command line selects (the explicit-baud serial path or UDP). */
  function ChannelFor(transport: Transport, first: string, second: u32): (ch: Channel)
    ensures ch.SerialPort? <==> transport == SerialTransport
  {
    if transport == SerialTransport then SerialPort(first, second) else Udp(first, second)
  }

  /**
    Connection negotiation. attempts lists the channels connect was called
    on, in order; driverDeleted says whether the driver was deleted because
    getDeviceInfo failed after a successful connect.
   */
  method Negotiate(transport: Transport, useArgcBaudrate: bool, first: string, second: u32, link: Link)
    returns (result: Negotiated, attempts: seq<Channel>, driverDeleted: bool)
    // connectSuccess holds iff some attempt had both calls succeed, and negotiation stops at it
    ensures result.Connected? <==> exists k :: 0 <= k < |attempts| && Answers(link, attempts[k])
    ensures result.Connected? ==> attempts != [] && result.channel == attempts[|attempts| - 1]
    ensures forall k :: 0 <= k < |attempts| - 1 ==> !Answers(link, attempts[k])
    // the driver is deleted exactly when a connect succeeded and getDeviceInfo did not
    ensures driverDeleted <==> exists k :: 0 <= k < |attempts| && link.connects(attempts[k]) && !link.answersInfo(attempts[k])
    // single attempt: explicit baud rate, or UDP
    ensures transport == SerialTransport && useArgcBaudrate ==> attempts == [SerialPort(first, second)]
    ensures transport == UdpTransport ==> attempts == [Udp(first, second)]
    ensures (transport == UdpTransport || useArgcBaudrate) ==> result != NullDriverCall
    // probe: the candidates in order, never more than the two of them
    ensures transport == SerialTransport && !useArgcBaudrate ==>
      1 <= |attempts| <= |BAUDRATES| &&
      (forall k :: 0 <= k < |attempts| ==> attempts[k] == SerialPort(first, BAUDRATES[k])) &&
      (result == NotConnected ==> |attempts| == |BAUDRATES|) &&
      (result == NullDriverCall <==> link.connects(attempts[0]) && !link.answersInfo(attempts[0]))
  {
    var connectSuccess := false;
    var driverLive := true;
    result := NotConnected;
    attempts := [];
    if transport == SerialTransport {
      if useArgcBaudrate {
        var channel := SerialPort(first, second);
        attempts := [channel];
        assert attempts[0] == channel;
        if link.connects(channel) {
          if link.answersInfo(channel) {
            connectSuccess := true;
            result := Connected(channel);
          } else {
            driverLive := false;
          }
        }
      } else {
        var i := 0;
        while i < |BAUDRATES|
          invariant 0 <= i <= |BAUDRATES| && |attempts| == i
          invariant forall k :: 0 <= k < i ==> attempts[k] == SerialPort(first, BAUDRATES[k])
          invariant forall k :: 0 <= k < i ==> !Answers(link, attempts[k])
          invariant result == NotConnected && !connectSuccess
          invariant forall k :: 0 <= k < i - 1 ==> !(link.connects(attempts[k]) && !link.answersInfo(attempts[k]))
          invariant driverLive <==> i == 0 || !(link.connects(attempts[i - 1]) && !link.answersInfo(attempts[i - 1]))
        {
          var channel := SerialPort(first, BAUDRATES[i]);
          if !driverLive {
            // drv was deleted and set to NULL after the previous getDeviceInfo failure
            assert link.connects(attempts[i - 1]) && !link.answersInfo(attempts[i - 1]);
            result := NullDriverCall;
            driverDeleted := true;
            return;
          }
          attempts := attempts + [channel];
          if link.connects(channel) {
            if link.answersInfo(channel) {
              connectSuccess := true;
              result := Connected(channel);
              assert Answers(link, attempts[i]);
              assert forall k :: 0 <= k < |attempts| ==> !(link.connects(attempts[k]) && !link.answersInfo(attempts[k]));
              break;
            } else {
              driverLive := false;
            }
          }
          i := i + 1;
        }
        if !result.Connected? && !driverLive {
          assert link.connects(attempts[i - 1]) && !link.answersInfo(attempts[i - 1]);
        }
      }
    } else {
      var channel := Udp(first, second);
      attempts := [channel];
      assert attempts[0] == channel;
      if link.connects(channel) {
        if link.answersInfo(channel) {
          connectSuccess := true;
          result := Connected(channel);
        } else {
          driverLive := false;
        }
      }
    }
    driverDeleted := !driverLive;
  }

  /** getDeviceInfo fails on a driver that did connect, which is then deleted at once. */
  predicate Dropped(link: Link, ch: Channel)
  {
    link.connects(ch) && !link.answersInfo(ch)
  }

  /** The actions of the connection attempt over a channel: create, connect, and delete again when dropped. */
  function AttachTrace(link: Link, ch: Channel): seq<Event>
  {
    [DriverCreated, Connect(ch)] + (if Dropped(link, ch) then [DriverDeleted] else [])
  }

  /**
    Create the driver and connect over the channel the options select. A
    driver whose device does not answer getDeviceInfo is deleted at once;
    live says whether the driver still exists afterwards.
   */
  method Attach(opts: Options, link: Link) returns (events: seq<Event>, connected: bool, live: bool)
    requires opts.transport == SerialTransport ==> opts.useArgcBaudrate
    ensures var ch := ChannelFor(opts.transport, opts.first, opts.second);
            (connected <==> Answers(link, ch)) && (live <==> !Dropped(link, ch)) && events == AttachTrace(link, ch)
    ensures connected ==> live
  {
    var result, attempts, deleted := Negotiate(opts.transport, opts.useArgcBaudrate, opts.first, opts.second, link);
    var channel := ChannelFor(opts.transport, opts.first, opts.second);
    assert attempts == [channel] && attempts[0] == channel;
    connected := result.Connected?;
    live := !deleted;
    events := [DriverCreated, Connect(channel)] + (if deleted then [DriverDeleted] else []);
  }

  /** The one channel the options select answers, and the device is healthy. */
  predicate Ready(opts: Options, env: Environment)
  {
    CheckHealth(env.health) && Answers(env.link, ChannelFor(opts.transport, opts.first, opts.second))
  }
}
