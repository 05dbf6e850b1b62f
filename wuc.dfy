/** The commands of the watering microcontroller (wuc.go), each a short
    transaction of writes and reads on the I2C connection. The mutex that
    serialises them and the sleeps between command and answer are not
    modelled. Bit operations on bytes are written as arithmetic:
    `x & 0xFF` is `x % 256`, `x >> 8` is `x / 256`, `hi << 8 | lo` is
    `hi * 256 + lo` for bytes `hi`, `lo`, and `b & 0x80 != 0` is `b >= 128`. */
module Wuc {
  import opened GoInt
  import opened Wrappers
  import opened Bus

  const CmdGetLastWatering: byte := 0x10
  const CmdGetWaterLimit: byte := 0x11
  const CmdGetWeight: byte := 0x12
  const CmdRotate: byte := 0x13
  const CmdStop: byte := 0x14
  const CmdGetMotorStatus: byte := 0x15
  const CmdWatering: byte := 0x1A
  const CmdEcho: byte := 0x29

  /** Encoder counts per revolution of the rotating plate. */
  const CPR: int := 15808

  /** How many status polls `Rotate` and `DoWatering` allow the motor. */
  const MotorTimeout: int := 20

  /** The kinds of error the commands report. */
  datatype Fault =
    | BusError          // the connection refused a read or a write
    | InvalidLength     // a reply of the wrong length
    | MeasureFailed     // the weight sensor answered with its failure marker
    | IncompleteWrite   // the connection took only part of a frame
    | MotorNotStopped   // the motor was still running after every poll
    | LastWateringFailed
    | LimitFailed

  // ---------------------------------------------------------------- weight

  /** The two bytes of a weight reply, low byte first; a high byte of
      0xFF is the sensor's failure marker. */
  function DecodeWeight(d: seq<byte>): (r: Result<int, Fault>)
    ensures r.Ok? <==> |d| == 2 && d[1] != 0xFF
    ensures |d| != 2 ==> r == Err(InvalidLength)
    ensures |d| == 2 && d[1] == 0xFF ==> r == Err(MeasureFailed)
    ensures r.Ok? ==> 0 <= r.value <= 0xFEFF
  {
    if |d| != 2 then Err(InvalidLength)
    else if d[1] == 0xFF then Err(MeasureFailed)
    else Ok((d[1] as int) * 256 + d[0])
  }

  /** The reply a healthy sensor sends for the reading `m`. */
  function EncodeWeight(m: int): (d: seq<byte>)
    requires 0 <= m <= 0xFEFF
    ensures |d| == 2 && d[1] != 0xFF
  {
    [m % 256, m / 256]
  }

  /** Every reading in `[0, 0xFEFF]` survives the round trip. */
  lemma WeightRoundTrip(m: int)
    requires 0 <= m <= 0xFEFF
    ensures DecodeWeight(EncodeWeight(m)) == Ok(m)
  {
  }

  /** Every reply that decodes is the encoding of its reading. */
  lemma WeightReplyRoundTrip(d: seq<byte>)
    requires DecodeWeight(d).Ok?
    ensures EncodeWeight(DecodeWeight(d).value) == d
  {
    var m := DecodeWeight(d).value;
    assert EncodeWeight(m)[0] == d[0] && EncodeWeight(m)[1] == d[1];
  }

  /** The outcome of `ReadWeight` on a scripted device. */
  function WeightReading(acks: seq<Ack>, replies: seq<Reply>): (r: Result<int, Fault>)
    ensures r.Ok? ==> 0 <= r.value <= 0xFEFF
    ensures r.Ok? ==> !WriteFails(acks) && Received(replies, 2) == Some(EncodeWeight(r.value))
    ensures r.Err? ==> r.error in {BusError, InvalidLength, MeasureFailed}
  {
    if WriteFails(acks) then Err(BusError)
    else match Received(replies, 2)
      case None => Err(BusError)
      case Some(d) =>
        if DecodeWeight(d).Ok? then WeightReplyRoundTrip(d); DecodeWeight(d) else DecodeWeight(d)
  }

  // -------------------------------------------------------------- rotation

  /** `a = uint((angle*CPR/360) % CPR)` with `angle` a `uint64`: the
      product wraps modulo 2^64 before the division. */
  function EncoderCount(angle: int): (a: nat)
    requires 0 <= angle < TwoTo64
    ensures a < CPR
  {
    (U64(angle * CPR) / 360) % CPR
  }

  /** The rotate command: the count's low byte, then its high byte. */
  function RotateFrame(a: nat): (f: seq<byte>)
    requires a < CPR
    ensures |f| == 3 && f[0] == CmdRotate
    ensures (f[1] as int) + 256 * (f[2] as int) == a
  {
    [CmdRotate, a % 256, (a / 256) % 256]
  }

  lemma FullTurnCount(x: int)
    requires 0 <= x
    ensures ((x + 360 * CPR) / 360) % CPR == (x / 360) % CPR
  {
    assert (x + 360 * CPR) / 360 == x / 360 + CPR;
  }

  /** Without overflow, a full turn more gives the same encoder count. */
  lemma FullTurn(angle: int)
    requires 0 <= angle && (angle + 360) * CPR < TwoTo64
    ensures EncoderCount(angle + 360) == EncoderCount(angle)
  {
    assert (angle + 360) * CPR == angle * CPR + 360 * CPR;
    FullTurnCount(angle * CPR);
  }

  /** Without overflow, any number of full turns gives the same count. */
  lemma {:induction false} FullTurns(angle: int, turns: nat)
    requires 0 <= angle && (angle + 360 * turns) * CPR < TwoTo64
    ensures EncoderCount(angle + 360 * turns) == EncoderCount(angle)
  {
    if turns > 0 {
      assert (angle + 360 * (turns - 1)) * CPR <= (angle + 360 * turns) * CPR;
      FullTurns(angle, turns - 1);
      FullTurn(angle + 360 * (turns - 1));
    }
  }

  // ----------------------------------------------------------- motor stop

  /** A status reply with the running bit (0x80 of the second byte) clear. */
  predicate ReportsStopped(r: Reply)
  {
    r.Bytes? && |r.data| >= 2 && r.data[1] < 0x80
  }

  /** The index of the reply at which `waitForStop(timeout)` sees the
      motor stopped, if it does within `timeout` polls; failed and short
      reads only use up a poll. */
  function FirstStop(replies: seq<Reply>, timeout: int): (k: Option<nat>)
    ensures k.Some? ==> k.value < timeout && k.value < |replies| && ReportsStopped(replies[k.value])
    ensures k.Some? ==> forall j :: 0 <= j < k.value ==> !ReportsStopped(replies[j])
    ensures k.None? ==> forall j :: 0 <= j < timeout && j < |replies| ==> !ReportsStopped(replies[j])
  {
    if timeout <= 0 || replies == [] then None
    else if ReportsStopped(replies[0]) then Some(0)
    else match FirstStop(replies[1..], timeout - 1)
      case None => None
      case Some(j) => Some(j + 1)
  }

  /** A reply that reports the motor stopped, with none before it, is
      the one `FirstStop` finds. */
  lemma FirstStopAt(replies: seq<Reply>, timeout: int, i: nat)
    requires i < timeout && i < |replies| && ReportsStopped(replies[i])
    requires forall j :: 0 <= j < i ==> !ReportsStopped(replies[j])
    ensures FirstStop(replies, timeout) == Some(i)
  {
  }

  /** The script after `waitForStop(timeout)` (acknowledgements, replies). */
  function AfterPoll(acks: seq<Ack>, replies: seq<Reply>, timeout: int): (seq<Ack>, seq<Reply>)
  {
    match FirstStop(replies, timeout)
    case Some(k) => (acks, replies[k + 1..])
    case None => (Rest(acks), Drop(replies, timeout))
  }

  /** The wait consumes replies from the front, at most `timeout` of
      them, and at most one acknowledgement (that of the stop command). */
  lemma PollConsumption(acks: seq<Ack>, replies: seq<Reply>, timeout: int)
    ensures var q := AfterPoll(acks, replies, timeout);
      (q.0 == acks || q.0 == Rest(acks)) &&
      |q.1| <= |replies| && q.1 == Drop(replies, |replies| - |q.1|) &&
      (timeout >= 0 ==> |replies| - |q.1| <= timeout)
  {
  }

  /** What `waitForStop(timeout)` adds to the log: the stop command
      exactly when no poll found the motor stopped. */
  function PollFrames(replies: seq<Reply>, timeout: int): seq<seq<byte>>
  {
    if FirstStop(replies, timeout).Some? then [] else [[CmdStop]]
  }

  // ------------------------------------------------------------- watering

  /** `(ms + 125) / 250` with Go's truncating division, as a byte count
      of 250 ms units; `None` when it falls outside `[0, 255]`. */
  function Quantize(ms: int): (u: Option<byte>)
    ensures u.Some? <==> -374 <= ms <= 63874
    ensures u.Some? && ms >= -125 ==> -125 < 250 * u.value - ms <= 125
    ensures -374 <= ms < -125 ==> u == Some(0)
  {
    TruncDivBounds(ms + 125, 250);
    var s := TruncDiv(ms + 125, 250);
    if s < 0 || s > 255 then None else Some(s)
  }

  /** The over-range scenario: 99000 ms is 396 units, which does not fit
      a byte, while a start of 3000 ms would (12 units). */
  lemma OverRangeScenario()
    ensures Quantize(3000) == Some(12) && Quantize(99000).None?
  {
  }

  /** Go's truncation lets slightly negative starts through as 0 units. */
  lemma NegativeStartAccepted()
    ensures Quantize(-200) == Some(0)
  {
  }

  /** The outcome of `readLastWatering` on a scripted device. */
  function LastWatering(acks: seq<Ack>, replies: seq<Reply>): (r: Result<byte, Fault>)
    ensures r.Ok? ==> r.value != 0xFF
    ensures !WriteFails(acks) && ReceivedByte(replies) == Some(0xFF) ==> r == Err(LastWateringFailed)
  {
    if WriteFails(acks) then Err(BusError)
    else match ReceivedByte(replies)
      case None => Err(BusError)
      case Some(t) => if t == 0xFF then Err(LastWateringFailed) else Ok(t)
  }

  /** The outcome of `ReadWateringLimit` on a scripted device. */
  function WaterLimit(acks: seq<Ack>, replies: seq<Reply>): (r: Result<byte, Fault>)
    ensures r.Ok? ==> r.value != 0xFF
    ensures !WriteFails(acks) && ReceivedByte(replies) == Some(0xFF) ==> r == Err(LimitFailed)
  {
    if WriteFails(acks) then Err(BusError)
    else match ReceivedByte(replies)
      case None => Err(BusError)
      case Some(l) => if l == 0xFF then Err(LimitFailed) else Ok(l)
  }

  /** The queues after the status command `DoWatering` sends when the
      device first answers 0, and the wait for the motor, which only
      happens if that command went through. */
  function StatusWait(acks: seq<Ack>, replies: seq<Reply>): (seq<Ack>, seq<Reply>)
  {
    if WriteFails(acks) then (Rest(acks), replies)
    else AfterPoll(Rest(acks), replies, MotorTimeout)
  }

  /** The readback `DoWatering` falls back on when the device first
      answers 0: the status command, the wait, then `readLastWatering`,
      whose failure reads as 0. */
  function Requery(acks: seq<Ack>, replies: seq<Reply>): (t: byte)
    ensures t != 0xFF
  {
    var (acks', replies') := StatusWait(acks, replies);
    match LastWatering(acks', replies')
    case Ok(t) => t
    case Err(_) => 0
  }

  /** The traffic of that re-query: the status command, the stop command
      if the wait timed out, and the last-watering command. */
  function RequeryTraffic(acks: seq<Ack>, replies: seq<Reply>): (t: Traffic)
    ensures |t.sent| >= 2 && t.sent[0] == [CmdGetMotorStatus] && t.sent[|t.sent| - 1] == [CmdGetLastWatering]
  {
    var polled := if WriteFails(acks) then [] else PollFrames(replies, MotorTimeout);
    var (acks', replies') := StatusWait(acks, replies);
    var (acks'', replies'') := AfterQuery(acks', replies');
    Traffic([[CmdGetMotorStatus]] + polled + [[CmdGetLastWatering]], acks'', replies'')
  }

  /** The watering frame for a start and a duration in milliseconds, when
      both fit a byte of 250 ms units. */
  function WateringFrame(start: int, watering: int): (f: Option<seq<byte>>)
    ensures f.Some? <==> Quantize(start).Some? && Quantize(watering).Some?
    ensures f.Some? ==> f.value == [CmdWatering, Quantize(start).value, Quantize(watering).value]
  {
    match (Quantize(start), Quantize(watering))
    case (Some(s), Some(u)) => Some([CmdWatering, s, u])
    case _ => None
  }

  /** The watering time `DoWatering(start, watering)` reports on a
      scripted device, in milliseconds: 0 when a duration is out of range
      or the command did not go through whole, otherwise 250 times the
      byte read back, or the re-queried one when that byte is 0. */
  function WateringOutcome(start: int, watering: int, acks: seq<Ack>, replies: seq<Reply>): (r: int)
  {
    if WateringFrame(start, watering).None? || WriteFails(acks) || WriteCount(acks, 3) < 3 then 0
    else match ReceivedByte(replies)
      case None => 0
      case Some(b) => 250 * (if b != 0 then b else Requery(Rest(acks), Rest(replies)))
  }

  /** The traffic of `DoWatering(start, watering)`: nothing for an
      out-of-range duration; otherwise the watering frame, then the
      readback, then the re-query when the readback is 0. */
  function WateringTraffic(start: int, watering: int, acks: seq<Ack>, replies: seq<Reply>): (t: Traffic)
  {
    match WateringFrame(start, watering)
    case None => Traffic([], acks, replies)
    case Some(frame) =>
      if WriteFails(acks) || WriteCount(acks, 3) < 3 then Traffic([frame], Rest(acks), replies)
      else if ReceivedByte(replies) == Some(0) then
        var q := RequeryTraffic(Rest(acks), Rest(replies));
        Traffic([frame] + q.sent, q.acks, q.replies)
      else Traffic([frame], Rest(acks), Rest(replies))
  }

  /** The watering result is a multiple of 250 ms that fits the device's
      byte, and it is positive only after the whole watering frame went
      out first; an out-of-range duration leaves the bus untouched. */
  lemma WateringReported(start: int, watering: int, acks: seq<Ack>, replies: seq<Reply>)
    ensures var r := WateringOutcome(start, watering, acks, replies);
      r % 250 == 0 && 0 <= r <= 255 * 250
    ensures WateringFrame(start, watering).None? ==>
      WateringOutcome(start, watering, acks, replies) == 0 &&
      WateringTraffic(start, watering, acks, replies) == Traffic([], acks, replies)
    ensures WateringOutcome(start, watering, acks, replies) > 0 ==>
      WateringFrame(start, watering).Some? && !WriteFails(acks) && WriteCount(acks, 3) == 3 &&
      WateringTraffic(start, watering, acks, replies).sent[0] == WateringFrame(start, watering).value
  {
  }

  class Wuc {
    const conn: Connection

    constructor (conn: Connection)
      ensures this.conn == conn
    {
      this.conn := conn;
    }

    /** `ReadWeight`: command, then a two-byte reply. On any error the
        reading is 0. */
    method ReadWeight() returns (m: int, err: Option<Fault>)
      modifies conn
      ensures conn.sent == old(conn.sent) + [[CmdGetWeight]]
      ensures conn.acks == Rest(old(conn.acks))
      ensures conn.replies == if WriteFails(old(conn.acks)) then old(conn.replies) else Rest(old(conn.replies))
      ensures match WeightReading(old(conn.acks), old(conn.replies))
        case Ok(v) => m == v && err.None?
        case Err(e) => m == 0 && err == Some(e)
    {
      var failed := conn.WriteByte(CmdGetWeight);
      if failed {
        return 0, Some(BusError);
      }
      var buf;
      buf, failed := conn.Read(2);
      if failed {
        return 0, Some(BusError);
      }
      match DecodeWeight(buf)
      case Ok(v) => m, err := v, None;
      case Err(e) => m, err := 0, Some(e);
    }

    /** `waitForStop`: polls the motor status at most `timeout` times and
        succeeds at the first reply with the running bit clear; when the
        polls run out it sends the stop command and fails. */
    method WaitForStop(timeout: int) returns (err: Option<Fault>)
      modifies conn
      ensures FirstStop(old(conn.replies), timeout).Some? ==>
        err.None? && conn.sent == old(conn.sent) && conn.acks == old(conn.acks)
      ensures FirstStop(old(conn.replies), timeout).None? ==>
        err == Some(MotorNotStopped) && conn.sent == old(conn.sent) + [[CmdStop]]
      ensures (conn.acks, conn.replies) == AfterPoll(old(conn.acks), old(conn.replies), timeout)
    {
      var i := 0;
      while i < timeout
        invariant 0 <= i && (timeout >= 0 ==> i <= timeout) && (timeout < 0 ==> i == 0)
        invariant conn.replies == Drop(old(conn.replies), i)
        invariant conn.sent == old(conn.sent) && conn.acks == old(conn.acks)
        invariant forall j :: 0 <= j < i && j < |old(conn.replies)| ==> !ReportsStopped(old(conn.replies)[j])
      {
        var buf, failed := conn.Read(2);
        DropRest(old(conn.replies), i);
        if !failed && |buf| == 2 && buf[1] < 0x80 {
          assert ReportsStopped(old(conn.replies)[i]);
          FirstStopAt(old(conn.replies), timeout, i);
          return None;
        }
        i := i + 1;
      }
      assert FirstStop(old(conn.replies), timeout).None?;
      assert Drop(old(conn.replies), i) == Drop(old(conn.replies), timeout);
      var _ := conn.WriteByte(CmdStop);
      err := Some(MotorNotStopped);
    }

    /** `Rotate`: sends the encoder count of `angle` and waits for the
        motor. */
    method Rotate(angle: int) returns (err: Option<Fault>)
      requires 0 <= angle < TwoTo64
      modifies conn
      ensures WriteFails(old(conn.acks)) || WriteCount(old(conn.acks), 3) < 3 ==>
        err == Some(if WriteFails(old(conn.acks)) then BusError else IncompleteWrite) &&
        conn.sent == old(conn.sent) + [RotateFrame(EncoderCount(angle))] &&
        conn.acks == Rest(old(conn.acks)) && conn.replies == old(conn.replies)
      ensures !WriteFails(old(conn.acks)) && WriteCount(old(conn.acks), 3) == 3 ==>
        err == (if FirstStop(old(conn.replies), MotorTimeout).Some? then None else Some(MotorNotStopped)) &&
        conn.sent == old(conn.sent) + [RotateFrame(EncoderCount(angle))] + PollFrames(old(conn.replies), MotorTimeout) &&
        (conn.acks, conn.replies) == AfterPoll(Rest(old(conn.acks)), old(conn.replies), MotorTimeout)
    {
      var a := EncoderCount(angle);
      var cmd := RotateFrame(a);
      var n, failed := conn.Write(cmd);
      if failed {
        return Some(BusError);
      }
      if n < |cmd| {
        return Some(IncompleteWrite);
      }
      err := WaitForStop(MotorTimeout);
    }

    /** `readLastWatering`: the last watering time in 250 ms units. */
    method ReadLastWateringUnits() returns (t: byte, err: Option<Fault>)
      modifies conn
      ensures conn.sent == old(conn.sent) + [[CmdGetLastWatering]]
      ensures conn.acks == Rest(old(conn.acks))
      ensures conn.replies == if WriteFails(old(conn.acks)) then old(conn.replies) else Rest(old(conn.replies))
      ensures match LastWatering(old(conn.acks), old(conn.replies))
        case Ok(v) => t == v && err.None?
        case Err(e) => t == 0 && err == Some(e)
    {
      var failed := conn.WriteByte(CmdGetLastWatering);
      if failed {
        return 0, Some(BusError);
      }
      t, failed := conn.ReadByte();
      if failed {
        return 0, Some(BusError);
      }
      if t == 0xFF {
        return 0, Some(LastWateringFailed);
      }
      err := None;
    }

    /** `ReadLastWatering`: the last watering time in milliseconds. */
    method ReadLastWatering() returns (ms: int, err: Option<Fault>)
      modifies conn
      ensures conn.sent == old(conn.sent) + [[CmdGetLastWatering]]
      ensures (conn.acks, conn.replies) == AfterQuery(old(conn.acks), old(conn.replies))
      ensures match LastWatering(old(conn.acks), old(conn.replies))
        case Ok(v) => ms == 250 * v && err.None?
        case Err(e) => ms == 0 && err == Some(e)
    {
      var t;
      t, err := ReadLastWateringUnits();
      ms := if err.Some? then 0 else (t as int) * 250;
    }

    /** `ReadWateringLimit`: the reservoir limit sensor's byte. */
    method ReadWateringLimit() returns (l: int, err: Option<Fault>)
      modifies conn
      ensures conn.sent == old(conn.sent) + [[CmdGetWaterLimit]]
      ensures (conn.acks, conn.replies) == AfterQuery(old(conn.acks), old(conn.replies))
      ensures match WaterLimit(old(conn.acks), old(conn.replies))
        case Ok(v) => l == v && err.None?
        case Err(e) => l == 0 && err == Some(e)
    {
      var failed := conn.WriteByte(CmdGetWaterLimit);
      if failed {
        return 0, Some(BusError);
      }
      var b;
      b, failed := conn.ReadByte();
      if failed {
        return 0, Some(BusError);
      }
      if b == 0xFF {
        return 0, Some(LimitFailed);
      }
      l, err := b, None;
    }

    /** `Echo`: sends the echo command with `buf` and returns what comes
        back in a buffer one byte longer. Only a write error stops it; a
        short write does not. */
    method Echo(buf: seq<byte>) returns (r: Result<seq<byte>, Fault>)
      modifies conn
      ensures conn.sent == old(conn.sent) + [[CmdEcho] + buf]
      ensures (conn.acks, conn.replies) == AfterQuery(old(conn.acks), old(conn.replies))
      ensures WriteFails(old(conn.acks)) ==> r == Err(BusError) && conn.replies == old(conn.replies)
      ensures !WriteFails(old(conn.acks)) ==>
        r == match Received(old(conn.replies), |buf| + 1)
          case None => Err(BusError)
          case Some(d) => Ok(d)
      ensures r.Ok? ==> |r.value| <= |buf| + 1
    {
      var b := [CmdEcho] + buf;
      var _, failed := conn.Write(b);
      if failed {
        return Err(BusError);
      }
      var data;
      data, failed := conn.Read(|b|);
      if failed {
        return Err(BusError);
      }
      r := Ok(data);
    }

    /** `DoWatering`: quantises both durations to 250 ms units, refuses
        out-of-range ones without touching the bus, sends the command and
        reads back the delivered time; a first answer of 0 (motor still
        busy) is re-queried after waiting for the motor. */
    method DoWatering(start: int, watering: int) returns (r: int)
      modifies conn
      ensures r == WateringOutcome(start, watering, old(conn.acks), old(conn.replies))
      ensures var t := WateringTraffic(start, watering, old(conn.acks), old(conn.replies));
        conn.sent == old(conn.sent) + t.sent && conn.acks == t.acks && conn.replies == t.replies
    {
      var qs := Quantize(start);
      if qs.None? {
        return 0;
      }
      var qu := Quantize(watering);
      if qu.None? {
        return 0;
      }
      var s, u := qs.value, qu.value;
      var cmd := [CmdWatering, s, u];
      var n, failed := conn.Write(cmd);
      if failed || n < |cmd| {
        return 0;
      }
      var b;
      b, failed := conn.ReadByte();
      if failed {
        return 0;
      }
      if b == 0 {
        b := RequeryLastWatering();
      }
      r := (b as int) * 250;
    }

    /** The re-query block of `DoWatering`: the status command, the wait
        for the motor when that command went through, and
        `readLastWatering`, whose failure reads as 0. */
    method RequeryLastWatering() returns (b: byte)
      modifies conn
      ensures b == Requery(old(conn.acks), old(conn.replies))
      ensures var t := RequeryTraffic(old(conn.acks), old(conn.replies));
        conn.sent == old(conn.sent) + t.sent && conn.acks == t.acks && conn.replies == t.replies
    {
      var err := conn.WriteByte(CmdGetMotorStatus);
      if !err {
        var stop := WaitForStop(MotorTimeout);
      }
      assert (conn.acks, conn.replies) == StatusWait(old(conn.acks), old(conn.replies));
      var readErr;
      b, readErr := ReadLastWateringUnits();
    }
  }
}
