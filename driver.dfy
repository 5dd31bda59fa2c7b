/** The `RPLidar` driver object: the acquisition state, the 360-slot list
    it fills in place, the speed attribute, the scan-stop and scan-start
    handshakes, one iteration of the acquisition loop and the accessors a
    consumer calls.

    The serial port is the class `Serial`: the bytes the device will send
    are fixed in advance and read through a cursor, and each write records
    the command sent.  The number of bytes the port reports as written is
    not something the driver decides, so callers supply it. */
module Driver {
  import opened Protocol

  /** The result of a call that reads from the port: it returns a value,
      or it blocks forever because the device sends fewer bytes than the
      read asks for (the port is opened without a timeout). */
  datatype Io<T> = Done(value: T) | Blocked

  /** How one iteration of the acquisition loop ends: the loop goes on, the
      thread blocks in a read, or a list index error ends the reader thread. */
  datatype StepOutcome = Continue | Stalled | Fatal(index: int)

  function OutcomeOf(e: RotationEnd): StepOutcome
  {
    match e
    case Finished => Continue
    case Starved => Stalled
    case Crashed(i) => Fatal(i)
  }

  /** A pass result with `c` more samples read before it. */
  function Offset(r: Rotation, c: nat): Rotation
  {
    Rotation(r.slots, r.read + c, r.end)
  }

  /** The commands of n stop-start handshakes, in the order they are sent. */
  function Handshakes(n: nat): (cmds: seq<seq<Byte>>)
    ensures |cmds| == 2 * n
    ensures forall k :: 0 <= k < n ==> cmds[2 * k] == StopCommand && cmds[2 * k + 1] == StartCommand
  {
    if n == 0 then [] else Handshakes(n - 1) + [StopCommand, StartCommand]
  }

  class Serial {
    /** Every byte the device sends, in order. */
    const rx: seq<Byte>
    /** How many of them have been read. */
    var pos: nat
    /** Every command written, in order. */
    var sent: seq<seq<Byte>>

    ghost predicate Valid()
      reads this
    {
      pos <= |rx|
    }

    /** The bytes not read yet. */
    ghost function Pending(): seq<Byte>
      reads this
      requires Valid()
    {
      rx[pos..]
    }

    constructor (rx: seq<Byte>)
      ensures Valid() && this.rx == rx && pos == 0 && sent == []
    {
      this.rx := rx;
      pos := 0;
      sent := [];
    }

    /** `read(n)`: the next n bytes, or a read that never returns. */
    method Read(n: nat) returns (r: Io<seq<Byte>>)
      requires Valid()
      modifies this`pos
      ensures Valid()
      ensures n <= |old(Pending())| ==> r == Done(old(Pending())[..n]) && pos == old(pos) + n
      ensures |old(Pending())| < n ==> r == Blocked && pos == old(pos)
    {
      if pos + n <= |rx| {
        assert rx[pos..pos + n] == rx[pos..][..n];
        r := Done(rx[pos..pos + n]);
        pos := pos + n;
      } else {
        r := Blocked;
      }
    }

    /** `write(cmd)`: sends the command and returns the count the port reports. */
    method Write(cmd: seq<Byte>, reported: int) returns (written: int)
      modifies this`sent
      ensures sent == old(sent) + [cmd] && written == reported
    {
      sent := sent + [cmd];
      written := reported;
    }
  }

  class RPLidar {
    const ser: Serial
    /** 0 searching for a scan header, 1 streaming samples. */
    var state: int
    /** The scan buffer, indexed by rounded angle. */
    const lidarData: array<Slot>
    var speedRpm: int

    ghost predicate Valid()
      reads this, lidarData, ser
    {
      lidarData.Length == ScanSize && speedRpm == 0 && AllSlotsOk(lidarData[..]) && ser.Valid()
    }

    /** The state a new driver starts in; starting the reader thread is not modelled. */
    constructor (ser: Serial)
      requires ser.Valid()
      ensures Valid() && this.ser == ser && fresh(lidarData)
      ensures state == 0 && forall j :: 0 <= j < ScanSize ==> lidarData[j] == None
    {
      this.ser := ser;
      state := 0;
      lidarData := new Slot[ScanSize](_ => None);
      speedRpm := 0;
    }

    /** 360 pairs: each a reading stored by a sample of positive quality,
        or `(0,0)` for a slot never written. */
    function GetScan(): (scan: seq<Reading>)
      reads this, lidarData, ser
      requires Valid()
      ensures |scan| == ScanSize
      ensures forall j :: 0 <= j < ScanSize ==> scan[j] == (0, 0) || StoredReading(scan[j])
      ensures forall j :: 0 <= j < ScanSize ==>
                (lidarData[j].Some? ==> scan[j] == lidarData[j].value) &&
                (lidarData[j].None? ==> scan[j] == (0, 0))
    {
      Snapshot(lidarData[..])
    }

    /** The speed attribute is set to 0 at construction and never assigned. */
    function GetRPM(): (rpm: int)
      reads this, lidarData, ser
      requires Valid()
      ensures rpm == 0
    {
      speedRpm
    }

    /** Sends scan-stop; 0 when the port reports both bytes written, 1 otherwise. */
    method StopScan(reported: int) returns (rc: int)
      modifies ser`sent
      ensures ser.sent == old(ser.sent) + [StopCommand]
      ensures rc == 0 || rc == 1
      ensures rc == 0 <==> reported == 2
    {
      var i := ser.Write(StopCommand, reported);
      if i != 2 {
        rc := 1;
      } else {
        rc := 0;
      }
    }

    /** Sends scan-start; on a short write returns 1 without reading,
        otherwise reads the 7-byte reply and returns its header check. */
    method StartScan(reported: int) returns (rc: Io<int>)
      requires ser.Valid()
      modifies ser`sent, ser`pos
      ensures ser.Valid() && ser.sent == old(ser.sent) + [StartCommand]
      ensures reported != 2 ==> rc == Done(1) && ser.pos == old(ser.pos)
      ensures reported == 2 && HeaderLength <= |old(ser.Pending())| ==>
                rc == Done(CheckHeader(old(ser.Pending())[..HeaderLength])) &&
                ser.pos == old(ser.pos) + HeaderLength
      ensures reported == 2 && |old(ser.Pending())| < HeaderLength ==>
                rc == Blocked && ser.pos == old(ser.pos)
    {
      var i := ser.Write(StartCommand, reported);
      if i != 2 {
        return Done(1);
      }
      var header := ser.Read(HeaderLength);
      if header.Blocked? {
        return Blocked;
      }
      rc := Done(CheckHeader(header.value));
    }

    /** The inner loop `while angle < 360.` of the streaming state: reads
        5-byte samples and stores each one of positive quality at its
        rounded angle, until a sample at or past 360 degrees. */
    method ReadRotation() returns (end: RotationEnd)
      requires Valid() && state == 1
      modifies ser`pos, lidarData
      ensures Valid()
      ensures var r := RunRotation(old(lidarData[..]), Samples(old(ser.Pending())));
              lidarData[..] == r.slots && ser.pos == old(ser.pos) + SampleLength * r.read && end == r.end
    {
      ghost var slots0, ss0, pos0 := lidarData[..], Samples(ser.Pending()), ser.pos;
      ghost var count := 0;
      var angle := 0;
      while AngleBelow360(angle)
        invariant Valid() && ser.pos == pos0 + SampleLength * count
        invariant AngleBelow360(angle) ==>
                    RunRotation(slots0, ss0) == Offset(RunRotation(lidarData[..], Samples(ser.Pending())), count)
        invariant !AngleBelow360(angle) ==>
                    RunRotation(slots0, ss0) == Rotation(lidarData[..], count, Finished)
        decreases |ser.rx| - ser.pos
      {
        ghost var slots, rx := lidarData[..], ser.Pending();
        var data := ser.Read(SampleLength);
        if data.Blocked? {
          return Starved;
        }
        assert data.value == rx[..SampleLength] && ser.Pending() == rx[SampleLength..];
        var sample := DecodeSample(data.value);
        assert Samples(rx) == [sample] + Samples(ser.Pending());
        if state == 1 && sample.quality > 0 {
          var i := SlotIndex(sample.rawAngle);
          if i >= lidarData.Length {
            count := count + 1;
            return Crashed(i);
          }
          lidarData[i] := Some((sample.distance, sample.quality));
        }
        assert ApplySample(slots, sample) == Stored(lidarData[..]);
        angle := sample.rawAngle;
        count := count + 1;
      }
      return Finished;
    }

    /** One iteration of the driver's outer `while True` loop. */
    method Step(stopReported: int, startReported: int) returns (o: StepOutcome)
      requires Valid()
      modifies this`state, ser`sent, ser`pos, lidarData
      ensures Valid() && (state == 0 || state == 1)
      ensures old(state) == 0 ==>
                var pending := old(ser.Pending());
                var replied := startReported == 2 && HeaderLength <= |pending|;
                lidarData[..] == old(lidarData[..]) &&
                ser.sent == old(ser.sent) + [StopCommand, StartCommand] &&
                ser.pos == old(ser.pos) + (if replied then HeaderLength else 0) &&
                (state == 1 <==> replied && IsScanHeader(pending[..HeaderLength])) &&
                o == (if startReported == 2 && !replied then Stalled else Continue)
      ensures old(state) == 1 ==>
                var r := RunRotation(old(lidarData[..]), Samples(old(ser.Pending())));
                state == 1 && ser.sent == old(ser.sent) &&
                lidarData[..] == r.slots && ser.pos == old(ser.pos) + SampleLength * r.read &&
                o == OutcomeOf(r.end)
      ensures old(state) != 0 && old(state) != 1 ==>
                state == 0 && o == Continue && lidarData[..] == old(lidarData[..]) &&
                ser.sent == old(ser.sent) && ser.pos == old(ser.pos)
    {
      if state == 0 {
        var _ := StopScan(stopReported);
        var rc := StartScan(startReported);
        if rc == Done(0) {
          state := 1;
        } else {
          state := 0;
        }
        o := if rc.Blocked? then Stalled else Continue;
      } else if state == 1 {
        var end := ReadRotation();
        o := OutcomeOf(end);
      } else {
        state := 0;
        o := Continue;
      }
    }

    /** The outer `while True` loop, one iteration per pair of write counts
        in `reports` (scan-stop's, scan-start's), until the reader thread
        blocks or a list index error ends it.  `handshakes` counts the
        iterations that ran the stop-start handshake. */
    method Run(reports: seq<(int, int)>) returns (o: StepOutcome, steps: nat, ghost handshakes: nat)
      requires Valid()
      modifies this`state, ser`sent, ser`pos, lidarData
      ensures Valid() && steps <= |reports| && handshakes <= steps
      ensures o == Continue ==> steps == |reports|
      ensures steps > 0 ==> state == 0 || state == 1
      ensures ser.sent == old(ser.sent) + Handshakes(handshakes)
      ensures state != 1 ==> lidarData[..] == old(lidarData[..])
      ensures old(state) == 1 ==> state == 1 && handshakes == 0
      ensures o.Fatal? ==> o.index >= ScanSize
    {
      o, steps, handshakes := Continue, 0, 0;
      while steps < |reports| && o == Continue
        invariant Valid() && steps <= |reports| && handshakes <= steps
        invariant steps > 0 ==> state == 0 || state == 1
        invariant ser.sent == old(ser.sent) + Handshakes(handshakes)
        invariant state != 1 ==> old(state) != 1 && lidarData[..] == old(lidarData[..])
        invariant old(state) == 1 ==> state == 1 && handshakes == 0
        invariant o.Fatal? ==> o.index >= ScanSize
      {
        if state == 0 {
          handshakes := handshakes + 1;
        }
        o := Step(reports[steps].0, reports[steps].1);
        steps := steps + 1;
      }
    }
  }
}
