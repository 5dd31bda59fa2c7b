/** The RPLidar wire protocol as the driver reads it: the 7-byte reply
    header that follows a scan-start command, the 5-byte measurement
    samples, the rounding of a sample's angle to a slot of the 360-slot
    scan buffer, and one pass of the acquisition loop over a byte stream.

    Bytes are integers 0..255 (the driver applies `ord` to every received
    character), and the masks and shifts are Python's operators on
    integers, from the module `Bits`.  The driver's one floating-point value, the angle
    `raw / 64.`, is kept as the integer `raw`; every comparison and the
    rounding the driver performs on it are stated exactly in integers. */
module Protocol {
  import opened Bits

  type Byte = b: int | 0 <= b < 256

  datatype Option<T> = None | Some(value: T)

  const HeaderLength := 7
  const SampleLength := 5
  const ScanSize := 360

  /** Scan-stop command `A5 25` and scan-start command `A5 20`. */
  const StopCommand: seq<Byte> := [0xA5, 0x25]
  const StartCommand: seq<Byte> := [0xA5, 0x20]

  // ---------------------------------------------------------------------
  // Reply header
  // ---------------------------------------------------------------------

  /** The header the device sends after a scan-start command, in plain
      terms: sync bytes A5 5A, byte 2 equal to 5, the top two bits of
      byte 5 equal to 01, and byte 6 equal to 0x81. */
  predicate IsScanHeader(h: seq<Byte>)
    requires |h| == HeaderLength
  {
    h[0] == 0xA5 && h[1] == 0x5A && h[2] == 5 && 64 <= h[5] < 128 && h[6] == 0x81
  }

  /** The driver's header check: 0 accepts, 1 rejects.  The mask 0xCFFF
      on byte 2 is kept as written; on a byte it keeps all eight bits. */
  function CheckHeader(h: seq<Byte>): (r: int)
    requires |h| == HeaderLength
    ensures r == 0 || r == 1
    ensures r == 0 <==> IsScanHeader(h)
  {
    AndC0Shr6(h[5]);
    AndCFFF(h[2]);
    if 0xA5 != h[0] || 0x5A != h[1] then 1
    else if Shr(And(h[5], 0xC0), 6) != 0x01 then 1
    else if And(h[2], 0xCFFF) != 5 then 1
    else if h[6] != 0x81 then 1
    else 0
  }

  /** Bytes 3 and 4 and the low six bits of byte 5 never affect the check. */
  lemma CheckHeaderIgnoresPayload(h: seq<Byte>, g: seq<Byte>)
    requires |h| == HeaderLength && |g| == HeaderLength
    requires h[0] == g[0] && h[1] == g[1] && h[2] == g[2] && h[6] == g[6]
    requires h[5] / 64 == g[5] / 64
    ensures CheckHeader(h) == CheckHeader(g)
  {}

  /** Changing any one checked byte of an accepted header to another value
      (for byte 5: to a value whose top bits are not 01) makes it rejected. */
  lemma CheckHeaderRejectsDeviation(h: seq<Byte>, i: int, b: Byte)
    requires |h| == HeaderLength && CheckHeader(h) == 0
    requires (i in {0, 1, 2, 6} && b != h[i]) || (i == 5 && b / 64 != 1)
    ensures CheckHeader(h[i := b]) == 1
  {}

  // ---------------------------------------------------------------------
  // Measurement samples
  // ---------------------------------------------------------------------

  /** The fields the driver extracts from one 5-byte sample.  `rawAngle`
      is the angle in 1/64 degree; the driver's angle is `rawAngle / 64.`. */
  datatype Sample = Sample(quality: int, startFlag: int, startFlagInv: int,
                           rawAngle: int, distance: int, checkFlag: int)

  /** The ranges the bits of a sample allow. */
  predicate SampleOk(s: Sample)
  {
    0 <= s.quality <= 252 && s.quality % 4 == 0 &&
    s.startFlag in {0, 1} && s.startFlagInv in {0, 2} && s.checkFlag in {0, 1} &&
    0 <= s.rawAngle <= 32767 && 0 <= s.distance <= 16383
  }

  /** A sample as it comes out of the decoder. */
  type Decoded = s: Sample | SampleOk(s) witness Sample(0, 0, 0, 0, 0, 0)

  /** `b0 & 0xFC`: byte 0 with its two flag bits cleared. */
  function Quality(b0: Byte): (q: int)
    ensures q == b0 - b0 % 4
    ensures 0 <= q <= 252 && q % 4 == 0
    ensures q == 0 <==> b0 < 4
  {
    AndFC(b0);
    And(b0, 0xFC)
  }

  /** `b0 & 0x01`: the new-rotation flag. */
  function StartFlag(b0: Byte): (f: int)
    ensures f == b0 % 2
  {
    AndOne(b0);
    And(b0, 0x01)
  }

  /** `b0 & 0x02`: the inverted new-rotation flag, left in bit position 1. */
  function StartFlagInv(b0: Byte): (f: int)
    ensures f == 2 * (b0 / 2 % 2)
  {
    AndTwo(b0);
    And(b0, 0x02)
  }

  /** `b2*128 + (b1>>1)`: the angle in 1/64 degree. */
  function RawAngle(b1: Byte, b2: Byte): (raw: int)
    ensures raw == b2 * 128 + b1 / 2
    ensures 0 <= raw <= 32767
  {
    ShrOne(b1);
    b2 * 128 + Shr(b1, 1)
  }

  /** `(b4<<8 | b3) / 4`: the distance, integer division of a non-negative value. */
  function Distance(b3: Byte, b4: Byte): (d: int)
    ensures d == (b4 * 256 + b3) / 4
    ensures 0 <= d <= 16383
  {
    JoinBytes(b4, b3);
    Or(Shl(b4, 8), b3) / 4
  }

  /** `b1 & 0x01`: the check bit. */
  function CheckFlag(b1: Byte): (f: int)
    ensures f == b1 % 2
  {
    AndOne(b1);
    And(b1, 0x01)
  }

  /** Decoding one sample; every field lies in the range its bits allow. */
  function DecodeSample(d: seq<Byte>): (s: Sample)
    requires |d| == SampleLength
    ensures SampleOk(s)
    ensures s.quality == 0 <==> d[0] < 4
  {
    Sample(Quality(d[0]), StartFlag(d[0]), StartFlagInv(d[0]),
           RawAngle(d[1], d[2]), Distance(d[3], d[4]), CheckFlag(d[1]))
  }

  /** The samples of a byte stream, one per whole 5-byte group, in order. */
  function Samples(rx: seq<Byte>): (ss: seq<Decoded>)
    decreases |rx|
    ensures |ss| == |rx| / SampleLength
  {
    if |rx| < SampleLength then []
    else [DecodeSample(rx[..SampleLength])] + Samples(rx[SampleLength..])
  }

  /** The k-th sample of a stream is decoded from bytes 5k..5k+4. */
  lemma {:induction false} SamplesAt(rx: seq<Byte>, k: nat)
    requires SampleLength * k + SampleLength <= |rx|
    decreases k
    ensures Samples(rx)[k] == DecodeSample(rx[SampleLength * k..SampleLength * k + SampleLength])
  {
    if k > 0 {
      SamplesAt(rx[SampleLength..], k - 1);
      assert rx[SampleLength..][SampleLength * (k - 1)..SampleLength * (k - 1) + SampleLength]
          == rx[SampleLength * k..SampleLength * k + SampleLength];
    }
  }

  // ---------------------------------------------------------------------
  // Angles and scan slots
  // ---------------------------------------------------------------------

  /** `angle < 360.` for `angle == raw / 64.`, which is exact in floating
      point because raw < 2^15. */
  predicate AngleBelow360(raw: int)
  {
    raw < 360 * 64
  }

  /** `int(round(raw / 64.))`: the nearest integer, halves rounded up
      (away from zero, as the interpreter's `round` does; raw is never
      negative). */
  function SlotIndex(raw: int): (i: int)
    requires raw >= 0
    ensures i >= 0
    ensures 64 * i - 32 <= raw < 64 * i + 32
  {
    (raw + 32) / 64
  }

  /** A slot index is in range exactly when the raw angle is below 23008,
      that is, the angle is below 359.5 degrees.  Angles in
      [359.5, 360) still keep the loop going but index slot 360. */
  lemma SlotIndexInRange(raw: int)
    requires raw >= 0
    ensures SlotIndex(raw) < ScanSize <==> raw < 23008
    ensures !AngleBelow360(raw) ==> SlotIndex(raw) >= ScanSize
  {}

  /** A stored reading `(distance, quality)`. */
  type Reading = (int, int)

  /** One entry of the driver's 360-slot list: `None` is the initial `()`. */
  type Slot = Option<Reading>

  /** What a sample with positive quality leaves in a slot. */
  predicate StoredReading(r: Reading)
  {
    0 <= r.0 <= 16383 && 0 < r.1 <= 252 && r.1 % 4 == 0
  }

  predicate SlotOk(s: Slot)
  {
    s.None? || StoredReading(s.value)
  }

  predicate AllSlotsOk(slots: seq<Slot>)
  {
    forall j :: 0 <= j < |slots| ==> SlotOk(slots[j])
  }

  datatype Applied = Stored(slots: seq<Slot>) | IndexError(index: int)

  /** The driver's `if quality > 0: lidar_data[int(round(angle))] = distance, quality`,
      with the list index error when the rounded angle is past the end. */
  function ApplySample(slots: seq<Slot>, s: Decoded): (r: Applied)
    ensures s.quality == 0 ==> r == Stored(slots)
    ensures s.quality > 0 && SlotIndex(s.rawAngle) >= |slots| ==> r == IndexError(SlotIndex(s.rawAngle))
    ensures s.quality > 0 && SlotIndex(s.rawAngle) < |slots| ==>
              r.Stored? && |r.slots| == |slots| &&
              r.slots[SlotIndex(s.rawAngle)] == Some((s.distance, s.quality)) &&
              forall j :: 0 <= j < |slots| && j != SlotIndex(s.rawAngle) ==> r.slots[j] == slots[j]
    ensures r.Stored? && AllSlotsOk(slots) ==> AllSlotsOk(r.slots)
  {
    if s.quality > 0 then
      var i := SlotIndex(s.rawAngle);
      if i < |slots| then Stored(slots[i := Some((s.distance, s.quality))]) else IndexError(i)
    else
      Stored(slots)
  }

  /** On the 360-slot list, storing a sample of positive quality fails
      exactly when its angle is at or past 359.5 degrees (raw 23008), and
      the failing index is the rounded angle. */
  lemma StoreFailsFrom3595(slots: seq<Slot>, s: Decoded)
    requires |slots| == ScanSize && s.quality > 0
    ensures ApplySample(slots, s).IndexError? <==> s.rawAngle >= 23008
    ensures ApplySample(slots, s).IndexError? ==> ApplySample(slots, s).index == SlotIndex(s.rawAngle) >= ScanSize
  {
    SlotIndexInRange(s.rawAngle);
  }

  // ---------------------------------------------------------------------
  // One pass of the streaming loop
  // ---------------------------------------------------------------------

  /** How a pass ends: a sample at or past 360 degrees ended the loop, the
      stream ran out before a whole sample (a blocking read that never
      returns), or a sample indexed past the buffer. */
  datatype RotationEnd = Finished | Starved | Crashed(index: int)

  /** The slots after the pass, the number of samples it read and how it ended. */
  datatype Rotation = Rotation(slots: seq<Slot>, read: nat, end: RotationEnd)

  /** One execution of the inner loop `while angle < 360.` over the samples
      still to be received, starting from the buffer `slots`. */
  function RunRotation(slots: seq<Slot>, ss: seq<Decoded>): (r: Rotation)
    decreases |ss|
    ensures |r.slots| == |slots|
    ensures r.read <= |ss|
    ensures r.end == Starved <==> r.read == |ss| && forall k :: 0 <= k < |ss| ==> Continues(ss[k], |slots|)
    ensures r.end != Starved ==> r.read >= 1
    ensures r.end.Crashed? ==> r.end.index >= |slots|
    ensures AllSlotsOk(slots) ==> AllSlotsOk(r.slots)
  {
    if |ss| == 0 then Rotation(slots, 0, Starved)
    else
      match ApplySample(slots, ss[0])
      case IndexError(i) => Rotation(slots, 1, Crashed(i))
      case Stored(next) =>
        if !AngleBelow360(ss[0].rawAngle) then Rotation(next, 1, Finished)
        else
          var rest := RunRotation(next, ss[1..]);
          Rotation(rest.slots, rest.read + 1, rest.end)
  }

  /** A sample that is handled and lets the loop go on: its angle is below
      360 degrees and, if it is stored, its slot exists. */
  predicate Continues(s: Decoded, size: int)
  {
    AngleBelow360(s.rawAngle) && (s.quality > 0 ==> SlotIndex(s.rawAngle) < size)
  }

  /** The number of samples of a pass that were applied to the buffer. */
  function Applies(r: Rotation): int
  {
    r.read - (if r.end.Crashed? then 1 else 0)
  }

  /** The number of samples of a pass that let the loop go on: all of them
      when the stream ran out, all but the last otherwise. */
  function Continued(r: Rotation): int
  {
    r.read - (if r.end == Starved then 0 else 1)
  }

  /** A pass reads samples in order: every sample before the last one it
      read was handled and let the loop go on. */
  lemma {:induction false} RotationContinuesBefore(slots: seq<Slot>, ss: seq<Decoded>, k: nat)
    requires k < Continued(RunRotation(slots, ss))
    decreases |ss|
    ensures k < |ss| && Continues(ss[k], |slots|)
  {
    match ApplySample(slots, ss[0])
    case Stored(next) =>
      if k > 0 {
        RotationContinuesBefore(next, ss[1..], k - 1);
      }
  }

  /** A pass that finished ended on a sample at or past 360 degrees with
      quality 0: on the 360-slot buffer a stored sample at such an angle
      indexes past the end instead. */
  lemma {:induction false} RotationFinishes(slots: seq<Slot>, ss: seq<Decoded>)
    requires |slots| == ScanSize
    requires RunRotation(slots, ss).end == Finished
    decreases |ss|
    ensures var n := RunRotation(slots, ss).read;
            !AngleBelow360(ss[n - 1].rawAngle) && ss[n - 1].quality == 0
  {
    SlotIndexInRange(ss[0].rawAngle);
    match ApplySample(slots, ss[0])
    case Stored(next) =>
      if AngleBelow360(ss[0].rawAngle) {
        RotationFinishes(next, ss[1..]);
      }
  }

  /** A pass that crashed ended on a stored sample whose rounded angle is
      the reported index, at or past the end of the buffer. */
  lemma {:induction false} RotationCrashes(slots: seq<Slot>, ss: seq<Decoded>)
    requires RunRotation(slots, ss).end.Crashed?
    decreases |ss|
    ensures var r := RunRotation(slots, ss);
            ss[r.read - 1].quality > 0 && r.end.index == SlotIndex(ss[r.read - 1].rawAngle)
  {
    match ApplySample(slots, ss[0])
    case IndexError(i) =>
    case Stored(next) =>
      if AngleBelow360(ss[0].rawAngle) {
        RotationCrashes(next, ss[1..]);
      }
  }

  /** A sample at 359.5 degrees (raw angle 23008) with quality 4 keeps
      the loop going yet rounds to slot 360: on the empty buffer the pass
      ends with the index error instead of storing it. */
  lemma HalfDegreeBelow360Crashes()
    ensures RunRotation(seq(ScanSize, _ => None), Samples([4, 192, 179, 0, 0])).end == Crashed(360)
  {
    var rx: seq<Byte> := [4, 192, 179, 0, 0];
    assert rx[..SampleLength] == rx;
    var s := DecodeSample(rx);
    assert s.rawAngle == 23008 && s.quality == 4;
    assert Samples(rx) == [s];
  }

  /** Reference definition of what a slot ends up holding: the reading of
      the last sample of `ss` that has positive quality and rounds to slot
      `j`, if any. */
  function LastReading(ss: seq<Decoded>, j: int): Option<Reading>
  {
    if ss == [] then None
    else
      var later := LastReading(ss[1..], j);
      if later.Some? then later
      else if ss[0].quality > 0 && SlotIndex(ss[0].rawAngle) == j then Some((ss[0].distance, ss[0].quality))
      else None
  }

  /** After a pass every slot holds the reading of the last applied sample
      that targets it, and slots no sample targeted keep their old value. */
  lemma {:induction false} RotationLastWriteWins(slots: seq<Slot>, ss: seq<Decoded>, j: int)
    requires 0 <= j < |slots|
    decreases |ss|
    ensures var r := RunRotation(slots, ss);
            0 <= Applies(r) <= |ss| &&
            r.slots[j] == match LastReading(ss[..Applies(r)], j)
                          case Some(v) => Some(v)
                          case None => slots[j]
  {
    var r := RunRotation(slots, ss);
    if |ss| > 0 {
      match ApplySample(slots, ss[0])
      case IndexError(i) =>
        assert ss[..Applies(r)] == [];
      case Stored(next) =>
        if !AngleBelow360(ss[0].rawAngle) {
          assert ss[..Applies(r)] == [ss[0]];
          assert LastReading(ss[..Applies(r)][1..], j) == None;
        } else {
          var rest := RunRotation(next, ss[1..]);
          RotationLastWriteWins(next, ss[1..], j);
          assert ss[..Applies(r)][1..] == ss[1..][..Applies(rest)];
        }
    } else {
      assert ss[..Applies(r)] == [];
    }
  }

  /** The buffer a pass leaves keeps its length, and each slot ends up with
      either its old value or a reading of a sample with positive quality. */
  lemma RotationKeepsBuffer(slots: seq<Slot>, ss: seq<Decoded>)
    requires AllSlotsOk(slots)
    ensures var r := RunRotation(slots, ss);
            |r.slots| == |slots| && AllSlotsOk(r.slots) &&
            forall j :: 0 <= j < |slots| ==> r.slots[j] == slots[j] || r.slots[j].Some?
  {
    var r := RunRotation(slots, ss);
    forall j | 0 <= j < |slots|
      ensures r.slots[j] == slots[j] || r.slots[j].Some?
    {
      RotationLastWriteWins(slots, ss, j);
    }
  }

  // ---------------------------------------------------------------------
  // Snapshot
  // ---------------------------------------------------------------------

  /** The consumer's view of the buffer: a stored pair as it is, `(0,0)`
      for a slot never written.  On a well-formed buffer every pair is a
      stored reading of positive quality or the sentinel `(0,0)`. */
  function Snapshot(slots: seq<Slot>): (scan: seq<Reading>)
    ensures |scan| == |slots|
    ensures AllSlotsOk(slots) ==> forall j :: 0 <= j < |scan| ==> scan[j] == (0, 0) || StoredReading(scan[j])
  {
    seq(|slots|, j requires 0 <= j < |slots| => if slots[j].Some? then slots[j].value else (0, 0))
  }

  /** Reads a snapshot back as slots, taking `(0,0)` for a slot never written. */
  function FromSnapshot(scan: seq<Reading>): (slots: seq<Slot>)
    ensures |slots| == |scan|
  {
    seq(|scan|, j requires 0 <= j < |scan| => if scan[j] == (0, 0) then None else Some(scan[j]))
  }

  /** The sentinel cannot be confused with a reading: a stored quality is
      never 0, so a snapshot of a well-formed buffer loses nothing. */
  lemma SnapshotLossless(slots: seq<Slot>)
    requires AllSlotsOk(slots)
    ensures FromSnapshot(Snapshot(slots)) == slots
  {
    var back := FromSnapshot(Snapshot(slots));
    forall j | 0 <= j < |slots|
      ensures back[j] == slots[j]
    {
      assert SlotOk(slots[j]);
    }
  }
}
