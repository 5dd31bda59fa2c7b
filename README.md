# RPLidar driver core in Dafny

This project models the `RPLidar` class of `rplidar/__init__.py`, a Python 2
driver for a rotating laser rangefinder. The driver talks to the device over
a serial port. It sends a scan-stop command (`A5 25`) and a scan-start command
(`A5 20`), then checks the 7-byte reply header. After that it decodes a
stream of 5-byte measurement samples into a 360-slot list indexed by rounded
angle. A consumer reads that list with `getScan`.

The project has three modules:

- `Bits` (`bits.dfy`) defines Python's `&`, `|`, `>>` and `<<` on
  non-negative integers, bit by bit. Its lemmas give the masks and shifts
  the driver uses their arithmetic meaning, for example "`b & 0xFC` is `b`
  with its low two bits cleared".
- `Protocol` (`protocol.dfy`) holds the pure parts:
  - the header check `CheckHeader`;
  - the per-field sample decoding and `DecodeSample`;
  - splitting a byte stream into 5-byte samples, `Samples`;
  - the rounding of the angle to a slot, `SlotIndex`;
  - storing one sample, `ApplySample`;
  - one pass of the streaming loop as a function over the decoded samples,
    `RunRotation`;
  - the consumer's view of the buffer, `Snapshot`.

  It also holds the lemmas about these functions: which headers are
  accepted, the order in which a pass reads samples and how it stops, and
  which reading each slot ends up with.
- `Driver` (`driver.dfy`) holds the imperative parts:
  - `Serial`, an abstract port. It has a fixed stream of incoming bytes with
    a read cursor, and a log of the commands written.
  - `RPLidar`, which has the fields `state`, `lidarData` (an `array` of 360
    slots that is updated in place) and `speedRpm`.

  Its methods are `StopScan`, `StartScan`, `ReadRotation` (the real inner
  `while angle < 360.` loop, which reads 5 bytes at a time from the port),
  `Step` (one pass of the outer `while True`) and `Run` (several passes).
  Each state-changing method is proved against the `Protocol` functions.

How the source's values are represented:

- Bytes are integers 0..255.
- The one floating-point value, `angle = raw / 64.`, is kept as the integer
  `raw = b2*128 + (b1>>1)`:
  - `angle < 360.` is `raw < 23040`;
  - `int(round(angle))` (Python 2 rounds halves away from zero) is
    `(raw + 32) / 64`.

  Both are exact because `raw < 2^15`.
- A slot that was never written (the source's `()`) is `None`.

Some consequences of the code as written, all proved:

- A stored sample whose angle is in [359.5, 360) keeps the loop going. But
  it rounds to index 360, which is past the end of the 360-slot list. The
  assignment raises an index error, the bare `except:` catches it and
  `exit(0)` ends the reader thread (`Protocol.HalfDegreeBelow360Crashes`).
  The consumer's thread carries on and `getScan` keeps returning the last
  buffer.
- On the 360-slot list, storing a sample of positive quality fails exactly
  when its angle is at or past 359.5 degrees (`Protocol.StoreFailsFrom3595`).
  So a pass can only finish normally on a quality-0 sample at or past 360
  degrees (`Protocol.RotationFinishes`). A pass that fails ends on the
  stored sample whose rounded angle is the failing index
  (`Protocol.RotationCrashes`).
- The code applies no angle offset and takes no modulo: the slot is
  `int(round(angle))` (rplidar/__init__.py:129). Its start-flag and
  check-bit tests are commented out (rplidar/__init__.py:122-126). It has
  no input flush, no exit flag, no shutdown sequence and no motor power
  control. A stored reading may have distance 0.
- The header mask `0xCFFF` on byte 2 is kept literally. On a byte it
  compares the whole byte with 5.

## Model

| member | source | states |
|---|---|---|
| `Bits.AndFC` | rplidar/__init__.py:107 | for a byte `b`, `b & 0xFC` is b with its low two bits cleared |
| `Bits.AndOne` | rplidar/__init__.py:110 | `a & 0x01` is the low bit of a |
| `Bits.AndTwo` | rplidar/__init__.py:111 | `a & 0x02` is twice bit 1 of a |
| `Bits.ShrOne` | rplidar/__init__.py:114 | `a >> 1` is a div 2 |
| `Bits.JoinBytes` | rplidar/__init__.py:117 | for a byte `lo`, `hi << 8 \| lo` is 256*hi + lo |
| `Bits.AndC0Shr6` | rplidar/__init__.py:60 | for a byte `b`, `(b & 0xC0) >> 6` is b div 64, its top two bits |
| `Bits.AndCFFF` | rplidar/__init__.py:62 | for a byte `b`, `b & 0xCFFF` is b itself |
| `Protocol.CheckHeader` | rplidar/__init__.py:56-66 | result is 0 or 1; 0 exactly when byte 0 is 0xA5, byte 1 is 0x5A, byte 2 is 5 (the 0xCFFF mask keeps a whole byte), the top two bits of byte 5 are 01 and byte 6 is 0x81 |
| `Protocol.CheckHeaderIgnoresPayload` | rplidar/__init__.py:56-66 | two headers that agree on bytes 0, 1, 2, 6 and on the top two bits of byte 5 get the same result: bytes 3, 4 and the low six bits of byte 5 are ignored |
| `Protocol.CheckHeaderRejectsDeviation` | rplidar/__init__.py:56-66 | changing one checked byte of an accepted header (byte 5: to top bits other than 01) makes it rejected |
| `Protocol.Quality` | rplidar/__init__.py:106-107 | `b0 & 0xFC` is b0 with its low two bits cleared: a multiple of 4 in 0..252, 0 exactly when b0 < 4 |
| `Protocol.StartFlag` | rplidar/__init__.py:109-110 | `b0 & 0x01` is the low bit of b0 |
| `Protocol.StartFlagInv` | rplidar/__init__.py:111 | `b0 & 0x02` is twice bit 1 of b0 |
| `Protocol.RawAngle` | rplidar/__init__.py:113-114 | `b2*128 + (b1>>1)` equals b2*128 + b1 div 2 and lies in 0..32767 |
| `Protocol.Distance` | rplidar/__init__.py:116-117 | `(b4<<8 \| b3) / 4` equals (256*b4 + b3) div 4 and lies in 0..16383 |
| `Protocol.CheckFlag` | rplidar/__init__.py:119-120 | `b1 & 0x01` is the low bit of b1 |
| `Protocol.DecodeSample` | rplidar/__init__.py:104-120 | quality is a multiple of 4 in 0..252 and is 0 exactly when b0 < 4; start flag in {0,1}, inverted start flag in {0,2}, check flag in {0,1}; raw angle in 0..32767; distance in 0..16383 |
| `Protocol.Samples` | rplidar/__init__.py:103-104 | a stream of n bytes holds n div 5 whole samples, each one within those ranges |
| `Protocol.SamplesAt` | rplidar/__init__.py:104 | the k-th sample is the decoding of bytes 5k..5k+4 |
| `Protocol.SlotIndex` | rplidar/__init__.py:129 | `int(round(raw/64.))` is the non-negative integer i with 64i-32 <= raw < 64i+32 (halves round up) |
| `Protocol.StoreFailsFrom3595` | rplidar/__init__.py:128-129 | on the 360-slot list a sample of positive quality gives the index error exactly when its raw angle is at least 23008 (359.5 degrees), and the error's index is its rounded angle, at least 360 |
| `Protocol.SlotIndexInRange` | rplidar/__init__.py:114-129 | the slot index is below 360 exactly when raw < 23008; an angle at or past 360 always indexes past the list |
| `Protocol.ApplySample` | rplidar/__init__.py:128-129 | quality 0 leaves the slots unchanged; positive quality with index in range sets only that slot to (distance, quality), keeping length and all other slots; positive quality with index past the end is the index error carrying that index; well-formed slots stay well-formed |
| `Protocol.RunRotation` | rplidar/__init__.py:102-129 | one pass keeps the buffer length and reads at most the samples available; it runs out of input exactly when it read every sample and every one let the loop go on; it reports an index error only for an index at or past the buffer end; it keeps every slot well-formed |
| `Protocol.RotationContinuesBefore` | rplidar/__init__.py:102-114 | every sample read before the last one of a pass has an angle below 360 and, if stored, a slot in range |
| `Protocol.RotationFinishes` | rplidar/__init__.py:103-129 | on the 360-slot buffer, a pass that ends normally ends on the first sample at or past 360 degrees, and that sample has quality 0 |
| `Protocol.RotationCrashes` | rplidar/__init__.py:128-136 | a pass that ends in the index error ends on a sample with positive quality whose rounded angle is the reported index |
| `Protocol.HalfDegreeBelow360Crashes` | rplidar/__init__.py:114-136 | a sample at 359.5 degrees (raw angle 23008) with quality 4 on an empty buffer ends the pass with the index error at index 360 |
| `Protocol.RotationLastWriteWins` | rplidar/__init__.py:102-129 | after a pass each slot holds the reading of the last applied sample of positive quality that rounds to it, and otherwise its old value |
| `Protocol.RotationKeepsBuffer` | rplidar/__init__.py:36-129 | a pass keeps the buffer length and its well-formedness; each slot keeps its old value or holds a stored reading |
| `Protocol.Snapshot` | rplidar/__init__.py:40-44 | a snapshot has one pair per slot; on a well-formed buffer each pair is (0,0) or a reading of positive quality, quality a multiple of 4 up to 252, distance up to 16383 |
| `Protocol.SnapshotLossless` | rplidar/__init__.py:36-44 | the sentinel (0,0) is never a stored reading, so a snapshot of a well-formed buffer read back slot by slot gives that buffer again |
| `Driver.Serial.Read` | rplidar/__init__.py:52-54 | returns the next n bytes and advances the cursor by n, or blocks with the cursor unchanged when fewer than n bytes remain |
| `Driver.Serial.Write` | rplidar/__init__.py:69 | appends the command to the log of sent commands and returns the count the port reports |
| `Driver.RPLidar.constructor` | rplidar/__init__.py:26-38 | a new driver is in state 0 with 360 unwritten slots and speed 0 |
| `Driver.RPLidar.GetScan` | rplidar/__init__.py:40-44 | always exactly 360 pairs; each is the stored pair of its slot or (0,0) for an unwritten slot, and so is (0,0) or a reading of positive quality |
| `Driver.RPLidar.GetRPM` | rplidar/__init__.py:46-50 | always 0: the speed is set at construction and never reassigned |
| `Driver.RPLidar.StopScan` | rplidar/__init__.py:68-73 | sends `A5 25`; returns 0 exactly when the port reports 2 bytes written, otherwise 1 |
| `Driver.RPLidar.StartScan` | rplidar/__init__.py:75-80 | sends `A5 20`; when the port reports a count other than 2 returns 1 without reading; otherwise reads 7 bytes and returns their header check, or blocks if fewer than 7 arrive |
| `Driver.RPLidar.ReadRotation` | rplidar/__init__.py:100-129 | the inner loop leaves exactly the buffer and ending of `RunRotation` on the samples of the pending bytes, and advances the read position by 5 bytes per sample read |
| `Driver.RPLidar.Step` | rplidar/__init__.py:86-132 | state 0 sends stop then start and becomes 1 exactly when the 7-byte reply is a scan header, with the buffer unchanged; state 1 stays 1 and runs one pass; any other state becomes 0 with nothing else changed; afterwards the state is 0 or 1 |
| `Driver.Handshakes` | rplidar/__init__.py:68-80 | n handshakes are 2n commands, each stop (`A5 25`) followed by start (`A5 20`) |
| `Driver.RPLidar.Run` | rplidar/__init__.py:82-136 | repeated steps stop only when the reports run out, the thread blocks or an index error occurs; the only fatal index is one at or past 360; every command sent belongs to a stop-start handshake, at most one per step; a run that never reaches state 1 leaves the buffer unchanged; a run that starts in state 1 stays in state 1 and sends nothing |

## Left out

- Opening the port (`serial.Serial(com_port, 115200)`) and the ISO-8859-1 decode before `ord` are left out. The incoming bytes are given to `Serial` as integers 0..255.
- The port is opened without a timeout, so a read of more bytes than the device ever sends never returns. The model reports this as `Blocked`/`Stalled` instead of hanging.
- `Driver.Serial.Write`: the byte count the port reports is a parameter supplied by the caller, because the model does not model the operating system's write.
- The reader thread, its daemon flag and the `time.sleep` calls for throttling and settling are left out.
- `print` and `traceback.print_exc()` are left out. `exit(0)` is left out too: it ends only the reader thread, and the model makes the index error the terminal outcome `Fatal(index)`.
- `Driver.Serial`: the abstract port never raises. In the source the bare `except:` (rplidar/__init__.py:134) also catches an exception from `ser.write` or `ser.read` and ends the reader thread the same way; in the model the index error is the only route to that end.
- The unused `index` attribute is left out.
- `Driver.RPLidar.Run`: the outer loop is `while True`. The model runs one iteration per supplied pair of write counts, so it says nothing about an unbounded run beyond what holds for every finite prefix.
- The desync checks on the start flags and the check bit are not modelled, because they are commented out in the source. The flags are decoded but never used.
- `Driver.RPLidar.Run`: it does not state that a run which reaches state 1 part-way sends nothing afterwards. That follows from splitting the reports there, because a run that starts in state 1 sends nothing (and `Step` in state 1 sends nothing).
- `raw_reader.py` (the console consumer, its signal handler and its printing loop) is not part of this model. It calls a `set_exitflag` method that `RPLidar` does not define.
