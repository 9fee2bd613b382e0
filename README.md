# AS5050 magnetic rotary encoder driver, modelled in Dafny

This project models the Arduino driver for the AS5050 10-bit magnetic rotary
encoder (`AS5050.cpp`) and proves properties of the model. The driver talks
to the chip over SPI in 16-bit frames: a command frame carrying a 14-bit
register address, a read/write bit and an even-parity bit, an optional data
frame, and a NOP frame that clocks out the chip's response. On top of that
it interprets angle responses, counts full turns, averages samples,
and reacts to the chip's error status register.

The model is in five modules:

- `Frames` (`frames.dfy`) covers 16-bit words (`bv16`, since `unsigned int`
  is 16 bits on the AVR targets) and parity as a recursive XOR of bits. It
  also holds the command and data frames the driver builds and the
  receive-side parity check.
- `Angles` (`angles.dfy`) covers the position field of an angle response,
  mirroring, and the rollover step with its 768/256 thresholds. It also holds
  the fair-rounding average, both with unbounded integers and as the code
  computes it, with a 16-bit `int` sum.
- `Driver` (`driver.dfy`) is the whole driver as functions over a state
  value. The state holds the words sent so far, the register transactions
  they form, the `error` record, `_last_angle`, `rotations`, `_init_angle`
  and `mirrored`. The chip's side of the bus is an oracle `bus: nat -> bv16`:
  `bus(k)` is the word shifted back during the k-th transfer.
- `Properties` (`properties.dfy`) holds lemmas about `Driver`: what
  `handleErrors` sends, the fail-safe of `angle()`, multi-turn tracking,
  `totalAngle`/`deltaAngle`/`setHome`, the average, and the constructor.
- `Encoder` (`encoder.dfy`) is the class `AS5050`, whose methods update its
  fields in place as the C++ methods do. Each method is proved to leave the
  object in exactly the state the matching `Driver` function gives. It also
  keeps `Valid()`: the words sent are the words of the transactions made.

The `#if` switches `AS5050_AUTO_ERROR_HANDLING` and `AS5050_RESET_ON_ERRORS`
become fields of `Driver.Config`. So do the tests
`REG_ERROR_STATUS & ERR_x` in `handleErrors`, one boolean per branch. Both
operands of those tests are header constants, so each build always takes the
same branches.

Behaviour modelled as written, with lemmas that exhibit it:

- Line 160 overwrites the transaction word with the angle response with both
  alarm bits set. With automatic error handling, every `angle()` therefore
  goes on to `handleErrors` (`Properties.AngleAlwaysHandlesErrors`).
- The fail-safe at line 169 tests bit 0 of the transaction word, not the
  computed parity fault of the angle response. When `handleErrors` makes no
  write, that bit is bit 0 of the raw response ORed with the parity fault of
  each read `handleErrors` makes: the status read and, on a standing error,
  the clear-error read (lines 113-114). `angle()` discards the response
  when one of these is set and reports it otherwise (`Properties.AngleFailSafeWithoutWrites`).
  So a correctly received response whose parity bit is 1 is discarded and the
  previous angle returned (`Properties.AngleDiscardsParityBitSet`,
  `Properties.ValidFrameWithParityBitSet`). A correct response with bit 0
  clear is discarded too when the status read has a parity fault
  (`Properties.AngleDiscardsOnStatusFault`). A response with a parity fault,
  bit 0 clear and a quiet status is reported
  (`Properties.AngleReportsParityBitClear`). When `handleErrors` does write, lines 137-138 replace the transaction word with
  the sticky parity flag and bit 1 of the command, so the same response can be
  reported instead (`Properties.AngleFailSafeOverriddenByWrite`).
- `write` takes the error flag from bit 1 of its own command word, not from
  the chip's acknowledgement (line 139; `Driver.AfterWrite`).
- `setHome` sets `_init_angle` to 0, not to the current angle. `deltaAngle()`
  then equals `totalAngle()`, not 0 (`Properties.SetHomeMakesDeltaTotal`).
- The constructor reads the home angle while `mirrored` is still false, then
  turns mirroring on. Without automatic error handling, with the shaft at
  rest, the first `deltaAngle()` is odd, never 0
  (`Properties.ConstructHomeUnmirrored`, `Properties.FirstDeltaIsOdd`). With
  automatic error handling it can be 0 instead: when every angle response has
  bit 0 set and the status reads are quiet, line 169 discards all three reads
  and `_init_angle` and `_last_angle` stay 0
  (`Properties.FirstDeltaZeroWhenDiscarded`).
- Each read replaces `error.parity` with the check of its own response (line
  113). Without automatic error handling, the flag after `angle()` describes
  the angle response. With it, `handleErrors` reads again, so the flag
  describes its last read instead: the status read, or the clear-error read on
  a standing error (`Properties.AngleParityFlag`). A corrupted angle response
  with bit 0 clear and a quiet status is then reported with `error.parity`
  false (`Properties.AngleCorruptResponseUnflagged`).
- The mask `(data & 0x3FFE) >> 2` admits positions up to 4095. A response with
  bit 13 or 12 set lies outside one turn, and below 0 when mirrored
  (`Properties.TrackRange`).
- The rollover step is exact only for moves of at most 255 steps between
  samples (`Angles.RolloverStepExact`). A move of a quarter turn across zero
  is already missed (`Angles.RolloverMissesQuarterTurn`), so the thresholds do
  not support moves of up to three quarters of a turn.
- The comment at line 192 promises fair rounding on arbitrary integers, but
  C's `/` truncates toward zero, so a negative sum rounds the wrong way. Two or
  more identical negative samples average to one above the sample; two
  samples of -1 give 0 (`Angles.FairAverageOfEqualNegativeSamples`). Negative
  samples occur when mirrored responses have bit 13 or 12 set
  (`Properties.TrackRange`), and a wrapped 16-bit sum can be negative too.
- `angle(n)` sums in a 16-bit `int`. Up to 32 samples within one turn it
  equals the fair-rounded mean (`Angles.AverageInt16AgreesForFewSamples`).
  33 samples of 1023 overflow the sum. Signed overflow is undefined in C; the
  model takes the usual two's-complement wrap-around, under which they give
  -962 (`Angles.AverageInt16Overflows`).

## Model

| member | source | states |
|---|---|---|
| Frames.ReadCommand | AS5050.cpp:105-106 | the frame is `(reg << 1) \| AS_READ` with bit 0 filled in, and has even parity over all 16 bits |
| Frames.WriteCommand | AS5050.cpp:125-126 | the frame is `(reg << 1) \| AS_WRITE` with bit 0 filled in, and has even parity |
| Frames.DataFrame | AS5050.cpp:129-130 | the frame is `data << 2` with bit 0 filled in, and has even parity |
| Frames.ParityFaultIsOddParity | AS5050.cpp:113 | the response check reports a fault exactly when the whole 16-bit word has odd parity |
| Frames.FramesHaveEvenParity | AS5050.cpp:105-106 | every read command, write command, data frame and NOP has even parity, and the response check finds no fault in it |
| Frames.ParityXor | AS5050.cpp:106 | parity distributes over XOR: the parity of `a ^ b` is the XOR of the parities |
| Frames.CorruptionDetected | AS5050.cpp:113 | an even-parity frame XOR-ed with an error pattern fails the check exactly when the pattern flips an odd number of bits |
| Frames.ReadCommandPayload | AS5050.cpp:105 | a read command carries the 14-bit address in bits 14..1 and the read bit in bit 15 |
| Frames.WriteCommandPayload | AS5050.cpp:125 | a write command carries the 14-bit address in bits 14..1, and bit 15 is clear for a 14-bit address |
| Frames.DataFramePayload | AS5050.cpp:129-130 | a data frame carries the low 14 bits of the data in bits 15..2, and the don't-care bit 1 is clear |
| Frames.Parity | AS5050.cpp:106 | the XOR of all 16 bits, as `__builtin_parity`; its algebra is stated by `Frames.ParityXor` and `Frames.ParityFaultIsOddParity` |
| Frames.WithParity | AS5050.cpp:105-106 | for a word with bit 0 clear, bit 0 of the result is the parity of the other 15 bits, the other bits are kept, and the whole frame has even parity |
| Frames.ParityFault | AS5050.cpp:113 | bit 0 of the response differs from the parity of bits 15..1; `Frames.ParityFaultIsOddParity` proves this is odd parity of the whole word |
| Driver.AfterRead | AS5050.cpp:112-115 | `error.parity` is the fault check of this response alone; the transaction word keeps all its bits, gains bit 0 on a fault and gains bit 1 when the response carries the error flag |
| Driver.AfterWrite | AS5050.cpp:136-139 | `error.parity` is sticky; the transaction word is replaced: bit 0 is the parity flag, bit 1 is bit 1 of the command word, all other bits clear |
| Driver.SetHome | AS5050.cpp:230-234 | `rotations` and `_init_angle` become 0; the last angle, mirroring, error record and bus history are unchanged |
| Driver.Construct | AS5050.cpp:51-77 | a master-reset write, an `angle()` call, a second one whose result is stored as the home angle, then mirroring on and `rotations` zeroed; stated by `Properties.ConstructState` and `Properties.ConstructHomeUnmirrored` |
| Driver.Read | AS5050.cpp:98-118 | sends the read command and a NOP and returns the word shifted back with the NOP; its error-record update is stated by `Driver.AfterRead` and its wire words by `Properties.SentFramesEven` |
| Driver.Write | AS5050.cpp:122-142 | sends the write command, the data frame and a NOP; its error-record update is stated by `Driver.AfterWrite` |
| Driver.ReadStatus | AS5050.cpp:237 | reads the error status register into `error.status`; stated by `Properties.HandleErrorsStopsEarly` and `Properties.ReadStatusKeepsBit0` |
| Driver.AdjustGain | AS5050.cpp:251-257 | with DSPAHI or DSPALO, reads the gain register and writes it back one lower or one higher; stated by `Properties.HandleErrorsGainStep` |
| Driver.SoftReset | AS5050.cpp:262-271 | writes `DATA_SWRESET_SPI` to the software-reset register when its branch is built in; counted by `Properties.HandleErrorsWrites` |
| Driver.Recovery | AS5050.cpp:251-271 | the gain step followed by the WOW and DSPOV software resets, in source order; counted by `Properties.HandleErrorsWrites` |
| Driver.ClearErrors | AS5050.cpp:301-306 | reads the clear-error register into `error.status` and, when resets are enabled and it is non-zero, writes a master reset; stated by `Properties.HandleErrorsLastStep` |
| Driver.HandleErrors | AS5050.cpp:236-311 | the status read, then recovery and the clear read on a standing error unless the build takes the parity branch; stated by `Properties.HandleErrorsStopsEarly`, `Properties.HandleErrorsKeepsTracker`, `Properties.HandleErrorsWrites` and `Properties.HandleErrorsLastStep` |
| Driver.ReadAngle | AS5050.cpp:147-160 | reads the angle register and overwrites the transaction word with the response and both alarm bits; stated by `Properties.AngleAlwaysHandlesErrors` |
| Driver.Track | AS5050.cpp:177-184 | mirrors the position, adds the rollover step to `rotations` and stores the angle; stated by `Properties.TrackRange` and `Properties.TrackFollowsMotion` |
| Driver.Angle | AS5050.cpp:144-186 | the angle read, error handling with the bit-0 fail-safe, then tracking; stated by `Properties.AngleManual`, `Properties.AngleDiscardsParityBitSet`, `Properties.AngleReportsParityBitClear` and `Properties.AngleIsLastAngle` |
| Driver.Samples | AS5050.cpp:188-191 | n successive `angle()` calls yield exactly n results; their reads are counted by `Properties.SamplesLog` |
| Driver.AngleAverage | AS5050.cpp:187-194 | the 16-bit fair average of n successive `angle()` results; stated by `Properties.AngleAverageIsFair` |
| Driver.TotalAngle | AS5050.cpp:209-211 | `angle()` plus 1024 times `rotations`; stated by `Properties.TotalAngleFollowsMotion` |
| Driver.DeltaAngle | AS5050.cpp:220-222 | `angle()` less the home angle plus 1024 times `rotations`; stated by `Properties.DeltaIsTotalLessHome` and `Properties.SetHomeMakesDeltaTotal` |
| Angles.Position | AS5050.cpp:174 | the extracted position lies in 0..4095 |
| Angles.PositionInTurn | AS5050.cpp:174 | the position is below 1024 exactly when bits 13..12 of the response are clear |
| Angles.Mirror | AS5050.cpp:177 | `1023 - angle`; stated by `Angles.MirrorSelfInverse` |
| Angles.MirrorSelfInverse | AS5050.cpp:177 | mirroring is its own inverse and maps 0..1023 onto itself |
| Angles.RolloverStep | AS5050.cpp:180-181 | the step is +1 exactly on a crossing from above 768 to at most 256, -1 exactly on a crossing from below 256 to at least 768, and 0 otherwise |
| Angles.RolloverExamples | AS5050.cpp:180-181 | 1000 to 50 counts +1, 50 to 1000 counts -1, 500 to 520 counts nothing |
| Angles.RolloverStepExact | AS5050.cpp:180-181 | for a move of at most 255 steps, the change of reading plus 1024 times the step equals the true motion |
| Angles.RolloverMissesQuarterTurn | AS5050.cpp:180-181 | a move of 256 steps from 768 across zero counts no turn |
| Angles.RolloverTracksMotion | AS5050.cpp:180-182 | over any sequence of positions moving at most 255 steps per sample, the last reading plus 1024 times the counted turns is the first reading plus the net motion |
| Angles.TruncDivBounds | AS5050.cpp:193 | C integer division rounds toward zero: down for a non-negative dividend, up for a negative one |
| Angles.FairAverage | AS5050.cpp:193 | `(sum + n/2)/n` with C division over unbounded integers; stated by `Angles.FairAverageRounds`, `Angles.FairAverageBounds` and `Angles.FairAverageOfEqualSamples` |
| Angles.FairAverageRounds | AS5050.cpp:193 | for a non-negative sum, `(sum + n/2)/n` is the mean rounded to the nearest integer, halves up |
| Angles.FairAverageBounds | AS5050.cpp:193 | the average of samples within a non-negative range lies within that range |
| Angles.FairAverageOfEqualSamples | AS5050.cpp:193 | identical non-negative samples average to that sample |
| Angles.FairAverageOfEqualNegativeSamples | AS5050.cpp:192-193 | two or more identical negative samples average to one above that sample, so the rounding of line 193 is not fair for negative sums |
| Angles.FairAverageRoundsHalfUp | AS5050.cpp:193 | samples 0 and 1 average to 1 |
| Angles.Sum16 | AS5050.cpp:188-191 | the running sum with each addition wrapped into a 16-bit `int`; stated by `Angles.Sum16IsWrappedSum` |
| Angles.FairAverageInt16 | AS5050.cpp:187-194 | the fair average as the code computes it with a 16-bit sum; stated by `Angles.AverageInt16AgreesForFewSamples` and `Angles.AverageInt16Overflows` |
| Angles.Sum16IsWrappedSum | AS5050.cpp:188-191 | the 16-bit running sum is the true sum wrapped once into -32768..32767 |
| Angles.AverageInt16AgreesForFewSamples | AS5050.cpp:187-194 | for 1 to 32 samples within one turn, the 16-bit computation gives the fair-rounded mean |
| Angles.AverageInt16Overflows | AS5050.cpp:187-194 | 33 samples of 1023 give -962 instead of 1023 |
| Properties.SentFramesEven | AS5050.cpp:98-142 | every word the driver has sent has even parity and passes the response check |
| Properties.WireEvenParity | AS5050.cpp:104-134 | every word of any sequence of read and write transactions has even parity |
| Properties.HandleErrorsConsistent | AS5050.cpp:236-311 | `handleErrors` keeps the words sent equal to the words of its transactions |
| Properties.AngleConsistent | AS5050.cpp:144-186 | `angle()` keeps the words sent equal to the words of its transactions |
| Properties.SamplesConsistent | AS5050.cpp:187-191 | so do any number of `angle()` calls |
| Properties.HandleErrorsStopsEarly | AS5050.cpp:237-246 | with status 0, or when the build takes the parity branch, `handleErrors` makes only the status read and returns what it read |
| Properties.HandleErrorsKeepsTracker | AS5050.cpp:236-311 | `handleErrors` starts with the status read, only appends transactions, leaves the angle tracker alone and returns the status it stored |
| Properties.HandleErrorsGainStep | AS5050.cpp:251-257 | on a standing error in a build without the parity branch with DSPAHI or DSPALO, the gain register is read and written back as the value read minus 1 (DSPAHI) or plus 1 (DSPALO) |
| Properties.HandleErrorsWrites | AS5050.cpp:240-308 | on a standing error in a build without the parity branch, the number of writes to each register is one gain write for DSPAHI or DSPALO, one software reset each for WOW and DSPOV, and one master reset exactly when resets are enabled and the clear read was non-zero |
| Properties.HandleErrorsLastStep | AS5050.cpp:301-306 | on a standing error in a build without the parity branch, the last transaction is the master reset exactly when resets are enabled and the clear read was non-zero, and otherwise the clear-error read |
| Properties.AngleAlwaysHandlesErrors | AS5050.cpp:160-167 | with automatic error handling, every `angle()` reads the angle and then the error status |
| Properties.AngleIsLastAngle | AS5050.cpp:169-184 | `angle()` returns the value it leaves in `_last_angle`, and keeps the home angle and mirroring |
| Properties.AngleManual | AS5050.cpp:144-186 | without automatic handling, `angle()` is one read of the angle register, returns the position (mirrored when set) and counts the rollover against the previous angle |
| Properties.AngleDiscardsParityBitSet | AS5050.cpp:160-170 | with automatic handling, when `handleErrors` stops after its status read and the response has bit 0 set, `angle()` returns the previous angle and changes neither it nor `rotations` |
| Properties.AngleReportsParityBitClear | AS5050.cpp:160-184 | with automatic handling, a quiet status and bit 0 of the response clear, the fresh position is reported and the rollover counted |
| Properties.AngleFailSafeWithoutWrites | AS5050.cpp:113-169 | with automatic handling in a build where `handleErrors` never writes, `angle()` returns the previous angle and keeps `rotations` and `_last_angle` when bit 0 of the response is set, the status read has a parity fault, or the clear-error read made on a standing error has one; when none of these holds it returns the fresh (mirrored when set) position |
| Properties.HandleErrorsWithoutWritesBit0 | AS5050.cpp:236-311 | in a build where `handleErrors` never writes, it only appends transactions, keeps the tracker, and bit 0 of the transaction word afterwards is its previous bit 0 ORed with the parity faults of the status read and, on a standing error, the clear-error read |
| Properties.AngleDiscardsOnStatusFault | AS5050.cpp:113-169 | with the parity branch built in, the correct response 0x0000 followed by the faulty status 0x0001 is discarded: `angle()` returns the previous angle after only the angle and status reads |
| Properties.AngleParityFlag | AS5050.cpp:113-170 | after `angle()`, `error.parity` is the parity fault of the angle response without automatic handling; with it, in a build where `handleErrors` never writes, it is the fault of the status read, or of the clear-error read on a standing error |
| Properties.AngleCorruptResponseUnflagged | AS5050.cpp:113-177 | with automatic handling, the response 0x0002 fails the parity check, yet after a quiet status read `angle()` reports position 0 (1023 when mirrored) with `error.parity` false |
| Properties.HandleErrorsQuietKeepsBit0 | AS5050.cpp:237-240 | a quiet status read leaves bit 0 of the transaction word as it was |
| Properties.ReadStatusKeepsBit0 | AS5050.cpp:112-115 | a read only ORs bits into the transaction word, so a status read keeps bit 0 set once it is set |
| Properties.AngleFailSafeOverriddenByWrite | AS5050.cpp:137-169 | with automatic handling and the WOW branch built in, the valid response 0x0003 (bit 0 set) with a status of 0x0003 leads to a software-reset write that clears bit 0 of the transaction word, so `angle()` reports position 0 (1023 when mirrored) and stores it, instead of keeping the previous angle |
| Properties.SoftResetCommandNoErrorFlag | AS5050.cpp:125-139 | with the register address this model uses, the software-reset command word has bit 1 clear, so a write to that register leaves no error flag in the transaction word |
| Properties.ValidFrameWithParityBitSet | AS5050.cpp:169 | 0x0003 passes the parity check but has bit 0 set, so the fail-safe discards it |
| Properties.TrackRange | AS5050.cpp:174-177 | the reported angle is within 0..1023 exactly when bits 13..12 of the response are clear; otherwise it is below 0 when mirrored and above 1023 when not |
| Properties.TrackFollowsMotion | AS5050.cpp:174-182 | when the shaft moved at most 255 steps, `_last_angle + 1024 * rotations` moves by exactly that motion, reversed when mirrored |
| Properties.TotalAngleFollowsMotion | AS5050.cpp:160-211 | when the move is at most 255 steps, `totalAngle()` is the previous total plus the shaft's motion, reversed when mirrored; this holds without automatic error handling, and with it when the status read returns 0 and bit 0 of the response is clear |
| Properties.DeltaIsTotalLessHome | AS5050.cpp:209-222 | `deltaAngle()` is `totalAngle()` less the home angle, with the same state change |
| Properties.SetHomeMakesDeltaTotal | AS5050.cpp:230-234 | after `setHome()`, `deltaAngle()` equals `totalAngle()` |
| Properties.AngleAverageIsFair | AS5050.cpp:187-194 | for 1 to 32 samples within one turn, `angle(n)` is their fair-rounded mean |
| Properties.SamplesLog | AS5050.cpp:189-191 | without automatic handling, `angle(n)` makes exactly n reads of the angle register |
| Properties.ConstructState | AS5050.cpp:67-76 | after construction the first transaction is the master reset, `rotations` is 0, mirroring is on, the home angle is the last angle read and the words sent match the transactions |
| Properties.ConstructHomeUnmirrored | AS5050.cpp:67-76 | without automatic handling, construction is a master reset and two angle reads, and the home angle is the unmirrored position of the second read |
| Properties.FirstDeltaIsOdd | AS5050.cpp:70-76 | without automatic error handling, with the shaft at rest, the first `deltaAngle()` after construction is odd |
| Properties.FirstDeltaZeroWhenDiscarded | AS5050.cpp:67-76 | with automatic error handling, when the three angle responses read by the constructor and the first `deltaAngle()` all have bit 0 set and their status reads return 0, the first `deltaAngle()` is 0 |
| Encoder.AS5050.constructor | AS5050.cpp:51-77 | the new object is in the state `Driver.Construct` gives, and valid |
| Encoder.AS5050.Send | AS5050.cpp:79-95 | one transfer appends the word to the words sent and returns the bus's answer to it |
| Encoder.AS5050.Read | AS5050.cpp:98-118 | sends the read command and a NOP, records the transaction, updates the error record and returns the response, as `Driver.Read` |
| Encoder.AS5050.Write | AS5050.cpp:122-142 | sends the write command, the data frame and a NOP, records the transaction and updates the error record, as `Driver.Write` |
| Encoder.AS5050.ReadStatus | AS5050.cpp:237 | leaves the object in the state, and returns the status, of `Driver.ReadStatus` |
| Encoder.AS5050.AdjustGain | AS5050.cpp:251-257 | leaves the object in the state of `Driver.AdjustGain` |
| Encoder.AS5050.SoftReset | AS5050.cpp:262-271 | leaves the object in the state of `Driver.SoftReset` |
| Encoder.AS5050.ClearErrors | AS5050.cpp:301-306 | leaves the object in the state, and returns the status, of `Driver.ClearErrors` |
| Encoder.AS5050.HandleErrors | AS5050.cpp:236-311 | leaves the object in the state, and returns the status, of `Driver.HandleErrors` |
| Encoder.AS5050.ReadAngle | AS5050.cpp:147-160 | reads the angle register and overwrites the error record as `Driver.ReadAngle` |
| Encoder.AS5050.Track | AS5050.cpp:177-184 | mirrors the position, counts the rollover and stores the angle, as `Driver.Track` |
| Encoder.AS5050.Angle | AS5050.cpp:144-186 | leaves the object in the state, and returns the angle, of `Driver.Angle` |
| Encoder.AS5050.SampleSum | AS5050.cpp:188-191 | after n `angle()` calls, the sum is the 16-bit running sum of the angles returned |
| Encoder.AS5050.AngleAverage | AS5050.cpp:187-194 | returns the 16-bit fair average of n successive `angle()` results, as `Driver.AngleAverage` |
| Encoder.AS5050.TotalAngle | AS5050.cpp:209-211 | returns `angle()` plus 1024 times `rotations` as updated by that call |
| Encoder.AS5050.DeltaAngle | AS5050.cpp:220-222 | returns `angle()` less the home angle plus 1024 times `rotations` |
| Encoder.AS5050.SetHome | AS5050.cpp:230-234 | zeroes `rotations` and `_init_angle` and changes nothing else |

## Left out

- SPI and GPIO: the pin set-up, clock divider, bit order, SPI mode, chip
  select and the byte transfers (lines 56-62, 85-93). `send` is the bus oracle
  plus the sequence of words sent.
- The floating-point conversions `angleDegrees`, `angleRad`,
  `totalAngleDegrees`, `totalAngleRad`, `deltaAngleDegrees` and
  `deltaAngleRad` (lines 197-205, 212-217, 223-228). They only scale, and
  Dafny has no C `float`. `totalAngleRad` calls `angleDegrees` (line 216); that
  is not modelled either.
- The `handleErrors` branches for DACOV, RANERR, MODE, CLKMON and ADDMON
  (lines 277-297) have empty bodies and are left out as no-ops.
- `AS5050.h` is not part of this model. The register addresses and
  `DATA_SWRESET_SPI` are placeholder values. The response bits (parity,
  error flag, alarm low/high) and the read/write bit follow the frame
  comments at lines 100-101 and 150-151. `AS5050_ANGULAR_RESOLUTION` is 1024.
- The `ERR_x` masks, being header constants too, are not modelled. Each
  `REG_ERROR_STATUS & ERR_x` test is a `Config` boolean.
- `rotations`, `_last_angle` and `_init_angle` are unbounded integers; the
  widths of their C types are declared in the header. `totalAngle` and
  `deltaAngle` return unbounded integers rather than `long int`. If
  `rotations` is a 16-bit `int`, `rotations*1024` at lines 210 and 221 is
  computed in 16 bits before the conversion to `long int`, and overflows once
  the count passes 31 turns either way; the model does not capture that
  overflow.
- The `error` record's field types are declared in the header. The model
  takes `error.transaction` and `error.status` as 16-bit words and
  `error.parity` as a boolean (0 or 1 when stored into `transaction` at lines
  114 and 138). `Properties.AngleAlwaysHandlesErrors`,
  `Properties.AngleDiscardsParityBitSet`,
  `Properties.AngleReportsParityBitClear`,
  `Properties.AngleFailSafeOverriddenByWrite`,
  `Properties.AngleFailSafeWithoutWrites`,
  `Properties.HandleErrorsWithoutWritesBit0`,
  `Properties.AngleDiscardsOnStatusFault`,
  `Properties.AngleParityFlag`,
  `Properties.AngleCorruptResponseUnflagged` and
  `Properties.FirstDeltaZeroWhenDiscarded` depend on that choice.
- Frames.FramesHaveEvenParity: the NOP word is sent as `REG_NOP` itself, with
  no parity bit filled in (lines 110 and 134). Its even parity, and so the NOP
  part of `Properties.SentFramesEven` and `Properties.WireEvenParity`, holds
  only because the model takes `REG_NOP` as 0x0000.
- Driver.Construct: the fields are zero before the constructor body runs, as
  for an object in static storage. Construction on the stack, with
  indeterminate fields, is not modelled.
- Driver.TotalAngle, Driver.DeltaAngle: the call to `angle()` and the read
  of `rotations` are indeterminately sequenced in C++, so the order is
  unspecified. The model reads `rotations` after `angle()` updates it.
- Driver.AngleAverage: `n == 0` divides by zero in C. The model requires
  `0 < n < 256` (`nsamples` is a `byte`).
- Driver.AdjustGain: `int gain` is 16 bits, and `--gain` / `++gain` are
  passed to `write` as `unsigned int`. The model computes both in 16-bit
  wrap-around arithmetic, which gives the same word; signed overflow of
  `++gain` at 32767 is taken as wrap-around.
- Properties.AngleDiscardsParityBitSet: proved only when `handleErrors`
  stops after its status read (a status of 0, or the parity branch).
  `Properties.AngleFailSafeWithoutWrites` covers every build without writes.
  A write in `handleErrors` replaces bit 0 of the transaction word with the
  sticky parity flag, and the fail-safe then depends on that flag instead
  (`Properties.AngleFailSafeOverriddenByWrite` shows a valid response with
  bit 0 set being reported after such a write).
- Properties.FirstDeltaIsOdd: proved only without automatic error handling.
  With it the fail-safe can discard the reads, and the first delta can be 0
  (`Properties.FirstDeltaZeroWhenDiscarded`).
- Properties.AngleParityFlag: states the flag with automatic handling only in
  builds where `handleErrors` never writes. A write ORs its acknowledgement's
  fault into the flag instead (line 137).
- Properties.TotalAngleFollowsMotion: with automatic error handling, proved
  only when the status read returns 0 and bit 0 of the angle response is
  clear. Otherwise the fail-safe can keep the previous angle, and the total
  does not follow the motion (`Properties.AngleDiscardsParityBitSet`).
- Timing: the 50 ns hold time (line 109, commented out) and the duration of
  transfers are not modelled. No concurrency appears in the code.
