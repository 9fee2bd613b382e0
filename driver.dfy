/**
 * The AS5050 driver as a state machine over values: each operation of the
 * driver maps a driver state and the bus to a new state and a result.
 *
 * The bus is an oracle `bus: nat -> Word`: `bus(k)` is the word the chip
 * shifts back during the k-th 16-bit transfer since the driver was created,
 * and `k` is the number of words the driver has sent before, `|sent|`.
 */
module Driver {
  import opened Frames
  import opened Angles

  type Bus = nat -> Word

  /** One register transaction of `read` or `write`. */
  datatype Txn = ReadTxn(reg: Word) | WriteTxn(reg: Word, data: Word)

  /** The words a transaction puts on the bus, the trailing NOP clocking out the response. */
  function Words(t: Txn): seq<Word>
  {
    match t
    case ReadTxn(reg) => [ReadCommand(reg), REG_NOP]
    case WriteTxn(reg, data) => [WriteCommand(reg), DataFrame(data), REG_NOP]
  }

  function Wire(log: seq<Txn>): seq<Word>
  {
    if log == [] then [] else Wire(log[..|log| - 1]) + Words(log[|log| - 1])
  }

  /** The driver's `error` record. */
  datatype ErrorState = ErrorState(parity: bool, transaction: Word, status: Word)

  /**
   * Build-time choices: the `#if` switches AS5050_AUTO_ERROR_HANDLING and
   * AS5050_RESET_ON_ERRORS, and whether each test `REG_ERROR_STATUS & ERR_x`
   * of `handleErrors` is non-zero (both operands are header constants).
   */
  datatype Config = Config(
    autoErrorHandling: bool,
    resetOnErrors: bool,
    errParity: bool,
    errDspaHi: bool,
    errDspaLo: bool,
    errWow: bool,
    errDspOv: bool)

  /** The driver object: the words sent so far, the transactions they form, and its fields. */
  datatype State = State(
    sent: seq<Word>,
    log: seq<Txn>,
    error: ErrorState,
    lastAngle: int,
    rotations: int,
    initAngle: int,
    mirrored: bool)

  /** The fields before the constructor body runs: zero, as for an object in static storage. */
  const Unset: State := State([], [], ErrorState(false, 0, 0), 0, 0, 0, false)

  ghost predicate Consistent(d: State)
  {
    d.sent == Wire(d.log)
  }

  // ---------------------------------------------------------------------
  // Error bookkeeping of `read` and `write`
  // ---------------------------------------------------------------------

  /**
   * The transaction word `t'` is `t` with bit 0 set when `bit0` holds and
   * bit 1 set when `bit1` holds; no bit of `t` is cleared.
   */
  predicate Accumulated(t: Word, t': Word, bit0: bool, bit1: bool)
  {
    && t' & 0xFFFC == t & 0xFFFC
    && (t' & RES_PARITY != 0 <==> t & RES_PARITY != 0 || bit0)
    && (t' & RES_ERROR_FLAG != 0 <==> t & RES_ERROR_FLAG != 0 || bit1)
  }

  /**
   * Lines 113-115: the parity flag is replaced by the check of the response;
   * the transaction word only gains bits: bit 0 on a parity fault, bit 1
   * when the response carries the chip's error flag.
   */
  function AfterRead(e: ErrorState, resp: Word): (e': ErrorState)
    ensures e'.parity == ParityFault(resp) && e'.status == e.status
    ensures Accumulated(e.transaction, e'.transaction, e'.parity, resp & RES_ERROR_FLAG != 0)
  {
    var p := ParityFault(resp);
    var t := (e.transaction | Bit(p)) | (resp & RES_ERROR_FLAG);
    AccumulateBits(e.transaction, p, resp, t);
    ErrorState(p, t, e.status)
  }

  lemma AccumulateBits(t: Word, p: bool, r: Word, t': Word)
    requires t' == (t | Bit(p)) | (r & RES_ERROR_FLAG)
    ensures Accumulated(t, t', p, r & RES_ERROR_FLAG != 0)
  {
  }

  /**
   * Lines 137-139: the parity flag is sticky; the transaction word is
   * replaced by that flag and bit 1 of the command word (bit 0 of the
   * register address), not of the chip's acknowledgement.
   */
  function AfterWrite(e: ErrorState, cmd: Word, ack: Word): (e': ErrorState)
    ensures e'.parity == (e.parity || ParityFault(ack)) && e'.status == e.status
    ensures e'.transaction & 0xFFFC == 0
    ensures e'.transaction & RES_PARITY != 0 <==> e'.parity
    ensures e'.transaction & RES_ERROR_FLAG == cmd & RES_ERROR_FLAG
  {
    var p := e.parity || ParityFault(ack);
    var t := Bit(p) | (cmd & RES_ERROR_FLAG);
    ReplaceBits(Bit(p), cmd, t);
    ErrorState(p, t, e.status)
  }

  lemma ReplaceBits(b: Word, c: Word, t: Word)
    requires b == 0 || b == 1
    requires t == b | (c & RES_ERROR_FLAG)
    ensures t & 0xFFFC == 0
    ensures t & 1 != 0 <==> b == 1
    ensures t & 2 == c & 2
  {
  }

  // ---------------------------------------------------------------------
  // Operations
  // ---------------------------------------------------------------------

  /** `read(reg)`: command frame, then a NOP that clocks out the response. */
  function Read(d: State, bus: Bus, reg: Word): (State, Word)
  {
    var resp := bus(|d.sent| + 1);
    (d.(sent := d.sent + [ReadCommand(reg), REG_NOP],
        log := d.log + [ReadTxn(reg)],
        error := AfterRead(d.error, resp)),
     resp)
  }

  /** `write(reg, data)`: command frame, data frame, then a NOP that clocks out the acknowledgement. */
  function Write(d: State, bus: Bus, reg: Word, data: Word): (State, Word)
  {
    var cmd := WriteCommand(reg);
    var ack := bus(|d.sent| + 2);
    (d.(sent := d.sent + [cmd, DataFrame(data), REG_NOP],
        log := d.log + [WriteTxn(reg, data)],
        error := AfterWrite(d.error, cmd, ack)),
     ack)
  }

  /** Lines 251-257: read the gain register and write it back one lower (DSPAHI) or higher (DSPALO). */
  function AdjustGain(d: State, bus: Bus, cfg: Config): State
  {
    if cfg.errDspaHi || cfg.errDspaLo then
      var r := Read(d, bus, REG_GAIN_CONTROL);
      var gain := if cfg.errDspaHi then r.1 - 1 else r.1 + 1;
      Write(r.0, bus, REG_GAIN_CONTROL, gain).0
    else
      d
  }

  /** A software reset when the build enables the branch. */
  function SoftReset(d: State, bus: Bus, enabled: bool): State
  {
    if enabled then Write(d, bus, REG_SOFTWARE_RESET, DATA_SWRESET_SPI).0 else d
  }

  /**
   * Lines 301-306: the read of the clear-error register, which the chip
   * answers with 0 once the errors are cleared, then a master reset when the
   * error persists and the build enables resets.
   */
  function ClearErrors(d: State, bus: Bus, cfg: Config): (State, Word)
  {
    var c := Read(d, bus, REG_CLEAR_ERROR);
    var d1 := c.0.(error := c.0.error.(status := c.1));
    if cfg.resetOnErrors && c.1 != 0 then (Write(d1, bus, REG_MASTER_RESET, 0).0, c.1) else (d1, c.1)
  }

  /** Line 237: read the error status register and store the response. */
  function ReadStatus(d: State, bus: Bus): (State, Word)
  {
    var r := Read(d, bus, REG_ERROR_STATUS);
    (r.0.(error := r.0.error.(status := r.1)), r.1)
  }

  /** Lines 251-271: the gain adjustment and the software resets the build enables. */
  function Recovery(d: State, bus: Bus, cfg: Config): State
  {
    SoftReset(SoftReset(AdjustGain(d, bus, cfg), bus, cfg.errWow), bus, cfg.errDspOv)
  }

  /** `handleErrors()` (lines 236-311); the branches with empty bodies are left out. */
  function HandleErrors(d: State, bus: Bus, cfg: Config): (State, Word)
  {
    var r := ReadStatus(d, bus);
    if r.1 == 0 || cfg.errParity then r else ClearErrors(Recovery(r.0, bus, cfg), bus, cfg)
  }

  /** A position reading, reversed when mirrored. */
  function Oriented(mirrored: bool, p: int): int
  {
    if mirrored then Mirror(p) else p
  }

  /** Lines 177-184: mirroring, rollover count, last angle, for the position of line 174. */
  function Track(d: State, position: int): (State, int)
  {
    var a := Oriented(d.mirrored, position);
    (d.(rotations := d.rotations + RolloverStep(d.lastAngle, a), lastAngle := a), a)
  }

  /**
   * Lines 147-160: read the angle register and record the response. Lines
   * 157-158 recompute what `read` already recorded, and line 160 then
   * overwrites the transaction word with the response with both alarm bits
   * set.
   */
  function ReadAngle(d: State, bus: Bus): (State, Word)
  {
    var r := Read(d, bus, REG_ANGLE);
    var data := r.1;
    (r.0.(error := r.0.error.(parity := ParityFault(data),
                               transaction := data | RES_ALARM_HIGH | RES_ALARM_LOW)),
     data)
  }

  /** `angle()` (lines 144-186). */
  function Angle(d: State, bus: Bus, cfg: Config): (State, int)
  {
    var r := ReadAngle(d, bus);
    if cfg.autoErrorHandling && r.0.error.transaction != 0 then
      var d2 := HandleErrors(r.0, bus, cfg).0;
      if d2.error.transaction & RES_PARITY != 0 then (d2, d2.lastAngle) else Track(d2, Position(r.1))
    else
      Track(r.0, Position(r.1))
  }

  /** The state after `n` successive `angle()` calls and the angles they returned. */
  function Samples(d: State, bus: Bus, cfg: Config, n: nat): (res: (State, seq<int>))
    ensures |res.1| == n
  {
    if n == 0 then (d, [])
    else
      var r := Samples(d, bus, cfg, n - 1);
      var a := Angle(r.0, bus, cfg);
      (a.0, r.1 + [a.1])
  }

  /** `angle(nsamples)` (lines 187-194), with the 16-bit `int` sum of the code. */
  function AngleAverage(d: State, bus: Bus, cfg: Config, n: nat): (State, int)
    requires 0 < n < 256
  {
    var r := Samples(d, bus, cfg, n);
    (r.0, FairAverageInt16(r.1))
  }

  /** `totalAngle()` (lines 209-211); `rotations` is read after `angle()` has updated it. */
  function TotalAngle(d: State, bus: Bus, cfg: Config): (State, int)
  {
    var r := Angle(d, bus, cfg);
    (r.0, r.1 + r.0.rotations * RESOLUTION)
  }

  /** `deltaAngle()` (lines 220-222). */
  function DeltaAngle(d: State, bus: Bus, cfg: Config): (State, int)
  {
    var r := Angle(d, bus, cfg);
    (r.0, (r.1 - r.0.initAngle) + r.0.rotations * RESOLUTION)
  }

  /** `setHome()` (lines 230-234). */
  function SetHome(d: State): (h: State)
    ensures h.rotations == 0 && h.initAngle == 0
    ensures h.lastAngle == d.lastAngle && h.mirrored == d.mirrored && h.error == d.error
    ensures h.sent == d.sent && h.log == d.log
  {
    d.(rotations := 0, initAngle := 0)
  }

  /** The constructor (lines 51-77) after the SPI set-up. */
  function Construct(bus: Bus, cfg: Config): State
  {
    var d1 := Write(Unset, bus, REG_MASTER_RESET, 0).0;
    var d2 := Angle(d1, bus, cfg).0;
    var r := Angle(d2, bus, cfg);
    r.0.(initAngle := r.1, rotations := 0, mirrored := true)
  }
}
