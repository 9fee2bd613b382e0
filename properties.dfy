/**
 * What the driver model guarantees, and where it deviates from what the
 * comments of the driver promise.
 */
module Properties {
  import opened Frames
  import opened Angles
  import opened Driver

  // ---------------------------------------------------------------------
  // The words on the bus
  // ---------------------------------------------------------------------

  lemma WireAppend(log: seq<Txn>, t: Txn)
    ensures Wire(log + [t]) == Wire(log) + Words(t)
  {
    assert (log + [t])[..|log|] == log;
  }

  /** Every word a sequence of transactions puts on the bus has even parity. */
  lemma {:induction false} WireEvenParity(log: seq<Txn>)
    ensures forall i :: 0 <= i < |Wire(log)| ==> !Parity(Wire(log)[i])
  {
    if log != [] {
      var init, t := log[..|log| - 1], log[|log| - 1];
      assert log == init + [t];
      WireEvenParity(init);
      WireAppend(init, t);
      match t {
        case ReadTxn(reg) => FramesHaveEvenParity(reg, 0);
        case WriteTxn(reg, data) => FramesHaveEvenParity(reg, data);
      }
    }
  }

  /** A driver whose words are its transactions has sent only even-parity words. */
  lemma SentFramesEven(d: State)
    requires Consistent(d)
    ensures forall i :: 0 <= i < |d.sent| ==> !Parity(d.sent[i]) && !ParityFault(d.sent[i])
  {
    WireEvenParity(d.log);
    forall i | 0 <= i < |d.sent|
      ensures !ParityFault(d.sent[i])
    {
      ParityFaultIsOddParity(d.sent[i]);
    }
  }

  lemma ReadConsistent(d: State, bus: Bus, reg: Word)
    requires Consistent(d)
    ensures Consistent(Read(d, bus, reg).0)
  {
    WireAppend(d.log, ReadTxn(reg));
  }

  lemma WriteConsistent(d: State, bus: Bus, reg: Word, data: Word)
    requires Consistent(d)
    ensures Consistent(Write(d, bus, reg, data).0)
  {
    WireAppend(d.log, WriteTxn(reg, data));
  }

  // ---------------------------------------------------------------------
  // Transactions only extend the log and leave the angle tracker alone
  // ---------------------------------------------------------------------

  /** `d'` is `d` after further transactions: same tracker fields, log extended. */
  ghost predicate Keeps(d: State, d': State)
  {
    && d'.lastAngle == d.lastAngle && d'.rotations == d.rotations
    && d'.initAngle == d.initAngle && d'.mirrored == d.mirrored
    && |d.log| <= |d'.log| && d'.log[..|d.log|] == d.log
  }

  lemma KeepsTrans(a: State, b: State, c: State)
    requires Keeps(a, b) && Keeps(b, c)
    ensures Keeps(a, c)
  {
    assert c.log[..|a.log|] == c.log[..|b.log|][..|a.log|];
  }

  lemma ReadSteps(d: State, bus: Bus, reg: Word)
    ensures var r := Read(d, bus, reg).0;
            Keeps(d, r) && r.log == d.log + [ReadTxn(reg)] && r.error.status == d.error.status
  {
  }

  lemma WriteSteps(d: State, bus: Bus, reg: Word, data: Word)
    ensures var r := Write(d, bus, reg, data).0;
            Keeps(d, r) && r.log == d.log + [WriteTxn(reg, data)] && r.error.status == d.error.status
  {
  }

  lemma AdjustGainSteps(d: State, bus: Bus, cfg: Config)
    ensures Keeps(d, AdjustGain(d, bus, cfg))
  {
    if cfg.errDspaHi || cfg.errDspaLo {
      var g := Read(d, bus, REG_GAIN_CONTROL);
      ReadSteps(d, bus, REG_GAIN_CONTROL);
      WriteSteps(g.0, bus, REG_GAIN_CONTROL, if cfg.errDspaHi then g.1 - 1 else g.1 + 1);
      KeepsTrans(d, g.0, AdjustGain(d, bus, cfg));
    }
  }

  lemma SoftResetSteps(d: State, bus: Bus, enabled: bool)
    ensures Keeps(d, SoftReset(d, bus, enabled))
  {
    if enabled {
      WriteSteps(d, bus, REG_SOFTWARE_RESET, DATA_SWRESET_SPI);
    }
  }

  lemma ClearErrorsSteps(d: State, bus: Bus, cfg: Config)
    ensures var c := ClearErrors(d, bus, cfg);
            && Keeps(d, c.0) && |c.0.log| > |d.log| && c.1 == c.0.error.status
            && var last := c.0.log[|c.0.log| - 1];
               && (last == WriteTxn(REG_MASTER_RESET, 0) <==> cfg.resetOnErrors && c.1 != 0)
               && (!(cfg.resetOnErrors && c.1 != 0) ==> last == ReadTxn(REG_CLEAR_ERROR))
  {
    var c := Read(d, bus, REG_CLEAR_ERROR);
    ReadSteps(d, bus, REG_CLEAR_ERROR);
    var d1 := c.0.(error := c.0.error.(status := c.1));
    if cfg.resetOnErrors && c.1 != 0 {
      WriteSteps(d1, bus, REG_MASTER_RESET, 0);
      KeepsTrans(d, d1, ClearErrors(d, bus, cfg).0);
    }
  }

  lemma RecoverySteps(d: State, bus: Bus, cfg: Config)
    ensures Keeps(d, Recovery(d, bus, cfg))
  {
    var d2 := AdjustGain(d, bus, cfg);
    AdjustGainSteps(d, bus, cfg);
    var d3 := SoftReset(d2, bus, cfg.errWow);
    SoftResetSteps(d2, bus, cfg.errWow);
    SoftResetSteps(d3, bus, cfg.errDspOv);
    KeepsTrans(d, d2, d3);
    KeepsTrans(d, d3, Recovery(d, bus, cfg));
  }

  // ---------------------------------------------------------------------
  // The words on the bus stay the words of the transactions
  // ---------------------------------------------------------------------

  lemma AdjustGainConsistent(d: State, bus: Bus, cfg: Config)
    requires Consistent(d)
    ensures Consistent(AdjustGain(d, bus, cfg))
  {
    if cfg.errDspaHi || cfg.errDspaLo {
      var g := Read(d, bus, REG_GAIN_CONTROL);
      ReadConsistent(d, bus, REG_GAIN_CONTROL);
      WriteConsistent(g.0, bus, REG_GAIN_CONTROL, if cfg.errDspaHi then g.1 - 1 else g.1 + 1);
    }
  }

  lemma SoftResetConsistent(d: State, bus: Bus, enabled: bool)
    requires Consistent(d)
    ensures Consistent(SoftReset(d, bus, enabled))
  {
    if enabled {
      WriteConsistent(d, bus, REG_SOFTWARE_RESET, DATA_SWRESET_SPI);
    }
  }

  lemma ClearErrorsConsistent(d: State, bus: Bus, cfg: Config)
    requires Consistent(d)
    ensures Consistent(ClearErrors(d, bus, cfg).0)
  {
    var c := Read(d, bus, REG_CLEAR_ERROR);
    ReadConsistent(d, bus, REG_CLEAR_ERROR);
    var d1 := c.0.(error := c.0.error.(status := c.1));
    WriteConsistent(d1, bus, REG_MASTER_RESET, 0);
  }

  lemma HandleErrorsConsistent(d: State, bus: Bus, cfg: Config)
    requires Consistent(d)
    ensures Consistent(HandleErrors(d, bus, cfg).0)
  {
    ReadConsistent(d, bus, REG_ERROR_STATUS);
    var d1 := ReadStatus(d, bus).0;
    var d2 := AdjustGain(d1, bus, cfg);
    AdjustGainConsistent(d1, bus, cfg);
    var d3 := SoftReset(d2, bus, cfg.errWow);
    SoftResetConsistent(d2, bus, cfg.errWow);
    SoftResetConsistent(d3, bus, cfg.errDspOv);
    ClearErrorsConsistent(Recovery(d1, bus, cfg), bus, cfg);
  }

  lemma ReadAngleConsistent(d: State, bus: Bus)
    requires Consistent(d)
    ensures Consistent(ReadAngle(d, bus).0)
  {
    ReadConsistent(d, bus, REG_ANGLE);
  }

  lemma AngleConsistent(d: State, bus: Bus, cfg: Config)
    requires Consistent(d)
    ensures Consistent(Angle(d, bus, cfg).0)
  {
    var r := ReadAngle(d, bus);
    ReadAngleConsistent(d, bus);
    HandleErrorsConsistent(r.0, bus, cfg);
  }

  lemma {:induction false} SamplesConsistent(d: State, bus: Bus, cfg: Config, n: nat)
    requires Consistent(d)
    ensures Consistent(Samples(d, bus, cfg, n).0)
  {
    if n > 0 {
      SamplesConsistent(d, bus, cfg, n - 1);
      AngleConsistent(Samples(d, bus, cfg, n - 1).0, bus, cfg);
    }
  }

  // ---------------------------------------------------------------------
  // handleErrors
  // ---------------------------------------------------------------------

  /**
   * With no standing error, or when the build takes the parity branch,
   * `handleErrors` reads the status register once and returns what it read.
   */
  lemma HandleErrorsStopsEarly(d: State, bus: Bus, cfg: Config)
    requires bus(|d.sent| + 1) == 0 || cfg.errParity
    ensures var r := HandleErrors(d, bus, cfg);
            && r.0.log == d.log + [ReadTxn(REG_ERROR_STATUS)]
            && r.1 == bus(|d.sent| + 1)
            && r.0.error.status == r.1
  {
  }

  lemma ReadStatusSteps(d: State, bus: Bus)
    ensures var r := ReadStatus(d, bus);
            && Keeps(d, r.0) && r.0.log == d.log + [ReadTxn(REG_ERROR_STATUS)]
            && r.1 == bus(|d.sent| + 1) && r.0.error.status == r.1
            && |r.0.sent| == |d.sent| + 2
  {
  }

  /**
   * `handleErrors` leaves the angle tracker alone, starts with the status
   * read, only appends transactions, and returns the status it stored.
   */
  lemma HandleErrorsKeepsTracker(d: State, bus: Bus, cfg: Config)
    ensures var r := HandleErrors(d, bus, cfg);
            && Keeps(d, r.0) && |r.0.log| > |d.log|
            && r.0.log[|d.log|] == ReadTxn(REG_ERROR_STATUS)
            && r.1 == r.0.error.status
  {
    var d1 := ReadStatus(d, bus).0;
    ReadStatusSteps(d, bus);
    var d4 := Recovery(d1, bus, cfg);
    RecoverySteps(d1, bus, cfg);
    ClearErrorsSteps(d4, bus, cfg);
    var h := ClearErrors(d4, bus, cfg).0;
    KeepsTrans(d1, d4, h);
    KeepsTrans(d, d1, h);
    assert h.log[..|d1.log|] == d1.log;
    assert h.log[|d.log|] == d1.log[|d.log|];
  }

  /**
   * On a standing error the last transaction is the master reset exactly
   * when resets are enabled and the clear-error read returned non-zero;
   * otherwise it is that clear-error read.
   */
  lemma HandleErrorsLastStep(d: State, bus: Bus, cfg: Config)
    requires bus(|d.sent| + 1) != 0 && !cfg.errParity
    ensures var r := HandleErrors(d, bus, cfg);
            var last := r.0.log[|r.0.log| - 1];
            && (last == WriteTxn(REG_MASTER_RESET, 0) <==> cfg.resetOnErrors && r.1 != 0)
            && (!(cfg.resetOnErrors && r.1 != 0) ==> last == ReadTxn(REG_CLEAR_ERROR))
  {
    ClearErrorsSteps(Recovery(ReadStatus(d, bus).0, bus, cfg), bus, cfg);
  }

  lemma AdjustGainLog(d: State, bus: Bus, cfg: Config)
    requires cfg.errDspaHi || cfg.errDspaLo
    ensures var gain := bus(|d.sent| + 1);
            AdjustGain(d, bus, cfg).log
            == d.log + [ReadTxn(REG_GAIN_CONTROL), WriteTxn(REG_GAIN_CONTROL, if cfg.errDspaHi then gain - 1 else gain + 1)]
  {
  }

  lemma HandleErrorsAfterGain(d: State, bus: Bus, cfg: Config)
    requires bus(|d.sent| + 1) != 0 && !cfg.errParity
    ensures Keeps(AdjustGain(ReadStatus(d, bus).0, bus, cfg), HandleErrors(d, bus, cfg).0)
  {
    var d2 := AdjustGain(ReadStatus(d, bus).0, bus, cfg);
    var d3 := SoftReset(d2, bus, cfg.errWow);
    SoftResetSteps(d2, bus, cfg.errWow);
    var d4 := SoftReset(d3, bus, cfg.errDspOv);
    SoftResetSteps(d3, bus, cfg.errDspOv);
    ClearErrorsSteps(d4, bus, cfg);
    KeepsTrans(d2, d3, d4);
    KeepsTrans(d2, d4, ClearErrors(d4, bus, cfg).0);
  }

  /**
   * The gain adjustment reads the gain register and writes back the word it
   * read, decremented for DSPAHI or else incremented for DSPALO, with 16-bit
   * wrap-around.
   */
  lemma HandleErrorsGainStep(d: State, bus: Bus, cfg: Config)
    requires bus(|d.sent| + 1) != 0 && !cfg.errParity
    requires cfg.errDspaHi || cfg.errDspaLo
    ensures var r := HandleErrors(d, bus, cfg);
            var gain := bus(|d.sent| + 3);
            && |r.0.log| >= |d.log| + 3
            && r.0.log[|d.log| + 1] == ReadTxn(REG_GAIN_CONTROL)
            && r.0.log[|d.log| + 2] == WriteTxn(REG_GAIN_CONTROL, if cfg.errDspaHi then gain - 1 else gain + 1)
  {
    var d1 := ReadStatus(d, bus).0;
    ReadStatusSteps(d, bus);
    var d2 := AdjustGain(d1, bus, cfg);
    AdjustGainLog(d1, bus, cfg);
    var h := HandleErrors(d, bus, cfg).0;
    HandleErrorsAfterGain(d, bus, cfg);
    assert h.log[..|d2.log|] == d2.log;
    assert h.log[|d.log| + 1] == d2.log[|d.log| + 1];
    assert h.log[|d.log| + 2] == d2.log[|d.log| + 2];
  }

  /** The number of writes to register `reg` in a transaction log. */
  function WritesTo(log: seq<Txn>, reg: Word): nat
  {
    if log == [] then 0
    else WritesTo(log[..|log| - 1], reg) + (if log[|log| - 1].WriteTxn? && log[|log| - 1].reg == reg then 1 else 0)
  }

  /** 1 when `b` holds, else 0. */
  function Count(b: bool): nat
  {
    if b then 1 else 0
  }

  lemma WritesToAppend(log: seq<Txn>, t: Txn, reg: Word)
    ensures WritesTo(log + [t], reg) == WritesTo(log, reg) + Count(t.WriteTxn? && t.reg == reg)
  {
    assert (log + [t])[..|log|] == log;
  }

  lemma ReadWrites(d: State, bus: Bus, r: Word, reg: Word)
    ensures WritesTo(Read(d, bus, r).0.log, reg) == WritesTo(d.log, reg)
  {
    WritesToAppend(d.log, ReadTxn(r), reg);
  }

  lemma WriteWrites(d: State, bus: Bus, w: Word, data: Word, reg: Word)
    ensures WritesTo(Write(d, bus, w, data).0.log, reg) == WritesTo(d.log, reg) + Count(w == reg)
  {
    WritesToAppend(d.log, WriteTxn(w, data), reg);
  }

  lemma AdjustGainWrites(d: State, bus: Bus, cfg: Config, reg: Word)
    ensures WritesTo(AdjustGain(d, bus, cfg).log, reg)
            == WritesTo(d.log, reg) + Count((cfg.errDspaHi || cfg.errDspaLo) && reg == REG_GAIN_CONTROL)
  {
    if cfg.errDspaHi || cfg.errDspaLo {
      var g := Read(d, bus, REG_GAIN_CONTROL);
      ReadWrites(d, bus, REG_GAIN_CONTROL, reg);
      WriteWrites(g.0, bus, REG_GAIN_CONTROL, if cfg.errDspaHi then g.1 - 1 else g.1 + 1, reg);
    }
  }

  lemma SoftResetWrites(d: State, bus: Bus, enabled: bool, reg: Word)
    ensures WritesTo(SoftReset(d, bus, enabled).log, reg)
            == WritesTo(d.log, reg) + Count(enabled && reg == REG_SOFTWARE_RESET)
  {
    if enabled {
      WriteWrites(d, bus, REG_SOFTWARE_RESET, DATA_SWRESET_SPI, reg);
    }
  }

  lemma RecoveryWrites(d: State, bus: Bus, cfg: Config, reg: Word)
    ensures WritesTo(Recovery(d, bus, cfg).log, reg)
            == WritesTo(d.log, reg)
               + Count((cfg.errDspaHi || cfg.errDspaLo) && reg == REG_GAIN_CONTROL)
               + Count(cfg.errWow && reg == REG_SOFTWARE_RESET)
               + Count(cfg.errDspOv && reg == REG_SOFTWARE_RESET)
  {
    var d2 := AdjustGain(d, bus, cfg);
    AdjustGainWrites(d, bus, cfg, reg);
    SoftResetWrites(d2, bus, cfg.errWow, reg);
    SoftResetWrites(SoftReset(d2, bus, cfg.errWow), bus, cfg.errDspOv, reg);
  }

  lemma ClearErrorsWrites(d: State, bus: Bus, cfg: Config, reg: Word)
    ensures var c := ClearErrors(d, bus, cfg);
            WritesTo(c.0.log, reg) == WritesTo(d.log, reg) + Count(cfg.resetOnErrors && c.1 != 0 && reg == REG_MASTER_RESET)
  {
    var c := Read(d, bus, REG_CLEAR_ERROR);
    ReadWrites(d, bus, REG_CLEAR_ERROR, reg);
    var d1 := c.0.(error := c.0.error.(status := c.1));
    WriteWrites(d1, bus, REG_MASTER_RESET, 0, reg);
  }

  /**
   * On a standing error, the build's `ERR_x` tests decide the writes to each
   * register: one gain write for DSPAHI or DSPALO, one software reset each
   * for WOW and DSPOV, and one master reset exactly when resets are enabled
   * and the clear-error read did not return 0; nothing else is written.
   */
  lemma HandleErrorsWrites(d: State, bus: Bus, cfg: Config, reg: Word)
    requires bus(|d.sent| + 1) != 0 && !cfg.errParity
    ensures var r := HandleErrors(d, bus, cfg);
            WritesTo(r.0.log, reg)
            == WritesTo(d.log, reg)
               + Count((cfg.errDspaHi || cfg.errDspaLo) && reg == REG_GAIN_CONTROL)
               + Count(cfg.errWow && reg == REG_SOFTWARE_RESET)
               + Count(cfg.errDspOv && reg == REG_SOFTWARE_RESET)
               + Count(cfg.resetOnErrors && r.1 != 0 && reg == REG_MASTER_RESET)
  {
    var d1 := ReadStatus(d, bus).0;
    ReadWrites(d, bus, REG_ERROR_STATUS, reg);
    RecoveryWrites(d1, bus, cfg, reg);
    ClearErrorsWrites(Recovery(d1, bus, cfg), bus, cfg, reg);
  }

  // ---------------------------------------------------------------------
  // angle()
  // ---------------------------------------------------------------------

  lemma AlarmBits(data: Word, t: Word)
    requires t == data | RES_ALARM_HIGH | RES_ALARM_LOW
    ensures t != 0
    ensures t & RES_PARITY == data & RES_PARITY
  {
    AlarmBitsNonZero(data, t);
  }

  lemma AlarmBitsNonZero(data: Word, t: Word)
    requires t == data | RES_ALARM_HIGH | RES_ALARM_LOW
    ensures t != 0
  {
  }

  lemma ReadAngleSteps(d: State, bus: Bus)
    ensures var r := ReadAngle(d, bus);
            && Keeps(d, r.0) && r.0.log == d.log + [ReadTxn(REG_ANGLE)]
            && r.1 == bus(|d.sent| + 1) && r.0.error.transaction != 0
            && r.0.error.transaction & RES_PARITY == r.1 & RES_PARITY
  {
    var data := bus(|d.sent| + 1);
    AlarmBits(data, data | RES_ALARM_HIGH | RES_ALARM_LOW);
  }

  /** The value `angle()` returns is always the one it leaves in `_last_angle`. */
  lemma AngleIsLastAngle(d: State, bus: Bus, cfg: Config)
    ensures var r := Angle(d, bus, cfg);
            r.1 == r.0.lastAngle && r.0.initAngle == d.initAngle && r.0.mirrored == d.mirrored
  {
    var r := ReadAngle(d, bus);
    ReadAngleSteps(d, bus);
    HandleErrorsKeepsTracker(r.0, bus, cfg);
  }

  lemma AngleLogGrows(d: State, bus: Bus, cfg: Config)
    ensures var r := Angle(d, bus, cfg);
            |r.0.log| > |d.log| && r.0.log[..|d.log|] == d.log
  {
    var r := ReadAngle(d, bus);
    ReadAngleSteps(d, bus);
    var h := HandleErrors(r.0, bus, cfg).0;
    HandleErrorsKeepsTracker(r.0, bus, cfg);
    KeepsTrans(d, r.0, h);
  }

  /**
   * Without automatic error handling `angle()` is one read of the angle
   * register, and the result is the (possibly mirrored) position field,
   * with the rollover counted against the previous angle.
   */
  lemma AngleManual(d: State, bus: Bus, cfg: Config)
    requires !cfg.autoErrorHandling
    ensures var r := Angle(d, bus, cfg);
            && r.0.log == d.log + [ReadTxn(REG_ANGLE)]
            && r.1 == Oriented(d.mirrored, Position(bus(|d.sent| + 1)))
            && r.0.rotations == d.rotations + RolloverStep(d.lastAngle, r.1)
  {
    ReadAngleSteps(d, bus);
  }

  /**
   * Line 160 sets both alarm bits in the transaction word, so with automatic
   * error handling every `angle()` call goes on to read the error status.
   */
  lemma AngleAlwaysHandlesErrors(d: State, bus: Bus, cfg: Config)
    requires cfg.autoErrorHandling
    ensures var r := Angle(d, bus, cfg);
            && |r.0.log| >= |d.log| + 2
            && r.0.log[|d.log|] == ReadTxn(REG_ANGLE)
            && r.0.log[|d.log| + 1] == ReadTxn(REG_ERROR_STATUS)
  {
    var r := ReadAngle(d, bus);
    ReadAngleSteps(d, bus);
    var h := HandleErrors(r.0, bus, cfg).0;
    HandleErrorsKeepsTracker(r.0, bus, cfg);
    AngleAutoLog(d, bus, cfg);
    assert h.log[..|r.0.log|] == r.0.log;
    assert h.log[|d.log|] == r.0.log[|d.log|];
  }

  lemma AngleAutoLog(d: State, bus: Bus, cfg: Config)
    requires cfg.autoErrorHandling
    ensures Angle(d, bus, cfg).0.log == HandleErrors(ReadAngle(d, bus).0, bus, cfg).0.log
  {
    ReadAngleSteps(d, bus);
  }

  lemma NopFaultFree()
    ensures !ParityFault(REG_NOP)
  {
    ParityFaultIsOddParity(REG_NOP);
    ParityLowOfZeroAndOne(16);
  }

  /** When the status read returns 0, `handleErrors` keeps bit 0 of the transaction word. */
  lemma HandleErrorsQuietKeepsBit0(d: State, bus: Bus, cfg: Config)
    requires bus(|d.sent| + 1) == 0
    ensures var h := HandleErrors(d, bus, cfg).0;
            Keeps(d, h) && (h.error.transaction & RES_PARITY != 0 <==> d.error.transaction & RES_PARITY != 0)
  {
    NopFaultFree();
    HandleErrorsKeepsTracker(d, bus, cfg);
  }

  /** The status read only adds bits to the transaction word, so it keeps bit 0 set. */
  lemma ReadStatusKeepsBit0(d: State, bus: Bus)
    requires d.error.transaction & RES_PARITY != 0
    ensures ReadStatus(d, bus).0.error.transaction & RES_PARITY != 0
  {
  }

  /**
   * The fail-safe of line 169 tests bit 0 of the angle response itself (the
   * transaction word was overwritten with it): when `handleErrors` stops
   * after the status read (no standing error, or the parity branch), a
   * response whose parity bit is set is discarded and the previous angle
   * returned, whether or not its parity is wrong.
   */
  lemma AngleDiscardsParityBitSet(d: State, bus: Bus, cfg: Config)
    requires cfg.autoErrorHandling
    requires bus(|d.sent| + 3) == 0 || cfg.errParity
    requires bus(|d.sent| + 1) & RES_PARITY != 0
    ensures var r := Angle(d, bus, cfg);
            r.1 == d.lastAngle && r.0.rotations == d.rotations && r.0.lastAngle == d.lastAngle
  {
    var r := ReadAngle(d, bus);
    ReadAngleSteps(d, bus);
    ReadStatusSteps(r.0, bus);
    ReadStatusKeepsBit0(r.0, bus);
  }

  /**
   * When the status read finds no error and the response's parity bit is
   * clear, the fresh (possibly mirrored) position is reported.
   */
  lemma AngleReportsParityBitClear(d: State, bus: Bus, cfg: Config)
    requires cfg.autoErrorHandling
    requires bus(|d.sent| + 3) == 0
    requires bus(|d.sent| + 1) & RES_PARITY == 0
    ensures var r := Angle(d, bus, cfg);
            && r.1 == Oriented(d.mirrored, Position(bus(|d.sent| + 1)))
            && r.0.rotations == d.rotations + RolloverStep(d.lastAngle, r.1)
  {
    var r := ReadAngle(d, bus);
    ReadAngleSteps(d, bus);
    HandleErrorsQuietKeepsBit0(r.0, bus, cfg);
  }

  /** The builds in which `handleErrors` never writes: the parity branch, or no recovery branch and no reset. */
  predicate WritesNothing(cfg: Config)
  {
    cfg.errParity || (!cfg.errDspaHi && !cfg.errDspaLo && !cfg.errWow && !cfg.errDspOv && !cfg.resetOnErrors)
  }

  /**
   * When `handleErrors` makes no write, bit 0 of the transaction word at line
   * 169 is bit 0 of the angle response ORed with the parity fault of each
   * read `handleErrors` makes (lines 113-114): the status read, and the
   * clear-error read when it gets that far. `angle()` discards the response
   * exactly when one of these is set, and otherwise reports it.
   */
  lemma AngleFailSafeWithoutWrites(d: State, bus: Bus, cfg: Config)
    requires cfg.autoErrorHandling && WritesNothing(cfg)
    ensures var k, r := |d.sent|, Angle(d, bus, cfg);
            var discard := || bus(k + 1) & RES_PARITY != 0
                           || ParityFault(bus(k + 3))
                           || (bus(k + 3) != 0 && !cfg.errParity && ParityFault(bus(k + 5)));
            && (discard ==> r.1 == d.lastAngle && r.0.rotations == d.rotations && r.0.lastAngle == d.lastAngle)
            && (!discard ==> r.1 == Oriented(d.mirrored, Position(bus(k + 1))))
  {
    var r := ReadAngle(d, bus);
    ReadAngleSteps(d, bus);
    HandleErrorsWithoutWritesBit0(r.0, bus, cfg);
  }

  /** Without writes, `handleErrors` only ORs the parity faults of its reads into bit 0. */
  lemma HandleErrorsWithoutWritesBit0(d: State, bus: Bus, cfg: Config)
    requires WritesNothing(cfg)
    ensures var k, h := |d.sent|, HandleErrors(d, bus, cfg).0;
            && Keeps(d, h)
            && (h.error.transaction & RES_PARITY != 0
                <==> || d.error.transaction & RES_PARITY != 0
                     || ParityFault(bus(k + 1))
                     || (bus(k + 1) != 0 && !cfg.errParity && ParityFault(bus(k + 3))))
  {
    var k := |d.sent|;
    var s := ReadStatus(d, bus);
    ReadStatusSteps(d, bus);
    HandleErrorsKeepsTracker(d, bus, cfg);
    if s.1 != 0 && !cfg.errParity {
      assert Recovery(s.0, bus, cfg) == s.0;
      assert |s.0.sent| == k + 2;
    }
  }

  /**
   * A correctly framed angle response with bit 0 clear is still discarded
   * when the status read has a parity fault, in a build with the parity
   * branch (the status 0x0001 has odd parity).
   */
  lemma AngleDiscardsOnStatusFault(d: State, bus: Bus)
    requires bus(|d.sent| + 1) == 0x0000 && bus(|d.sent| + 3) == 0x0001
    ensures var r := Angle(d, bus, Config(true, false, true, false, false, false, false));
            && !ParityFault(bus(|d.sent| + 1))
            && r.1 == d.lastAngle && r.0.lastAngle == d.lastAngle
            && r.0.log == d.log + [ReadTxn(REG_ANGLE), ReadTxn(REG_ERROR_STATUS)]
  {
    var cfg := Config(true, false, true, false, false, false, false);
    NopFaultFree();
    StatusOneFaulty();
    AngleFailSafeWithoutWrites(d, bus, cfg);
    AngleAutoLog(d, bus, cfg);
    ReadAngleSteps(d, bus);
    HandleErrorsStopsEarly(ReadAngle(d, bus).0, bus, cfg);
    ReadStatusSteps(ReadAngle(d, bus).0, bus);
  }

  /**
   * What `error.parity` holds after `angle()`. Every read replaces the flag
   * with the check of its own response (line 113). Without automatic
   * handling the last read is the angle read, so the flag describes the angle
   * response. With automatic handling, in a build where `handleErrors` never
   * writes, the flag describes the last read `handleErrors` makes: the status
   * read, or the clear-error read on a standing error.
   */
  lemma AngleParityFlag(d: State, bus: Bus, cfg: Config)
    ensures var k, e := |d.sent|, Angle(d, bus, cfg).0.error;
            && (!cfg.autoErrorHandling ==> e.parity == ParityFault(bus(k + 1)))
            && (cfg.autoErrorHandling && WritesNothing(cfg) ==>
                  e.parity == if bus(k + 3) != 0 && !cfg.errParity then ParityFault(bus(k + 5))
                              else ParityFault(bus(k + 3)))
  {
    var k := |d.sent|;
    var r := ReadAngle(d, bus);
    ReadAngleSteps(d, bus);
    if cfg.autoErrorHandling && WritesNothing(cfg) {
      var s := ReadStatus(r.0, bus);
      ReadStatusSteps(r.0, bus);
      if s.1 != 0 && !cfg.errParity {
        assert Recovery(s.0, bus, cfg) == s.0;
        assert |s.0.sent| == k + 4;
      }
    }
  }

  /**
   * With automatic handling the angle response's own parity fault is lost:
   * the response 0x0002 fails the check but has bit 0 clear, the quiet
   * status read clears the flag, and `angle()` reports position 0 with
   * `error.parity` false.
   */
  lemma AngleCorruptResponseUnflagged(d: State, bus: Bus)
    requires bus(|d.sent| + 1) == 0x0002 && bus(|d.sent| + 3) == 0
    ensures var r := Angle(d, bus, Config(true, true, false, false, false, false, false));
            && ParityFault(bus(|d.sent| + 1))
            && !r.0.error.parity
            && r.1 == Oriented(d.mirrored, 0)
  {
    var cfg := Config(true, true, false, false, false, false, false);
    TwoFaulty();
    NopFaultFree();
    AngleParityFlag(d, bus, cfg);
    AngleReportsParityBitClear(d, bus, cfg);
    assert Position(0x0002) == 0;
  }

  /** The word 0x0002 fails the response check: bits 15..1 have odd parity, bit 0 is clear. */
  lemma TwoFaulty()
    ensures ParityFault(0x0002)
  {
    ParityLowOfZeroAndOne(15);
    assert (0x0002 as Word) >> 1 == 1;
    ParityFaultIsOddParity(0x0002);
  }

  /** The word 0x0001 has odd parity: the response check reports a fault. */
  lemma StatusOneFaulty()
    ensures ParityFault(0x0001)
  {
    ParityFaultIsOddParity(0x0001);
    ParityLowOfZeroAndOne(16);
  }

  /** The word 0x0003 has even parity and bit 0 set: a correct response the fail-safe discards. */
  lemma ValidFrameWithParityBitSet()
    ensures !ParityFault(0x0003) && 0x0003 & RES_PARITY != 0
  {
    ParityLowOfZeroAndOne(15);
    assert (0x0003 as Word) >> 1 == 1;
    ParityFaultIsOddParity(0x0003);
  }

  /** Bit 1 of the software-reset command is bit 0 of its (even) address: clear. */
  lemma SoftResetCommandNoErrorFlag()
    ensures WriteCommand(REG_SOFTWARE_RESET) & RES_ERROR_FLAG == 0
  {
    WriteCommandPayload(REG_SOFTWARE_RESET);
    FlagFromPayload(WriteCommand(REG_SOFTWARE_RESET));
  }

  lemma FlagFromPayload(f: Word)
    requires (f >> 1) & 0x3FFF == 0x3C00
    ensures f & RES_ERROR_FLAG == 0
  {
  }

  /**
   * A write in `handleErrors` defeats the fail-safe: the write replaces bit 0
   * of the transaction word with the sticky parity flag (lines 137-138), so
   * line 169 no longer sees the response's bit 0. With automatic handling
   * and only the WOW branch enabled, the valid response 0x0003 (bit 0 set)
   * answered by a non-zero status is reported as the fresh position 0.
   */
  lemma AngleFailSafeOverriddenByWrite(d: State, bus: Bus)
    requires bus(|d.sent| + 1) == 0x0003 && bus(|d.sent| + 3) == 0x0003
    requires bus(|d.sent| + 6) == 0 && bus(|d.sent| + 8) == 0
    ensures var r := Angle(d, bus, Config(true, false, false, false, false, true, false));
            r.1 == Oriented(d.mirrored, 0) && r.0.lastAngle == r.1
  {
    var cfg := Config(true, false, false, false, false, true, false);
    ValidFrameWithParityBitSet();
    NopFaultFree();
    var r := ReadAngle(d, bus);
    ReadAngleSteps(d, bus);
    var s := ReadStatus(r.0, bus);
    ReadStatusSteps(r.0, bus);
    assert !s.0.error.parity;
    var w := Write(s.0, bus, REG_SOFTWARE_RESET, DATA_SWRESET_SPI).0;
    assert w.error.transaction & RES_PARITY == 0;
    assert Recovery(s.0, bus, cfg) == w;
    var c := ClearErrors(w, bus, cfg);
    assert c.1 == 0;
    assert c.0.error.transaction & RES_PARITY == 0;
    var h := HandleErrors(r.0, bus, cfg).0;
    assert h == c.0;
    ZeroPosition();
  }

  lemma ZeroPosition()
    ensures Position(0x0003) == 0
  {
  }

  /**
   * The position field admits 0..4095: a response is within one turn exactly
   * when its alarm bits 13..12 are clear; otherwise the angle lies outside
   * 0..1023, below it when mirrored.
   */
  lemma TrackRange(d: State, data: Word)
    ensures var a := Track(d, Position(data)).1;
            && (data & 0x3000 == 0 <==> 0 <= a < RESOLUTION)
            && (data & 0x3000 != 0 ==> if d.mirrored then a < 0 else a >= RESOLUTION)
  {
    PositionInTurn(data);
  }

  /**
   * Multi-turn tracking of one `angle()` step: when the shaft moved by less
   * than a quarter turn since the last angle, `_last_angle + 1024 * rotations`
   * moves by exactly that motion (reversed when mirrored).
   */
  lemma TrackFollowsMotion(d: State, data: Word, p: int, p': int)
    requires -255 <= p' - p <= 255
    requires Position(data) == Reading(p')
    requires d.lastAngle == Oriented(d.mirrored, Reading(p))
    ensures var r := Track(d, Position(data)).0;
            r.lastAngle + RESOLUTION * r.rotations
            == d.lastAngle + RESOLUTION * d.rotations + (if d.mirrored then p - p' else p' - p)
  {
    if d.mirrored {
      MirroredReading(p);
      MirroredReading(p');
      RolloverStepExact(-1 - p, -1 - p');
    } else {
      RolloverStepExact(p, p');
    }
  }

  /**
   * `totalAngle()` moves by the shaft's motion when the step is under a
   * quarter turn: without automatic error handling, or with it when the
   * status read finds no error and the response's parity bit is clear.
   */
  lemma TotalAngleFollowsMotion(d: State, bus: Bus, cfg: Config, p: int, p': int)
    requires !cfg.autoErrorHandling || (bus(|d.sent| + 3) == 0 && bus(|d.sent| + 1) & RES_PARITY == 0)
    requires -255 <= p' - p <= 255
    requires Position(bus(|d.sent| + 1)) == Reading(p')
    requires d.lastAngle == Oriented(d.mirrored, Reading(p))
    ensures TotalAngle(d, bus, cfg).1
            == d.lastAngle + RESOLUTION * d.rotations + (if d.mirrored then p - p' else p' - p)
  {
    if cfg.autoErrorHandling {
      AngleReportsParityBitClear(d, bus, cfg);
    } else {
      AngleManual(d, bus, cfg);
    }
    TrackFollowsMotion(d, bus(|d.sent| + 1), p, p');
  }

  /** `deltaAngle()` is `totalAngle()` less the home angle, from the same state change. */
  lemma DeltaIsTotalLessHome(d: State, bus: Bus, cfg: Config)
    ensures DeltaAngle(d, bus, cfg).0 == TotalAngle(d, bus, cfg).0
    ensures DeltaAngle(d, bus, cfg).1 == TotalAngle(d, bus, cfg).1 - d.initAngle
  {
    AngleIsLastAngle(d, bus, cfg);
  }

  /**
   * `setHome()` zeroes the home angle instead of recording the current one,
   * so afterwards `deltaAngle()` reports the same value as `totalAngle()`.
   */
  lemma SetHomeMakesDeltaTotal(d: State, bus: Bus, cfg: Config)
    ensures DeltaAngle(SetHome(d), bus, cfg).1 == TotalAngle(SetHome(d), bus, cfg).1
    ensures SetHome(d).rotations == 0
  {
    DeltaIsTotalLessHome(SetHome(d), bus, cfg);
  }

  // ---------------------------------------------------------------------
  // angle(nsamples)
  // ---------------------------------------------------------------------

  /** Up to 32 samples within one turn, `angle(n)` is their fairly rounded mean. */
  lemma AngleAverageIsFair(d: State, bus: Bus, cfg: Config, n: nat)
    requires 0 < n <= 32
    requires forall i :: 0 <= i < n ==> 0 <= Samples(d, bus, cfg, n).1[i] < RESOLUTION
    ensures AngleAverage(d, bus, cfg, n).1 == FairAverage(Samples(d, bus, cfg, n).1)
  {
    AverageInt16AgreesForFewSamples(Samples(d, bus, cfg, n).1);
  }

  lemma {:induction false} SamplesLog(d: State, bus: Bus, cfg: Config, n: nat)
    requires !cfg.autoErrorHandling
    ensures Samples(d, bus, cfg, n).0.log == d.log + seq(n, _ => ReadTxn(REG_ANGLE))
  {
    if n > 0 {
      SamplesLog(d, bus, cfg, n - 1);
      AngleManual(Samples(d, bus, cfg, n - 1).0, bus, cfg);
    }
  }

  // ---------------------------------------------------------------------
  // The constructor
  // ---------------------------------------------------------------------

  /**
   * After construction: a master reset went out first, the turn counter is
   * zero, mirroring is on, the home angle is the last angle read, and the
   * words sent are the transactions made.
   */
  lemma ConstructState(bus: Bus, cfg: Config)
    ensures var c := Construct(bus, cfg);
            && c.rotations == 0 && c.mirrored && c.initAngle == c.lastAngle
            && |c.log| >= 3 && c.log[0] == WriteTxn(REG_MASTER_RESET, 0)
            && Consistent(c)
  {
    var d1 := Write(Unset, bus, REG_MASTER_RESET, 0).0;
    WriteConsistent(Unset, bus, REG_MASTER_RESET, 0);
    var d2 := Angle(d1, bus, cfg).0;
    AngleConsistent(d1, bus, cfg);
    AngleConsistent(d2, bus, cfg);
    AngleIsLastAngle(d2, bus, cfg);
    AngleLogGrows(d1, bus, cfg);
    AngleLogGrows(d2, bus, cfg);
  }

  /**
   * The constructor reads the home angle while mirroring is still off, so
   * without automatic error handling the home is the unmirrored position.
   */
  lemma ConstructHomeUnmirrored(bus: Bus, cfg: Config)
    requires !cfg.autoErrorHandling
    ensures var c := Construct(bus, cfg);
            && c.initAngle == Position(bus(6))
            && c.log == [WriteTxn(REG_MASTER_RESET, 0), ReadTxn(REG_ANGLE), ReadTxn(REG_ANGLE)]
            && |c.sent| == 7
  {
    var d1 := Write(Unset, bus, REG_MASTER_RESET, 0).0;
    AngleManual(d1, bus, cfg);
    var d2 := Angle(d1, bus, cfg).0;
    AngleManual(d2, bus, cfg);
  }

  /**
   * Consequently, with the shaft at rest, the first `deltaAngle()` after
   * construction is odd, never the 0 expected at the home position.
   */
  lemma FirstDeltaIsOdd(bus: Bus, cfg: Config)
    requires !cfg.autoErrorHandling
    requires bus(8) == bus(6)
    ensures DeltaAngle(Construct(bus, cfg), bus, cfg).1 % 2 == 1
  {
    var c := Construct(bus, cfg);
    ConstructHomeUnmirrored(bus, cfg);
    AngleManual(c, bus, cfg);
    var r := Angle(c, bus, cfg);
    var p := Position(bus(6));
    assert r.1 == RESOLUTION - 1 - p;
    assert DeltaAngle(c, bus, cfg).1 == 1023 - 2 * p + RESOLUTION * r.0.rotations;
  }

  /**
   * With automatic handling the parity of the first delta depends on the
   * fail-safe: when every angle response of a resting shaft has bit 0 set
   * and the status reads are quiet, line 169 discards all three reads, so
   * `_init_angle`, `_last_angle` and the first `deltaAngle()` all stay 0.
   */
  lemma FirstDeltaZeroWhenDiscarded(bus: Bus, cfg: Config)
    requires cfg.autoErrorHandling
    requires bus(4) & RES_PARITY != 0 && bus(8) & RES_PARITY != 0 && bus(12) & RES_PARITY != 0
    requires bus(6) == 0 && bus(10) == 0 && bus(14) == 0
    ensures DeltaAngle(Construct(bus, cfg), bus, cfg).1 == 0
  {
    var d1 := Write(Unset, bus, REG_MASTER_RESET, 0).0;
    assert |d1.sent| == 3 && d1.lastAngle == 0 && d1.rotations == 0;
    AngleDiscardKeepsAll(d1, bus, cfg);
    var d2 := Angle(d1, bus, cfg).0;
    AngleDiscardKeepsAll(d2, bus, cfg);
    var c := Construct(bus, cfg);
    assert |c.sent| == 11 && c.lastAngle == 0 && c.initAngle == 0 && c.rotations == 0;
    AngleDiscardKeepsAll(c, bus, cfg);
  }

  /** A discarded response with a quiet status: four words sent, the tracker unchanged. */
  lemma AngleDiscardKeepsAll(d: State, bus: Bus, cfg: Config)
    requires cfg.autoErrorHandling
    requires bus(|d.sent| + 3) == 0 && bus(|d.sent| + 1) & RES_PARITY != 0
    ensures var r := Angle(d, bus, cfg);
            && r.1 == d.lastAngle && r.0.lastAngle == d.lastAngle && r.0.rotations == d.rotations
            && r.0.initAngle == d.initAngle && |r.0.sent| == |d.sent| + 4
  {
    AngleDiscardsParityBitSet(d, bus, cfg);
    AngleIsLastAngle(d, bus, cfg);
    var r := ReadAngle(d, bus);
    ReadAngleSteps(d, bus);
    ReadStatusSteps(r.0, bus);
  }
}
