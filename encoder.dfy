/**
 * The `AS5050` class: the driver object whose methods update its fields in
 * place. Each method is proved to change the object exactly as the matching
 * function of `Driver` says, and to keep the words it has sent equal to the
 * words of the transactions it has made.
 */
module Encoder {
  import opened Frames
  import opened Angles
  import Driver
  import Properties

  class AS5050 {
    /** The chip's side of the bus: its answer to the k-th transfer. */
    const bus: Driver.Bus
    /** The build's `#if` switches and `ERR_x` tests. */
    const cfg: Driver.Config

    /** Every word sent on the bus so far, in order. */
    var sent: seq<Word>
    /** The register transactions those words form. */
    ghost var log: seq<Driver.Txn>

    var error: Driver.ErrorState
    var lastAngle: int
    var rotations: int
    var initAngle: int
    var mirrored: bool

    ghost function State(): Driver.State
      reads this
    {
      Driver.State(sent, log, error, lastAngle, rotations, initAngle, mirrored)
    }

    ghost predicate Valid()
      reads this
    {
      Driver.Consistent(State())
    }

    /** Lines 51-77, after the SPI set-up. */
    constructor (bus: Driver.Bus, cfg: Driver.Config)
      ensures this.bus == bus && this.cfg == cfg
      ensures State() == Driver.Construct(bus, cfg)
      ensures Valid()
    {
      this.bus := bus;
      this.cfg := cfg;
      sent := [];
      log := [];
      error := Driver.ErrorState(false, 0, 0);
      lastAngle := 0;
      rotations := 0;
      initAngle := 0;
      mirrored := false;
      new;
      var ack := Write(REG_MASTER_RESET, 0);
      var first := Angle();
      initAngle := Angle();
      rotations := 0;
      mirrored := true;
    }

    /** `send` (lines 79-95): one 16-bit transfer; the chip answers from the bus. */
    method Send(w: Word) returns (r: Word)
      modifies this
      ensures sent == old(sent) + [w]
      ensures State() == old(State()).(sent := sent)
      ensures r == bus(|old(sent)|)
    {
      r := bus(|sent|);
      sent := sent + [w];
    }

    /** `read` (lines 98-118). */
    method Read(reg: Word) returns (r: Word)
      requires Valid()
      modifies this
      ensures State() == Driver.Read(old(State()), bus, reg).0
      ensures r == Driver.Read(old(State()), bus, reg).1
      ensures Valid()
    {
      ghost var d := State();
      Properties.WireAppend(d.log, Driver.ReadTxn(reg));
      var echo := Send(ReadCommand(reg));
      r := Send(REG_NOP);
      log := log + [Driver.ReadTxn(reg)];
      error := Driver.AfterRead(error, r);
      assert sent == d.sent + [ReadCommand(reg), REG_NOP];
    }

    /** `write` (lines 122-142). */
    method Write(reg: Word, data: Word) returns (ack: Word)
      requires Valid()
      modifies this
      ensures State() == Driver.Write(old(State()), bus, reg, data).0
      ensures ack == Driver.Write(old(State()), bus, reg, data).1
      ensures Valid()
    {
      ghost var d := State();
      Properties.WriteConsistent(d, bus, reg, data);
      var cmd := WriteCommand(reg);
      var echo := Send(cmd);
      echo := Send(DataFrame(data));
      ack := Send(REG_NOP);
      log := log + [Driver.WriteTxn(reg, data)];
      error := Driver.AfterWrite(error, cmd, ack);
      assert sent == d.sent + [cmd, DataFrame(data), REG_NOP];
    }

    /** Line 237: the status read. */
    method ReadStatus() returns (s: Word)
      requires Valid()
      modifies this
      ensures State() == Driver.ReadStatus(old(State()), bus).0
      ensures s == Driver.ReadStatus(old(State()), bus).1
      ensures Valid()
    {
      s := Read(REG_ERROR_STATUS);
      error := error.(status := s);
    }

    /** Lines 251-257: the gain adjustment. */
    method AdjustGain()
      requires Valid()
      modifies this
      ensures State() == Driver.AdjustGain(old(State()), bus, cfg)
      ensures Valid()
    {
      if cfg.errDspaHi {
        var gain := Read(REG_GAIN_CONTROL);
        gain := gain - 1;
        var ack := Write(REG_GAIN_CONTROL, gain);
      } else if cfg.errDspaLo {
        var gain := Read(REG_GAIN_CONTROL);
        gain := gain + 1;
        var ack := Write(REG_GAIN_CONTROL, gain);
      }
    }

    /** Lines 262-271: a software reset when the branch is enabled. */
    method SoftReset(enabled: bool)
      requires Valid()
      modifies this
      ensures State() == Driver.SoftReset(old(State()), bus, enabled)
      ensures Valid()
    {
      if enabled {
        var ack := Write(REG_SOFTWARE_RESET, DATA_SWRESET_SPI);
      }
    }

    /** Lines 301-306: clear the errors, then reset the chip if they persist. */
    method ClearErrors() returns (s: Word)
      requires Valid()
      modifies this
      ensures State() == Driver.ClearErrors(old(State()), bus, cfg).0
      ensures s == Driver.ClearErrors(old(State()), bus, cfg).1
      ensures Valid()
    {
      s := Read(REG_CLEAR_ERROR);
      error := error.(status := s);
      if cfg.resetOnErrors && error.status != 0 {
        var ack := Write(REG_MASTER_RESET, 0);
      }
    }

    /** `handleErrors` (lines 236-311); the branches with empty bodies are left out. */
    method HandleErrors() returns (status: Word)
      requires Valid()
      modifies this
      ensures State() == Driver.HandleErrors(old(State()), bus, cfg).0
      ensures status == Driver.HandleErrors(old(State()), bus, cfg).1
      ensures Valid()
    {
      status := ReadStatus();
      if status != 0 && !cfg.errParity {
        ghost var d1 := State();
        AdjustGain();
        SoftReset(cfg.errWow);
        SoftReset(cfg.errDspOv);
        assert State() == Driver.Recovery(d1, bus, cfg);
        status := ClearErrors();
      }
    }

    /** Lines 147-160: read the angle register and record the response. */
    method ReadAngle() returns (data: Word)
      requires Valid()
      modifies this
      ensures State() == Driver.ReadAngle(old(State()), bus).0
      ensures data == Driver.ReadAngle(old(State()), bus).1
      ensures Valid()
    {
      data := Read(REG_ANGLE);
      // Line 158 sets bit 0 of the transaction word, which line 160 then overwrites.
      error := error.(parity := ParityFault(data), transaction := data | RES_ALARM_HIGH | RES_ALARM_LOW);
    }

    /** Lines 177-184: mirroring, rollover count, last angle, for the position of line 174. */
    method Track(position: int) returns (a: int)
      modifies this
      ensures State() == Driver.Track(old(State()), position).0
      ensures a == Driver.Track(old(State()), position).1
      ensures unchanged(this`sent, this`log)
    {
      a := position;
      if mirrored {
        a := (RESOLUTION - 1) - a;
      }
      if lastAngle > 768 && a <= 256 {
        rotations := rotations + 1;
      } else if lastAngle < 256 && a >= 768 {
        rotations := rotations - 1;
      }
      lastAngle := a;
    }

    /** `angle()` (lines 144-186). */
    method Angle() returns (a: int)
      requires Valid()
      modifies this
      ensures State() == Driver.Angle(old(State()), bus, cfg).0
      ensures a == Driver.Angle(old(State()), bus, cfg).1
      ensures Valid()
    {
      var data := ReadAngle();
      if cfg.autoErrorHandling && error.transaction != 0 {
        var status := HandleErrors();
        if error.transaction & RES_PARITY != 0 {
          return lastAngle;
        }
      }
      a := Track(Position(data));
    }

    /** The loop of `angle(nsamples)` (lines 188-191): `n` angles summed in a 16-bit `int`. */
    method SampleSum(n: nat) returns (sum: int, ghost samples: seq<int>)
      requires Valid()
      modifies this
      ensures State() == Driver.Samples(old(State()), bus, cfg, n).0
      ensures samples == Driver.Samples(old(State()), bus, cfg, n).1
      ensures sum == Sum16(samples)
      ensures Valid()
    {
      ghost var d0 := State();
      samples := [];
      sum := 0;
      var i := 0;
      while i < n
        invariant 0 <= i <= n
        invariant State() == Driver.Samples(d0, bus, cfg, i).0
        invariant samples == Driver.Samples(d0, bus, cfg, i).1
        invariant sum == Sum16(samples)
        invariant Valid()
      {
        var a := Angle();
        assert (samples + [a])[..|samples|] == samples;
        samples := samples + [a];
        sum := Wrap16(sum + a);
        i := i + 1;
      }
    }

    /** `angle(nsamples)` (lines 187-194): the sum is a 16-bit `int`. */
    method AngleAverage(n: nat) returns (avg: int)
      requires 0 < n < 256
      requires Valid()
      modifies this
      ensures State() == Driver.AngleAverage(old(State()), bus, cfg, n).0
      ensures avg == Driver.AngleAverage(old(State()), bus, cfg, n).1
      ensures Valid()
    {
      var sum, samples := SampleSum(n);
      AverageOfRunningSum(samples, sum, n);
      avg := TruncDiv(Wrap16(sum + n / 2), n);
    }

    /** `totalAngle()` (lines 209-211). */
    method TotalAngle() returns (t: int)
      requires Valid()
      modifies this
      ensures (State(), t) == Driver.TotalAngle(old(State()), bus, cfg)
      ensures Valid()
    {
      var a := Angle();
      t := a + rotations * RESOLUTION;
    }

    /** `deltaAngle()` (lines 220-222). */
    method DeltaAngle() returns (t: int)
      requires Valid()
      modifies this
      ensures (State(), t) == Driver.DeltaAngle(old(State()), bus, cfg)
      ensures Valid()
    {
      var a := Angle();
      t := (a - initAngle) + rotations * RESOLUTION;
    }

    /** `setHome()` (lines 230-234). */
    method SetHome()
      modifies this
      ensures State() == Driver.SetHome(old(State()))
      ensures Valid() <==> old(Valid())
    {
      rotations := 0;
      initAngle := 0;
    }
  }
}
