/** The handlers themselves: fields updated in place, one conversion buffer shared by all of
    them, each proved to take the corresponding step. */
module LocalOscillator {
  import opened Common
  import opened PaLimits
  import opened PaUploads
  import opened PaLimitsTable
  import opened LoSafety

  /** The conversion union, by the view last written. */
  datatype Conversion = Word(u: word) | Float(f: real)

  class Oscillator {
    const band: nat
    const limits: LimitsTable
    var last: seq<real>
    var pot: seq<byte>
    var hw: seq<byte>
    var ytoCoarseTune: word
    var aReg: word
    var ytoHw: word
    var convert: Conversion
    var currentPa: nat

    ghost predicate Valid()
      reads this, limits, limits.table
    {
      |last| == |pot| == |hw| == 2 && aReg == ytoHw && currentPa < 2 && limits.Valid()
    }

    ghost function Snap(): Osc
      requires Valid()
      reads this, limits, limits.table
    {
      Lo(last, pot, hw, ytoCoarseTune, ytoHw)
    }

    constructor (band: nat, limits: LimitsTable)
      requires limits.Valid()
      ensures Valid() && this.band == band && this.limits == limits
      ensures Snap() == Lo([0.0, 0.0], [0, 0], [0, 0], 0, 0)
    {
      this.band, this.limits := band, limits;
      last, pot, hw := [0.0, 0.0], [0, 0], [0, 0];
      ytoCoarseTune, aReg, ytoHw := 0, 0, 0;
      convert, currentPa := Word(0), 0;
    }

    method SetPaDrain(mode: Mode, ok: bool) returns (r: Status)
      requires Valid() && convert.Float?
      modifies `pot, `hw
      ensures Valid() && Snap() == Send(old(Snap()), mode, Channel(band, currentPa), convert.f, ok)
      ensures r == SendStatus(mode, ok)
    {
      if mode != Simulation {
        pot := pot[Channel(band, currentPa) := Scaled(convert.f)];
        if !ok {
          return Error;
        }
        hw := pot;
      }
      return NoError;
    }

    method SetPaGate(mode: Mode, ok: bool) returns (r: Status)
      requires Valid()
      modifies `hw
      ensures Valid() && Snap() == LoSafety.Gate(old(Snap()), mode, ok) && r == SendStatus(mode, ok)
    {
      if mode != Simulation {
        if !ok {
          return Error;
        }
        hw := pot;
      }
      return NoError;
    }

    /** Write the tuning register, rolling the shadow back when the write fails. */
    method SetYtoCoarseTune(mode: Mode, ok: bool) returns (r: Status)
      requires Valid() && convert.Word?
      modifies `aReg, `ytoHw, `ytoCoarseTune
      ensures Valid() && Snap() == Tune(old(Snap()), mode, convert.u, ok) && r == SendStatus(mode, ok)
    {
      var tempAReg := aReg;
      if mode != Simulation {
        aReg := convert.u;
        if !ok {
          aReg := tempAReg;
          return Error;
        }
        ytoHw := aReg;
      }
      ytoCoarseTune := convert.u;
      return NoError;
    }

    /** Bring the current polarization down to `max`, if it was last commanded above it. */
    method LowerDrain(mode: Mode, max: real, ok: bool) returns (r: Status)
      requires Valid()
      modifies `convert, `last, `pot, `hw
      ensures Valid() && (Snap(), r) == Lower(old(Snap()), mode, Channel(band, currentPa), max, ok)
    {
      convert := Float(last[Channel(band, currentPa)]);
      if convert.f <= max {
        return NoError;
      }
      convert := Float(max);
      last := last[Channel(band, currentPa) := convert.f];
      var sent := SetPaDrain(mode, ok);
      r := if sent == Error then Error else HardwareBlocked;
    }

    /** Called with the new tuning word in the conversion buffer, which it hands back. */
    method LimitSafeYtoTuning(mode: Mode, ok0: bool, ok1: bool) returns (r: Status)
      requires Valid() && convert.Word?
      modifies `convert, `currentPa, `last, `pot, `hw
      ensures Valid() && convert == old(convert)
      ensures (Snap(), r) == LimitTuning(old(Snap()), limits.Entries(), band, mode, convert.u, ok0, ok1)
    {
      var backup := convert;
      var entry := limits.FindMaxSafeEntry(convert.u);
      if entry.None? {
        return NoError;
      }
      currentPa := 0;
      var ret0 := LowerDrain(mode, entry.value.vd0, ok0);
      currentPa := 1;
      var ret1 := LowerDrain(mode, entry.value.vd1, ok1);
      convert := backup;
      r := Worst(ret0, ret1);
    }

    method YtoCoarseTuneHandler(mode: Mode, y: word, ok0: bool, ok1: bool, okYto: bool) returns (status: Status)
      requires Valid()
      modifies `convert, `currentPa, `last, `pot, `hw, `aReg, `ytoHw, `ytoCoarseTune
      ensures Valid()
      ensures (Snap(), status) == Retune(old(Snap()), limits.Entries(), band, mode, y, ok0, ok1, okYto)
    {
      convert := Word(y);
      if y > YTO_MAX {
        return ControlOutOfRange;
      }
      var ret := NoError;
      if mode != Troubleshooting {
        ret := LimitSafeYtoTuning(mode, ok0, ok1);
      }
      if ret == Error {
        return Error;
      }
      var tuned := SetYtoCoarseTune(mode, okYto);
      status := if tuned == Error then Error else ret;
    }

    /** Clamp the drain voltage in the conversion buffer to the limit in force. */
    method LimitSafePaDrainVoltage(pol: nat) returns (r: Status)
      requires Valid() && pol < 2 && convert.Float?
      modifies `convert
      ensures Valid() && convert == Float(Clamp(limits.Entries(), ytoCoarseTune, pol, old(convert).f))
      ensures r == if convert == old(convert) then NoError else HardwareBlocked
    {
      var entry := limits.FindMaxSafeEntry(ytoCoarseTune);
      if entry.None? {
        return NoError;
      }
      if pol == 0 && convert.f > entry.value.vd0 {
        convert := Float(entry.value.vd0);
        return HardwareBlocked;
      }
      if pol == 1 && convert.f > entry.value.vd1 {
        convert := Float(entry.value.vd1);
        return HardwareBlocked;
      }
      return NoError;
    }

    method DrainVoltageHandler(mode: Mode, pol: nat, v: real, temp4K: real, temp12K: real, ok: bool) returns (status: Status)
      requires Valid() && pol < 2
      modifies `convert, `currentPa, `last, `pot, `hw
      ensures Valid()
      ensures (Snap(), status) ==
              Drive(old(Snap()), limits.Entries(), band, mode, pol, v, MayDrive(band, mode, temp4K, temp12K), ok)
      ensures band >= 2 && mode != Troubleshooting && !(0.0 < temp4K < 30.0) && !(0.0 < temp12K < 30.0) ==>
                status == HardwareBlocked && Snap() == old(Snap())
    {
      currentPa := pol;
      var enabled := DriveEnabled(mode, temp4K, temp12K);
      if !enabled {
        return HardwareBlocked;
      }
      status := CommandDrain(mode, v, ok);
    }

    method DriveEnabled(mode: Mode, temp4K: real, temp12K: real) returns (enabled: bool)
      ensures enabled == MayDrive(band, mode, temp4K, temp12K)
    {
      enabled := BelowMax(temp4K, PA_MAX_ALLOWED_TEMP);
      if !enabled && BelowMax(temp12K, PA_MAX_ALLOWED_TEMP) {
        enabled := true;
      }
      if band == 0 || band == 1 {
        enabled := true;
      }
      if mode == Troubleshooting {
        enabled := true;
      }
    }

    /** Clamp, store as last commanded, then send. */
    method CommandDrain(mode: Mode, v: real, ok: bool) returns (status: Status)
      requires Valid()
      modifies `convert, `last, `pot, `hw
      ensures Valid()
      ensures (Snap(), status) == Drive(old(Snap()), limits.Entries(), band, mode, currentPa, v, true, ok)
    {
      var ch := Channel(band, currentPa);
      last := last[ch := v];
      convert := Float(v);
      var ret := NoError;
      if mode != Troubleshooting {
        ret := LimitSafePaDrainVoltage(currentPa);
      }
      if ret != NoError {
        last := last[ch := convert.f];
      }
      assert last == old(last)[ch := convert.f];
      var sent := SetPaDrain(mode, ok);
      status := if sent == Error then Error else ret;
    }

    method LoZeroPaDrainVoltage(mode: Mode, okA: bool, okB: bool) returns (r: Status)
      requires Valid()
      modifies `convert, `currentPa, `last, `pot, `hw
      ensures Valid()
      ensures (Snap(), r) == ZeroDrains(old(Snap()), band, mode, okA, okB)
    {
      convert := Float(0.0);
      currentPa := 0;
      r := SetPaDrain(mode, okA);
      if r == Error {
        return;
      }
      last := last[currentPa := convert.f];
      currentPa := 1;
      r := SetPaDrain(mode, okB);
      if r == Error {
        return;
      }
      last := last[currentPa := convert.f];
    }

    method LoZeroPaGateVoltage(mode: Mode, okA: bool, okB: bool) returns (r: Status)
      requires Valid()
      modifies `convert, `currentPa, `hw
      ensures Valid() && (Snap(), r) == ZeroGates(old(Snap()), mode, okA, okB)
    {
      convert := Float(0.0);
      currentPa := 0;
      r := SetPaGate(mode, okA);
      if r == Error {
        return;
      }
      currentPa := 1;
      r := SetPaGate(mode, okB);
    }

    method LoInit(mode: Mode, io: InitIo) returns (r: Status)
      requires Valid()
      modifies `convert, `currentPa, `last, `pot, `hw, `aReg, `ytoHw, `ytoCoarseTune
      ensures Valid() && (Snap(), r) == LoSafety.Init(old(Snap()), band, mode, io)
    {
      if !io.clock {
        return Error;
      }
      r := LoZero(mode, io);
    }

    /** Zero the drains, the gates and the tuning, stopping at the first failure. */
    method LoZero(mode: Mode, io: InitIo) returns (r: Status)
      requires Valid()
      modifies `convert, `currentPa, `last, `pot, `hw, `aReg, `ytoHw, `ytoCoarseTune
      ensures Valid() && (Snap(), r) == ZeroAll(old(Snap()), band, mode, io)
    {
      r := LoZeroPaDrainVoltage(mode, io.drain0, io.drain1);
      if r != NoError {
        return;
      }
      r := LoZeroPaGateVoltage(mode, io.gate0, io.gate1);
      if r != NoError {
        return;
      }
      convert := Word(0);
      r := SetYtoCoarseTune(mode, io.tune);
    }
  }
}
