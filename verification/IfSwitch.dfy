/** The IF switch: four attenuator registers and one register of temperature-servo bits,
    each with a shadow copy, and the command that sets all attenuators from one payload. */
module IfSwitch {
  import opened Common
  import opened Bits

  const CHANNELS := 4
  const ATTENUATION_MAX := 15

  function Mask(c: nat): (m: bv16)
    ensures OneBit(m)
  {
    if c == 0 then 0x1 else if c == 1 then 0x2 else if c == 2 then 0x4 else 0x8
  }

  /** The servo register, bit by bit. */
  function Servos(r: bv16): (s: seq<bool>)
    ensures |s| == CHANNELS
  {
    [Has(r, Mask(0)), Has(r, Mask(1)), Has(r, Mask(2)), Has(r, Mask(3))]
  }

  /** Writing one servo bit sets that bit and leaves the other three alone. */
  lemma ServoBits(r: bv16, c: nat, on: bool)
    requires c < CHANNELS
    ensures Servos(With(r, Mask(c), on)) == Servos(r)[c := on]
  {
    FieldsIndependent(r, Mask(c), Mask(0), on);
    FieldsIndependent(r, Mask(c), Mask(1), on);
    FieldsIndependent(r, Mask(c), Mask(2), on);
    FieldsIndependent(r, Mask(c), Mask(3), on);
  }

  /** `before` with its first `k` elements replaced by those of `d`, one after the other. */
  function Splice(d: seq<byte>, before: seq<byte>, k: nat): (s: seq<byte>)
    requires k <= |before| && k <= |d|
    ensures |s| == |before|
  {
    if k == 0 then before else Splice(d, before, k - 1)[k - 1 := d[k - 1]]
  }

  /** The same for registers, which simulation leaves alone. */
  function Written(mode: Mode, d: seq<byte>, before: seq<byte>, k: nat): seq<byte>
    requires k <= |before| && k <= |d|
  {
    if mode == Simulation then before else Splice(d, before, k)
  }

  lemma {:induction false} SpliceSlices(d: seq<byte>, before: seq<byte>, k: nat)
    requires k <= |before| && k <= |d|
    ensures Splice(d, before, k) == d[..k] + before[k..]
  {
    if k > 0 { SpliceSlices(d, before, k - 1); }
  }

  /** The first channel the command does not set: its byte is too large, or its write fails. */
  function Stop(d: seq<byte>, ok: seq<bool>, c: nat): (k: nat)
    requires c <= CHANNELS <= |d| && |ok| == CHANNELS
    ensures c <= k <= CHANNELS
    decreases CHANNELS - c
  {
    if c == CHANNELS || d[c] > ATTENUATION_MAX || !ok[c] then c else Stop(d, ok, c + 1)
  }

  /** In simulation no register is written, so no write can fail. */
  function Effective(mode: Mode, ok: seq<bool>): (w: seq<bool>)
    requires |ok| == CHANNELS
    ensures |w| == CHANNELS
  {
    if mode == Simulation then [true, true, true, true] else ok
  }

  /** `attenuation` and `servo` are the status structure's fields, in channel order. */
  class Switch {
    const data: array<byte>
    var regs: seq<byte>
    var hwRegs: seq<byte>
    var attenuation: seq<byte>
    var servo: seq<bool>
    var fReg: bv16
    var hwFReg: bv16
    var current: nat

    ghost predicate Valid()
      reads this
    {
      data.Length == 8 && |regs| == |hwRegs| == |attenuation| == |servo| == CHANNELS
    }

    /** Shadow registers, hardware registers and status structure tell the same story. */
    ghost predicate Agree()
      requires Valid()
      reads this
    {
      && regs == hwRegs == attenuation
      && fReg == hwFReg && Servos(fReg) == servo
    }

    constructor ()
      ensures Valid() && Agree() && fresh(data)
    {
      data := new byte[8](_ => 0);
      regs, hwRegs, attenuation := [0, 0, 0, 0], [0, 0, 0, 0], [0, 0, 0, 0];
      servo := [false, false, false, false];
      fReg, hwFReg, current := 0, 0, 0;
    }

    /** Set the current channel's attenuation from the first payload byte. */
    method SetIfChannelAttenuation(mode: Mode, ok: bool) returns (r: Status)
      requires Valid() && current < CHANNELS
      modifies `regs, `hwRegs, `attenuation
      ensures Valid()
      ensures r == if mode == Simulation || ok then NoError else Error
      ensures attenuation == if r == NoError then old(attenuation)[current := data[0]] else old(attenuation)
      ensures regs == if r == NoError && mode != Simulation then old(regs)[current := data[0]] else old(regs)
      ensures hwRegs == if r == NoError && mode != Simulation then old(hwRegs)[current := data[0]] else old(hwRegs)
    {
      if mode != Simulation {
        var temp := regs[current];
        regs := regs[current := data[0]];
        if !ok {
          regs := regs[current := temp];
          return Error;
        }
        hwRegs := hwRegs[current := regs[current]];
      }
      attenuation := attenuation[current := data[0]];
      return NoError;
    }

    /** One turn of the loop below: check the current channel's byte, copy it to the front of
        the payload, and set the channel from there. */
    method SetFromPayload(mode: Mode, ok: bool) returns (r: Status)
      requires Valid() && current < CHANNELS
      modifies data, `regs, `hwRegs, `attenuation
      ensures Valid() && forall i :: 1 <= i < 8 ==> data[i] == old(data[i])
      ensures r == if old(data[current]) > ATTENUATION_MAX then ControlOutOfRange else if mode == Simulation || ok then NoError else Error
      ensures attenuation == if r == NoError then old(attenuation)[current := old(data[current])] else old(attenuation)
      ensures regs == if r == NoError && mode != Simulation then old(regs)[current := old(data[current])] else old(regs)
      ensures hwRegs == if r == NoError && mode != Simulation then old(hwRegs)[current := old(data[current])] else old(hwRegs)
    {
      if data[current] > ATTENUATION_MAX {
        return ControlOutOfRange;
      }
      data[0] := data[current];
      r := SetIfChannelAttenuation(mode, ok);
    }

    /** Set all four attenuators. The loop copies each byte over the first one, which it has
        read already. */
    method AllChannelsHandler(mode: Mode, ok: seq<bool>) returns (status: Status)
      requires Valid() && |ok| == CHANNELS
      modifies data, `regs, `hwRegs, `attenuation, `current
      ensures Valid()
      ensures var d := old(data[..]);
              var k := Stop(d, Effective(mode, ok), 0);
              && attenuation == Splice(d, old(attenuation), k)
              && regs == Written(mode, d, old(regs), k)
              && hwRegs == Written(mode, d, old(hwRegs), k)
              && status == if k == CHANNELS then NoError else if d[k] > ATTENUATION_MAX then ControlOutOfRange else Error
      ensures var d := old(data[..]);
              var k := Stop(d, Effective(mode, ok), 0);
              attenuation == d[..k] + old(attenuation)[k..]
      ensures forall i :: 1 <= i < 8 ==> data[i] == old(data[i])
      ensures mode != Simulation && old(Agree()) ==> Agree()
    {
      SpliceSlices(data[..], attenuation, Stop(data[..], Effective(mode, ok), 0));
      ghost var d, w := data[..], Effective(mode, ok);
      current := 0;
      while current < CHANNELS
        invariant Valid() && current <= CHANNELS && Stop(d, w, current) == Stop(d, w, 0)
        invariant forall i :: 0 <= i < 8 && (i > 0 || current == 0) ==> data[i] == d[i]
        invariant attenuation == Splice(d, old(attenuation), current)
        invariant regs == Written(mode, d, old(regs), current)
        invariant hwRegs == Written(mode, d, old(hwRegs), current)
        decreases CHANNELS - current
      {
        status := SetFromPayload(mode, ok[current]);
        if status != NoError {
          return;
        }
        current := current + 1;
      }
      return NoError;
    }

    /** The monitor reply lists the four attenuations. */
    method AllChannelsMonitor()
      requires Valid()
      modifies data, `current
      ensures Valid() && data[..] == Splice(attenuation, old(data[..]), CHANNELS)
    {
      ghost var d := data[..];
      current := 0;
      while current < CHANNELS
        invariant Valid() && current <= CHANNELS
        invariant data[..] == Splice(attenuation, d, current)
      {
        data[current] := attenuation[current];
        assert data[..] == Splice(attenuation, d, current)[current := attenuation[current]];
        current := current + 1;
      }
    }

    /** Switch the current channel's temperature servo. */
    method SetIfTempServoEnable(mode: Mode, enable: bool, ok: bool) returns (r: Status)
      requires Valid() && current < CHANNELS
      modifies `fReg, `hwFReg, `servo
      ensures Valid() && r == if mode == Simulation || ok then NoError else Error
      ensures servo == if r == NoError then old(servo)[current := enable] else old(servo)
      ensures Servos(fReg) == if r == NoError && mode != Simulation then old(Servos(fReg))[current := enable] else old(Servos(fReg))
      ensures hwFReg == if r == NoError && mode != Simulation then fReg else old(hwFReg)
      ensures mode != Simulation && old(Agree()) ==> Agree()
    {
      ServoBits(fReg, current, enable);
      if mode != Simulation {
        var tempFReg := fReg;
        fReg := With(fReg, Mask(current), enable);
        if !ok {
          fReg := tempFReg;
          return Error;
        }
        hwFReg := fReg;
      }
      servo := servo[current := enable];
      return NoError;
    }
  }

  /** The command stops at the first channel that cannot be set, so everything is set exactly
      when all four bytes are in range and all four writes succeed. */
  lemma StopsAtFirstFailure(d: seq<byte>, ok: seq<bool>, k: nat)
    requires |d| == 8 && |ok| == CHANNELS && k <= CHANNELS
    ensures Stop(d, ok, 0) == k <==>
            (forall j :: 0 <= j < k ==> d[j] <= ATTENUATION_MAX && ok[j]) && (k < CHANNELS ==> d[k] > ATTENUATION_MAX || !ok[k])
  {
    StopFrom(d, ok, 0);
  }

  lemma {:induction false} StopFrom(d: seq<byte>, ok: seq<bool>, c: nat)
    requires c <= CHANNELS <= |d| && |ok| == CHANNELS
    ensures var k := Stop(d, ok, c);
            && (forall j :: c <= j < k ==> d[j] <= ATTENUATION_MAX && ok[j])
            && (k < CHANNELS ==> d[k] > ATTENUATION_MAX || !ok[k])
    decreases CHANNELS - c
  {
    if c < CHANNELS && d[c] <= ATTENUATION_MAX && ok[c] { StopFrom(d, ok, c + 1); }
  }

  /** Bit c of the register is servo c. */
  lemma ServoRegister(r: bv16)
    ensures Servos(r) == [r & 0x1 != 0, r & 0x2 != 0, r & 0x4 != 0, r & 0x8 != 0]
  {
  }

  /** All four attenuators are set exactly when all bytes are at most 15 and all writes succeed. */
  lemma AllSetIff(d: seq<byte>, ok: seq<bool>)
    requires |d| == 8 && |ok| == CHANNELS
    ensures Stop(d, ok, 0) == 4 <==> forall j :: 0 <= j < 4 ==> d[j] <= 15 && ok[j]
  {
    StopsAtFirstFailure(d, ok, 4);
  }
}
