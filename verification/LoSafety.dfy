/** Drain-voltage commands and retunes of one local oscillator, as steps on its state, and
    what every run of them keeps. */
module LoSafety {
  import opened Common
  import opened PaLimits
  import opened PaUploads

  const YTO_MAX := 4095
  const PA_MAX_ALLOWED_TEMP := 30.0

  // ----- The pots -----------------------------------------------------------

  const STEPS_PER_VOLT := 102.0

  /** C's conversion from floating point: towards zero. */
  function Trunc(x: real): int { if 0.0 <= x then x.Floor else -((-x).Floor) }

  /** The pot setting for a drain voltage: one byte, wrapping. */
  function Scaled(v: real): byte { Trunc(STEPS_PER_VOLT * v) % 0x100 }

  /** The drain voltage a pot setting stands for. */
  function Volts(b: byte): real { b as real / STEPS_PER_VOLT }

  /** A voltage whose pot setting stands for no more than itself, or than zero. */
  predicate Sound(v: real) { STEPS_PER_VOLT * v > -1.0 || Trunc(STEPS_PER_VOLT * v) % 0x100 == 0 }

  lemma VoltsBelow(b: byte, x: real)
    ensures Volts(b) <= x <==> b as real <= STEPS_PER_VOLT * x
  {
    assert Volts(b) * STEPS_PER_VOLT == b as real;
  }

  lemma TruncModulo(n: nat)
    ensures n % 0x100 <= n
  {
  }

  /** The setting is sound exactly for these: a command below that bound comes out of the byte
      conversion as a large setting. */
  lemma SoundIff(v: real)
    ensures Volts(Scaled(v)) <= Max(v, 0.0) <==> Sound(v)
  {
    var x := STEPS_PER_VOLT * v;
    VoltsBelow(Scaled(v), Max(v, 0.0));
    if 0.0 <= v {
      assert 0.0 <= x;
      TruncModulo(x.Floor);
      assert Scaled(v) as real <= x.Floor as real <= x;
    } else {
      assert STEPS_PER_VOLT * 0.0 == 0.0;
      if x > -1.0 { assert (-x).Floor == 0; }
    }
  }

  /** One hundredth of a volt below zero is two and a half volts at the amplifier. */
  lemma NegativeCommandWraps()
    ensures Scaled(-0.01) == 0xFF && Volts(0xFF) == 2.5 && !Sound(-0.01)
  {
    assert STEPS_PER_VOLT * -0.01 == -1.02;
    assert (1.02).Floor == 1;
  }

  // ----- State ----------------------------------------------------------------

  /** Indexed by PA channel: the drain voltage last commanded, the setting in the pot register,
      and the one the amplifier received. `yto` is the recorded tuning word, `ytoHw` the one in
      the hardware. */
  datatype Lo = Lo(last: seq<real>, pot: seq<byte>, hw: seq<byte>, yto: word, ytoHw: word) {
    ghost predicate WellFormed() { |last| == |pot| == |hw| == 2 }
  }

  type Osc = s: Lo | s.WellFormed() ghost witness Lo([0.0, 0.0], [0, 0], [0, 0], 0, 0)

  /** The voltages two pot settings stand for. */
  function VoltsOf(b: seq<byte>): (v: seq<real>)
    requires |b| == 2
    ensures |v| == 2
  {
    [Volts(b[0]), Volts(b[1])]
  }

  function Settings(v: seq<real>): (b: seq<byte>)
    requires |v| == 2
    ensures |b| == 2
  {
    [Scaled(v[0]), Scaled(v[1])]
  }

  /** Which PA channel drives a polarization: swapped in bands 3, 4, 8, 9 and 10. */
  function Channel(band: nat, pol: nat): (ch: nat)
    ensures ch < 2
  {
    if band in {2, 3, 7, 8, 9} then (if pol == 0 then 1 else 0) else (if pol == 0 then 0 else 1)
  }

  // ----- Steps ------------------------------------------------------------

  /** Send one drain voltage, scaled to a pot setting. The pot register carries all pots, so a later successful
      write also delivers a value whose own write was lost. */
  function Send(s: Osc, mode: Mode, ch: nat, v: real, ok: bool): Osc
    requires ch < 2
  {
    if mode == Simulation then s
    else
      var pot := s.pot[ch := Scaled(v)];
      if ok then s.(pot := pot, hw := pot) else s.(pot := pot)
  }

  function SendStatus(mode: Mode, ok: bool): Status { if mode == Simulation || ok then NoError else Error }

  /** Lower one channel to `max` if it was last commanded above it. */
  function Lower(s: Osc, mode: Mode, ch: nat, max: real, ok: bool): (Osc, Status)
    requires ch < 2
  {
    if s.last[ch] > max then
      (Send(s.(last := s.last[ch := max]), mode, ch, max, ok),
       if SendStatus(mode, ok) == Error then Error else HardwareBlocked)
    else (s, NoError)
  }

  function Worst(a: Status, b: Status): Status {
    if a == Error || b == Error then Error
    else if a == HardwareBlocked || b == HardwareBlocked then HardwareBlocked
    else NoError
  }

  /** Before tuning to `y`: bring both polarizations down to the limits at `y`. */
  function LimitTuning(s: Osc, es: seq<Entry>, band: nat, mode: Mode, y: word, ok0: bool, ok1: bool): (Osc, Status) {
    match Lookup(es, y)
    case None => (s, NoError)
    case Some(e) =>
      var (s0, r0) := Lower(s, mode, Channel(band, 0), e.vd0, ok0);
      var (s1, r1) := Lower(s0, mode, Channel(band, 1), e.vd1, ok1);
      (s1, Worst(r0, r1))
  }

  function Tune(s: Osc, mode: Mode, y: word, ok: bool): Osc {
    if mode == Simulation then s.(yto := y) else if ok then s.(yto := y, ytoHw := y) else s
  }

  function Retune(s: Osc, es: seq<Entry>, band: nat, mode: Mode, y: word, ok0: bool, ok1: bool, okYto: bool): (Osc, Status) {
    if y > YTO_MAX then (s, ControlOutOfRange)
    else
      var (s1, r) := if mode == Troubleshooting then (s, NoError) else LimitTuning(s, es, band, mode, y, ok0, ok1);
      if r == Error then (s1, Error)
      else (Tune(s1, mode, y, okYto), if SendStatus(mode, okYto) == Error then Error else r)
  }

  /** The amplifiers may only be driven when a cold stage is cold, in bands 1 and 2, or
      when troubleshooting. */
  predicate MayDrive(band: nat, mode: Mode, temp4K: real, temp12K: real) {
    BelowMax(temp4K, PA_MAX_ALLOWED_TEMP) || BelowMax(temp12K, PA_MAX_ALLOWED_TEMP) || band <= 1 || mode == Troubleshooting
  }

  function Clamp(es: seq<Entry>, y: word, pol: nat, v: real): real {
    match Lookup(es, y)
    case None => v
    case Some(e) => if v > e.Vd(pol) then e.Vd(pol) else v
  }

  function Drive(s: Osc, es: seq<Entry>, band: nat, mode: Mode, pol: nat, v: real, cold: bool, ok: bool): (Osc, Status) {
    if !cold then (s, HardwareBlocked)
    else
      var ch := Channel(band, pol);
      var u := if mode == Troubleshooting then v else Clamp(es, s.yto, pol, v);
      (Send(s.(last := s.last[ch := u]), mode, ch, u, ok),
       if SendStatus(mode, ok) == Error then Error else if u < v then HardwareBlocked else NoError)
  }

  /** A gate-voltage command rewrites the same pot register. */
  function Gate(s: Osc, mode: Mode, ok: bool): Osc {
    if mode != Simulation && ok then s.(hw := s.pot) else s
  }

  /** Results of the serial writes made while initializing. */
  datatype InitIo = InitIo(clock: bool, drain0: bool, drain1: bool, gate0: bool, gate1: bool, tune: bool)

  /** Zero both drains, stopping at the first failure. The zero is recorded under the
      polarization's number, not under its channel. */
  function ZeroDrains(s: Osc, band: nat, mode: Mode, okA: bool, okB: bool): (Osc, Status) {
    var s0 := Send(s, mode, Channel(band, 0), 0.0, okA);
    if SendStatus(mode, okA) == Error then (s0, Error)
    else
      var s1 := Send(s0.(last := s0.last[0 := 0.0]), mode, Channel(band, 1), 0.0, okB);
      if SendStatus(mode, okB) == Error then (s1, Error)
      else (s1.(last := s1.last[1 := 0.0]), NoError)
  }

  function ZeroGates(s: Osc, mode: Mode, okA: bool, okB: bool): (Osc, Status) {
    if SendStatus(mode, okA) == Error then (s, Error)
    else (Gate(Gate(s, mode, okA), mode, okB), SendStatus(mode, okB))
  }

  /** Zero the drains, then the gates, then the tuning. */
  function Init(s: Osc, band: nat, mode: Mode, io: InitIo): (Osc, Status) {
    if !io.clock then (s, Error) else ZeroAll(s, band, mode, io)
  }

  function ZeroAll(s: Osc, band: nat, mode: Mode, io: InitIo): (Osc, Status) {
    var (s1, r1) := ZeroDrains(s, band, mode, io.drain0, io.drain1);
    if r1 == Error then (s1, Error)
    else
      var (s2, r2) := ZeroGates(s1, mode, io.gate0, io.gate1);
      if r2 == Error then (s2, Error) else (Tune(s2, mode, 0, io.tune), SendStatus(mode, io.tune))
  }

  datatype Command =
    | CmdRetune(y: word, ok0: bool, ok1: bool, okYto: bool)
    | CmdDrive(pol: nat, v: real, cold: bool, ok: bool)
    | CmdGate(okGate: bool)
    | CmdInit(io: InitIo)

  datatype Event = Event(mode: Mode, cmd: Command)

  function Step(s: Osc, es: seq<Entry>, band: nat, e: Event): Osc {
    match e.cmd
    case CmdRetune(y, ok0, ok1, okYto) => Retune(s, es, band, e.mode, y, ok0, ok1, okYto).0
    case CmdDrive(pol, v, cold, ok) => Drive(s, es, band, e.mode, if pol == 0 then 0 else 1, v, cold, ok).0
    case CmdGate(ok) => Gate(s, e.mode, ok)
    case CmdInit(io) => Init(s, band, e.mode, io).0
  }

  function Run(s: Osc, es: seq<Entry>, band: nat, events: seq<Event>): Osc {
    if events == [] then s else Step(Run(s, es, band, events[..|events| - 1]), es, band, events[|events| - 1])
  }

  // ----- The commanded voltages -------------------------------------------

  /** Both voltages are within the limits at tuning word `y`. */
  ghost predicate Within(v: seq<real>, es: seq<Entry>, band: nat, y: word)
    requires |v| == 2
  {
    es != [] ==> forall pol :: 0 <= pol < 2 ==> v[Channel(band, pol)] <= Limit(es, y, pol)
  }

  ghost predicate NonNegative(es: seq<Entry>) {
    forall i :: 0 <= i < |es| ==> 0.0 <= es[i].vd0 && 0.0 <= es[i].vd1
  }

  lemma LimitNonNegative(es: seq<Entry>, y: word, pol: nat)
    requires es != [] && NonNegative(es)
    ensures 0.0 <= Limit(es, y, pol)
  {
    var i, j := LimitBetweenNeighbours(es, y, pol);
  }

  /** Between the lowering and the tuning, and even between the two lowering writes, the
      commanded voltages respect the limits at the old word; after both they also respect
      the new one. No write needs to succeed for this. */
  lemma LoweredBeforeTuning(s: Osc, es: seq<Entry>, band: nat, mode: Mode, y: word, ok0: bool, ok1: bool)
    ensures Within(LimitTuning(s, es, band, mode, y, ok0, ok1).0.last, es, band, y)
    ensures Within(s.last, es, band, s.yto) ==> Within(LimitTuning(s, es, band, mode, y, ok0, ok1).0.last, es, band, s.yto)
    ensures Within(s.last, es, band, s.yto) && es != [] ==>
            Within(Lower(s, mode, Channel(band, 0), Limit(es, y, 0), ok0).0.last, es, band, s.yto)
    ensures LimitTuning(s, es, band, mode, y, ok0, ok1).0.yto == s.yto
  {
    LookupTotal(es, y);
    if es != [] {
      var e := Lookup(es, y).value;
      var s0 := Lower(s, mode, Channel(band, 0), e.vd0, ok0).0;
      var s1 := Lower(s0, mode, Channel(band, 1), e.vd1, ok1).0;
      assert LimitTuning(s, es, band, mode, y, ok0, ok1).0 == s1;
      LowerEffect(s, mode, Channel(band, 0), e.vd0, ok0);
      LowerEffect(s0, mode, Channel(band, 1), e.vd1, ok1);
      assert Limit(es, y, 0) == e.vd0 && Limit(es, y, 1) == e.vd1;
      assert Channel(band, 1) == 1 - Channel(band, 0);
    }
  }

  lemma LowerEffect(s: Osc, mode: Mode, ch: nat, max: real, ok: bool)
    requires ch < 2
    ensures var s' := Lower(s, mode, ch, max, ok).0;
            s'.last == s.last[ch := Min(s.last[ch], max)] && s'.yto == s.yto && s'.ytoHw == s.ytoHw
  {
  }

  /** In troubleshooting mode nothing is limited: a retune keeps the commanded voltages within the
      limits if it does not tune or they are at the new word too, a drain command if it is refused
      or its voltage is. */
  ghost predicate UnlimitedFits(s: Osc, es: seq<Entry>, band: nat, c: Command) {
    match c
    case CmdRetune(y, _, _, okYto) => y > YTO_MAX || !okYto || Within(s.last, es, band, y)
    case CmdDrive(pol, v, cold, _) => !cold || es == [] || v <= Limit(es, s.yto, Pol(pol))
    case _ => true
  }

  /** In every mode a step keeps the commanded voltages within the limits in force, except that in
      troubleshooting it does so exactly if they fit by themselves. */
  lemma StepKeepsWithinIff(s: Osc, es: seq<Entry>, band: nat, e: Event)
    requires NonNegative(es) && Within(s.last, es, band, s.yto)
    ensures var s' := Step(s, es, band, e);
            Within(s'.last, es, band, s'.yto) <==> (e.mode == Troubleshooting ==> UnlimitedFits(s, es, band, e.cmd))
  {
    if e.mode != Troubleshooting {
      StepKeepsWithin(s, es, band, e);
    } else if e.cmd.CmdDrive? && e.cmd.cold {
      DriveEffect(s, es, band, e.mode, Pol(e.cmd.pol), e.cmd.v, e.cmd.ok);
      RecordedWithin(s, es, band, Pol(e.cmd.pol), e.cmd.v);
    } else if e.cmd.CmdInit? {
      InitKeepsWithin(s, es, band, e.mode, e.cmd.io);
    }
  }

  /** A step outside troubleshooting keeps the commanded voltages within the limits in force. */
  lemma StepKeepsWithin(s: Osc, es: seq<Entry>, band: nat, e: Event)
    requires NonNegative(es) && e.mode != Troubleshooting
    requires Within(s.last, es, band, s.yto)
    ensures var s' := Step(s, es, band, e); Within(s'.last, es, band, s'.yto)
  {
    LookupTotal(es, s.yto);
    match e.cmd
    case CmdRetune(y, ok0, ok1, okYto) => LoweredBeforeTuning(s, es, band, e.mode, y, ok0, ok1);
    case CmdDrive(pol, v, cold, ok) => DriveKeepsWithin(s, es, band, e.mode, if pol == 0 then 0 else 1, v, cold, ok);
    case CmdGate(ok) =>
    case CmdInit(io) => InitKeepsWithin(s, es, band, e.mode, io);
  }

  lemma DriveKeepsWithin(s: Osc, es: seq<Entry>, band: nat, mode: Mode, pol: nat, v: real, cold: bool, ok: bool)
    requires pol < 2 && mode != Troubleshooting
    requires Within(s.last, es, band, s.yto)
    ensures var s' := Drive(s, es, band, mode, pol, v, cold, ok).0; Within(s'.last, es, band, s'.yto) && s'.yto == s.yto
  {
    LookupTotal(es, s.yto);
    if es != [] {
      var s' := Drive(s, es, band, mode, pol, v, cold, ok).0;
      WithinBoth(s.last, es, band, s.yto);
      WithinBoth(s'.last, es, band, s.yto);
      assert Channel(band, 1) == 1 - Channel(band, 0);
    }
  }

  /** An initialization, however far it gets, only ever replaces voltages by zero. */
  lemma InitKeepsWithin(s: Osc, es: seq<Entry>, band: nat, mode: Mode, io: InitIo)
    requires NonNegative(es) && Within(s.last, es, band, s.yto)
    ensures var s' := Init(s, band, mode, io).0; Within(s'.last, es, band, s'.yto)
  {
    var s' := Init(s, band, mode, io).0;
    assert s'.yto == s.yto || (s'.yto == 0 && s'.last == [0.0, 0.0]);
    assert forall ch :: 0 <= ch < 2 ==> s'.last[ch] == s.last[ch] || s'.last[ch] == 0.0;
    if es != [] {
      WithinBoth(s.last, es, band, s.yto);
      WithinBoth(s'.last, es, band, s'.yto);
      LimitNonNegative(es, s'.yto, 0);
      LimitNonNegative(es, s'.yto, 1);
    }
  }

  /** A completed initialization establishes the limits whatever came before. */
  lemma InitEstablishesWithin(s: Osc, es: seq<Entry>, band: nat, mode: Mode, io: InitIo)
    requires NonNegative(es) && Init(s, band, mode, io).1 == NoError
    ensures var s' := Init(s, band, mode, io).0; Within(s'.last, es, band, s'.yto)
    ensures mode != Simulation ==> var s' := Init(s, band, mode, io).0;
            s'.last == [0.0, 0.0] && s'.hw == s'.pot == Settings(s'.last) && s'.ytoHw == s'.yto == 0
  {
    if es != [] {
      LimitNonNegative(es, 0, 0);
      LimitNonNegative(es, 0, 1);
    }
  }

  /** In every run outside troubleshooting, with arbitrary write failures, the last
      commanded voltages never exceed the limits at the recorded tuning word. */
  lemma {:induction false} RunKeepsWithin(s: Osc, es: seq<Entry>, band: nat, events: seq<Event>)
    requires NonNegative(es) && Within(s.last, es, band, s.yto)
    requires forall i :: 0 <= i < |events| ==> events[i].mode != Troubleshooting
    ensures var s' := Run(s, es, band, events); Within(s'.last, es, band, s'.yto)
  {
    if events != [] {
      var n := |events| - 1;
      RunKeepsWithin(s, es, band, events[..n]);
      StepKeepsWithin(Run(s, es, band, events[..n]), es, band, events[n]);
    }
  }

  /** Uploading further entries does not endanger voltages already commanded, as long as
      the oscillator is tuned below the table's last two rows. */
  lemma UploadsKeepWithin(s: Osc, t: Table, ups: seq<Upload>, band: nat)
    requires 2 <= |t.es| <= MAX_ROWS && Increasing(t.es) && NoWrap(t, ups)
    requires s.yto <= t.es[|t.es| - 2].yto
    requires Within(s.last, t.es, band, s.yto)
    ensures Within(s.last, PaUploads.Run(t, ups).es, band, s.yto)
  {
    UploadsKeepLimitsBelow(t, ups, s.yto);
  }

  // ----- The voltages the amplifiers received ------------------------------

  lemma WithinBoth(v: seq<real>, es: seq<Entry>, band: nat, y: word)
    requires |v| == 2 && es != []
    ensures Within(v, es, band, y) <==>
            v[Channel(band, 0)] <= Limit(es, y, 0) && v[1 - Channel(band, 0)] <= Limit(es, y, 1)
  {
    assert Channel(band, 1) == 1 - Channel(band, 0);
  }

  /** The hardware respects the limits at the tuning word it holds. */
  ghost predicate HardwareSafe(s: Osc, es: seq<Entry>, band: nat) { Within(VoltsOf(s.hw), es, band, s.ytoHw) }

  /** What safety rests on: no pot stands above its commanded voltage, or above zero if that is
      negative. */
  ghost predicate LowPots(s: Osc) {
    Volts(s.pot[0]) <= Max(s.last[0], 0.0) && Volts(s.pot[1]) <= Max(s.last[1], 0.0)
  }

  /** The state of an oscillator in use: pots low, the recorded tuning word the hardware's,
      commands and amplifiers within the limits. */
  ghost predicate Guarded(s: Osc, es: seq<Entry>, band: nat) {
    LowPots(s) && s.ytoHw == s.yto && Within(s.last, es, band, s.yto) && HardwareSafe(s, es, band)
  }

  /** Pots that are low keep within every limit the commanded voltages keep within. */
  lemma PotsWithin(s: Osc, es: seq<Entry>, band: nat, y: word)
    requires NonNegative(es) && LowPots(s) && Within(s.last, es, band, y)
    ensures Within(VoltsOf(s.pot), es, band, y)
  {
    if es != [] {
      LimitNonNegative(es, y, 0);
      LimitNonNegative(es, y, 1);
      WithinBoth(s.last, es, band, y);
      WithinBoth(VoltsOf(s.pot), es, band, y);
    }
  }

  // Retunes

  lemma LowerHardware(s: Osc, mode: Mode, ch: nat, max: real, ok: bool)
    requires ch < 2 && mode != Simulation
    ensures var (s', r) := Lower(s, mode, ch, max, ok);
            && (r == Error <==> s.last[ch] > max && !ok)
            && s'.pot == (if s.last[ch] > max then s.pot[ch := Scaled(max)] else s.pot)
            && s'.hw == (if s.last[ch] > max && ok then s'.pot else s.hw)
  {
  }

  lemma LowerKeepsLowPots(s: Osc, mode: Mode, ch: nat, max: real, ok: bool)
    requires ch < 2 && mode != Simulation && 0.0 <= max && LowPots(s)
    ensures LowPots(Lower(s, mode, ch, max, ok).0)
  {
    SoundIff(max);
  }

  /** Both settings of one pair are among those of two others. */
  ghost predicate Between2(b: seq<byte>, x: seq<byte>, y: seq<byte>)
    requires |b| == |x| == |y| == 2
  {
    (b[0] == x[0] || b[0] == y[0]) && (b[1] == x[1] || b[1] == y[1])
  }

  /** What the lowering writes do to the amplifiers: nothing, or what the pots then hold, the
      one already lowered or not; and if none was lost, exactly what the pots hold unless
      nothing was lowered. */
  lemma TuningHardware(s: Osc, es: seq<Entry>, band: nat, mode: Mode, y: word, ok0: bool, ok1: bool)
    requires es != [] && mode != Simulation
    ensures var (s', r) := LimitTuning(s, es, band, mode, y, ok0, ok1);
            var fits := s.last[Channel(band, 0)] <= Limit(es, y, 0) && s.last[1 - Channel(band, 0)] <= Limit(es, y, 1);
            && s'.ytoHw == s.ytoHw && s'.yto == s.yto
            && (s'.hw == s.hw || Between2(s'.hw, s.pot, s'.pot))
            && (r == Error ==> !fits)
            && (r != Error ==> s'.hw == if fits then s.hw else s'.pot)
            && (fits ==> s'.last == s.last && s'.pot == s.pot)
  {
    LookupTotal(es, y);
    var e := Lookup(es, y).value;
    var s0 := Lower(s, mode, Channel(band, 0), e.vd0, ok0).0;
    LowerEffect(s, mode, Channel(band, 0), e.vd0, ok0);
    LowerHardware(s, mode, Channel(band, 0), e.vd0, ok0);
    LowerEffect(s0, mode, Channel(band, 1), e.vd1, ok1);
    LowerHardware(s0, mode, Channel(band, 1), e.vd1, ok1);
    assert Limit(es, y, 0) == e.vd0 && Limit(es, y, 1) == e.vd1;
    assert Channel(band, 1) == 1 - Channel(band, 0);
  }

  lemma TuningKeepsLowPots(s: Osc, es: seq<Entry>, band: nat, mode: Mode, y: word, ok0: bool, ok1: bool)
    requires NonNegative(es) && LowPots(s) && mode != Simulation
    ensures LowPots(LimitTuning(s, es, band, mode, y, ok0, ok1).0)
  {
    LookupTotal(es, y);
    if es != [] {
      var e := Lookup(es, y).value;
      LimitNonNegative(es, y, 0);
      LimitNonNegative(es, y, 1);
      LowerKeepsLowPots(s, mode, Channel(band, 0), e.vd0, ok0);
      LowerKeepsLowPots(Lower(s, mode, Channel(band, 0), e.vd0, ok0).0, mode, Channel(band, 1), e.vd1, ok1);
    }
  }

  /** The amplifiers after the lowering writes, at the old word and at the new one. */
  lemma TuningWithin(s: Osc, es: seq<Entry>, band: nat, mode: Mode, y: word, ok0: bool, ok1: bool)
    requires NonNegative(es) && LowPots(s) && mode != Simulation
    requires Within(s.last, es, band, s.yto) && Within(VoltsOf(s.hw), es, band, s.yto)
    ensures var (s1, r) := LimitTuning(s, es, band, mode, y, ok0, ok1);
            && Within(VoltsOf(s1.hw), es, band, s.yto) && s1.ytoHw == s.ytoHw && s1.yto == s.yto
            && (r == Error ==> !Within(s.last, es, band, y))
            && (r != Error ==>
                  (Within(VoltsOf(s1.hw), es, band, y) <==> !Within(s.last, es, band, y) || Within(VoltsOf(s.hw), es, band, y)))
  {
    var s1 := LimitTuning(s, es, band, mode, y, ok0, ok1).0;
    LookupTotal(es, y);
    if es != [] {
      TuningHardware(s, es, band, mode, y, ok0, ok1);
      TuningKeepsLowPots(s, es, band, mode, y, ok0, ok1);
      WithinBoth(s.last, es, band, y);
      LoweredBeforeTuning(s, es, band, mode, y, ok0, ok1);
      PotsWithin(s1, es, band, y);
      PotsWithin(s1, es, band, s.yto);
      PotsWithin(s, es, band, s.yto);
      if s1.hw != s.hw { MixWithin(s1.hw, s.pot, s1.pot, es, band, s.yto); }
    }
  }

  lemma MixWithin(b: seq<byte>, x: seq<byte>, y: seq<byte>, es: seq<Entry>, band: nat, w: word)
    requires |b| == |x| == |y| == 2 && es != [] && Between2(b, x, y)
    requires Within(VoltsOf(x), es, band, w) && Within(VoltsOf(y), es, band, w)
    ensures Within(VoltsOf(b), es, band, w)
  {
    WithinBoth(VoltsOf(x), es, band, w);
    WithinBoth(VoltsOf(y), es, band, w);
    WithinBoth(VoltsOf(b), es, band, w);
  }

  /** After lost writes the guarantee can fail, and this is exactly when: the commanded
      voltages are already within the limits at the new word, so that nothing is resent,
      while an amplifier is still above them. */
  lemma RetuneHardwareSafeIff(s: Osc, es: seq<Entry>, band: nat, mode: Mode, y: word, ok0: bool, ok1: bool, okYto: bool)
    requires NonNegative(es) && LowPots(s) && s.ytoHw == s.yto && y <= YTO_MAX
    requires Within(s.last, es, band, s.yto) && HardwareSafe(s, es, band)
    requires mode != Troubleshooting && mode != Simulation
    ensures HardwareSafe(Retune(s, es, band, mode, y, ok0, ok1, okYto).0, es, band) <==>
              !(Within(s.last, es, band, y) && !Within(VoltsOf(s.hw), es, band, y) && okYto)
  {
    RetuneHardware(s, es, band, mode, y, ok0, ok1, okYto);
    TuningWithin(s, es, band, mode, y, ok0, ok1);
  }

  lemma RetuneHardware(s: Osc, es: seq<Entry>, band: nat, mode: Mode, y: word, ok0: bool, ok1: bool, okYto: bool)
    requires y <= YTO_MAX && mode != Troubleshooting && mode != Simulation
    ensures var s' := Retune(s, es, band, mode, y, ok0, ok1, okYto).0;
            var (s1, r) := LimitTuning(s, es, band, mode, y, ok0, ok1);
            && s'.hw == s1.hw && s'.last == s1.last && s'.pot == s1.pot
            && s'.ytoHw == (if r != Error && okYto then y else s1.ytoHw)
            && s'.yto == (if r != Error && okYto then y else s1.yto)
  {
  }

  // Initializations

  lemma ZeroIsZero()
    ensures Scaled(0.0) == 0 && Volts(0) == 0.0
  {
    assert STEPS_PER_VOLT * 0.0 == 0.0;
  }

  lemma ZeroDrainsEffect(s: Osc, band: nat, mode: Mode, okA: bool, okB: bool)
    requires mode != Simulation
    ensures var (s', r) := ZeroDrains(s, band, mode, okA, okB);
            && (LowPots(s) ==> LowPots(s'))
            && Between2(s'.pot, s.pot, [0, 0]) && (s'.hw == s.hw || Between2(s'.hw, s.pot, [0, 0]))
            && s'.yto == s.yto && s'.ytoHw == s.ytoHw && r == (if okA && okB then NoError else Error)
            && (r == NoError ==> s'.pot == s'.hw == [0, 0])
  {
    ZeroIsZero();
  }

  /** What an initialization leaves, wherever it stops. */
  lemma InitEffect(s: Osc, band: nat, mode: Mode, io: InitIo)
    requires mode != Simulation
    ensures var s' := Init(s, band, mode, io).0;
            && (LowPots(s) ==> LowPots(s'))
            && (s'.hw == s.hw || Between2(s'.hw, s.pot, [0, 0]))
            && ((s'.yto == s.yto && s'.ytoHw == s.ytoHw) || (s'.yto == s'.ytoHw == 0 && s'.hw == [0, 0]))
  {
    ZeroDrainsEffect(s, band, mode, io.drain0, io.drain1);
  }

  lemma ZerosWithin(es: seq<Entry>, band: nat, y: word)
    requires NonNegative(es)
    ensures Within(VoltsOf([0, 0]), es, band, y)
  {
    if es != [] {
      ZeroIsZero();
      LimitNonNegative(es, y, 0);
      LimitNonNegative(es, y, 1);
      WithinBoth(VoltsOf([0, 0]), es, band, y);
    }
  }

  lemma InitGuards(s: Osc, es: seq<Entry>, band: nat, mode: Mode, io: InitIo)
    requires NonNegative(es) && Guarded(s, es, band) && mode != Simulation
    ensures Guarded(Init(s, band, mode, io).0, es, band)
  {
    var s' := Init(s, band, mode, io).0;
    InitEffect(s, band, mode, io);
    InitKeepsWithin(s, es, band, mode, io);
    ZerosWithin(es, band, s'.ytoHw);
    PotsWithin(s, es, band, s.yto);
    if es != [] && s'.ytoHw == s.ytoHw && s'.hw != s.hw { MixWithin(s'.hw, s.pot, [0, 0], es, band, s.yto); }
  }

  // ----- One step, in every mode ---------------------------------------------

  /** A retune that finds nothing to lower while an amplifier is above the new limits. */
  ghost predicate Treacherous(s: Osc, es: seq<Entry>, band: nat, e: Event) {
    && e.cmd.CmdRetune? && e.cmd.y <= YTO_MAX && e.cmd.okYto
    && Within(s.last, es, band, e.cmd.y) && !Within(VoltsOf(s.hw), es, band, e.cmd.y)
  }

  function Pol(p: nat): (pol: nat)
    ensures pol < 2
  {
    if p == 0 then 0 else 1
  }

  /** Which retunes are safe: live ones that are not treacherous; troubleshooting ones, which
      lower nothing, to words whose limits everything keeps already; simulated ones, which move
      the record alone, to the word the hardware holds. */
  ghost predicate RetuneSafe(s: Osc, es: seq<Entry>, band: nat, e: Event)
    requires e.cmd.CmdRetune?
  {
    e.cmd.y > YTO_MAX ||
    match e.mode
    case Troubleshooting => !e.cmd.okYto || (Within(s.last, es, band, e.cmd.y) && Within(VoltsOf(s.hw), es, band, e.cmd.y))
    case Simulation => e.cmd.y == s.ytoHw
    case _ => !Treacherous(s, es, band, e)
  }

  /** Which drain commands are safe: those the temperature refuses; live ones whose voltage the
      byte conversion does not turn into a large setting; troubleshooting ones that moreover
      keep the limit, which is not applied to them; simulated ones that record no less than the
      pot holds. */
  ghost predicate DriveSafe(s: Osc, es: seq<Entry>, band: nat, e: Event)
    requires e.cmd.CmdDrive?
  {
    var pol := Pol(e.cmd.pol);
    !e.cmd.cold ||
    match e.mode
    case Troubleshooting => Sound(e.cmd.v) && (es != [] ==> e.cmd.v <= Limit(es, s.yto, pol))
    case Simulation => Volts(s.pot[Channel(band, pol)]) <= Max(Clamp(es, s.yto, pol, e.cmd.v), 0.0)
    case _ => Sound(e.cmd.v)
  }

  /** The steps that keep the guard. Gate commands do, and so do initializations that stop
      anywhere, except that a simulated one only records what must be so already. */
  ghost predicate StepSafe(s: Osc, es: seq<Entry>, band: nat, e: Event) {
    match e.cmd
    case CmdRetune(_, _, _, _) => RetuneSafe(s, es, band, e)
    case CmdDrive(_, _, _, _) => DriveSafe(s, es, band, e)
    case CmdGate(_) => true
    case CmdInit(io) => e.mode == Simulation && io.clock ==> s.ytoHw == 0 && s.pot == [0, 0]
  }

  lemma RetuneGuardIff(s: Osc, es: seq<Entry>, band: nat, e: Event)
    requires NonNegative(es) && Guarded(s, es, band) && e.cmd.CmdRetune?
    ensures Guarded(Step(s, es, band, e), es, band) <==> RetuneSafe(s, es, band, e)
  {
    var y, ok0, ok1, okYto := e.cmd.y, e.cmd.ok0, e.cmd.ok1, e.cmd.okYto;
    if y <= YTO_MAX {
      match e.mode {
        case Troubleshooting => UnlimitedRetuneGuardIff(s, es, band, y, ok0, ok1, okYto);
        case Simulation => SimulatedRetuneGuardIff(s, es, band, y, ok0, ok1, okYto);
        case _ => LiveRetuneGuardIff(s, es, band, e.mode, y, ok0, ok1, okYto);
      }
    }
  }

  lemma UnlimitedRetuneGuardIff(s: Osc, es: seq<Entry>, band: nat, y: word, ok0: bool, ok1: bool, okYto: bool)
    requires Guarded(s, es, band) && y <= YTO_MAX
    ensures Guarded(Retune(s, es, band, Troubleshooting, y, ok0, ok1, okYto).0, es, band) <==>
              !okYto || (Within(s.last, es, band, y) && Within(VoltsOf(s.hw), es, band, y))
  {
  }

  lemma SimulatedRetuneGuardIff(s: Osc, es: seq<Entry>, band: nat, y: word, ok0: bool, ok1: bool, okYto: bool)
    requires Guarded(s, es, band) && y <= YTO_MAX
    ensures Guarded(Retune(s, es, band, Simulation, y, ok0, ok1, okYto).0, es, band) <==> y == s.ytoHw
  {
    if y == s.ytoHw {
      SimulatedRetuneHere(s, es, band, y, ok0, ok1, okYto);
    } else {
      SimulatedRetuneMovesRecord(s, es, band, y, ok0, ok1, okYto);
    }
  }

  lemma SimulatedRetuneMovesRecord(s: Osc, es: seq<Entry>, band: nat, y: word, ok0: bool, ok1: bool, okYto: bool)
    requires y <= YTO_MAX
    ensures var s' := Retune(s, es, band, Simulation, y, ok0, ok1, okYto).0; s'.yto == y && s'.ytoHw == s.ytoHw
  {
    LookupTotal(es, y);
    if es != [] {
      var e := Lookup(es, y).value;
      LowerEffect(s, Simulation, Channel(band, 0), e.vd0, ok0);
      LowerEffect(Lower(s, Simulation, Channel(band, 0), e.vd0, ok0).0, Simulation, Channel(band, 1), e.vd1, ok1);
    }
  }

  lemma LiveRetuneGuardIff(s: Osc, es: seq<Entry>, band: nat, mode: Mode, y: word, ok0: bool, ok1: bool, okYto: bool)
    requires NonNegative(es) && Guarded(s, es, band) && y <= YTO_MAX
    requires mode != Troubleshooting && mode != Simulation
    ensures Guarded(Retune(s, es, band, mode, y, ok0, ok1, okYto).0, es, band) <==>
              !(Within(s.last, es, band, y) && !Within(VoltsOf(s.hw), es, band, y) && okYto)
  {
    RetuneHardwareSafeIff(s, es, band, mode, y, ok0, ok1, okYto);
    RetuneHardware(s, es, band, mode, y, ok0, ok1, okYto);
    TuningKeepsLowPots(s, es, band, mode, y, ok0, ok1);
    LoweredBeforeTuning(s, es, band, mode, y, ok0, ok1);
    TuningWithin(s, es, band, mode, y, ok0, ok1);
  }

  /** To the word it is at, a simulated retune changes nothing. */
  lemma SimulatedRetuneHere(s: Osc, es: seq<Entry>, band: nat, y: word, ok0: bool, ok1: bool, okYto: bool)
    requires Within(s.last, es, band, s.yto) && y == s.yto && y <= YTO_MAX
    ensures Retune(s, es, band, Simulation, y, ok0, ok1, okYto).0 == s
  {
    LookupTotal(es, y);
    if es != [] {
      WithinBoth(s.last, es, band, y);
      var e := Lookup(es, y).value;
      assert Limit(es, y, 0) == e.vd0 && Limit(es, y, 1) == e.vd1;
    }
  }

  /** The voltage a drain command records. */
  function Recorded(s: Osc, es: seq<Entry>, mode: Mode, pol: nat, v: real): real {
    if mode == Troubleshooting then v else Clamp(es, s.yto, pol, v)
  }

  /** The clamp spares negative commands, and turns no other into one. */
  lemma ClampSound(es: seq<Entry>, y: word, pol: nat, v: real)
    requires NonNegative(es)
    ensures Sound(Clamp(es, y, pol, v)) <==> Sound(v)
    ensures es != [] ==> Clamp(es, y, pol, v) <= Limit(es, y, pol)
  {
    LookupTotal(es, y);
    if es != [] { LimitNonNegative(es, y, pol); }
  }

  lemma DriveEffect(s: Osc, es: seq<Entry>, band: nat, mode: Mode, pol: nat, v: real, ok: bool)
    requires pol < 2
    ensures var s' := Drive(s, es, band, mode, pol, v, true, ok).0;
            var u := Recorded(s, es, mode, pol, v);
            && s'.last == s.last[Channel(band, pol) := u] && s'.yto == s.yto && s'.ytoHw == s.ytoHw
            && s'.pot == (if mode == Simulation then s.pot else s.pot[Channel(band, pol) := Scaled(u)])
            && s'.hw == (if mode != Simulation && ok then s'.pot else s.hw)
  {
  }

  lemma DriveGuardIff(s: Osc, es: seq<Entry>, band: nat, e: Event)
    requires NonNegative(es) && Guarded(s, es, band) && e.cmd.CmdDrive?
    ensures Guarded(Step(s, es, band, e), es, band) <==> DriveSafe(s, es, band, e)
  {
    if e.cmd.cold {
      var pol := Pol(e.cmd.pol);
      var u, ch := Recorded(s, es, e.mode, pol, e.cmd.v), Channel(band, pol);
      var s' := Step(s, es, band, e);
      DriveEffect(s, es, band, e.mode, pol, e.cmd.v, e.cmd.ok);
      ClampSound(es, s.yto, pol, e.cmd.v);
      SoundIff(u);
      RecordedWithin(s, es, band, pol, u);
      assert LowPots(s') <==> Volts(s'.pot[ch]) <= Max(u, 0.0);
      if LowPots(s') && Within(s'.last, es, band, s.yto) { PotsWithin(s', es, band, s.yto); }
    }
  }

  lemma RecordedWithin(s: Osc, es: seq<Entry>, band: nat, pol: nat, u: real)
    requires pol < 2 && Within(s.last, es, band, s.yto)
    ensures Within(s.last[Channel(band, pol) := u], es, band, s.yto) <==> es == [] || u <= Limit(es, s.yto, pol)
  {
    if es != [] {
      WithinBoth(s.last, es, band, s.yto);
      WithinBoth(s.last[Channel(band, pol) := u], es, band, s.yto);
      assert Channel(band, 1) == 1 - Channel(band, 0);
    }
  }

  lemma SimulatedInitGuardIff(s: Osc, es: seq<Entry>, band: nat, io: InitIo)
    requires NonNegative(es) && Guarded(s, es, band) && io.clock
    ensures Guarded(Init(s, band, Simulation, io).0, es, band) <==> s.ytoHw == 0 && s.pot == [0, 0]
  {
    var s' := Init(s, band, Simulation, io).0;
    assert s' == s.(last := [0.0, 0.0], yto := 0);
    InitKeepsWithin(s, es, band, Simulation, io);
    VoltsBelow(s.pot[0], 0.0);
    VoltsBelow(s.pot[1], 0.0);
  }

  /** One event, in any mode and whatever writes fail, keeps the guard exactly when it is safe. */
  lemma StepHardwareSafeIff(s: Osc, es: seq<Entry>, band: nat, e: Event)
    requires NonNegative(es) && Guarded(s, es, band)
    ensures Guarded(Step(s, es, band, e), es, band) <==> StepSafe(s, es, band, e)
  {
    match e.cmd
    case CmdRetune(_, _, _, _) => RetuneGuardIff(s, es, band, e);
    case CmdDrive(_, _, _, _) => DriveGuardIff(s, es, band, e);
    case CmdGate(_) => PotsWithin(s, es, band, s.yto);
    case CmdInit(io) =>
      if e.mode != Simulation {
        InitGuards(s, es, band, e.mode, io);
      } else if io.clock {
        SimulatedInitGuardIff(s, es, band, io);
      }
  }

  // ----- Whole runs -------------------------------------------------------------

  ghost predicate AllSafe(s: Osc, es: seq<Entry>, band: nat, events: seq<Event>) {
    events != [] ==>
      var n := |events| - 1;
      AllSafe(s, es, band, events[..n]) && StepSafe(Run(s, es, band, events[..n]), es, band, events[n])
  }

  ghost predicate GuardedThroughout(s: Osc, es: seq<Entry>, band: nat, events: seq<Event>) {
    Guarded(Run(s, es, band, events), es, band) && (events != [] ==> GuardedThroughout(s, es, band, events[..|events| - 1]))
  }

  /** Over whole runs, in any mixture of modes and with arbitrary write failures: the guard, and
      with it the hardware's safety, holds throughout exactly if every step is safe. */
  lemma {:induction false} RunHardwareSafeIff(s: Osc, es: seq<Entry>, band: nat, events: seq<Event>)
    requires NonNegative(es) && Guarded(s, es, band)
    ensures GuardedThroughout(s, es, band, events) <==> AllSafe(s, es, band, events)
  {
    if events != [] {
      var n := |events| - 1;
      RunHardwareSafeIff(s, es, band, events[..n]);
      if AllSafe(s, es, band, events[..n]) { StepHardwareSafeIff(Run(s, es, band, events[..n]), es, band, events[n]); }
    }
  }

  /** A completed initialization establishes the guard, whatever came before. */
  lemma InitEstablishesGuard(s: Osc, es: seq<Entry>, band: nat, mode: Mode, io: InitIo)
    requires NonNegative(es) && mode != Simulation && Init(s, band, mode, io).1 == NoError
    ensures Guarded(Init(s, band, mode, io).0, es, band)
  {
    ZeroDrainsEffect(s, band, mode, io.drain0, io.drain1);
    InitEstablishesWithin(s, es, band, mode, io);
    ZerosWithin(es, band, 0);
    ZeroIsZero();
  }
}
