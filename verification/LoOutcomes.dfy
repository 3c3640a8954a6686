/** What each command does to one local oscillator, in volts, kelvins and channel numbers. */
module LoOutcomes {
  import opened Common
  import opened PaLimits
  import opened LoSafety

  /** In bands 3, 4, 8, 9 and 10 the polarizations are wired crosswise. */
  lemma ChannelsByBand(band: nat, pol: nat)
    requires band < 10 && pol < 2
    ensures Channel(band, pol) == if band == 2 || band == 3 || band >= 7 then 1 - pol else pol
  {
  }

  /** Up to full scale the pot setting is 102 per volt, rounded down. */
  lemma ScaledInRange(v: real)
    requires 0.0 <= v <= 2.5
    ensures Scaled(v) == (102.0 * v).Floor
  {
    assert 0.0 <= 102.0 * v <= 255.0;
  }

  // ----- The temperature guard -----------------------------------------------------

  /** With both stages warm, or not measured, a drain command in bands 3 to 10 is refused and
      changes nothing, except in troubleshooting mode. */
  lemma WarmIsRefused(s: Osc, es: seq<Entry>, band: nat, mode: Mode, pol: nat, v: real, t4: real, t12: real, ok: bool)
    requires pol < 2 && band >= 2 && mode != Troubleshooting && !(0.0 < t4 < 30.0) && !(0.0 < t12 < 30.0)
    ensures Drive(s, es, band, mode, pol, v, MayDrive(band, mode, t4, t12), ok) == (s, HardwareBlocked)
  {
  }

  /** With one stage cold, in bands 1 and 2, and in troubleshooting mode it is carried out: the
      voltage is recorded, and sent unless the command is simulated. */
  lemma ColdIsDriven(s: Osc, es: seq<Entry>, band: nat, mode: Mode, pol: nat, v: real, t4: real, t12: real, ok: bool)
    requires pol < 2 && (band < 2 || mode == Troubleshooting || 0.0 < t4 < 30.0 || 0.0 < t12 < 30.0)
    ensures var (s', r) := Drive(s, es, band, mode, pol, v, MayDrive(band, mode, t4, t12), ok);
            var u := if mode != Troubleshooting && es != [] && Limit(es, s.yto, pol) < v then Limit(es, s.yto, pol) else v;
            var ch := Channel(band, pol);
            && s' == s.(last := s.last[ch := u],
                        pot := if mode == Simulation then s.pot else s.pot[ch := Scaled(u)],
                        hw := if mode == Simulation || !ok then s.hw else s.pot[ch := Scaled(u)])
            && r == (if mode != Simulation && !ok then Error else if u < v then HardwareBlocked else NoError)
  {
    LookupTotal(es, s.yto);
  }

  // ----- Retunes ----------------------------------------------------------------------

  lemma LowerOutcome(s: Osc, mode: Mode, ch: nat, max: real, ok: bool)
    requires ch < 2
    ensures var (s', r) := Lower(s, mode, ch, max, ok);
            && s'.last == s.last[ch := if s.last[ch] > max then max else s.last[ch]]
            && s'.yto == s.yto && s'.ytoHw == s.ytoHw
            && r == (if s.last[ch] <= max then NoError else if mode != Simulation && !ok then Error else HardwareBlocked)
  {
  }

  /** Before a retune each polarization is brought down to its own limit at the new word, no
      further, and only if it is above; the status tells of a lost write, else of any lowering. */
  lemma TuningOutcome(s: Osc, es: seq<Entry>, band: nat, mode: Mode, y: word, ok0: bool, ok1: bool)
    requires es != []
    ensures var (s', r) := LimitTuning(s, es, band, mode, y, ok0, ok1);
            var c0, c1 := Channel(band, 0), Channel(band, 1);
            var above0, above1 := s.last[c0] > Limit(es, y, 0), s.last[c1] > Limit(es, y, 1);
            && s'.last[c0] == (if above0 then Limit(es, y, 0) else s.last[c0])
            && s'.last[c1] == (if above1 then Limit(es, y, 1) else s.last[c1])
            && s'.yto == s.yto && s'.ytoHw == s.ytoHw
            && (r == Error <==> mode != Simulation && ((above0 && !ok0) || (above1 && !ok1)))
            && (r == NoError <==> !above0 && !above1)
  {
    LookupTotal(es, y);
    var e := Lookup(es, y).value;
    LowerOutcome(s, mode, Channel(band, 0), e.vd0, ok0);
    LowerOutcome(Lower(s, mode, Channel(band, 0), e.vd0, ok0).0, mode, Channel(band, 1), e.vd1, ok1);
    assert Limit(es, y, 0) == e.vd0 && Limit(es, y, 1) == e.vd1;
    assert Channel(band, 1) == 1 - Channel(band, 0);
  }

  /** The hardware is tuned, and the word recorded, exactly when the word is at most 4095, no
      lowering write was lost and the tuning write is accepted; otherwise both stay. */
  lemma RetuneOutcome(s: Osc, es: seq<Entry>, band: nat, mode: Mode, y: word, ok0: bool, ok1: bool, okYto: bool)
    requires mode != Simulation && mode != Troubleshooting
    ensures var (s', r) := Retune(s, es, band, mode, y, ok0, ok1, okYto);
            var (s1, r1) := LimitTuning(s, es, band, mode, y, ok0, ok1);
            && (y > 4095 ==> s' == s && r == ControlOutOfRange)
            && (y <= 4095 ==>
                  && s'.last == s1.last && s'.pot == s1.pot && s'.hw == s1.hw
                  && (r == Error <==> r1 == Error || !okYto) && (r != Error ==> r == r1)
                  && s'.yto == (if r == Error then s.yto else y) && s'.ytoHw == (if r == Error then s.ytoHw else y))
  {
    LookupTotal(es, y);
    if es != [] { TuningOutcome(s, es, band, mode, y, ok0, ok1); }
  }

  // ----- The rest -----------------------------------------------------------------------

  lemma GateOutcome(s: Osc, mode: Mode, ok: bool)
    ensures Gate(s, mode, ok) == if mode != Simulation && ok then s.(hw := s.pot) else s
  {
  }

  /** An initialization outside simulation succeeds exactly if nothing fails, and then everything
      is zero. */
  lemma InitOutcome(s: Osc, band: nat, mode: Mode, io: InitIo)
    requires mode != Simulation
    ensures var (s', r) := Init(s, band, mode, io);
            && (r == NoError <==> io.clock && io.drain0 && io.drain1 && io.gate0 && io.gate1 && io.tune)
            && (r == NoError || r == Error)
            && (r == NoError ==> s' == Lo([0.0, 0.0], [0, 0], [0, 0], 0, 0))
  {
    ZeroIsZero();
    ZeroDrainsEffect(s, band, mode, io.drain0, io.drain1);
    if io.drain0 && io.drain1 { assert ZeroDrains(s, band, mode, true, true).0.last == [0.0, 0.0]; }
  }

  /** Simulation writes nothing to the hardware, nor to the pot register. */
  lemma SimulationWritesNothing(s: Osc, es: seq<Entry>, band: nat, e: Event)
    requires e.mode == Simulation
    ensures var s' := Step(s, es, band, e); s'.pot == s.pot && s'.hw == s.hw && s'.ytoHw == s.ytoHw
  {
    if e.cmd.CmdRetune? { LookupTotal(es, e.cmd.y); }
  }
}
