/** What a caller of the local oscillator can know about its amplifiers from the statuses it gets
    back, and runs in which the limits are defeated. */
module LoDelivery {
  import opened Common
  import opened PaLimits
  import opened LoSafety

  /** The status an event reports. */
  function Report(s: Osc, es: seq<Entry>, band: nat, e: Event): Status {
    match e.cmd
    case CmdRetune(y, ok0, ok1, okYto) => Retune(s, es, band, e.mode, y, ok0, ok1, okYto).1
    case CmdDrive(pol, v, cold, ok) => Drive(s, es, band, e.mode, Pol(pol), v, cold, ok).1
    case CmdGate(ok) => SendStatus(e.mode, ok)
    case CmdInit(io) => Init(s, band, e.mode, io).1
  }

  // ----- Delivery ---------------------------------------------------------------

  /** The amplifiers hold what the pot register holds. */
  ghost predicate Delivered(s: Osc) { s.hw == s.pot }

  /** Commands that write the pots whatever the state. */
  predicate WritesPots(e: Event) {
    e.mode != Simulation && !e.cmd.CmdRetune? && (e.cmd.CmdDrive? ==> e.cmd.cold)
  }

  lemma LowerKeepsDelivery(s: Osc, mode: Mode, ch: nat, max: real, ok: bool)
    requires ch < 2
    ensures var (s', r) := Lower(s, mode, ch, max, ok); Delivered(s) && r != Error ==> Delivered(s')
  {
  }

  /** A command that reports no error loses no write; and if it is one that writes the pots, it
      makes up for writes lost before. */
  lemma StatusTellsDelivery(s: Osc, es: seq<Entry>, band: nat, e: Event)
    requires Report(s, es, band, e) != Error && (Delivered(s) || WritesPots(e))
    ensures Delivered(Step(s, es, band, e))
  {
    match e.cmd
    case CmdRetune(y, ok0, ok1, okYto) =>
      LookupTotal(es, y);
      if es != [] {
        var e0 := Lookup(es, y).value;
        LowerKeepsDelivery(s, e.mode, Channel(band, 0), e0.vd0, ok0);
        LowerKeepsDelivery(Lower(s, e.mode, Channel(band, 0), e0.vd0, ok0).0, e.mode, Channel(band, 1), e0.vd1, ok1);
      }
    case CmdDrive(pol, v, cold, ok) =>
    case CmdGate(ok) =>
    case CmdInit(io) => if e.mode != Simulation { ZeroDrainsEffect(s, band, e.mode, io.drain0, io.drain1); }
  }

  /** What the statuses of a run tell: no error since the last command that wrote the pots, nor,
      given that they were delivered at the start, since then. */
  function Known(s: Osc, es: seq<Entry>, band: nat, events: seq<Event>, atStart: bool): bool {
    if events == [] then atStart
    else
      var n := |events| - 1;
      && Report(Run(s, es, band, events[..n]), es, band, events[n]) != Error
      && (WritesPots(events[n]) || Known(s, es, band, events[..n], atStart))
  }

  lemma {:induction false} KnownIsDelivered(s: Osc, es: seq<Entry>, band: nat, events: seq<Event>, atStart: bool)
    requires atStart ==> Delivered(s)
    requires Known(s, es, band, events, atStart)
    ensures Delivered(Run(s, es, band, events))
  {
    if events != [] {
      var n := |events| - 1;
      if Known(s, es, band, events[..n], atStart) { KnownIsDelivered(s, es, band, events[..n], atStart); }
      StatusTellsDelivery(Run(s, es, band, events[..n]), es, band, events[n]);
    }
  }

  /** When the last pot write got through, no live retune is treacherous. */
  lemma DeliveredIsSafe(s: Osc, es: seq<Entry>, band: nat, e: Event)
    requires NonNegative(es) && Guarded(s, es, band) && Delivered(s)
    ensures !Treacherous(s, es, band, e)
  {
    if e.cmd.CmdRetune? && Within(s.last, es, band, e.cmd.y) { PotsWithin(s, es, band, e.cmd.y); }
  }

  predicate Live(e: Event) { e.mode != Troubleshooting && e.mode != Simulation }

  /** A careful caller, outside troubleshooting and simulation: commands no voltage that the byte
      conversion wraps, and retunes only while the statuses tell that the pots are delivered. */
  ghost predicate Careful(s: Osc, es: seq<Entry>, band: nat, events: seq<Event>, atStart: bool) {
    events != [] ==>
      var n := |events| - 1;
      && Careful(s, es, band, events[..n], atStart)
      && Live(events[n])
      && (events[n].cmd.CmdRetune? ==> Known(s, es, band, events[..n], atStart))
      && (events[n].cmd.CmdDrive? ==> Sound(events[n].cmd.v))
  }

  /** Whatever writes fail, a careful caller keeps the amplifiers within the limits at the tuning
      word the hardware holds, in every state of the run. */
  lemma {:induction false} CarefulRunsAreSafe(s: Osc, es: seq<Entry>, band: nat, events: seq<Event>, atStart: bool)
    requires NonNegative(es) && Guarded(s, es, band) && (atStart ==> Delivered(s))
    requires Careful(s, es, band, events, atStart)
    ensures GuardedThroughout(s, es, band, events) && HardwareSafe(Run(s, es, band, events), es, band)
  {
    if events != [] {
      var n := |events| - 1;
      var before := Run(s, es, band, events[..n]);
      CarefulRunsAreSafe(s, es, band, events[..n], atStart);
      if events[n].cmd.CmdRetune? {
        KnownIsDelivered(s, es, band, events[..n], atStart);
        DeliveredIsSafe(before, es, band, events[n]);
      }
      StepHardwareSafeIff(before, es, band, events[n]);
    }
  }

  // ----- Commands and pots ---------------------------------------------------------

  /** Pots and amplifiers hold the settings of the commanded voltages, and the oscillator the
      recorded word. */
  ghost predicate InSync(s: Osc) { s.hw == s.pot == Settings(s.last) && s.ytoHw == s.yto }

  predicate AllWritesSucceed(e: Event) {
    match e.cmd
    case CmdRetune(_, ok0, ok1, okYto) => ok0 && ok1 && okYto
    case CmdDrive(_, _, _, ok) => ok
    case CmdGate(ok) => ok
    case CmdInit(io) => io == InitIo(true, true, true, true, true, true)
  }

  lemma StepInSync(s: Osc, es: seq<Entry>, band: nat, e: Event)
    requires InSync(s) && e.mode != Simulation && AllWritesSucceed(e)
    ensures InSync(Step(s, es, band, e))
  {
    match e.cmd
    case CmdRetune(y, ok0, ok1, okYto) => LookupTotal(es, y);
    case CmdDrive(pol, v, cold, ok) =>
    case CmdGate(ok) =>
    case CmdInit(io) => InitInSync(s, band, e.mode, io);
  }

  lemma InitInSync(s: Osc, band: nat, mode: Mode, io: InitIo)
    requires mode != Simulation && io == InitIo(true, true, true, true, true, true)
    ensures InSync(Init(s, band, mode, io).0)
  {
    ZeroIsZero();
    ZeroDrainsEffect(s, band, mode, true, true);
    assert ZeroDrains(s, band, mode, true, true).0.last == [0.0, 0.0];
  }

  /** Outside troubleshooting and simulation, without lost writes and without commands that wrap,
      the amplifiers hold what was commanded and respect the limits throughout. */
  lemma {:induction false} RunKeepsHardwareSafe(s: Osc, es: seq<Entry>, band: nat, events: seq<Event>)
    requires NonNegative(es) && Guarded(s, es, band) && InSync(s)
    requires forall i :: 0 <= i < |events| ==>
      Live(events[i]) && AllWritesSucceed(events[i]) && (events[i].cmd.CmdDrive? ==> Sound(events[i].cmd.v))
    ensures var s' := Run(s, es, band, events);
            InSync(s') && HardwareSafe(s', es, band) && GuardedThroughout(s, es, band, events)
  {
    if events != [] {
      var n := |events| - 1;
      var before := Run(s, es, band, events[..n]);
      RunKeepsHardwareSafe(s, es, band, events[..n]);
      StepInSync(before, es, band, events[n]);
      DeliveredIsSafe(before, es, band, events[n]);
      StepHardwareSafeIff(before, es, band, events[n]);
    }
  }

  /** Outside simulation drain, gate and tuning commands keep the settings of the commanded
      voltages in the pot register, lost writes or not. */
  lemma StepKeepsPots(s: Osc, es: seq<Entry>, band: nat, e: Event)
    requires s.pot == Settings(s.last) && e.mode != Simulation && !e.cmd.CmdInit?
    ensures var s' := Step(s, es, band, e); s'.pot == Settings(s'.last)
  {
  }

  /** An initialization does so exactly if it does not start, or completes its drain writes, or
      what it fails to record as zero was set to zero already. */
  lemma InitKeepsPotsIff(s: Osc, band: nat, mode: Mode, io: InitIo)
    requires s.pot == Settings(s.last) && mode != Simulation
    ensures var s' := Init(s, band, mode, io).0;
            s'.pot == Settings(s'.last) <==>
              !io.clock || (if !io.drain0 then s.pot[Channel(band, 0)] == 0 else io.drain1 || s.pot[1] == 0)
  {
    ZeroIsZero();
    var s' := Init(s, band, mode, io).0;
    assert s'.pot == Settings(s'.last) <==> s'.pot[0] == Scaled(s'.last[0]) && s'.pot[1] == Scaled(s'.last[1]);
  }

  // ----- Runs that defeat the limit -----------------------------------------------------

  const TABLE: seq<Entry> := [Entry(0, 2.5, 2.5), Entry(1000, 1.0, 1.0)]
  const BAND := 5

  const UP := Event(Operational, CmdInit(InitIo(true, true, true, true, true, true)))

  function DriveTo(pol: nat, v: real): Event { Event(Operational, CmdDrive(pol, v, true, true)) }

  function TuneTo(mode: Mode, y: word, ok: bool): Event { Event(mode, CmdRetune(y, ok, ok, true)) }

  lemma RunMore(s: Osc, es: seq<Entry>, band: nat, events: seq<Event>, e: Event)
    ensures Run(s, es, band, events + [e]) == Step(Run(s, es, band, events), es, band, e)
  {
    assert (events + [e])[..|events|] == events;
  }

  lemma TableLimits()
    ensures Lookup(TABLE, 0) == Some(TABLE[0]) && Lookup(TABLE, 1000) == Some(TABLE[1])
    ensures forall pol :: 0 <= pol < 2 ==> Limit(TABLE, 0, pol) == 2.5 && Limit(TABLE, 1000, pol) == 1.0
  {
  }

  lemma Numbers()
    ensures Scaled(2.0) == 204 && Volts(204) == 2.0 && Scaled(0.0) == 0
  {
    ZeroIsZero();
    assert STEPS_PER_VOLT * 2.0 == 204.0;
  }

  lemma PoweredUp(s: Osc)
    ensures Run(s, TABLE, BAND, [UP]) == Lo([0.0, 0.0], [0, 0], [0, 0], 0, 0)
  {
    assert [UP][..0] == [] && Run(s, TABLE, BAND, []) == s;
    Numbers();
  }

  /** Two lowering writes are lost, the command reports an error and the operator repeats it. The
      second attempt tunes, with 2.0 V at a 1.0 V limit. */
  lemma LostWritesDefeatTheLimit(s: Osc)
    ensures var events := [UP] + [DriveTo(0, 2.0)] + [DriveTo(1, 2.0)] + [TuneTo(Operational, 1000, false)];
            var s1 := Run(s, TABLE, BAND, events);
            var s2 := Run(s, TABLE, BAND, events + [TuneTo(Operational, 1000, true)]);
            && HardwareSafe(s1, TABLE, BAND) && s1.ytoHw == 0
            && s2.ytoHw == 1000 && VoltsOf(s2.hw) == [2.0, 2.0] && Limit(TABLE, 1000, 0) == 1.0
  {
    TableLimits();
    Numbers();
    PoweredUp(s);
    var a, b, c := DriveTo(0, 2.0), DriveTo(1, 2.0), TuneTo(Operational, 1000, false);
    var s0 := Lo([0.0, 0.0], [0, 0], [0, 0], 0, 0);
    RunMore(s, TABLE, BAND, [UP], a);
    DriveEffect(s0, TABLE, BAND, Operational, 0, 2.0, true);
    var s1 := Lo([2.0, 0.0], [204, 0], [204, 0], 0, 0);
    assert Step(s0, TABLE, BAND, a) == s1;
    RunMore(s, TABLE, BAND, [UP] + [a], b);
    DriveEffect(s1, TABLE, BAND, Operational, 1, 2.0, true);
    var s2 := Lo([2.0, 2.0], [204, 204], [204, 204], 0, 0);
    assert Step(s1, TABLE, BAND, b) == s2;
    LostRetune(s2);
    RunMore(s, TABLE, BAND, [UP] + [a] + [b], c);
    RunMore(s, TABLE, BAND, [UP] + [a] + [b] + [c], TuneTo(Operational, 1000, true));
  }

  lemma LostRetune(s: Osc)
    requires s == Lo([2.0, 2.0], [204, 204], [204, 204], 0, 0)
    ensures var s1 := Step(s, TABLE, BAND, TuneTo(Operational, 1000, false));
            var s2 := Step(s1, TABLE, BAND, TuneTo(Operational, 1000, true));
            && s1.hw == [204, 204] && s1.ytoHw == 0 && HardwareSafe(s1, TABLE, BAND)
            && s2.hw == [204, 204] && s2.ytoHw == 1000
  {
    TableLimits();
    Numbers();
    var s1 := Step(s, TABLE, BAND, TuneTo(Operational, 1000, false));
    assert s1.last == [1.0, 1.0] && s1.hw == [204, 204] && s1.ytoHw == 0;
    WithinBoth(VoltsOf(s1.hw), TABLE, BAND, 0);
  }

  /** No write is lost: a simulated retune moves the record alone, and the next live command is
      clamped to the limit at the recorded word. 2.0 V go out at a 1.0 V limit. */
  lemma SimulatedRetuneDefeatsTheLimit(s: Osc)
    ensures var s' := Run(s, TABLE, BAND, [UP] + [TuneTo(Operational, 1000, true)] + [TuneTo(Simulation, 0, true)] + [DriveTo(0, 2.0)]);
            s'.ytoHw == 1000 && Volts(s'.hw[Channel(BAND, 0)]) == 2.0 && Limit(TABLE, 1000, 0) == 1.0
  {
    TableLimits();
    Numbers();
    PoweredUp(s);
    var a, b := TuneTo(Operational, 1000, true), TuneTo(Simulation, 0, true);
    var s0 := Lo([0.0, 0.0], [0, 0], [0, 0], 0, 0);
    RunMore(s, TABLE, BAND, [UP], a);
    var s1 := s0.(yto := 1000, ytoHw := 1000);
    assert Step(s0, TABLE, BAND, a) == s1;
    RunMore(s, TABLE, BAND, [UP] + [a], b);
    assert Step(s1, TABLE, BAND, b) == s1.(yto := 0);
    RunMore(s, TABLE, BAND, [UP] + [a] + [b], DriveTo(0, 2.0));
    DriveEffect(s1.(yto := 0), TABLE, BAND, Operational, 0, 2.0, true);
  }

  /** No write is lost: a command just below zero passes the clamp and leaves the byte conversion
      as full scale. 2.5 V go out at a 1.0 V limit. */
  lemma NegativeCommandDefeatsTheLimit(s: Osc)
    ensures var s' := Run(s, TABLE, BAND, [UP] + [TuneTo(Operational, 1000, true)] + [DriveTo(0, -0.01)]);
            s'.ytoHw == 1000 && Volts(s'.hw[Channel(BAND, 0)]) == 2.5 && Limit(TABLE, 1000, 0) == 1.0
  {
    TableLimits();
    Numbers();
    PoweredUp(s);
    NegativeCommandWraps();
    var a := TuneTo(Operational, 1000, true);
    var s0 := Lo([0.0, 0.0], [0, 0], [0, 0], 0, 0);
    RunMore(s, TABLE, BAND, [UP], a);
    var s1 := s0.(yto := 1000, ytoHw := 1000);
    assert Step(s0, TABLE, BAND, a) == s1;
    RunMore(s, TABLE, BAND, [UP] + [a], DriveTo(0, -0.01));
    DriveEffect(s1, TABLE, BAND, Operational, 0, -0.01, true);
  }
}
