/** The cryostat's control register, its shadow copy, and the pump and valve handlers that
    write it, one whole register at a time. */
module CryoValves {
  import opened Common
  import opened Bits

  const TURBO_MIN := 10.0
  const TURBO_MAX := 45.0

  datatype Field = VacuumOff | TurboOn | BackingOn | SolenoidOpen | GateOpened

  /** The register field by field. The vacuum controller's bit is inverted. */
  datatype Fields = Fields(vacuumOff: bool, turboOn: bool, backingOn: bool, solenoidOpen: bool, gateOpen: bool) {
    function With(x: Field, on: bool): Fields {
      match x
      case VacuumOff => this.(vacuumOff := on)
      case TurboOn => this.(turboOn := on)
      case BackingOn => this.(backingOn := on)
      case SolenoidOpen => this.(solenoidOpen := on)
      case GateOpened => this.(gateOpen := on)
    }
  }

  function Mask(x: Field): (m: bv16)
    ensures OneBit(m)
  {
    match x
    case VacuumOff => 0x1
    case TurboOn => 0x2
    case BackingOn => 0x4
    case SolenoidOpen => 0x8
    case GateOpened => 0x10
  }

  function View(r: bv16): Fields {
    Fields(Has(r, Mask(VacuumOff)), Has(r, Mask(TurboOn)), Has(r, Mask(BackingOn)), Has(r, Mask(SolenoidOpen)),
           Has(r, Mask(GateOpened)))
  }

  /** Writing one bit field of the packed register changes that field and no other. */
  lemma WriteView(r: bv16, x: Field, on: bool)
    ensures View(Bits.With(r, Mask(x), on)) == View(r).With(x, on)
  {
    FieldsIndependent(r, Mask(x), Mask(VacuumOff), on);
    FieldsIndependent(r, Mask(x), Mask(TurboOn), on);
    FieldsIndependent(r, Mask(x), Mask(BackingOn), on);
    FieldsIndependent(r, Mask(x), Mask(SolenoidOpen), on);
    FieldsIndependent(r, Mask(x), Mask(GateOpened), on);
    assert forall f :: Mask(f) == Mask(x) <==> f == x;
  }

  function WriteField(r: bv16, x: Field, on: bool): (w: bv16)
    ensures View(w) == View(r).With(x, on)
  {
    WriteView(r, x, on);
    Bits.With(r, Mask(x), on)
  }

  datatype GateState = GateOpen | GateClosed | GateUnknown | GateError | GateOverCurrent

  /** Shadow register, hardware register, and the recorded states. */
  datatype Cryo = Cryo(bReg: Fields, hw: Fields, backing: bool, turbo: bool, vacuum: bool, gate: GateState)

  const ALL_CLEAR := Fields(false, false, false, false, false)

  /** State after startup: pumps off, valves closed, and the vacuum controller on, as the
      hardware powers it up. If the configuration file cannot be read, startup ends before it
      has recorded that. */
  function Startup(iniRead: bool): Cryo {
    Cryo(ALL_CLEAR, ALL_CLEAR, false, false, iniRead, GateClosed)
  }

  // ----- Steps ---------------------------------------------------------------

  /** One register write, rolled back when it fails; simulation writes nothing. */
  function Write(s: Cryo, mode: Mode, x: Field, on: bool, ok: bool): Cryo {
    if mode == Simulation || !ok then s
    else
      var r := s.bReg.With(x, on);
      s.(bReg := r, hw := r)
  }

  function WriteStatus(mode: Mode, ok: bool): Status { if mode == Simulation || ok then NoError else Error }

  function SetBacking(s: Cryo, mode: Mode, on: bool, ok: bool): Cryo {
    if WriteStatus(mode, ok) == Error then s else Write(s, mode, BackingOn, on, ok).(backing := on)
  }

  function SetTurbo(s: Cryo, mode: Mode, on: bool, ok: bool): Cryo {
    if WriteStatus(mode, ok) == Error then s else Write(s, mode, TurboOn, on, ok).(turbo := on)
  }

  function SetVacuum(s: Cryo, mode: Mode, on: bool, ok: bool): Cryo {
    if WriteStatus(mode, ok) == Error then s else Write(s, mode, VacuumOff, !on, ok).(vacuum := on)
  }

  /** Results of the writes of one backing-pump command, in order. */
  datatype BackingIo = BackingIo(gate: bool, solenoid: bool, turbo: bool, backing: bool)

  /** Before the backing pump goes off: close both valves and stop the turbo pump, giving up
      at the first failure. */
  function Prepare(s: Cryo, mode: Mode, io: BackingIo): (Cryo, Status) {
    if WriteStatus(mode, io.gate) == Error then (s, Error)
    else
      var s1 := Write(s, mode, GateOpened, false, io.gate);
      if WriteStatus(mode, io.solenoid) == Error then (s1, Error)
      else
        var s2 := Write(s1, mode, SolenoidOpen, false, io.solenoid);
        (SetTurbo(s2, mode, false, io.turbo), WriteStatus(mode, io.turbo))
  }

  /** A failure while preparing abandons the command but leaves its status at "no error". */
  function BackingCommand(s: Cryo, mode: Mode, on: bool, io: BackingIo): (Cryo, Status) {
    var (s1, r) := if on then (s, NoError) else Prepare(s, mode, io);
    if r == Error then (s1, NoError)
    else (SetBacking(s1, mode, on, io.backing), WriteStatus(mode, io.backing))
  }

  /** Four position sensors; all of them triggered means "no supply" or "over current". */
  function Sensed(sensors: nat, backing: bool): GateState {
    if sensors == 0x0 then GateUnknown
    else if sensors == 0x5 then GateOpen
    else if sensors == 0xA then GateClosed
    else if sensors == 0xF then (if backing then GateOverCurrent else GateUnknown)
    else GateError
  }

  function ReadGate(s: Cryo, mode: Mode, readOk: bool, sensors: nat): Cryo {
    if mode == Simulation then s.(gate := GateUnknown)
    else if !readOk then s
    else s.(gate := Sensed(sensors, s.backing))
  }

  function GateCommand(s: Cryo, mode: Mode, open: bool, readOk: bool, sensors: nat, ok: bool): (Cryo, Status) {
    if !s.backing then (s, HardwareBlocked)
    else
      var s1 := ReadGate(s, mode, readOk, sensors);
      if WriteStatus(mode, readOk) == Error then (s1, Error)
      else if s1.gate == GateUnknown then (s1, HardwareBlocked)
      else (Write(s1, mode, GateOpened, open, ok), WriteStatus(mode, ok))
  }

  function SolenoidCommand(s: Cryo, mode: Mode, open: bool, ok: bool): (Cryo, Status) {
    if !s.backing then (s, HardwareBlocked) else (Write(s, mode, SolenoidOpen, open, ok), WriteStatus(mode, ok))
  }

  /** The turbo pump's external temperature, when the interlock module is there to measure it. */
  predicate TurboTemperatureBad(temp: Option<real>) {
    temp.Some? && (temp.value < TURBO_MIN || temp.value > TURBO_MAX)
  }

  function TurboCommand(s: Cryo, mode: Mode, on: bool, temp: Option<real>, ok: bool): (Cryo, Status) {
    if !s.backing then (s, HardwareBlocked)
    else if on && TurboTemperatureBad(temp) then (s.(turbo := false), HardwareBlocked)
    else (SetTurbo(s, mode, on, ok), WriteStatus(mode, ok))
  }

  datatype Command =
    | Backing(on: bool, io: BackingIo)
    | Gate(open: bool, readOk: bool, sensors: nat, gateOk: bool)
    | Solenoid(openSol: bool, solOk: bool)
    | Turbo(turboOn: bool, temp: Option<real>, turboOk: bool)
    | Vacuum(vacuumOn: bool, vacuumOk: bool)

  datatype Event = Event(mode: Mode, cmd: Command)

  function Step(s: Cryo, e: Event): Cryo {
    match e.cmd
    case Backing(on, io) => BackingCommand(s, e.mode, on, io).0
    case Gate(open, readOk, sensors, ok) => GateCommand(s, e.mode, open, readOk, sensors, ok).0
    case Solenoid(open, ok) => SolenoidCommand(s, e.mode, open, ok).0
    case Turbo(on, temp, ok) => TurboCommand(s, e.mode, on, temp, ok).0
    case Vacuum(on, ok) => SetVacuum(s, e.mode, on, ok)
  }

  function Run(s: Cryo, events: seq<Event>): Cryo {
    if events == [] then s else Step(Run(s, events[..|events| - 1]), events[|events| - 1])
  }

  // ----- What every run keeps -------------------------------------------------

  /** The shadow is the last value the hardware accepted, and the recorded backing-pump state
      is the bit in it. */
  ghost predicate Tracks(s: Cryo) { s.bReg == s.hw && s.backing == s.hw.backingOn }

  ghost predicate TurboAgrees(s: Cryo) { s.turbo == s.hw.turboOn }

  ghost predicate VacuumAgrees(s: Cryo) { s.vacuum == !s.hw.vacuumOff }

  ghost predicate Agree(s: Cryo) { Tracks(s) && VacuumAgrees(s) }

  /** Nothing that the backing pump's supply drives is commanded on while it is off. */
  ghost predicate Interlock(f: Fields) {
    !f.backingOn ==> !f.gateOpen && !f.solenoidOpen && !f.turboOn
  }

  /** The first state agrees with the hardware exactly when the configuration file was read. */
  lemma StartupAgreesIff(iniRead: bool)
    ensures Agree(Startup(iniRead)) <==> iniRead
    ensures Tracks(Startup(iniRead)) && TurboAgrees(Startup(iniRead)) && Interlock(Startup(iniRead).hw)
  {
  }

  /** The register after preparing, writes failing or not. */
  function Prepared(f: Fields, io: BackingIo): Fields {
    if !io.gate then f
    else if !io.solenoid then f.(gateOpen := false)
    else f.(gateOpen := false, solenoidOpen := false, turboOn := f.turboOn && !io.turbo)
  }

  lemma PrepareFields(s: Cryo, mode: Mode, io: BackingIo)
    requires s.bReg == s.hw && mode != Simulation
    ensures var f := Prepared(s.hw, io);
            Prepare(s, mode, io) ==
            (if io.gate && io.solenoid && io.turbo then (s.(bReg := f, hw := f, turbo := false), NoError)
             else (s.(bReg := f, hw := f), Error))
  {
  }

  /** A state with another register, shadow and hardware alike. */
  function Holding(s: Cryo, f: Fields): Cryo { s.(bReg := f, hw := f) }

  lemma SwitchOnResult(s: Cryo, mode: Mode, io: BackingIo)
    requires s.bReg == s.hw && mode != Simulation
    ensures BackingCommand(s, mode, true, io).0 ==
            if io.backing then Holding(s, s.hw.(backingOn := true)).(backing := true) else s
  {
  }

  lemma SwitchOffResult(s: Cryo, mode: Mode, io: BackingIo)
    requires s.bReg == s.hw && mode != Simulation
    ensures BackingCommand(s, mode, false, io).0 ==
            var f := Prepared(s.hw, io);
            if !(io.gate && io.solenoid && io.turbo) then Holding(s, f)
            else if !io.backing then Holding(s, f).(turbo := false)
            else Holding(s, f.(backingOn := false)).(turbo := false, backing := false)
  {
    PrepareFields(s, mode, io);
  }

  /** What the whole command keeps, and what it makes of the pump and of the things it drives. */
  lemma BackingFields(s: Cryo, mode: Mode, on: bool, io: BackingIo)
    requires s.bReg == s.hw && mode != Simulation
    ensures var s' := BackingCommand(s, mode, on, io).0; var h, h' := s.hw, s'.hw;
            var off := !on && io.gate && io.solenoid && io.turbo;
            && s'.bReg == h' && s'.vacuum == s.vacuum && h'.vacuumOff == h.vacuumOff
            && s'.backing == (if on then s.backing || io.backing else s.backing && !(off && io.backing))
            && h'.backingOn == (if on then h.backingOn || io.backing else h.backingOn && !(off && io.backing))
            && h'.turboOn == (h.turboOn && !off) && s'.turbo == (s.turbo && !off)
            && (h'.gateOpen ==> h.gateOpen && !off) && (h'.solenoidOpen ==> h.solenoidOpen && !off)
  {
    if on { SwitchOnResult(s, mode, io); } else { SwitchOffResult(s, mode, io); }
  }

  // ----- The interlock, simulation included ---------------------------------------

  /** A command that its handler, taking the backing pump for running, carries out by
      switching something on. */
  predicate Opens(s: Cryo, c: Command) {
    match c
    case Gate(open, readOk, sensors, ok) => open && readOk && ok && Sensed(sensors, s.backing) != GateUnknown
    case Solenoid(open, ok) => open && ok
    case Turbo(on, temp, ok) => on && ok && !TurboTemperatureBad(temp)
    case _ => false
  }

  /** One event breaks the interlock exactly when it opens something on the strength of a
      record that the hardware does not bear out. */
  lemma StepKeepsInterlockIff(s: Cryo, e: Event)
    requires s.bReg == s.hw && Interlock(s.hw)
    ensures Interlock(Step(s, e).hw) <==> !(e.mode != Simulation && s.backing && !s.hw.backingOn && Opens(s, e.cmd))
  {
    match e.cmd
    case Backing(on, io) =>
      if e.mode != Simulation { BackingFields(s, e.mode, on, io); }
    case Gate(open, readOk, sensors, ok) =>
    case Solenoid(open, ok) =>
    case Turbo(on, temp, ok) =>
    case Vacuum(on, ok) =>
  }

  /** The shadow is right, the interlock holds, and the backing pump runs whenever its record
      says so. */
  ghost predicate Guarded(s: Cryo) {
    s.bReg == s.hw && Interlock(s.hw) && (s.backing ==> s.hw.backingOn)
  }

  /** Simulation switches the record of a pump on that does not run. */
  predicate Pretends(s: Cryo, e: Event) {
    e.mode == Simulation && e.cmd.Backing? && e.cmd.on && !s.hw.backingOn
  }

  /** Only that event ends the guard, and it always does, whatever writes fail. */
  lemma StepKeepsGuardIff(s: Cryo, e: Event)
    requires Guarded(s)
    ensures Guarded(Step(s, e)) <==> !Pretends(s, e)
  {
    StepKeepsInterlockIff(s, e);
    match e.cmd
    case Backing(on, io) =>
      if e.mode != Simulation { BackingFields(s, e.mode, on, io); }
    case Gate(open, readOk, sensors, ok) =>
    case Solenoid(open, ok) =>
    case Turbo(on, temp, ok) =>
    case Vacuum(on, ok) =>
  }

  ghost predicate NeverPretends(s: Cryo, events: seq<Event>) {
    events != [] ==>
      var n := |events| - 1;
      NeverPretends(s, events[..n]) && !Pretends(Run(s, events[..n]), events[n])
  }

  /** In every run, in any mixture of modes and with arbitrary write failures, in which
      simulation never switches on the record of a pump that is off: whenever the hardware's
      backing-pump bit is off, both valves are commanded closed and the turbo pump is off; and
      the shadow register never departs from the hardware. */
  lemma {:induction false} RunKeepsInterlock(iniRead: bool, events: seq<Event>)
    requires NeverPretends(Startup(iniRead), events)
    ensures Guarded(Run(Startup(iniRead), events))
  {
    StartupAgreesIff(iniRead);
    if events != [] {
      var n := |events| - 1;
      RunKeepsInterlock(iniRead, events[..n]);
      StepKeepsGuardIff(Run(Startup(iniRead), events[..n]), events[n]);
    }
  }

  /** A caller can make sure of that without looking at the hardware: no simulated enable
      command for the backing pump. */
  lemma {:induction false} InterlockWithoutSimulatedEnable(iniRead: bool, events: seq<Event>)
    requires forall i :: 0 <= i < |events| ==> !(events[i].mode == Simulation && events[i].cmd.Backing? && events[i].cmd.on)
    ensures NeverPretends(Startup(iniRead), events) && Guarded(Run(Startup(iniRead), events))
  {
    if events != [] { InterlockWithoutSimulatedEnable(iniRead, events[..|events| - 1]); }
    RunKeepsInterlock(iniRead, events);
  }

  // ----- The recorded states ----------------------------------------------------------

  predicate Refuses(s: Cryo, e: Event) {
    e.cmd.Turbo? && e.cmd.turboOn && s.backing && TurboTemperatureBad(e.cmd.temp)
  }

  /** In every mode the shadow stays the value the hardware last accepted. */
  lemma StepKeepsShadow(s: Cryo, e: Event)
    requires s.bReg == s.hw
    ensures Step(s, e).bReg == Step(s, e).hw
  {
    match e.cmd
    case Backing(on, io) => if e.mode != Simulation { BackingFields(s, e.mode, on, io); }
    case Gate(open, readOk, sensors, ok) =>
    case Solenoid(open, ok) =>
    case Turbo(on, temp, ok) =>
    case Vacuum(on, ok) =>
  }

  /** A command keeps shadow and pump record, except that simulation records what it is told. */
  lemma StepKeepsTracksIff(s: Cryo, e: Event)
    requires Tracks(s)
    ensures Tracks(Step(s, e)) <==> (e.mode == Simulation && e.cmd.Backing? ==> e.cmd.on == s.hw.backingOn)
  {
    match e.cmd
    case Backing(on, io) => if e.mode != Simulation { BackingFields(s, e.mode, on, io); }
    case Gate(open, readOk, sensors, ok) =>
    case Solenoid(open, ok) =>
    case Turbo(on, temp, ok) =>
    case Vacuum(on, ok) =>
  }

  /** Only its own command touches the vacuum controller's bit and record. */
  lemma OthersLeaveVacuum(s: Cryo, e: Event)
    requires s.bReg == s.hw && !e.cmd.Vacuum?
    ensures var s' := Step(s, e); s'.vacuum == s.vacuum && s'.hw.vacuumOff == s.hw.vacuumOff
  {
    if e.cmd.Backing? && e.mode != Simulation { BackingFields(s, e.mode, e.cmd.on, e.cmd.io); }
  }

  /** The vacuum record is right after a command exactly when it was right before or has just
      been commanded; a simulated command makes it right only by chance. */
  lemma VacuumAgreesIff(s: Cryo, e: Event)
    requires s.bReg == s.hw
    ensures VacuumAgrees(Step(s, e)) <==>
            if e.cmd.Vacuum? && e.mode == Simulation then e.cmd.vacuumOn == !s.hw.vacuumOff
            else VacuumAgrees(s) || (e.cmd.Vacuum? && e.cmd.vacuumOk)
  {
    if !e.cmd.Vacuum? { OthersLeaveVacuum(s, e); }
  }

  /** Outside simulation, from startup on the shadow and the backing-pump record agree with the
      hardware; the vacuum-controller record does from the first state if the configuration file
      was read, else from the first accepted vacuum command on. */
  lemma {:induction false} RunKeepsRecords(iniRead: bool, events: seq<Event>)
    requires forall i :: 0 <= i < |events| ==> events[i].mode != Simulation
    ensures var s := Run(Startup(iniRead), events);
            && Tracks(s)
            && (VacuumAgrees(s) <==> iniRead || exists i :: 0 <= i < |events| && events[i].cmd.Vacuum? && events[i].cmd.vacuumOk)
  {
    if events != [] {
      var n := |events| - 1;
      RunKeepsRecords(iniRead, events[..n]);
      StepKeepsTracksIff(Run(Startup(iniRead), events[..n]), events[n]);
      VacuumAgreesIff(Run(Startup(iniRead), events[..n]), events[n]);
    }
  }

  /** How the record of the turbo pump is lost: an enable command refused for its temperature,
      which records "off" without writing the register, while the pump is running; and in
      simulation a command that records another state than the pump's, be it the turbo pump's own
      or the switching off of the backing pump. */
  predicate LosesTurbo(s: Cryo, e: Event) {
    if e.mode != Simulation then Refuses(s, e) && s.turbo
    else match e.cmd
      case Turbo(on, temp, _) => s.backing && (if Refuses(s, e) then s.turbo else on != s.turbo)
      case Backing(on, _) => !on && s.turbo
      case _ => false
  }

  /** The recorded turbo-pump state follows the hardware, in every mode, with exactly those
      exceptions. */
  lemma TurboStaysInAgreementIff(s: Cryo, e: Event)
    requires s.bReg == s.hw && TurboAgrees(s)
    ensures TurboAgrees(Step(s, e)) <==> !LosesTurbo(s, e)
  {
    match e.cmd
    case Backing(on, io) => if e.mode != Simulation { BackingFields(s, e.mode, on, io); }
    case Gate(open, readOk, sensors, ok) =>
    case Solenoid(open, ok) =>
    case Turbo(on, temp, ok) =>
    case Vacuum(on, ok) =>
  }

  ghost predicate NeverLosesTurbo(s: Cryo, events: seq<Event>) {
    events != [] ==>
      var n := |events| - 1;
      NeverLosesTurbo(s, events[..n]) && !LosesTurbo(Run(s, events[..n]), events[n])
  }

  /** In every run from startup without such a command, in any mixture of modes and with arbitrary
      write failures, the turbo-pump record is the bit, and the shadow is the register. */
  lemma {:induction false} RunKeepsTurbo(iniRead: bool, events: seq<Event>)
    requires NeverLosesTurbo(Startup(iniRead), events)
    ensures var s := Run(Startup(iniRead), events); TurboAgrees(s) && s.bReg == s.hw
  {
    if events != [] {
      var n := |events| - 1;
      RunKeepsTurbo(iniRead, events[..n]);
      StepKeepsShadow(Run(Startup(iniRead), events[..n]), events[n]);
      TurboStaysInAgreementIff(Run(Startup(iniRead), events[..n]), events[n]);
    }
  }

  /** An accepted switch-off is complete; a reported success is one exactly when none of the
      three preparing writes failed. */
  lemma BackingOffReport(s: Cryo, mode: Mode, io: BackingIo)
    requires Tracks(s) && mode != Simulation
    ensures var (s', r) := BackingCommand(s, mode, false, io);
            && (!s'.hw.backingOn && s.hw.backingOn ==> Interlock(s'.hw) && r == NoError)
            && (s.hw.backingOn ==>
                 (r == NoError && s'.hw.backingOn <==> !(io.gate && io.solenoid && io.turbo)))
  {
    BackingFields(s, mode, false, io);
    PrepareFields(s, mode, io);
  }

  // ----- Runs that show the exceptions ------------------------------------------------

  lemma RunOne(s: Cryo, a: Event)
    ensures Run(s, [a]) == Step(s, a)
  {
    assert [a][..0] == [] && Run(s, []) == s;
  }

  lemma RunMore(s: Cryo, a: seq<Event>, b: Event)
    ensures Run(s, a + [b]) == Step(Run(s, a), b)
  {
    assert (a + [b])[..|a|] == a;
  }

  /** Simulation defeats the interlock: an enable command recorded in simulation lets the
      gate valve be opened later with the real backing pump off. */
  lemma SimulationDefeatsInterlock(iniRead: bool)
    ensures var simulated := Event(Simulation, Backing(true, BackingIo(true, true, true, true)));
            var opening := Event(Operational, Gate(true, true, 0xA, true));
            !Interlock(Run(Startup(iniRead), [simulated] + [opening]).hw)
  {
    var simulated := Event(Simulation, Backing(true, BackingIo(true, true, true, true)));
    var opening := Event(Operational, Gate(true, true, 0xA, true));
    RunOne(Startup(iniRead), simulated);
    RunMore(Startup(iniRead), [simulated], opening);
  }

  const PUMPING: seq<Event> :=
    [Event(Operational, Backing(true, BackingIo(true, true, true, true)))] + [Event(Operational, Turbo(true, Some(20.0), true))]

  lemma PumpsRunning(iniRead: bool)
    ensures Run(Startup(iniRead), PUMPING) ==
            Startup(iniRead).(bReg := ALL_CLEAR.(backingOn := true, turboOn := true), hw := ALL_CLEAR.(backingOn := true, turboOn := true),
                              backing := true, turbo := true)
  {
    RunOne(Startup(iniRead), PUMPING[0]);
    RunMore(Startup(iniRead), [PUMPING[0]], PUMPING[1]);
  }

  /** Both pumps are switched on; a second enable command finds the turbo pump too warm. It
      goes on running and is recorded as off. */
  lemma RefusalLosesTurbo(iniRead: bool)
    ensures var s := Run(Startup(iniRead), PUMPING + [Event(Operational, Turbo(true, Some(50.0), true))]);
            s.hw.turboOn && !s.turbo
  {
    PumpsRunning(iniRead);
    RunMore(Startup(iniRead), PUMPING, Event(Operational, Turbo(true, Some(50.0), true)));
  }

  /** The backing pump is switched on, and in simulation the turbo pump: it is recorded as running
      and is not. */
  lemma SimulatedEnableLosesTurbo(iniRead: bool)
    ensures var s := Run(Startup(iniRead), [PUMPING[0]] + [Event(Simulation, Turbo(true, Some(20.0), true))]);
            s.turbo && !s.hw.turboOn
  {
    RunOne(Startup(iniRead), PUMPING[0]);
    RunMore(Startup(iniRead), [PUMPING[0]], Event(Simulation, Turbo(true, Some(20.0), true)));
  }

  /** With both pumps on, a switch-off whose first write fails reports no error, and every
      bit stays as it was. */
  lemma SilentSwitchOff(iniRead: bool)
    ensures var s := Run(Startup(iniRead), PUMPING);
            var (s', r) := BackingCommand(s, Operational, false, BackingIo(false, true, true, true));
            r == NoError && s' == s && s.hw.backingOn && s.hw.turboOn
  {
    PumpsRunning(iniRead);
  }

  // ----- What the commands do to the hardware -------------------------------------------

  /** The bits of the register: vacuum controller off, turbo pump, backing pump, solenoid valve,
      gate valve. */
  lemma RegisterBits(r: bv16)
    ensures View(r) == Fields(r & 0x1 != 0, r & 0x2 != 0, r & 0x4 != 0, r & 0x8 != 0, r & 0x10 != 0)
  {
  }

  /** The gate valve's bit becomes what is commanded, open or closed, exactly when the command is
      live, the backing pump is recorded as on, the sensors are read and say that the valve is not
      moving, and the write is accepted; and exactly then the command reports no error. No other
      bit changes, and no other reason. */
  lemma GateOutcome(s: Cryo, mode: Mode, open: bool, readOk: bool, sensors: nat, ok: bool)
    requires s.bReg == s.hw
    ensures var (s', r) := GateCommand(s, mode, open, readOk, sensors, ok);
            var done := mode != Simulation && s.backing && readOk && sensors != 0 && ok;
            && s'.hw == (if done then s.hw.(gateOpen := open) else s.hw)
            && (r == NoError <==> done)
            && (r == Error <==> mode != Simulation && s.backing && (!readOk || (sensors != 0 && !ok)))
            && s'.backing == s.backing && s'.turbo == s.turbo && s'.vacuum == s.vacuum
  {
  }

  /** What the sensors are taken to say when they are read. */
  lemma GateReading(s: Cryo, mode: Mode, sensors: nat)
    requires mode != Simulation
    ensures var g := ReadGate(s, mode, true, sensors).gate;
            && (g == GateUnknown <==> sensors == 0x0 || (sensors == 0xF && !s.backing))
            && (g == GateOpen <==> sensors == 0x5) && (g == GateClosed <==> sensors == 0xA)
            && (g == GateOverCurrent <==> sensors == 0xF && s.backing)
  {
  }

  lemma SolenoidOutcome(s: Cryo, mode: Mode, open: bool, ok: bool)
    requires s.bReg == s.hw
    ensures var (s', r) := SolenoidCommand(s, mode, open, ok);
            && s'.hw == (if mode != Simulation && s.backing && ok then s.hw.(solenoidOpen := open) else s.hw)
            && (r == HardwareBlocked <==> !s.backing) && (r == Error <==> s.backing && mode != Simulation && !ok)
            && (r == NoError <==> s.backing && (mode == Simulation || ok))
            && s'.gate == s.gate && s'.backing == s.backing && s'.turbo == s.turbo && s'.vacuum == s.vacuum
  {
  }

  /** The turbo pump's bit and record follow the command, both ways, unless the backing pump is
      recorded as off, the pump's temperature is measured outside 10 to 45 degrees (which only an
      enable command minds), or the write fails. */
  lemma TurboOutcome(s: Cryo, mode: Mode, on: bool, temp: Option<real>, ok: bool)
    requires s.bReg == s.hw
    ensures var (s', r) := TurboCommand(s, mode, on, temp, ok);
            var bad := on && temp.Some? && !(10.0 <= temp.value <= 45.0);
            && s'.hw == (if mode != Simulation && s.backing && !bad && ok then s.hw.(turboOn := on) else s.hw)
            && s'.turbo == (if !s.backing then s.turbo else if bad then false else if mode == Simulation || ok then on else s.turbo)
            && (r == HardwareBlocked <==> !s.backing || bad) && (r == Error <==> s.backing && !bad && mode != Simulation && !ok)
            && (r == NoError <==> s.backing && !bad && (mode == Simulation || ok))
  {
  }

  lemma VacuumOutcome(s: Cryo, mode: Mode, on: bool, ok: bool)
    requires s.bReg == s.hw
    ensures var s' := SetVacuum(s, mode, on, ok);
            && s'.hw == (if mode != Simulation && ok then s.hw.(vacuumOff := !on) else s.hw)
            && s'.vacuum == (if mode == Simulation || ok then on else s.vacuum)
  {
  }

  /** Switching the backing pump on sets its bit; switching it off closes the gate valve, then the
      solenoid valve, then stops the turbo pump, then clears its bit, up to the first write that
      fails. */
  lemma BackingOutcome(s: Cryo, mode: Mode, on: bool, io: BackingIo)
    requires s.bReg == s.hw && mode != Simulation
    ensures var s' := BackingCommand(s, mode, on, io).0;
            s'.hw ==
            if on then (if io.backing then s.hw.(backingOn := true) else s.hw)
            else if !io.gate then s.hw
            else if !io.solenoid then s.hw.(gateOpen := false)
            else if !io.turbo then s.hw.(gateOpen := false, solenoidOpen := false)
            else if !io.backing then s.hw.(gateOpen := false, solenoidOpen := false, turboOn := false)
            else s.hw.(gateOpen := false, solenoidOpen := false, turboOn := false, backingOn := false)
  {
    if on { SwitchOnResult(s, mode, io); } else { SwitchOffResult(s, mode, io); }
  }
}
