/** Cartridge power-up: power commands, the init machine that is shared by all cartridges,
    and the sweep over them. */
module Cartridges {
  import opened Common

  const CARTRIDGES := 10
  const BAND6 := 5
  const MAX_POWERED := 3
  const MAX_POWERED_TROUBLESHOOTING := 10
  const MAX_STANDBY2 := 1

  datatype State = Faulty | Off | On | Initing | Ready | GoStandby2

  /** How far the power-up wait of a cartridge has got since it was last powered on. */
  datatype Wait = NotStarted | Running | Elapsed

  /** `inited` and `wait` are history variables: whether a cartridgeInit has succeeded, and how
      far the wait has got, since the last power-on. */
  datatype Cart = Cart(state: State, standby2: bool, inited: bool, wait: Wait)

  datatype Task = Idle | Initialize | EnterStandby2

  datatype InitPhase = StartWait | Waiting | DoInit

  /** `addressed` is the module number in the last power-distribution message, whether or not
      there is such a module; `enabled` is what was recorded per module;
      `powered` and `standby` are the two byte counters. */
  datatype System = System(
    carts: seq<Cart>, current: nat, task: Task, phase: InitPhase,
    addressed: nat, enabled: seq<bool>, powered: byte, standby: byte)

  predicate WellFormed(s: System) {
    |s.carts| == |s.enabled| == CARTRIDGES && s.current < CARTRIDGES
  }

  const ALL_OFF: seq<Cart> := seq(CARTRIDGES, _ => Cart(Off, false, false, NotStarted))

  type Sys = s: System | WellFormed(s)
    ghost witness System(ALL_OFF, 0, Idle, StartWait, CARTRIDGES, seq(CARTRIDGES, _ => false), 0, 0)

  /** After startup every module has been switched off once. */
  function Initial(): Sys {
    System(ALL_OFF, 0, Idle, StartWait, CARTRIDGES, seq(CARTRIDGES, _ => false), 0, 0)
  }

  // ----- The sweep -------------------------------------------------------------

  /** Answers of the timer, of the initialization, and of the power-off write. */
  datatype Io = Io(startOk: bool, query: TimerReply, stopOk: bool, initOk: bool, pdOk: bool)

  function Put(s: Sys, c: nat, x: Cart): Sys
    requires c < CARTRIDGES
  {
    s.(carts := s.carts[c := x])
  }

  function Here(s: Sys): Cart { s.carts[s.current] }

  function TimerRanOut(c: Cart): Cart { if c.wait == Running then c.(wait := Elapsed) else c }

  /** One step of the initialization of the current cartridge. */
  function InitStep(s: Sys, io: Io): (Sys, Status) {
    if Here(s).state == Off then (s.(phase := StartWait), if io.stopOk then AsyncDone else Error)
    else match s.phase
      case StartWait =>
        var c := Here(s).(state := Initing);
        if io.startOk then (Put(s, s.current, c.(wait := Running)).(phase := Waiting), NoError)
        else (Put(s, s.current, c), Error)
      case Waiting =>
        (match io.query
         case TimerError => (s.(phase := StartWait), Error)
         case Expired => (Put(s, s.current, TimerRanOut(Here(s))).(phase := DoInit), NoError)
         case NotExpired => (s, NoError))
      case DoInit =>
        if io.initOk then (Put(s, s.current, Here(s).(state := Ready, inited := true)).(phase := StartWait), AsyncDone)
        else (s, Error)
  }

  /** Record a module as disabled; a number past the last module has no record. */
  function Disable(enabled: seq<bool>, m: nat): (r: seq<bool>)
    ensures |r| == |enabled|
  {
    if m < |enabled| then enabled[m := false] else enabled
  }

  function Minus1(b: byte): byte { (b - 1) % 0x100 }

  function Plus1(b: byte): byte { (b + 1) % 0x100 }

  /** A failed initialization: switch off the module addressed last, mark the current
      cartridge off, and count one powered cartridge less. */
  function GiveUp(s: Sys, pdOk: bool): Sys {
    if !pdOk then Put(s, s.current, Here(s).(state := Faulty))
    else
      Put(s, s.current, Here(s).(state := Off, standby2 := false))
        .(enabled := Disable(s.enabled, s.addressed), powered := Minus1(s.powered))
  }

  function NextCartridge(s: Sys): (Sys, Status) {
    if s.current + 1 == CARTRIDGES then (s.(current := 0, task := Idle), AsyncDone)
    else (s.(current := s.current + 1, task := Idle), NoError)
  }

  /** One call of the cartridges' asynchronous routine. */
  function SweepStep(s: Sys, io: Io): (Sys, Status) {
    match s.task
    case Idle =>
      if Here(s).state == On then (s.(task := Initialize), NoError)
      else if Here(s).state == GoStandby2 then (s.(task := EnterStandby2), NoError)
      else NextCartridge(s)
    case Initialize =>
      var (s1, r) := InitStep(s, io);
      if r == NoError then (s1, NoError)
      else if r == AsyncDone then NextCartridge(s1)
      else NextCartridge(GiveUp(s1, io.pdOk))
    case EnterStandby2 =>
      NextCartridge(if Here(s).state == Off then s else Put(s, s.current, Here(s).(state := Ready)))
  }

  // ----- Power commands ---------------------------------------------------------

  function MaxPowered(mode: Mode): nat { if mode == Troubleshooting then MAX_POWERED_TROUBLESHOOTING else MAX_POWERED }

  /** Off to on, or off to standby. */
  function TurnOn(s: Sys, m: nat, sb: bool, mode: Mode, ok: bool): (Sys, Status)
    requires m < CARTRIDGES
  {
    if !(if sb then s.standby < MAX_STANDBY2 else s.powered < MaxPowered(mode)) then (s, HardwareBlocked)
    else if mode != Simulation && !ok then (s, Error)
    else
      var s1 := Put(s, m, Cart(On, sb || s.carts[m].standby2, false, NotStarted)).(enabled := s.enabled[m := true]);
      (if sb then s1.(standby := Plus1(s.standby)) else s1.(powered := Plus1(s.powered)), NoError)
  }

  /** Standby to on: only the flag and the counters change. */
  function LeaveStandby(s: Sys, m: nat, mode: Mode): (Sys, Status)
    requires m < CARTRIDGES
  {
    if !(s.powered < MaxPowered(mode)) then (s, HardwareBlocked)
    else
      (Put(s, m, s.carts[m].(standby2 := false)).(standby := Minus1(s.standby), powered := Plus1(s.powered)), NoError)
  }

  /** On to standby, from any powered state. */
  function GoToStandby(s: Sys, m: nat): (Sys, Status)
    requires m < CARTRIDGES
  {
    if s.standby >= MAX_STANDBY2 then (s, HardwareBlocked)
    else
      (Put(s, m, s.carts[m].(state := GoStandby2, standby2 := true))
         .(standby := Plus1(s.standby), powered := Minus1(s.powered)), NoError)
  }

  function TurnOff(s: Sys, m: nat, mode: Mode, ok: bool): (Sys, Status)
    requires m < CARTRIDGES
  {
    if s.carts[m].state == Off then (s, NoError)
    else
      var stopped := s.carts[m].(state := Off, standby2 := false);
      if mode != Simulation && !ok then (Put(s, m, stopped.(state := Faulty)), Error)
      else
        var s1 := Put(s, m, stopped).(enabled := s.enabled[m := false]);
        (if s.carts[m].standby2 then s1.(standby := Minus1(s.standby)) else s1.(powered := Minus1(s.powered)), NoError)
  }

  /** The enable command: 0 off, 1 on, 2 standby (band 6 only). */
  function PowerCommand(s0: Sys, m: nat, value: byte, mode: Mode, ok: bool): (Sys, Status)
    requires m < CARTRIDGES
  {
    var s := s0.(addressed := m);
    var c := s.carts[m];
    if value == 0 then TurnOff(s, m, mode, ok)
    else if c.state == Faulty then (s, Error)
    else if value > 2 then (s, Error)
    else if value == 2 && m != BAND6 then (s, HardwareBlocked)
    else
      var sb := value == 2;
      if c.state != Off && c.standby2 == sb then (s, NoError)
      else if c.state == Off then TurnOn(s, m, sb, mode, ok)
      else if sb then GoToStandby(s, m)
      else LeaveStandby(s, m, mode)
  }

  datatype Event =
    | Sweep(io: Io)
    | Power(m: nat, value: byte, mode: Mode, ok: bool)
    | Address(number: nat)

  predicate Sensible(e: Event) { (e.Power? ==> e.m < CARTRIDGES) && (e.Address? ==> e.number < 16) }

  function Step(s: Sys, e: Event): Sys
    requires Sensible(e)
  {
    match e
    case Sweep(io) => SweepStep(s, io).0
    case Power(m, value, mode, ok) => PowerCommand(s, m, value, mode, ok).0
    case Address(m) => s.(addressed := m)
  }

  function Run(s: Sys, events: seq<Event>): Sys
    requires forall e :: e in events ==> Sensible(e)
  {
    if events == [] then s else Step(Run(s, events[..|events| - 1]), events[|events| - 1])
  }

  // ----- One cartridge at a time --------------------------------------------------

  /** Only the cartridge the sweep is parked on can be initializing. */
  ghost predicate OneIniting(s: Sys) {
    forall c :: 0 <= c < CARTRIDGES && s.carts[c].state == Initing ==> c == s.current && s.task == Initialize
  }

  /** A call of the sweep touches no other cartridge than the current one. */
  lemma SweepIsLocal(s: Sys, io: Io)
    ensures forall c :: 0 <= c < CARTRIDGES && c != s.current ==> SweepStep(s, io).0.carts[c] == s.carts[c]
  {
    assert forall c :: 0 <= c < CARTRIDGES && c != s.current ==> InitStep(s, io).0.carts[c] == s.carts[c];
  }

  /** What a call of the sweep makes of the current cartridge. */
  lemma SweepHere(s: Sys, io: Io)
    requires OneIniting(s)
    ensures var s' := SweepStep(s, io).0; var c' := s'.carts[s.current];
            && (s'.current == s.current ==>
                  || (s.task == Idle && c' == Here(s) && s'.task == (if Here(s).state == On then Initialize else EnterStandby2)
                      && (Here(s).state == On || Here(s).state == GoStandby2))
                  || (s.task == Initialize == s'.task && Here(s).state != Off && c'.inited == Here(s).inited
                      && (c'.state == Initing || c'.state == Here(s).state)))
            && (s'.current != s.current ==>
                  && s'.task == Idle
                  && c'.state != Initing
                  && (s.task == Idle ==> c' == Here(s) && c'.state != On)
                  && (s.task == Initialize ==> c'.state == Off || c'.state == Faulty || (c'.state == Ready && c'.inited))
                  && (s.task == EnterStandby2 ==> c'.inited == Here(s).inited && c'.state == (if Here(s).state == Off then Off else Ready)))
  {
    match s.task
    case Idle =>
    case Initialize =>
      var (s1, r) := InitStep(s, io);
      assert r == Error ==> s1.current == s.current && Here(s1).inited == Here(s).inited;
    case EnterStandby2 =>
  }

  lemma SweepKeepsOneIniting(s: Sys, io: Io)
    requires OneIniting(s)
    ensures OneIniting(SweepStep(s, io).0)
  {
    SweepIsLocal(s, io);
    SweepHere(s, io);
  }

  lemma TurnOnKeepsOneIniting(s: Sys, m: nat, sb: bool, mode: Mode, ok: bool)
    requires m < CARTRIDGES && OneIniting(s)
    ensures OneIniting(TurnOn(s, m, sb, mode, ok).0)
  {
  }

  lemma TurnOffKeepsOneIniting(s: Sys, m: nat, mode: Mode, ok: bool)
    requires m < CARTRIDGES && OneIniting(s)
    ensures OneIniting(TurnOff(s, m, mode, ok).0)
  {
  }

  lemma StandbyKeepsOneIniting(s: Sys, m: nat, mode: Mode)
    requires m < CARTRIDGES && OneIniting(s)
    ensures OneIniting(GoToStandby(s, m).0) && OneIniting(LeaveStandby(s, m, mode).0)
  {
  }

  lemma StepKeepsOneIniting(s: Sys, e: Event)
    requires Sensible(e) && OneIniting(s)
    ensures OneIniting(Step(s, e))
  {
    match e
    case Sweep(io) => SweepKeepsOneIniting(s, io);
    case Address(_) =>
    case Power(m, value, mode, ok) =>
      var s1: Sys := s.(addressed := m);
      TurnOnKeepsOneIniting(s1, m, value == 2, mode, ok);
      TurnOffKeepsOneIniting(s1, m, mode, ok);
      StandbyKeepsOneIniting(s1, m, mode);
  }

  /** In every reachable state at most one cartridge is initializing, and it is the one the
      asynchronous process is parked on, whatever fails and whatever is commanded. */
  lemma {:induction false} AtMostOneIniting(events: seq<Event>)
    requires forall e :: e in events ==> Sensible(e)
    ensures OneIniting(Run(Initial(), events))
  {
    if events != [] {
      var n := |events| - 1;
      AtMostOneIniting(events[..n]);
      StepKeepsOneIniting(Run(Initial(), events[..n]), events[n]);
    }
  }

  // ----- Ready means initialized ---------------------------------------------------

  /** A cartridge that is announced as ready, or on its way to standby, has been initialized
      since its last power-on. */
  ghost predicate ReadyMeansInitialized(s: Sys) {
    forall c :: 0 <= c < CARTRIDGES ==> Announced(s.carts[c])
  }

  ghost predicate Announced(c: Cart) { c.state == Ready || c.state == GoStandby2 ==> c.inited }

  /** And those still to be initialized have not been, nor has the one being worked on, while
      the one being put into standby has. */
  ghost predicate Trusted(s: Sys) {
    && (forall c :: 0 <= c < CARTRIDGES ==> CartTrusted(s.carts[c]))
    && (s.task == EnterStandby2 ==> Here(s).state == Off || Here(s).inited)
    && (s.task == Initialize ==> !Here(s).inited)
  }

  ghost predicate CartTrusted(c: Cart) {
    Announced(c) && (c.state == On || c.state == Initing ==> !c.inited)
  }

  /** The power command finds the cartridge off and powers it. */
  predicate PowersUp(s: Sys, m: nat, value: byte, mode: Mode, ok: bool)
    requires m < CARTRIDGES
  {
    && s.carts[m].state == Off && (mode == Simulation || ok)
    && ((value == 1 && s.powered < MaxPowered(mode)) || (value == 2 && m == BAND6 && s.standby < MAX_STANDBY2))
  }

  /** The power command finds the cartridge on and sends it to standby. */
  predicate SendsToStandby(s: Sys, m: nat, value: byte)
    requires m < CARTRIDGES
  {
    && value == 2 && m == BAND6 && s.carts[m].state != Off && s.carts[m].state != Faulty && !s.carts[m].standby2
    && s.standby < MAX_STANDBY2
  }

  /** A power command that lets an uninitialized cartridge pass for an initialized one: standby
      for a cartridge that is still to be initialized, or power for the cartridge whose
      transition to standby is just being carried out. */
  predicate SkipsInitialization(s: Sys, e: Event)
    requires Sensible(e)
  {
    && e.Power?
    && (|| (SendsToStandby(s, e.m, e.value) && (s.carts[e.m].state == On || s.carts[e.m].state == Initing))
        || (PowersUp(s, e.m, e.value, e.mode, e.ok) && e.m == s.current && s.task == EnterStandby2))
  }

  lemma SweepKeepsTrust(s: Sys, io: Io)
    requires OneIniting(s) && Trusted(s)
    ensures Trusted(SweepStep(s, io).0)
  {
    SweepIsLocal(s, io);
    SweepHere(s, io);
    var s' := SweepStep(s, io).0;
    assert CartTrusted(s.carts[s.current]);
    forall c | 0 <= c < CARTRIDGES
      ensures CartTrusted(s'.carts[c])
    {
      assert CartTrusted(s.carts[c]);
    }
  }

  /** A change of one cartridge that is not the one the sweep is working on, or that leaves it
      trustworthy, is all that matters for the rest. */
  lemma PutTrustIff(s: Sys, s': Sys, m: nat, x: Cart)
    requires m < CARTRIDGES && Trusted(s) && s'.carts == s.carts[m := x] && s'.current == s.current && s'.task == s.task
    ensures Trusted(s') <==>
            && CartTrusted(x)
            && (m == s.current ==> (s.task == EnterStandby2 ==> x.state == Off || x.inited) && (s.task == Initialize ==> !x.inited))
  {
    forall c | 0 <= c < CARTRIDGES && c != m
      ensures CartTrusted(s'.carts[c])
    {
      assert CartTrusted(s.carts[c]);
    }
    assert s'.carts[m] == x;
  }

  lemma TurnOnTrustIff(s: Sys, m: nat, sb: bool, mode: Mode, ok: bool)
    requires m < CARTRIDGES && s.carts[m].state == Off && Trusted(s) && (sb ==> m == BAND6)
    ensures Trusted(TurnOn(s, m, sb, mode, ok).0) <==>
            !(PowersUp(s, m, if sb then 2 else 1, mode, ok) && m == s.current && s.task == EnterStandby2)
  {
    var s' := TurnOn(s, m, sb, mode, ok).0;
    PutTrustIff(s, s', m, s'.carts[m]);
    assert CartTrusted(s.carts[m]);
  }

  lemma TurnOffKeepsTrust(s: Sys, m: nat, mode: Mode, ok: bool)
    requires m < CARTRIDGES && Trusted(s)
    ensures Trusted(TurnOff(s, m, mode, ok).0)
  {
    var s' := TurnOff(s, m, mode, ok).0;
    PutTrustIff(s, s', m, s'.carts[m]);
    assert CartTrusted(s.carts[m]);
  }

  lemma GoToStandbyTrustIff(s: Sys, m: nat)
    requires m < CARTRIDGES && s.carts[m].state != Off && s.carts[m].state != Faulty && Trusted(s)
    ensures Trusted(GoToStandby(s, m).0) <==>
            !(s.standby < MAX_STANDBY2 && (s.carts[m].state == On || s.carts[m].state == Initing))
  {
    var s' := GoToStandby(s, m).0;
    PutTrustIff(s, s', m, s'.carts[m]);
    assert CartTrusted(s.carts[m]);
  }

  lemma LeaveStandbyKeepsTrust(s: Sys, m: nat, mode: Mode)
    requires m < CARTRIDGES && Trusted(s)
    ensures Trusted(LeaveStandby(s, m, mode).0)
  {
    var s' := LeaveStandby(s, m, mode).0;
    PutTrustIff(s, s', m, s'.carts[m]);
    assert CartTrusted(s.carts[m]);
  }

  /** Only those commands cost the trust, and they always do. */
  lemma StepKeepsTrustIff(s: Sys, e: Event)
    requires Sensible(e) && OneIniting(s) && Trusted(s)
    ensures Trusted(Step(s, e)) <==> !SkipsInitialization(s, e)
  {
    match e
    case Sweep(io) => SweepKeepsTrust(s, io);
    case Address(m) => assert Step(s, e).carts == s.carts;
    case Power(m, value, mode, ok) =>
      var s1: Sys := s.(addressed := m);
      assert Trusted(s1);
      TurnOffKeepsTrust(s1, m, mode, ok);
      LeaveStandbyKeepsTrust(s1, m, mode);
      if s.carts[m].state == Off {
        if value == 2 ==> m == BAND6 { TurnOnTrustIff(s1, m, value == 2, mode, ok); }
      } else if s.carts[m].state != Faulty {
        GoToStandbyTrustIff(s1, m);
      }
  }

  /** What such a command leads to: a cartridge announced without initialization, at once or by
      the next call of the sweep, whatever the hardware answers to it. */
  lemma SkippingShows(s: Sys, e: Event, io: Io)
    requires Sensible(e) && Trusted(s) && SkipsInitialization(s, e)
    ensures !ReadyMeansInitialized(Step(s, e)) || !ReadyMeansInitialized(SweepStep(Step(s, e), io).0)
  {
    var s1 := Step(s, e);
    assert CartTrusted(s.carts[e.m]);
    if SendsToStandby(s, e.m, e.value) {
      assert !Announced(s1.carts[e.m]);
    } else {
      assert s1.carts[e.m].state == On && !s1.carts[e.m].inited && s1.current == e.m && s1.task == EnterStandby2;
      assert !Announced(SweepStep(s1, io).0.carts[e.m]);
    }
  }

  /** No command of the run lets a cartridge skip its initialization. */
  ghost predicate NeverSkips(s: Sys, events: seq<Event>)
    requires forall e :: e in events ==> Sensible(e)
  {
    events != [] ==>
      var n := |events| - 1;
      NeverSkips(s, events[..n]) && !SkipsInitialization(Run(s, events[..n]), events[n])
  }

  lemma InitialIsTrusted()
    ensures Trusted(Initial()) && OneIniting(Initial())
  {
    assert forall c :: 0 <= c < CARTRIDGES ==> CartTrusted(Initial().carts[c]);
  }

  lemma {:induction false} NeverSkippingKeepsTrust(events: seq<Event>)
    requires forall e :: e in events ==> Sensible(e)
    requires NeverSkips(Initial(), events)
    ensures Trusted(Run(Initial(), events))
  {
    InitialIsTrusted();
    if events != [] {
      var n := |events| - 1;
      NeverSkippingKeepsTrust(events[..n]);
      AtMostOneIniting(events[..n]);
      StepKeepsTrustIff(Run(Initial(), events[..n]), events[n]);
    }
  }

  /** On runs without skipping commands every ready cartridge, and every one on its way to
      standby, has been initialized since its last power-on. */
  lemma ReadyCartridgesAreInitialized(events: seq<Event>)
    requires forall e :: e in events ==> Sensible(e)
    requires NeverSkips(Initial(), events)
    ensures ReadyMeansInitialized(Run(Initial(), events))
  {
    NeverSkippingKeepsTrust(events);
    assert forall c :: 0 <= c < CARTRIDGES ==> CartTrusted(Run(Initial(), events).carts[c]);
  }

  /** The property holds now and after one more call of the sweep. */
  ghost predicate Sound(s: Sys) {
    ReadyMeansInitialized(s) && forall io :: ReadyMeansInitialized(SweepStep(s, io).0)
  }

  lemma TrustedIsSound(s: Sys)
    requires Trusted(s) && OneIniting(s)
    ensures Sound(s)
  {
    assert forall c :: 0 <= c < CARTRIDGES ==> CartTrusted(s.carts[c]);
    forall io
      ensures ReadyMeansInitialized(SweepStep(s, io).0)
    {
      SweepKeepsTrust(s, io);
      assert forall c :: 0 <= c < CARTRIDGES ==> CartTrusted(SweepStep(s, io).0.carts[c]);
    }
  }

  lemma SoundAfterIff(s: Sys, e: Event)
    requires Sensible(e) && Trusted(s) && OneIniting(s)
    ensures Sound(Step(s, e)) <==> !SkipsInitialization(s, e)
  {
    if SkipsInitialization(s, e) {
      SkippingShows(s, e, Io(true, NotExpired, true, true, true));
    } else {
      StepKeepsTrustIff(s, e);
      StepKeepsOneIniting(s, e);
      TrustedIsSound(Step(s, e));
    }
  }

  /** After every event of the run. */
  ghost predicate SoundThroughout(s: Sys, events: seq<Event>)
    requires forall e :: e in events ==> Sensible(e)
  {
    Sound(Run(s, events)) && (events != [] ==> SoundThroughout(s, events[..|events| - 1]))
  }

  /** Over whole runs: the property holds throughout, and after any next call of the sweep, if
      and only if no command of the run skips an initialization. */
  lemma {:induction false} ReadyMeansInitializedIff(events: seq<Event>)
    requires forall e :: e in events ==> Sensible(e)
    ensures SoundThroughout(Initial(), events) <==> NeverSkips(Initial(), events)
  {
    if events == [] {
      InitialIsTrusted();
      TrustedIsSound(Initial());
    } else {
      var before, last := events[..|events| - 1], events[|events| - 1];
      ReadyMeansInitializedIff(before);
      if NeverSkips(Initial(), before) {
        NeverSkippingKeepsTrust(before);
        AtMostOneIniting(before);
        SoundAfterIff(Run(Initial(), before), last);
      }
    }
  }

  // ----- The power-up wait ----------------------------------------------------------

  /** Between initializations the init machine is at its start, so that the next power-up
      begins with its wait. */
  ghost predicate Rested(s: Sys) { s.task != Initialize ==> s.phase == StartWait }

  /** An initialization that fails after its wait. */
  predicate FailsAfterWait(s: Sys, e: Event) {
    e.Sweep? && s.task == Initialize && s.phase == DoInit && Here(s).state != Off && !e.io.initOk
  }

  /** The only step that leaves the machine elsewhere is an initialization that fails after its
      wait: the next cartridge switched on is then initialized without waiting. */
  lemma StepKeepsRestedIff(s: Sys, e: Event)
    requires Sensible(e) && Rested(s)
    ensures Rested(Step(s, e)) <==> !FailsAfterWait(s, e)
  {
    match e
    case Sweep(io) =>
      if s.task == Initialize { assert SweepStep(s, io).0.phase == InitStep(s, io).0.phase; }
    case Power(m, value, mode, ok) =>
      var s' := PowerCommand(s, m, value, mode, ok).0;
      assert s'.task == s.task && s'.phase == s.phase;
    case Address(m) =>
  }

  ghost predicate NeverFailsAfterWait(s: Sys, events: seq<Event>)
    requires forall e :: e in events ==> Sensible(e)
  {
    events != [] ==>
      var n := |events| - 1;
      NeverFailsAfterWait(s, events[..n]) && !FailsAfterWait(Run(s, events[..n]), events[n])
  }

  lemma {:induction false} RunKeepsRested(events: seq<Event>)
    requires forall e :: e in events ==> Sensible(e)
    requires NeverFailsAfterWait(Initial(), events)
    ensures Rested(Run(Initial(), events))
  {
    if events != [] {
      var n := |events| - 1;
      RunKeepsRested(events[..n]);
      StepKeepsRestedIff(Run(Initial(), events[..n]), events[n]);
    }
  }

  /** The machine is at its start between initializations, and during one it is as far as the
      cartridge has waited since it was powered. So an initialization that is about to be
      carried out follows a wait begun after the power-on and run out. */
  ghost predicate WaitsFirst(s: Sys) {
    && Rested(s)
    && (s.task == Initialize && Here(s).state != Off ==> WaitOf(Here(s), s.phase))
  }

  ghost predicate WaitOf(c: Cart, phase: InitPhase) {
    (phase == Waiting ==> c.wait == Running) && (phase == DoInit ==> c.wait == Elapsed)
  }

  /** Besides such a failure: the cartridge being initialized is switched off and on again
      between two calls of the sweep, which goes on with the old wait. */
  predicate SkipsWait(s: Sys, e: Event)
    requires Sensible(e)
  {
    || FailsAfterWait(s, e)
    || (e.Power? && PowersUp(s, e.m, e.value, e.mode, e.ok) && e.m == s.current && s.task == Initialize && s.phase != StartWait)
  }

  lemma PowerWaitIff(s: Sys, m: nat, value: byte, mode: Mode, ok: bool)
    requires m < CARTRIDGES && WaitsFirst(s)
    ensures WaitsFirst(PowerCommand(s, m, value, mode, ok).0) <==> !SkipsWait(s, Power(m, value, mode, ok))
  {
    var s' := PowerCommand(s, m, value, mode, ok).0;
    assert s'.task == s.task && s'.phase == s.phase && s'.current == s.current;
    assert m != s.current ==> Here(s') == Here(s);
    if PowersUp(s, m, value, mode, ok) {
      assert s'.carts[m].state == On && s'.carts[m].wait == NotStarted;
    } else {
      assert s'.carts[m].wait == s.carts[m].wait && (s.carts[m].state == Off ==> s'.carts[m].state == Off);
    }
  }

  lemma StepWaitsIff(s: Sys, e: Event)
    requires Sensible(e) && WaitsFirst(s)
    ensures WaitsFirst(Step(s, e)) <==> !SkipsWait(s, e)
  {
    StepKeepsRestedIff(s, e);
    match e
    case Sweep(io) =>
      if s.task == Initialize {
        var (s1, r) := InitStep(s, io);
        assert r == NoError ==> SweepStep(s, io).0 == s1;
        assert r != NoError ==> SweepStep(s, io).0.task == Idle;
      }
    case Power(m, value, mode, ok) => PowerWaitIff(s, m, value, mode, ok);
    case Address(m) =>
  }

  ghost predicate NeverSkipsWait(s: Sys, events: seq<Event>)
    requires forall e :: e in events ==> Sensible(e)
  {
    events != [] ==>
      var n := |events| - 1;
      NeverSkipsWait(s, events[..n]) && !SkipsWait(Run(s, events[..n]), events[n])
  }

  /** On runs without those steps every initialization that is carried out follows an expired
      wait begun after the cartridge's last power-on. */
  lemma {:induction false} InitializationsFollowTheirWait(events: seq<Event>)
    requires forall e :: e in events ==> Sensible(e)
    requires NeverSkipsWait(Initial(), events)
    ensures var s := Run(Initial(), events);
            WaitsFirst(s) && (s.task == Initialize && s.phase == DoInit && Here(s).state != Off ==> Here(s).wait == Elapsed)
  {
    if events != [] {
      var n := |events| - 1;
      InitializationsFollowTheirWait(events[..n]);
      StepWaitsIff(Run(Initial(), events[..n]), events[n]);
    }
  }
}
