/** The books kept beside the cartridge states: which modules are recorded as powered, and how
    many cartridges are counted as on and as in standby. */
module CartridgeBudget {
  import opened Common
  import opened Cartridges

  // ----- Power records ----------------------------------------------------------

  /** The record of the power modules agrees with the cartridge states. */
  ghost predicate CartsMatch(s: Sys) {
    forall c :: 0 <= c < CARTRIDGES ==>
      && (s.carts[c].state == Off ==> !s.enabled[c])
      && (s.carts[c].state != Off && s.carts[c].state != Faulty ==> s.enabled[c])
  }

  /** And the cartridge the sweep is working on has power unless it was switched off meanwhile. */
  ghost predicate RecordsMatch(s: Sys) {
    CartsMatch(s) && (s.task != Idle ==> Here(s).state == Off || s.enabled[s.current])
  }

  /** The initialization of the current cartridge fails in this call of the sweep. */
  predicate InitFails(s: Sys, io: Io) {
    && s.task == Initialize
    && if Here(s).state == Off then !io.stopOk
       else match s.phase
         case StartWait => !io.startOk
         case Waiting => io.query == TimerError
         case DoInit => !io.initOk
  }

  lemma InitFailsIsError(s: Sys, io: Io)
    ensures InitFails(s, io) <==> s.task == Initialize && InitStep(s, io).1 == Error
  {
  }

  predicate PowerMayBeOff(s: Sys, m: nat) {
    m >= CARTRIDGES || s.carts[m].state == Off || s.carts[m].state == Faulty
  }

  /** A failed initialization switches off the module of the last power message, which need not
      be the module of the cartridge that failed. */
  predicate WrongModuleOff(s: Sys, e: Event) {
    && e.Sweep? && InitFails(s, e.io) && e.io.pdOk && s.addressed != s.current
    && !(Here(s).state == Off && PowerMayBeOff(s, s.addressed))
  }

  lemma InitStepRecords(s: Sys, io: Io)
    requires RecordsMatch(s) && s.task == Initialize
    ensures var s' := InitStep(s, io).0;
            && RecordsMatch(s') && s'.current == s.current && s'.addressed == s.addressed
            && (Here(s').state == Off <==> Here(s).state == Off)
            && (forall c :: 0 <= c < CARTRIDGES && c != s.current ==> s'.carts[c] == s.carts[c])
  {
  }

  lemma GiveUpRecords(s: Sys, pdOk: bool)
    requires CartsMatch(s) && (Here(s).state == Off || s.enabled[s.current])
    ensures CartsMatch(GiveUp(s, pdOk)) <==>
            !(pdOk && s.addressed != s.current && !(Here(s).state == Off && PowerMayBeOff(s, s.addressed)))
  {
    var s' := GiveUp(s, pdOk);
    var c := s.current;
    assert forall d :: 0 <= d < CARTRIDGES && d != c ==> s'.carts[d] == s.carts[d];
    if pdOk && s.addressed != c {
      if Here(s).state != Off {
        assert s'.carts[c].state == Off && s'.enabled[c];
      } else if !PowerMayBeOff(s, s.addressed) {
        assert !s'.enabled[s.addressed];
      }
    }
  }

  lemma GiveUpRecordsIff(s: Sys, io: Io)
    requires RecordsMatch(s) && InitFails(s, io)
    ensures RecordsMatch(SweepStep(s, io).0) <==> !WrongModuleOff(s, Sweep(io))
  {
    InitStepRecords(s, io);
    var s1 := InitStep(s, io).0;
    GiveUpRecords(s1, io.pdOk);
    assert CartsMatch(NextCartridge(GiveUp(s1, io.pdOk)).0) == CartsMatch(GiveUp(s1, io.pdOk));
  }

  lemma SweepKeepsRecords(s: Sys, io: Io)
    requires RecordsMatch(s) && !InitFails(s, io)
    ensures RecordsMatch(SweepStep(s, io).0)
  {
    var s' := SweepStep(s, io).0;
    assert s'.enabled == s.enabled;
    SweepIsLocal(s, io);
    match s.task
    case Idle => assert s'.carts == s.carts;
    case Initialize =>
    case EnterStandby2 =>
  }

  lemma TurnOnKeepsRecords(s: Sys, m: nat, sb: bool, mode: Mode, ok: bool)
    requires m < CARTRIDGES && RecordsMatch(s)
    ensures RecordsMatch(TurnOn(s, m, sb, mode, ok).0)
  {
  }

  lemma TurnOffKeepsRecords(s: Sys, m: nat, mode: Mode, ok: bool)
    requires m < CARTRIDGES && RecordsMatch(s)
    ensures RecordsMatch(TurnOff(s, m, mode, ok).0)
  {
  }

  lemma StandbyKeepsRecords(s: Sys, m: nat, mode: Mode)
    requires m < CARTRIDGES && RecordsMatch(s)
    requires s.carts[m].state != Off && s.carts[m].state != Faulty
    ensures RecordsMatch(GoToStandby(s, m).0) && RecordsMatch(LeaveStandby(s, m, mode).0)
  {
  }

  lemma PowerKeepsRecords(s: Sys, m: nat, value: byte, mode: Mode, ok: bool)
    requires m < CARTRIDGES && RecordsMatch(s)
    ensures RecordsMatch(PowerCommand(s, m, value, mode, ok).0)
  {
    var s1: Sys := s.(addressed := m);
    TurnOffKeepsRecords(s1, m, mode, ok);
    TurnOnKeepsRecords(s1, m, value == 2, mode, ok);
    if s.carts[m].state != Off && s.carts[m].state != Faulty { StandbyKeepsRecords(s1, m, mode); }
  }

  /** Every event keeps the power records true, except a failed initialization that switches
      off somebody else's module. */
  lemma StepKeepsRecordsIff(s: Sys, e: Event)
    requires Sensible(e) && RecordsMatch(s)
    ensures RecordsMatch(Step(s, e)) <==> !WrongModuleOff(s, e)
  {
    match e
    case Sweep(io) => if InitFails(s, io) { GiveUpRecordsIff(s, io); } else { SweepKeepsRecords(s, io); }
    case Power(m, value, mode, ok) => PowerKeepsRecords(s, m, value, mode, ok);
    case Address(m) =>
  }

  ghost predicate NeverWrongModule(s: Sys, events: seq<Event>)
    requires forall e :: e in events ==> Sensible(e)
  {
    events != [] ==>
      var n := |events| - 1;
      NeverWrongModule(s, events[..n]) && !WrongModuleOff(Run(s, events[..n]), events[n])
  }

  /** Without such a failure the records are true throughout every run. */
  lemma {:induction false} RunKeepsRecords(events: seq<Event>)
    requires forall e :: e in events ==> Sensible(e)
    requires NeverWrongModule(Initial(), events)
    ensures RecordsMatch(Run(Initial(), events))
  {
    if events != [] {
      var n := |events| - 1;
      RunKeepsRecords(events[..n]);
      StepKeepsRecordsIff(Run(Initial(), events[..n]), events[n]);
    }
  }

  /** The slot of the record array that an event writes, if any: the command its own module's,
      a failed initialization that of the module addressed last. */
  function SlotWritten(s: Sys, e: Event): Option<nat>
    requires Sensible(e)
  {
    match e
    case Sweep(io) => if InitFails(s, io) && io.pdOk then Some(s.addressed) else None
    case Power(m, value, mode, ok) =>
      if PowersUp(s, m, value, mode, ok) || (value == 0 && s.carts[m].state != Off && (mode == Simulation || ok)) then Some(m)
      else None
    case Address(_) => None
  }

  /** No event changes another record than that one; and it lies past the ten there are exactly
      when an initialization fails while no module is addressed. */
  lemma SlotPastRecordsIff(s: Sys, e: Event)
    requires Sensible(e)
    ensures var k := SlotWritten(s, e);
            && (forall c :: 0 <= c < CARTRIDGES && k != Some(c) ==> Step(s, e).enabled[c] == s.enabled[c])
            && (k.Some? && k.value >= CARTRIDGES <==>
                  e.Sweep? && InitFails(s, e.io) && e.io.pdOk && s.addressed >= CARTRIDGES)
  {
    match e
    case Sweep(io) => if s.task == Initialize { assert InitStep(s, io).0.enabled == s.enabled; }
    case Power(m, value, mode, ok) =>
    case Address(_) =>
  }

  /** A ready cartridge that was merely addressed last is recorded as unpowered while it stays
      ready, and the cartridge that failed is marked off while it is recorded as powered. */
  lemma StrangerLosesPower(s: Sys, io: Io)
    requires RecordsMatch(s) && InitFails(s, io) && io.pdOk
    requires s.addressed < CARTRIDGES && s.addressed != s.current && s.carts[s.addressed].state == Ready
    ensures var s' := SweepStep(s, io).0;
            s'.carts[s.addressed].state == Ready && !s'.enabled[s.addressed]
            && s'.carts[s.current].state == Off && (Here(s).state != Off ==> s'.enabled[s.current])
  {
    SweepIsLocal(s, io);
  }

  // ----- Counters ------------------------------------------------------------------

  /** Whether a cartridge belongs to the standby count (sb) or to the ordinary one. */
  predicate In(c: Cart, sb: bool) { c.state != Off && c.standby2 == sb }

  function One(b: bool): nat { if b then 1 else 0 }

  ghost function Tally(carts: seq<Cart>, sb: bool): (n: nat)
    ensures n <= |carts|
  {
    if carts == [] then 0 else One(In(carts[0], sb)) + Tally(carts[1..], sb)
  }

  lemma {:induction false} TallyUpdate(carts: seq<Cart>, i: nat, x: Cart, sb: bool)
    requires i < |carts|
    ensures Tally(carts[i := x], sb) == Tally(carts, sb) - One(In(carts[i], sb)) + One(In(x, sb))
    ensures Tally(carts, sb) >= One(In(carts[i], sb))
  {
    if i == 0 {
      assert carts[i := x][1..] == carts[1..];
    } else {
      assert carts[i := x][1..] == carts[1..][i - 1 := x];
      TallyUpdate(carts[1..], i - 1, x, sb);
    }
  }

  lemma {:induction false} TallyOff(carts: seq<Cart>, sb: bool)
    requires forall c :: c in carts ==> c.state == Off
    ensures Tally(carts, sb) == 0
  {
    if carts != [] { TallyOff(carts[1..], sb); }
  }

  /** Both counters are exact, and a cartridge that is off is not in standby. */
  ghost predicate CountsExact(s: Sys) {
    && s.powered == Tally(s.carts, false)
    && s.standby == Tally(s.carts, true)
    && (forall c :: 0 <= c < CARTRIDGES && s.carts[c].state == Off ==> !s.carts[c].standby2)
  }

  /** The events that spoil the counters: a failed switch-off of a standby cartridge; an
      initialization that fails because its timer cannot be stopped after the cartridge was
      switched off; an initialization that fails for a cartridge in standby. */
  predicate SpoilsCounts(s: Sys, e: Event)
    requires Sensible(e)
  {
    match e
    case Sweep(io) => InitFails(s, io) && (Here(s).state == Off || (io.pdOk && Here(s).standby2))
    case Power(m, value, mode, ok) => value == 0 && mode != Simulation && !ok && s.carts[m].state != Off && s.carts[m].standby2
    case Address(_) => false
  }

  /** Changing one cartridge keeps the counters exact if and only if they follow it. */
  lemma CountsAfterPut(s: Sys, s': Sys, i: nat, x: Cart)
    requires CountsExact(s) && i < CARTRIDGES && s'.carts == s.carts[i := x]
    ensures CountsExact(s') <==>
            && s'.powered == s.powered - One(In(s.carts[i], false)) + One(In(x, false))
            && s'.standby == s.standby - One(In(s.carts[i], true)) + One(In(x, true))
            && (x.state == Off ==> !x.standby2)
    ensures One(In(s.carts[i], false)) <= s.powered <= CARTRIDGES && One(In(s.carts[i], true)) <= s.standby <= CARTRIDGES
  {
    TallyUpdate(s.carts, i, x, false);
    TallyUpdate(s.carts, i, x, true);
    assert x == s'.carts[i];
    assert forall c :: 0 <= c < CARTRIDGES && c != i ==> s'.carts[c] == s.carts[c];
  }

  lemma GiveUpCountsIff(s: Sys, pdOk: bool)
    requires CountsExact(s)
    ensures CountsExact(GiveUp(s, pdOk)) <==> !(Here(s).state == Off || (pdOk && Here(s).standby2))
  {
    var s' := GiveUp(s, pdOk);
    CountsAfterPut(s, s', s.current, Here(s'));
  }

  lemma InitStepCounts(s: Sys, io: Io)
    requires CountsExact(s)
    ensures var (s', r) := InitStep(s, io);
            CountsExact(s') && s'.current == s.current
            && (r == Error ==> (Here(s').state == Off <==> Here(s).state == Off) && Here(s').standby2 == Here(s).standby2)
  {
    var (s', r) := InitStep(s, io);
    CountsAfterPut(s, s', s.current, Here(s'));
  }

  /** Moving on to the next cartridge changes neither cartridges nor counters. */
  lemma NextCounts(s: Sys)
    ensures CountsExact(NextCartridge(s).0) <==> CountsExact(s)
  {
  }

  lemma SweepCountsIff(s: Sys, io: Io)
    requires CountsExact(s)
    ensures CountsExact(SweepStep(s, io).0) <==> !SpoilsCounts(s, Sweep(io))
  {
    match s.task
    case Idle => NextCounts(s);
    case Initialize =>
      InitStepCounts(s, io);
      var s1 := InitStep(s, io).0;
      GiveUpCountsIff(s1, io.pdOk);
      NextCounts(s1);
      NextCounts(GiveUp(s1, io.pdOk));
    case EnterStandby2 =>
      NextCounts(s);
      var ready := Put(s, s.current, Here(s).(state := Ready));
      NextCounts(ready);
      CountsAfterPut(s, ready, s.current, Here(ready));
  }

  lemma TurnOnCounts(s: Sys, m: nat, sb: bool, mode: Mode, ok: bool)
    requires m < CARTRIDGES && CountsExact(s) && s.carts[m].state == Off
    ensures CountsExact(TurnOn(s, m, sb, mode, ok).0)
  {
    var s' := TurnOn(s, m, sb, mode, ok).0;
    CountsAfterPut(s, s', m, s'.carts[m]);
  }

  lemma TurnOffCountsIff(s: Sys, m: nat, mode: Mode, ok: bool)
    requires m < CARTRIDGES && CountsExact(s)
    ensures CountsExact(TurnOff(s, m, mode, ok).0)
            <==> !(mode != Simulation && !ok && s.carts[m].state != Off && s.carts[m].standby2)
  {
    var s' := TurnOff(s, m, mode, ok).0;
    CountsAfterPut(s, s', m, s'.carts[m]);
  }

  lemma GoToStandbyCounts(s: Sys, m: nat)
    requires m < CARTRIDGES && CountsExact(s) && s.carts[m].state != Off && !s.carts[m].standby2
    ensures CountsExact(GoToStandby(s, m).0)
  {
    var s' := GoToStandby(s, m).0;
    CountsAfterPut(s, s', m, s'.carts[m]);
  }

  lemma LeaveStandbyCounts(s: Sys, m: nat, mode: Mode)
    requires m < CARTRIDGES && CountsExact(s) && s.carts[m].state != Off && s.carts[m].standby2
    ensures CountsExact(LeaveStandby(s, m, mode).0)
  {
    var s' := LeaveStandby(s, m, mode).0;
    CountsAfterPut(s, s', m, s'.carts[m]);
  }

  /** One event keeps exact counters exact unless it is one of the spoiling ones. */
  lemma StepCountsIff(s: Sys, e: Event)
    requires Sensible(e) && CountsExact(s)
    ensures CountsExact(Step(s, e)) <==> !SpoilsCounts(s, e)
  {
    match e
    case Sweep(io) => SweepCountsIff(s, io);
    case Address(m) =>
    case Power(m, value, mode, ok) =>
      var s1: Sys := s.(addressed := m);
      TurnOffCountsIff(s1, m, mode, ok);
      if s.carts[m].state == Off {
        TurnOnCounts(s1, m, value == 2, mode, ok);
      } else if s.carts[m].standby2 {
        LeaveStandbyCounts(s1, m, mode);
      } else {
        GoToStandbyCounts(s1, m);
      }
  }

  // ----- The power budget ------------------------------------------------------------

  /** What the counters and the standby flags are held to outside troubleshooting mode. */
  ghost predicate WithinLimits(s: Sys) {
    && s.powered <= MAX_POWERED && s.standby <= MAX_STANDBY2
    && (forall c :: 0 <= c < CARTRIDGES && s.carts[c].standby2 ==> c == BAND6)
  }

  /** A step that spoils no counter, not in troubleshooting mode. */
  predicate Regular(s: Sys, e: Event)
    requires Sensible(e)
  {
    !SpoilsCounts(s, e) && (e.Power? ==> e.mode != Troubleshooting)
  }

  lemma InitStepWithinLimits(s: Sys, io: Io)
    requires WithinLimits(s)
    ensures WithinLimits(InitStep(s, io).0)
  {
  }

  lemma GiveUpWithinLimits(s: Sys, pdOk: bool)
    requires CountsExact(s) && WithinLimits(s) && !(Here(s).state == Off || (pdOk && Here(s).standby2))
    ensures WithinLimits(GiveUp(s, pdOk))
  {
    CountsAfterPut(s, s, s.current, Here(s));
  }

  lemma SweepWithinLimits(s: Sys, io: Io)
    requires CountsExact(s) && WithinLimits(s) && !SpoilsCounts(s, Sweep(io))
    ensures WithinLimits(SweepStep(s, io).0)
  {
    match s.task
    case Idle =>
    case EnterStandby2 =>
    case Initialize =>
      var (s1, r) := InitStep(s, io);
      InitStepCounts(s, io);
      InitStepWithinLimits(s, io);
      if r == Error { GiveUpWithinLimits(s1, io.pdOk); }
  }

  lemma TurnOnWithinLimits(s: Sys, m: nat, sb: bool, mode: Mode, ok: bool)
    requires m < CARTRIDGES && CountsExact(s) && WithinLimits(s) && mode != Troubleshooting
    requires s.carts[m].state == Off && (sb ==> m == BAND6)
    ensures WithinLimits(TurnOn(s, m, sb, mode, ok).0)
  {
  }

  lemma TurnOffWithinLimits(s: Sys, m: nat, mode: Mode, ok: bool)
    requires m < CARTRIDGES && CountsExact(s) && WithinLimits(s)
    ensures WithinLimits(TurnOff(s, m, mode, ok).0)
  {
    CountsAfterPut(s, s, m, s.carts[m]);
  }

  lemma GoToStandbyWithinLimits(s: Sys, m: nat)
    requires m == BAND6 && CountsExact(s) && WithinLimits(s) && s.carts[m].state != Off && !s.carts[m].standby2
    ensures WithinLimits(GoToStandby(s, m).0)
  {
    CountsAfterPut(s, s, m, s.carts[m]);
  }

  lemma LeaveStandbyWithinLimits(s: Sys, m: nat, mode: Mode)
    requires m < CARTRIDGES && CountsExact(s) && WithinLimits(s) && s.carts[m].state != Off && s.carts[m].standby2
    requires mode != Troubleshooting
    ensures WithinLimits(LeaveStandby(s, m, mode).0)
  {
    CountsAfterPut(s, s, m, s.carts[m]);
  }

  lemma PowerWithinLimits(s: Sys, m: nat, value: byte, mode: Mode, ok: bool)
    requires m < CARTRIDGES && CountsExact(s) && WithinLimits(s) && mode != Troubleshooting
    ensures WithinLimits(PowerCommand(s, m, value, mode, ok).0)
  {
    var s1: Sys := s.(addressed := m);
    TurnOffWithinLimits(s1, m, mode, ok);
    if value == 1 || (value == 2 && m == BAND6) {
      if s.carts[m].state == Off {
        TurnOnWithinLimits(s1, m, value == 2, mode, ok);
      } else if s.carts[m].standby2 {
        LeaveStandbyWithinLimits(s1, m, mode);
      } else if m == BAND6 {
        GoToStandbyWithinLimits(s1, m);
      }
    }
  }

  predicate RegularRun(s: Sys, events: seq<Event>)
    requires forall e :: e in events ==> Sensible(e)
  {
    events != [] ==>
      var n := |events| - 1;
      RegularRun(s, events[..n]) && Regular(Run(s, events[..n]), events[n])
  }

  /** On every regular run the counters are exact, at most three cartridges are ordinarily
      powered, at most one is in standby, and that one is band 6. */
  lemma {:induction false} PowerBudget(events: seq<Event>)
    requires forall e :: e in events ==> Sensible(e)
    requires RegularRun(Initial(), events)
    ensures var s := Run(Initial(), events);
            && CountsExact(s) && WithinLimits(s)
            && Tally(s.carts, false) <= MAX_POWERED && Tally(s.carts, true) <= MAX_STANDBY2
  {
    if events == [] {
      TallyOff(Initial().carts, false);
      TallyOff(Initial().carts, true);
    } else {
      var n := |events| - 1;
      PowerBudget(events[..n]);
      var s, e := Run(Initial(), events[..n]), events[n];
      StepCountsIff(s, e);
      match e
      case Sweep(io) => SweepWithinLimits(s, io);
      case Power(m, value, mode, ok) => PowerWithinLimits(s, m, value, mode, ok);
      case Address(_) =>
    }
  }

  /** Events that spoil no counter in any state: writes and initializations succeed. */
  predicate Smooth(e: Event) {
    match e
    case Sweep(io) => io.startOk && io.stopOk && io.initOk && io.query != TimerError
    case Power(m, value, mode, ok) => ok
    case Address(_) => true
  }

  lemma SmoothSpoilsNothing(s: Sys, e: Event)
    requires Sensible(e) && Smooth(e)
    ensures !SpoilsCounts(s, e)
  {
  }

  lemma {:induction false} SmoothRunsCount(s: Sys, events: seq<Event>)
    requires forall e :: e in events ==> Sensible(e) && Smooth(e)
    requires CountsExact(s)
    ensures CountsExact(Run(s, events))
  {
    if events != [] {
      var n := |events| - 1;
      SmoothRunsCount(s, events[..n]);
      SmoothSpoilsNothing(Run(s, events[..n]), events[n]);
      StepCountsIff(Run(s, events[..n]), events[n]);
    }
  }

  /** An initialization that fails for the standby cartridge lowers the count of the ordinary
      ones, and standby stays counted as taken. */
  lemma FailedStandbyInit(s: Sys, io: Io)
    requires CountsExact(s) && s.powered > 0 && s.task == Initialize && s.phase == DoInit
    requires Here(s).state == Initing && Here(s).standby2 && !io.initOk && io.pdOk
    ensures var s' := SweepStep(s, io).0;
            && s'.powered == s.powered - 1 && Tally(s'.carts, false) == s.powered
            && s'.standby == s.standby && Tally(s'.carts, true) == s.standby - 1
  {
    var off := Here(s).(state := Off, standby2 := false);
    assert SweepStep(s, io).0.carts == s.carts[s.current := off];
    TallyUpdate(s.carts, s.current, off, false);
    TallyUpdate(s.carts, s.current, off, true);
  }

  lemma SwitchOnCounts(s: Sys, m: nat)
    requires m < CARTRIDGES && s.carts[m].state == Off && !s.carts[m].standby2 && s.powered < MAX_POWERED
    ensures var s' := PowerCommand(s, m, 1, Operational, true).0;
            s'.powered == s.powered + 1 && Tally(s'.carts, false) == Tally(s.carts, false) + 1
  {
    assert PowerCommand(s, m, 1, Operational, true).0.carts == s.carts[m := Cart(On, false, false, NotStarted)];
    TallyUpdate(s.carts, m, Cart(On, false, false, NotStarted), false);
  }

  /** With exact counters, three ordinary cartridges powered and the standby cartridge failing
      its initialization, one more can be switched on: four, outside troubleshooting mode. */
  lemma LimitExceeded(s: Sys, io: Io, m: nat)
    requires CountsExact(s) && s.powered == MAX_POWERED && s.task == Initialize && s.phase == DoInit
    requires Here(s).state == Initing && Here(s).standby2 && !io.initOk && io.pdOk
    requires m < CARTRIDGES && s.carts[m].state == Off
    ensures var s' := PowerCommand(SweepStep(s, io).0, m, 1, Operational, true).0;
            Tally(s'.carts, false) == MAX_POWERED + 1
  {
    FailedStandbyInit(s, io);
    var s1 := SweepStep(s, io).0;
    SweepIsLocal(s, io);
    assert s1.carts[m] == s.carts[m];
    SwitchOnCounts(s1, m);
  }
}
