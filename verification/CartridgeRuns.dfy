/** Runs from startup that show what the exact conditions of the other modules exclude. */
module CartridgeRuns {
  import opened Common
  import opened Cartridges
  import opened CartridgeBudget

  /** One call of the sweep in which a timer has run out and an initialization ends as told. */
  function Call(initOk: bool): Event { Sweep(Io(true, Expired, true, initOk, true)) }

  function Calls(n: nat): (es: seq<Event>)
    ensures |es| == n && forall e :: e in es ==> e == Call(true)
  {
    if n == 0 then [] else Calls(n - 1) + [Call(true)]
  }

  function Switch(m: nat, value: byte): Event { Power(m, value, Operational, true) }

  const NEW := Cart(On, false, false, NotStarted)

  // ----- Stretches of runs --------------------------------------------------------

  lemma RunSnoc(s: Sys, es: seq<Event>, e: Event)
    requires Sensible(e) && forall e :: e in es ==> Sensible(e)
    ensures Run(s, es + [e]) == Step(Run(s, es), e)
  {
    assert (es + [e])[..|es|] == es;
  }

  lemma RunOne(s: Sys, e: Event)
    requires Sensible(e)
    ensures Run(s, [e]) == Step(s, e)
  {
    assert [e][..0] == [] && Run(s, []) == s;
  }

  lemma {:induction false} RunConcat(s: Sys, a: seq<Event>, b: seq<Event>)
    requires forall e :: e in a + b ==> Sensible(e)
    ensures forall e :: e in a ==> Sensible(e)
    ensures forall e :: e in b ==> Sensible(e)
    ensures Run(s, a + b) == Run(Run(s, a), b)
  {
    assert forall e :: e in a ==> e in a + b;
    assert forall e :: e in b ==> e in a + b;
    if b == [] {
      assert a + b == a;
    } else {
      var n := |b| - 1;
      assert (a + b)[..|a + b| - 1] == a + b[..n];
      RunConcat(s, a, b[..n]);
    }
  }

  lemma PassOne(s: Sys, e: Event)
    requires e.Sweep? && s.task == Idle && s.current + 1 < CARTRIDGES
    requires Here(s).state != On && Here(s).state != GoStandby2
    ensures Step(s, e) == s.(current := s.current + 1)
  {
  }

  /** The sweep passes cartridges that need nothing. */
  lemma {:induction false} PassIdle(s: Sys, n: nat)
    requires s.task == Idle && s.current + n < CARTRIDGES
    requires forall c :: s.current <= c < s.current + n ==> s.carts[c].state != On && s.carts[c].state != GoStandby2
    ensures Run(s, Calls(n)) == s.(current := s.current + n)
  {
    if n > 0 {
      PassIdle(s, n - 1);
      RunSnoc(s, Calls(n - 1), Call(true));
      PassOne(Run(s, Calls(n - 1)), Call(true));
    }
  }

  /** Three calls bring a cartridge that has just been switched on to its initialization. */
  lemma ThreeCalls(s: Sys)
    requires s.task == Idle && s.phase == StartWait && Here(s).state == On && Here(s).wait == NotStarted
    ensures Run(s, Calls(3)) == Put(s, s.current, Here(s).(state := Initing, wait := Elapsed)).(task := Initialize, phase := DoInit)
  {
    var e := Call(true);
    assert Calls(0) == [] && Run(s, []) == s;
    RunSnoc(s, Calls(0), e);
    var s1 := Step(s, e);
    assert s1 == s.(task := Initialize);
    RunSnoc(s, Calls(1), e);
    var s2 := Step(s1, e);
    assert s2 == Put(s1, s.current, Here(s).(state := Initing, wait := Running)).(phase := Waiting);
    RunSnoc(s, Calls(2), e);
    assert Step(s2, e).carts == s.carts[s.current := Here(s).(state := Initing, wait := Elapsed)];
  }

  function SwitchedOn(s: Sys, m: nat, sb: bool): Sys
    requires m < CARTRIDGES && s.powered < MAX_POWERED && s.standby < MAX_STANDBY2
  {
    var s1 := Put(s, m, Cart(On, sb, false, NotStarted)).(addressed := m, enabled := s.enabled[m := true]);
    if sb then s1.(standby := s.standby + 1) else s1.(powered := s.powered + 1)
  }

  lemma SwitchOnStep(s: Sys, m: nat, sb: bool)
    requires m < CARTRIDGES && s.carts[m].state == Off && !s.carts[m].standby2 && (sb ==> m == BAND6)
    requires s.powered < MAX_POWERED && s.standby < MAX_STANDBY2
    ensures Step(s, Switch(m, if sb then 2 else 1)) == SwitchedOn(s, m, sb)
  {
  }

  lemma StandbyStep(s: Sys)
    requires s.carts[BAND6].state == On || s.carts[BAND6].state == Initing
    requires !s.carts[BAND6].standby2 && s.standby == 0 && s.powered > 0
    ensures Step(s, Switch(BAND6, 2)) ==
            Put(s, BAND6, s.carts[BAND6].(state := GoStandby2, standby2 := true))
              .(addressed := BAND6, standby := 1, powered := s.powered - 1)
  {
  }

  /** The initialization ends, well or badly, and the sweep moves on. */
  lemma InitEnds(s: Sys, initOk: bool)
    requires s.task == Initialize && s.phase == DoInit && Here(s).state == Initing && s.current + 1 < CARTRIDGES
    ensures Step(s, Call(initOk)) ==
            if initOk then
              Put(s, s.current, Here(s).(state := Ready, inited := true)).(phase := StartWait, task := Idle, current := s.current + 1)
            else
              Put(s, s.current, Here(s).(state := Off, standby2 := false))
                .(enabled := Disable(s.enabled, s.addressed), powered := Minus1(s.powered), task := Idle, current := s.current + 1)
  {
  }

  // ----- The runs ---------------------------------------------------------------------

  const UP: seq<Event> := [Switch(0, 1)] + Calls(3)

  /** Band 1 is switched on and about to be initialized. */
  lemma BandOneWaits()
    ensures Run(Initial(), UP) ==
            Put(Initial(), 0, Cart(Initing, false, false, Elapsed))
              .(addressed := 0, enabled := Initial().enabled[0 := true], powered := 1, task := Initialize, phase := DoInit)
  {
    RunOne(Initial(), Switch(0, 1));
    SwitchOnStep(Initial(), 0, false);
    RunConcat(Initial(), [Switch(0, 1)], Calls(3));
    ThreeCalls(SwitchedOn(Initial(), 0, false));
  }

  /** Band 6 is switched on and, one call later, sent to standby: the sweep then declares it
      ready although it was never initialized. At most one command between two calls. */
  const SHORTCUT: seq<Event> := [Switch(BAND6, 1)] + [Call(true)] + [Switch(BAND6, 2)] + Calls(4) + [Call(true)] + [Call(true)]

  lemma ReadyWithoutInitialization()
    ensures forall e :: e in SHORTCUT ==> Sensible(e)
    ensures var c := Run(Initial(), SHORTCUT).carts[BAND6]; c.state == Ready && !c.inited
  {
    var s1 := SwitchedOn(Initial(), BAND6, false);
    var a := [Switch(BAND6, 1)];
    RunOne(Initial(), a[0]);
    SwitchOnStep(Initial(), BAND6, false);
    RunSnoc(Initial(), a, Call(true));
    PassOne(s1, Call(true));
    var b := a + [Call(true)];
    var s2: Sys := s1.(current := 1);
    RunSnoc(Initial(), b, Switch(BAND6, 2));
    StandbyStep(s2);
    var s3 := Step(s2, Switch(BAND6, 2));
    var c := b + [Switch(BAND6, 2)];
    RunConcat(Initial(), c, Calls(4));
    PassIdle(s3, 4);
    var s4: Sys := s3.(current := BAND6);
    RunSnoc(Initial(), c + Calls(4), Call(true));
    StandbyEntered(s4);
    RunSnoc(Initial(), c + Calls(4) + [Call(true)], Call(true));
  }

  /** Two calls put a cartridge on its way to standby into it. */
  lemma StandbyEntered(s: Sys)
    requires s.task == Idle && s.current + 1 < CARTRIDGES && Here(s).state == GoStandby2
    ensures Step(Step(s, Call(true)), Call(true)) == Put(s, s.current, Here(s).(state := Ready)).(current := s.current + 1)
  {
    assert Step(s, Call(true)) == s.(task := EnterStandby2);
  }

  /** Sent to standby while its power-up wait is running: on its way, and not initialized. */
  lemma StandbyDuringInitialization()
    ensures var s := Run(Initial(), [Switch(BAND6, 1)] + Calls(5) + Calls(3) + [Switch(BAND6, 2)]);
            s.carts[BAND6].state == GoStandby2 && !s.carts[BAND6].inited && s.current == BAND6 && s.task == Initialize
  {
    RunOne(Initial(), Switch(BAND6, 1));
    SwitchOnStep(Initial(), BAND6, false);
    StandbyDuringWait(Initial(), [Switch(BAND6, 1)]);
  }

  lemma StandbyDuringWait(s: Sys, es: seq<Event>)
    requires forall e :: e in es ==> Sensible(e)
    requires var t := Run(s, es);
             && t.carts[BAND6] == NEW && t.current == 0 && t.task == Idle && t.phase == StartWait
             && (forall c :: 0 <= c < BAND6 ==> t.carts[c].state == Off) && t.standby == 0 && t.powered > 0
    ensures var t := Run(s, es + Calls(5) + Calls(3) + [Switch(BAND6, 2)]);
            t.carts[BAND6].state == GoStandby2 && !t.carts[BAND6].inited && t.current == BAND6 && t.task == Initialize
  {
    RunConcat(s, es, Calls(5));
    PassIdle(Run(s, es), 5);
    RunConcat(s, es + Calls(5), Calls(3));
    ThreeCalls(Run(s, es).(current := BAND6));
    RunSnoc(s, es + Calls(5) + Calls(3), Switch(BAND6, 2));
    StandbyStep(Run(s, es + Calls(5) + Calls(3)));
  }

  /** Band 1 fails its initialization; band 2, switched on next, is initialized at once, without
      any wait since its power-on. */
  lemma InitializedWithoutWaiting()
    ensures var s := Run(Initial(), UP + [Call(false)]);
            !Rested(s) && s.carts[0].state == Off
    ensures var c := Run(Initial(), UP + [Call(false)] + [Switch(1, 1)] + [Call(true)] + [Call(true)]).carts[1];
            c.state == Ready && c.wait == NotStarted
  {
    BandOneWaits();
    var s1 := Run(Initial(), UP);
    RunSnoc(Initial(), UP, Call(false));
    InitEnds(s1, false);
    var a, s2 := UP + [Call(false)], Step(s1, Call(false));
    RunSnoc(Initial(), a, Switch(1, 1));
    assert Minus1(1) == 0;
    SwitchOnStep(s2, 1, false);
    var s3 := SwitchedOn(s2, 1, false);
    RunSnoc(Initial(), a + [Switch(1, 1)], Call(true));
    var s4: Sys := s3.(task := Initialize);
    assert Step(s3, Call(true)) == s4;
    RunSnoc(Initial(), a + [Switch(1, 1)] + [Call(true)], Call(true));
  }

  /** Band 1 becomes ready, and band 2 waits for its initialization. */
  lemma BandTwoWaits() returns (events: seq<Event>)
    ensures forall e :: e in events ==> Sensible(e)
    ensures var s := Run(Initial(), events);
            && s.carts[0].state == Ready && s.carts[1].state == Initing && s.enabled[0] && s.enabled[1]
            && s.current == 1 && s.task == Initialize && s.phase == DoInit
  {
    BandOneWaits();
    var s1 := Run(Initial(), UP);
    RunSnoc(Initial(), UP, Call(true));
    InitEnds(s1, true);
    var a, s2 := UP + [Call(true)], Step(s1, Call(true));
    RunSnoc(Initial(), a, Switch(1, 1));
    SwitchOnStep(s2, 1, false);
    RunConcat(Initial(), a + [Switch(1, 1)], Calls(3));
    ThreeCalls(SwitchedOn(s2, 1, false));
    events := a + [Switch(1, 1)] + Calls(3);
  }

  /** Then band 1 is asked for its supply voltage and band 2 fails: band 1, ready, is recorded as
      unpowered, and band 2, off, as powered. */
  lemma StrangerInARun() returns (events: seq<Event>)
    ensures forall e :: e in events ==> Sensible(e)
    ensures var s := Run(Initial(), events);
            && s.carts[0].state == Ready && !s.enabled[0]
            && s.carts[1].state == Off && s.enabled[1]
            && !RecordsMatch(s)
  {
    var a := BandTwoWaits();
    RunSnoc(Initial(), a, Address(0));
    RunSnoc(Initial(), a + [Address(0)], Call(false));
    InitEnds(Run(Initial(), a).(addressed := 0), false);
    events := a + [Address(0)] + [Call(false)];
  }

  /** The number of powered cartridges is asked for while band 1 waits, and band 1 fails: the
      firmware writes the eleventh of ten records. */
  lemma RecordPastTheEnd()
    ensures SlotWritten(Run(Initial(), UP + [Address(CARTRIDGES)]), Call(false)) == Some(CARTRIDGES)
  {
    BandOneWaits();
    RunSnoc(Initial(), UP, Address(CARTRIDGES));
  }

  predicate Ordinary(events: seq<Event>) {
    forall e :: e in events ==> Sensible(e) && (e.Power? ==> e.mode == Operational)
  }

  /** Band 6 is switched to standby and bands 7, 8 and 9 on. */
  lemma CrowdPowered() returns (events: seq<Event>)
    ensures Ordinary(events) && forall e :: e in events ==> Smooth(e)
    ensures var s := Run(Initial(), events);
            && s.powered == 3 && s.standby == 1 && s.current == 0 && s.task == Idle && s.phase == StartWait
            && s.carts[BAND6] == Cart(On, true, false, NotStarted) && s.carts[9].state == Off
            && (forall c :: 0 <= c < BAND6 ==> s.carts[c].state == Off)
  {
    var a := [Switch(BAND6, 2)];
    RunOne(Initial(), a[0]);
    SwitchOnStep(Initial(), BAND6, true);
    RunSnoc(Initial(), a, Switch(6, 1));
    RunSnoc(Initial(), a + [Switch(6, 1)], Switch(7, 1));
    RunSnoc(Initial(), a + [Switch(6, 1)] + [Switch(7, 1)], Switch(8, 1));
    events := a + [Switch(6, 1)] + [Switch(7, 1)] + [Switch(8, 1)];
  }

  /** The sweep comes to band 6 and waits for its timer. */
  lemma CrowdWaits() returns (events: seq<Event>)
    ensures Ordinary(events) && forall e :: e in events ==> Smooth(e)
    ensures var s := Run(Initial(), events);
            && s.powered == 3 && s.current == BAND6 && s.task == Initialize && s.phase == DoInit
            && Here(s).state == Initing && Here(s).standby2 && s.carts[9].state == Off
  {
    var crowd := CrowdPowered();
    var s1 := Run(Initial(), crowd);
    RunConcat(Initial(), crowd, Calls(5));
    PassIdle(s1, 5);
    RunConcat(Initial(), crowd + Calls(5), Calls(3));
    ThreeCalls(s1.(current := BAND6));
    events := crowd + Calls(5) + Calls(3);
  }

  lemma OneTooMany(s: Sys, es: seq<Event>, m: nat)
    requires m < CARTRIDGES && forall e :: e in es ==> Sensible(e)
    requires var t := Run(s, es);
             && CountsExact(t) && t.powered == MAX_POWERED && t.task == Initialize && t.phase == DoInit
             && Here(t).state == Initing && Here(t).standby2 && t.carts[m].state == Off
    ensures Tally(Run(s, es + [Call(false)] + [Switch(m, 1)]).carts, false) == MAX_POWERED + 1
  {
    RunSnoc(s, es, Call(false));
    RunSnoc(s, es + [Call(false)], Switch(m, 1));
    LimitExceeded(Run(s, es), Call(false).io, m);
  }

  /** Four cartridges are ordinarily powered outside troubleshooting mode: band 6 is switched to
      standby and bands 7, 8 and 9 on, band 6 fails its initialization, band 10 is switched on. */
  lemma LimitExceededInARun() returns (events: seq<Event>)
    ensures Ordinary(events) && Tally(Run(Initial(), events).carts, false) == MAX_POWERED + 1
  {
    var before := CrowdWaits();
    TallyOff(Initial().carts, false);
    TallyOff(Initial().carts, true);
    SmoothRunsCount(Initial(), before);
    OneTooMany(Initial(), before, 9);
    events := before + [Call(false)] + [Switch(9, 1)];
  }
}
