/** What each power command and each call of the sweep does to one cartridge, with the numbers of
    the band and of the limits. */
module CartridgeOutcomes {
  import opened Common
  import opened Cartridges

  /** Switching on: the cartridge is on, not initialized, its module powered and counted, exactly
      when it was off, the command says on (or standby, which only band 6 has), fewer than three
      (ten in troubleshooting) are on or none is in standby, and the write is accepted. */
  lemma PowersUpOutcome(s: Sys, m: nat, value: byte, mode: Mode, ok: bool)
    requires m < 10 && s.carts[m].state == Off && value != 0
    ensures var (s', r) := PowerCommand(s, m, value, mode, ok);
            var room := if value == 1 then s.powered < (if mode == Troubleshooting then 10 else 3) else s.standby < 1;
            && (r == NoError <==> (value == 1 || (value == 2 && m == 5)) && room && (mode == Simulation || ok))
            && (r == NoError ==>
                  && s'.carts == s.carts[m := Cart(On, value == 2 || s.carts[m].standby2, false, NotStarted)]
                  && s'.enabled == s.enabled[m := true]
                  && s'.powered == (if value == 1 then (s.powered + 1) % 0x100 else s.powered)
                  && s'.standby == (if value == 2 then (s.standby + 1) % 0x100 else s.standby))
            && (r != NoError ==> s' == s.(addressed := m))
            && (r == HardwareBlocked <==> (value == 2 && m != 5) || (value <= 2 && !room))
  {
  }

  /** Switching off: off and out of standby, its module unpowered and its count lowered, or faulty
      when the write fails. */
  lemma PowersDownOutcome(s: Sys, m: nat, mode: Mode, ok: bool)
    requires m < 10
    ensures var (s', r) := PowerCommand(s, m, 0, mode, ok);
            var c := s.carts[m];
            && (c.state == Off ==> s' == s.(addressed := m) && r == NoError)
            && (c.state != Off && (mode == Simulation || ok) ==>
                  && r == NoError && s'.carts == s.carts[m := c.(state := Off, standby2 := false)] && s'.enabled == s.enabled[m := false]
                  && s'.powered == (if c.standby2 then s.powered else (s.powered - 1) % 0x100)
                  && s'.standby == (if c.standby2 then (s.standby - 1) % 0x100 else s.standby))
            && (c.state != Off && mode != Simulation && !ok ==>
                  && r == Error && s'.carts == s.carts[m := c.(state := Faulty, standby2 := false)] && s'.enabled == s.enabled
                  && s'.powered == s.powered && s'.standby == s.standby)
  {
  }

  /** A cartridge that is on changes between ordinary and standby operation within the limits; a
      faulty one takes no command but "off". */
  lemma ChangesOutcome(s: Sys, m: nat, value: byte, mode: Mode, ok: bool)
    requires m < 10 && s.carts[m].state != Off && value != 0
    ensures var (s', r) := PowerCommand(s, m, value, mode, ok);
            var c := s.carts[m];
            var to2 := c.state != Faulty && value == 2 && m == 5 && !c.standby2;
            var from2 := c.state != Faulty && value == 1 && c.standby2;
            && (c.state == Faulty || value > 2 ==> r == Error)
            && (to2 && s.standby < 1 ==>
                  && r == NoError && s'.carts == s.carts[m := c.(state := GoStandby2, standby2 := true)]
                  && s'.standby == (s.standby + 1) % 0x100 && s'.powered == (s.powered - 1) % 0x100)
            && (from2 && s.powered < (if mode == Troubleshooting then 10 else 3) ==>
                  && r == NoError && s'.carts == s.carts[m := c.(standby2 := false)]
                  && s'.standby == (s.standby - 1) % 0x100 && s'.powered == (s.powered + 1) % 0x100)
            && (!(to2 && s.standby < 1) && !(from2 && s.powered < (if mode == Troubleshooting then 10 else 3)) ==>
                  s' == s.(addressed := m) && (to2 || from2 ==> r == HardwareBlocked))
            && s'.enabled == s.enabled
  {
  }

  /** The sweep starts the initialization of a cartridge that is on, and the transition of one that
      is to go to standby; it passes every other one. */
  lemma IdleOutcome(s: Sys, io: Io)
    requires s.task == Idle
    ensures var s' := SweepStep(s, io).0;
            && s'.carts == s.carts && s'.phase == s.phase
            && (s.carts[s.current].state == On ==> s'.task == Initialize && s'.current == s.current)
            && (s.carts[s.current].state == GoStandby2 ==> s'.task == EnterStandby2 && s'.current == s.current)
            && (s.carts[s.current].state != On && s.carts[s.current].state != GoStandby2 ==>
                  s'.task == Idle && s'.current == if s.current == 9 then 0 else s.current + 1)
  {
  }

  /** The wait is started and waited for before the initialization is carried out; the cartridge is
      ready exactly if that succeeds, and off or faulty if it fails. */
  lemma InitOutcome(s: Sys, io: Io)
    requires s.task == Initialize && s.carts[s.current].state != Off
    ensures var s' := SweepStep(s, io).0; var c := s'.carts[s.current];
            && (s.phase == StartWait && io.startOk ==> c.state == Initing && s'.phase == Waiting && s'.task == Initialize)
            && (s.phase == Waiting && io.query == NotExpired ==> s' == s)
            && (s.phase == Waiting && io.query == Expired ==> c.state == s.carts[s.current].state && s'.phase == DoInit && s'.task == Initialize)
            && (s.phase == DoInit && io.initOk ==> c.state == Ready && c.inited && s'.phase == StartWait && s'.task == Idle)
            && (s.phase == DoInit && !io.initOk ==> c.state == (if io.pdOk then Off else Faulty) && s'.task == Idle)
  {
  }

  /** A cartridge switched off meanwhile stays off and is left, with its wait stopped; one to go to
      standby is ready then, unless it was switched off. */
  lemma LeavesOutcome(s: Sys, io: Io)
    ensures var s' := SweepStep(s, io).0; var c, c' := s.carts[s.current], s'.carts[s.current];
            && (s.task == Initialize && c.state == Off && io.stopOk ==> c' == c && s'.phase == StartWait && s'.task == Idle)
            && (s.task == EnterStandby2 ==> c'.state == (if c.state == Off then Off else Ready) && s'.task == Idle)
  {
  }
}
