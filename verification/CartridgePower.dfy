/** The power commands and the cartridges' asynchronous routine, working on shared state. */
module CartridgePower {
  import opened Common
  import opened Cartridges

  class CartridgeMonitor {
    var carts: seq<Cart>
    var current: byte
    var task: Task
    var phase: InitPhase
    var addressed: byte
    var enabled: seq<bool>
    var powered: byte
    var standby: byte

    ghost predicate Valid()
      reads this
    {
      |carts| == |enabled| == CARTRIDGES && current < CARTRIDGES
    }

    ghost function Snap(): Sys
      requires Valid()
      reads this
    {
      System(carts, current, task, phase, addressed, enabled, powered, standby)
    }

    constructor ()
      ensures Valid() && Snap() == Initial()
    {
      carts, enabled := ALL_OFF, seq(CARTRIDGES, _ => false);
      current, task, phase, addressed, powered, standby := 0, Idle, StartWait, CARTRIDGES, 0, 0;
    }

    /** Switch the module addressed last; a failed write leaves the record alone. */
    method SetPdModuleEnable(enable: bool, mode: Mode, ok: bool) returns (r: Status)
      requires Valid()
      modifies `enabled
      ensures Valid() && r == if mode != Simulation && !ok then Error else NoError
      ensures enabled == if r == Error || addressed >= CARTRIDGES then old(enabled) else old(enabled)[addressed := enable]
    {
      if mode != Simulation && !ok {
        return Error;
      }
      if addressed < CARTRIDGES {
        enabled := enabled[addressed := enable];
      }
      return NoError;
    }

    method CartridgeStop(c: nat)
      requires Valid() && c < CARTRIDGES
      modifies `carts
      ensures Valid() && carts == old(carts)[c := old(carts)[c].(state := Off, standby2 := false)]
    {
      carts := carts[c := carts[c].(state := Off)];
      carts := carts[c := carts[c].(standby2 := false)];
    }

    method AsyncCartridgeInit(io: Io) returns (r: Status)
      requires Valid()
      modifies `phase, `carts
      ensures Valid() && (Snap(), r) == InitStep(old(Snap()), io)
    {
      if carts[current].state == Off {
        phase := StartWait;
        return if io.stopOk then AsyncDone else Error;
      }
      match phase {
      case StartWait =>
        carts := carts[current := carts[current].(state := Initing)];
        if !io.startOk {
          return Error;
        }
        carts := carts[current := carts[current].(wait := Running)];
        assert carts == old(carts)[current := old(carts)[current].(state := Initing, wait := Running)];
        phase := Waiting;
      case Waiting =>
        if io.query == TimerError {
          phase := StartWait;
          return Error;
        }
        if io.query == Expired {
          carts := carts[current := TimerRanOut(carts[current])];
          phase := DoInit;
        }
      case DoInit =>
        if !io.initOk {
          return Error;
        }
        carts := carts[current := carts[current].(state := Ready, inited := true)];
        phase := StartWait;
        return AsyncDone;
      }
      return NoError;
    }

    method AsyncCartridgeGoStandby2() returns (r: Status)
      requires Valid()
      modifies `carts
      ensures Valid() && r == AsyncDone
      ensures carts == if old(carts)[current].state == Off then old(carts)
                       else old(carts)[current := old(carts)[current].(state := Ready)]
    {
      if carts[current].state == Off {
        return AsyncDone;
      }
      carts := carts[current := carts[current].(state := Ready)];
      return AsyncDone;
    }

    /** A failed initialization: switch off, and count one cartridge less if that succeeds. */
    method AbandonInit(pdOk: bool)
      requires Valid()
      modifies `carts, `enabled, `powered
      ensures Valid() && Snap() == GiveUp(old(Snap()), pdOk)
    {
      var r := SetPdModuleEnable(false, Operational, pdOk);
      if r == Error {
        carts := carts[current := carts[current].(state := Faulty)];
      } else {
        CartridgeStop(current);
        powered := Minus1(powered);
      }
    }

    method CartridgeAsync(io: Io) returns (r: Status)
      requires Valid()
      modifies this
      ensures Valid() && (Snap(), r) == SweepStep(old(Snap()), io)
    {
      match task {
      case Idle =>
        if carts[current].state == On {
          task := Initialize;
          return NoError;
        }
        if carts[current].state == GoStandby2 {
          task := EnterStandby2;
          return NoError;
        }
      case Initialize =>
        r := AsyncCartridgeInit(io);
        if r == NoError {
          return;
        }
        if r == Error {
          AbandonInit(io.pdOk);
        }
        task := Idle;
      case EnterStandby2 =>
        r := AsyncCartridgeGoStandby2();
        task := Idle;
      }
      current := current + 1;
      if current == CARTRIDGES {
        current := 0;
        return AsyncDone;
      }
      return NoError;
    }

    /** `wake` says that the cartridges are to be served next. */
    method EnableHandler(m: nat, value: byte, mode: Mode, ok: bool) returns (r: Status, wake: bool)
      requires Valid() && m < CARTRIDGES
      modifies this
      ensures Valid() && (Snap(), r) == PowerCommand(old(Snap()), m, value, mode, ok)
      ensures wake <==> value != 0 && r == NoError && (old(carts)[m].state == Off || (value == 2 && !old(carts)[m].standby2))
    {
      addressed, wake := m, false;
      if value == 0 {
        r := SwitchOff(mode, ok);
        return;
      }
      if carts[m].state == Faulty {
        return Error, false;
      }
      var cmdStandby2 := value == 2;
      if value == 2 {
        if m != BAND6 {
          return HardwareBlocked, false;
        }
      } else if value != 1 {
        return Error, false;
      }
      if carts[m].state != Off && carts[m].standby2 == cmdStandby2 {
        return NoError, false;
      }
      if carts[m].state == Off {
        r := SwitchOn(cmdStandby2, mode, ok);
        wake := r == NoError;
      } else if cmdStandby2 {
        r := ToStandby();
        wake := r == NoError;
      } else {
        r := FromStandby(mode);
      }
    }

    method SwitchOn(cmdStandby2: bool, mode: Mode, ok: bool) returns (r: Status)
      requires Valid() && addressed < CARTRIDGES
      modifies `carts, `enabled, `powered, `standby
      ensures Valid() && (Snap(), r) == TurnOn(old(Snap()), addressed, cmdStandby2, mode, ok)
    {
      var allowed := if cmdStandby2 then standby < MAX_STANDBY2 else powered < MaxPowered(mode);
      if !allowed {
        return HardwareBlocked;
      }
      r := SetPdModuleEnable(true, mode, ok);
      if r == Error {
        return;
      }
      carts := carts[addressed := carts[addressed].(state := On, inited := false, wait := NotStarted)];
      if cmdStandby2 {
        carts := carts[addressed := carts[addressed].(standby2 := true)];
        standby := Plus1(standby);
      } else {
        powered := Plus1(powered);
      }
      assert carts == old(carts)[addressed := Cart(On, cmdStandby2 || old(carts)[addressed].standby2, false, NotStarted)];
    }

    method FromStandby(mode: Mode) returns (r: Status)
      requires Valid() && addressed < CARTRIDGES
      modifies `carts, `powered, `standby
      ensures Valid() && (Snap(), r) == LeaveStandby(old(Snap()), addressed, mode)
    {
      if powered >= MaxPowered(mode) {
        return HardwareBlocked;
      }
      carts := carts[addressed := carts[addressed].(standby2 := false)];
      standby, powered := Minus1(standby), Plus1(powered);
      return NoError;
    }

    method ToStandby() returns (r: Status)
      requires Valid() && addressed < CARTRIDGES
      modifies `carts, `powered, `standby
      ensures Valid() && (Snap(), r) == GoToStandby(old(Snap()), addressed)
    {
      if standby >= MAX_STANDBY2 {
        return HardwareBlocked;
      }
      carts := carts[addressed := carts[addressed].(standby2 := true)];
      standby, powered := Plus1(standby), Minus1(powered);
      carts := carts[addressed := carts[addressed].(state := GoStandby2)];
      assert carts == old(carts)[addressed := old(carts)[addressed].(state := GoStandby2, standby2 := true)];
      return NoError;
    }

    method SwitchOff(mode: Mode, ok: bool) returns (r: Status)
      requires Valid() && addressed < CARTRIDGES
      modifies `carts, `enabled, `powered, `standby
      ensures Valid() && (Snap(), r) == TurnOff(old(Snap()), addressed, mode, ok)
    {
      if carts[addressed].state == Off {
        return NoError;
      }
      var wasStandby2 := carts[addressed].standby2;
      CartridgeStop(addressed);
      r := SetPdModuleEnable(false, mode, ok);
      if r == Error {
        carts := carts[addressed := carts[addressed].(state := Faulty)];
        assert carts == old(carts)[addressed := old(carts)[addressed].(state := Faulty, standby2 := false)];
        return;
      }
      if wasStandby2 {
        standby := Minus1(standby);
      } else {
        powered := Minus1(powered);
      }
    }
  }
}