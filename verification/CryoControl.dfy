/** The register setters and command handlers of the cryostat, on the packed register. */
module CryoControl {
  import opened Common
  import opened CryoValves

  class Cryostat {
    var bReg: bv16
    var hwBReg: bv16
    var backing: bool
    var turbo: bool
    var vacuum: bool
    var gate: GateState

    ghost function Snap(): Cryo
      reads this
    {
      Cryo(View(bReg), View(hwBReg), backing, turbo, vacuum, gate)
    }

    /** The shadow register never departs from the value the hardware last accepted. */
    ghost predicate Valid()
      reads this
    {
      bReg == hwBReg
    }

    /** `iniRead` says whether the configuration file could be read. */
    constructor CryostatStartup(iniRead: bool)
      ensures Valid() && Snap() == Startup(iniRead)
    {
      bReg, hwBReg := 0, 0;
      backing, turbo, vacuum, gate := false, false, iniRead, GateClosed;
    }

    /** Update one field of the shadow register, write the whole register, and restore the
        saved register when the write fails. */
    method WriteBReg(mode: Mode, x: Field, on: bool, ok: bool) returns (r: Status)
      requires Valid()
      modifies `bReg, `hwBReg
      ensures Valid() && Snap() == Write(old(Snap()), mode, x, on, ok) && r == WriteStatus(mode, ok)
    {
      var tempBReg := bReg;
      if mode != Simulation {
        bReg := WriteField(bReg, x, on);
        if !ok {
          bReg := tempBReg;
          return Error;
        }
        hwBReg := bReg;
      }
      return NoError;
    }

    method SetBackingPumpEnable(mode: Mode, enable: bool, ok: bool) returns (r: Status)
      requires Valid()
      modifies `bReg, `hwBReg, `backing
      ensures Valid() && Snap() == SetBacking(old(Snap()), mode, enable, ok) && r == WriteStatus(mode, ok)
    {
      r := WriteBReg(mode, BackingOn, enable, ok);
      if r == NoError {
        backing := enable;
      }
    }

    method SetTurboPumpEnable(mode: Mode, enable: bool, ok: bool) returns (r: Status)
      requires Valid()
      modifies `bReg, `hwBReg, `turbo
      ensures Valid() && Snap() == SetTurbo(old(Snap()), mode, enable, ok) && r == WriteStatus(mode, ok)
    {
      r := WriteBReg(mode, TurboOn, enable, ok);
      if r == NoError {
        turbo := enable;
      }
    }

    method SetVacuumControllerEnable(mode: Mode, enable: bool, ok: bool) returns (r: Status)
      requires Valid()
      modifies `bReg, `hwBReg, `vacuum
      ensures Valid() && Snap() == SetVacuum(old(Snap()), mode, enable, ok) && r == WriteStatus(mode, ok)
    {
      r := WriteBReg(mode, VacuumOff, !enable, ok);
      if r == NoError {
        vacuum := enable;
      }
    }

    method SetGateValveState(mode: Mode, open: bool, ok: bool) returns (r: Status)
      requires Valid()
      modifies `bReg, `hwBReg
      ensures Valid() && Snap() == Write(old(Snap()), mode, GateOpened, open, ok) && r == WriteStatus(mode, ok)
    {
      r := WriteBReg(mode, GateOpened, open, ok);
    }

    method SetSolenoidValveState(mode: Mode, open: bool, ok: bool) returns (r: Status)
      requires Valid()
      modifies `bReg, `hwBReg
      ensures Valid() && Snap() == Write(old(Snap()), mode, SolenoidOpen, open, ok) && r == WriteStatus(mode, ok)
    {
      r := WriteBReg(mode, SolenoidOpen, open, ok);
    }

    method BackingPumpHandler(mode: Mode, enable: byte, io: BackingIo) returns (status: Status)
      requires Valid()
      modifies `bReg, `hwBReg, `backing, `turbo
      ensures Valid() && (Snap(), status) == BackingCommand(old(Snap()), mode, enable != 0, io)
    {
      if enable == 0 {
        var gateR := SetGateValveState(mode, false, io.gate);
        if gateR == Error {
          return NoError;
        }
        var solenoidR := SetSolenoidValveState(mode, false, io.solenoid);
        if solenoidR == Error {
          return NoError;
        }
        var turboR := SetTurboPumpEnable(mode, false, io.turbo);
        if turboR == Error {
          return NoError;
        }
      }
      status := SetBackingPumpEnable(mode, enable != 0, io.backing);
    }

    method GetGateValveState(mode: Mode, ok: bool, sensors: nat) returns (r: Status)
      modifies `gate
      ensures Snap() == ReadGate(old(Snap()), mode, ok, sensors) && r == WriteStatus(mode, ok)
    {
      if mode == Simulation {
        gate := GateUnknown;
        return NoError;
      }
      if !ok {
        return Error;
      }
      gate := Sensed(sensors, backing);
      return NoError;
    }

    method GateValveHandler(mode: Mode, open: byte, readOk: bool, sensors: nat, ok: bool) returns (status: Status)
      requires Valid()
      modifies `bReg, `hwBReg, `gate
      ensures Valid() && (Snap(), status) == GateCommand(old(Snap()), mode, open != 0, readOk, sensors, ok)
    {
      if !backing {
        return HardwareBlocked;
      }
      status := GetGateValveState(mode, readOk, sensors);
      if status == Error {
        return;
      }
      if gate == GateUnknown {
        return HardwareBlocked;
      }
      status := SetGateValveState(mode, open != 0, ok);
    }

    method SolenoidValveHandler(mode: Mode, open: byte, ok: bool) returns (status: Status)
      requires Valid()
      modifies `bReg, `hwBReg
      ensures Valid() && (Snap(), status) == SolenoidCommand(old(Snap()), mode, open != 0, ok)
    {
      if !backing {
        return HardwareBlocked;
      }
      status := SetSolenoidValveState(mode, open != 0, ok);
    }

    method TurboPumpHandler(mode: Mode, enable: byte, temp: Option<real>, ok: bool) returns (status: Status)
      requires Valid()
      modifies `bReg, `hwBReg, `turbo
      ensures Valid() && (Snap(), status) == TurboCommand(old(Snap()), mode, enable != 0, temp, ok)
    {
      if !backing {
        return HardwareBlocked;
      }
      if enable != 0 && temp.Some? {
        if temp.value < TURBO_MIN || temp.value > TURBO_MAX {
          turbo := false;
          return HardwareBlocked;
        }
      }
      status := SetTurboPumpEnable(mode, enable != 0, ok);
    }

    method VacuumControllerHandler(mode: Mode, enable: byte, ok: bool) returns (status: Status)
      requires Valid()
      modifies `bReg, `hwBReg, `vacuum
      ensures Valid() && Snap() == SetVacuum(old(Snap()), mode, enable != 0, ok) && status == WriteStatus(mode, ok)
    {
      status := SetVacuumControllerEnable(mode, enable != 0, ok);
    }
  }
}
