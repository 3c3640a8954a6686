/** The idle loop of the firmware, over the three subsystems' own objects. */
module AsyncLoop {
  import opened Common
  import opened Scheduler
  import opened CryoAsync
  import opened CartridgePower
  import opened FetimAsync
  import C = CryoSampling
  import F = FetimSampling
  import H = ColdHead

  class FrontEnd {
    const cryostat: CryostatMonitor
    const cartridges: CartridgeMonitor
    const interlock: FetimMonitor
    var asyncState: Owner
    ghost var source: C.Origin

    ghost predicate Valid()
      reads this, cryostat, cryostat.log, cartridges, interlock
    {
      cryostat.Valid() && cartridges.Valid() && interlock.Valid()
    }

    ghost function Snap(): System
      requires Valid()
      reads this, cryostat, cryostat.log, cartridges, interlock
    {
      System(asyncState, cryostat.Snap(), cartridges.Snap(), interlock.Snap(), source)
    }

    constructor (log: H.HoursLog, found: Found)
      ensures Valid() && Snap() == Initial(log.Snap(), found)
    {
      cryostat := new CryostatMonitor(log, found.cryostat, found.iniRead);
      cartridges := new CartridgeMonitor();
      interlock := new FetimMonitor(found.fetim);
      asyncState, source := Cryostat, C.Unset;
    }

    /** One small step for the subsystem that has the turn. A stopped program makes no calls. */
    method Async(e: Event)
      requires Valid() && e.Call? && !interlock.stopped
      modifies this, cryostat, cryostat.log, cartridges, interlock
      ensures Valid() && Snap() == Step(old(Snap()), e)
    {
      match asyncState {
      case Cryostat =>
        var r := cryostat.CryostatAsync(e.mode, e.io);
        if r == NoError {
          return;
        }
        asyncState := Cartridges;
      case Cartridges =>
        var r := cartridges.CartridgeAsync(e.cart);
        if r == NoError {
          return;
        }
        asyncState := Fetim;
      case Fetim =>
        var pressure := cryostat.readings[C.TEMPS].value;
        if Judges(interlock.Snap()) {
          source := cryostat.readings[C.TEMPS].origin;
        }
        var r := interlock.FetimAsync(F.Event(e.mode, e.ok, e.value, pressure, e.shutdown));
        if r == NoError {
          return;
        }
        asyncState := Cryostat;
      case AsyncOff =>
      case AsyncOn =>
        asyncState := Cryostat;
      }
    }

    /** The console's switch for the asynchronous process. */
    method ToggleAsync()
      requires Valid()
      modifies `asyncState
      ensures Valid() && Snap() == Step(old(Snap()), Toggle)
    {
      if asyncState != AsyncOff {
        asyncState := AsyncOff;
      } else {
        asyncState := AsyncOn;
      }
    }

    /** The power command; switching on and going to standby take the turn. */
    method PowerHandler(m: nat, value: byte, mode: Mode, ok: bool) returns (status: Status)
      requires Valid() && Sensible(Power(m, value, mode, ok))
      modifies `asyncState, cartridges
      ensures Valid() && Snap() == Step(old(Snap()), Power(m, value, mode, ok))
    {
      var wake: bool;
      status, wake := cartridges.EnableHandler(m, value, mode, ok);
      if wake {
        asyncState := Cartridges;
      }
    }
  }
}
