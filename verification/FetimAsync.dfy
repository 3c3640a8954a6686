/** The thermal-interlock routines, one hardware access per call. */
module FetimAsync {
  import opened Common
  import opened FetimSampling

  class FetimMonitor {
    const available: bool
    var phase: Phase
    var mux: byte
    var bRegOut: byte
    var task: Task
    var currentSensor: byte
    var readings: seq<Reading>
    var currentState: bool
    var dRegOut: bool
    var feStatus: bool
    var stopped: bool
    ghost var judged: Option<real>

    ghost predicate Valid()
      reads this
    {
      currentSensor < SENSORS && |readings| == POINTS
    }

    ghost function Snap(): State
      requires Valid()
      reads this
    {
      Fetim(available, phase, mux, task, currentSensor, readings, currentState, feStatus, judged, stopped)
    }

    constructor (available: bool)
      ensures Valid() && Snap() == Initial(available)
    {
      this.available := available;
      phase, mux, bRegOut, task, currentSensor := SelectPoint, 0, 0, GetExtTemp, 0;
      var none := Reading(0.0, Unset);
      readings := [none, none, none];
      currentState, dRegOut, feStatus, stopped, judged := false, false, false, false, None;
    }

    method GetFetimSerialMonitor(ok: bool) returns (r: Status)
      requires Valid()
      modifies `phase, `mux
      ensures Valid()
      ensures old(phase) == SelectPoint ==>
        Snap() == (if ok then old(Snap()).(mux := bRegOut as nat, phase := ReadConverter) else old(Snap())) && r == if ok then NoError else Error
      ensures old(phase) == ReadConverter ==> Snap() == old(Snap()).(phase := SelectPoint) && r == if ok then AsyncDone else Error
    {
      match phase {
      case SelectPoint =>
        if !ok {
          return Error;
        }
        mux := bRegOut;
        phase := ReadConverter;
        return NoError;
      case ReadConverter =>
        phase := SelectPoint;
        return if ok then AsyncDone else Error;
      }
    }

    method GetFetimExtTemp(e: Event) returns (r: Status)
      requires Valid()
      modifies `phase, `mux, `bRegOut, `readings
      ensures Valid() && (Snap(), r) == Sample(old(Snap()), currentSensor as nat, e)
    {
      if e.mode == Simulation {
        readings := readings[currentSensor := Reading(e.value, Simulated)];
        return AsyncDone;
      }
      bRegOut := currentSensor;
      r := GetFetimSerialMonitor(e.ok);
      if r == AsyncDone {
        readings := readings[currentSensor := Reading(e.value, Sampled(mux as nat))];
      }
    }

    method GetCompHe2Press(e: Event) returns (r: Status)
      requires Valid()
      modifies `phase, `mux, `bRegOut, `readings
      ensures Valid() && (Snap(), r) == Sample(old(Snap()), HE2, e)
    {
      if e.mode == Simulation {
        readings := readings[HE2 := Reading(e.value, Simulated)];
        return AsyncDone;
      }
      bRegOut := HE2;
      r := GetFetimSerialMonitor(e.ok);
      if r == AsyncDone {
        readings := readings[HE2 := Reading(e.value, Sampled(mux as nat))];
      }
    }

    /** Write the status bit, rolling the shadow back when the write fails. */
    method SetFeSafeStatus(mode: Mode, safe: bool, ok: bool) returns (r: Status)
      modifies `dRegOut, `feStatus
      ensures feStatus == if mode == Simulation || ok then safe else old(feStatus)
      ensures dRegOut == if mode != Simulation && ok then safe else old(dRegOut)
      ensures r == if mode == Simulation || ok then NoError else Error
    {
      var tempDRegOut := dRegOut;
      if mode != Simulation {
        dRegOut := safe;
        if !ok {
          dRegOut := tempDRegOut;
          return Error;
        }
      }
      feStatus := safe;
      return NoError;
    }

    method FetimAsync(e: Event) returns (r: Status)
      requires Valid() && !stopped
      modifies this
      ensures Valid() && (Snap(), r) == FetimSampling.Step(old(Snap()), e)
    {
      if !available {
        return AsyncDone;
      }
      match task {
      case GetExtTemp =>
        r := GetFetimExtTemp(e);
        if r == NoError {
          return;
        }
        currentSensor := currentSensor + 1;
        if currentSensor == SENSORS {
          currentSensor := currentSensor - SENSORS;
          task := GetHe2;
        }
      case GetHe2 =>
        r := GetCompHe2Press(e);
        if r == NoError {
          return;
        }
        task := SetFeStatus;
      case SetFeStatus =>
        var newState :=
          if e.pressure == FLOAT_ERROR || e.pressure == FLOAT_UNINIT || e.pressure > MAX_COOLING_PRESSURE then false else true;
        judged := Some(e.pressure);
        if newState != currentState {
          var ignored := SetFeSafeStatus(e.mode, newState, e.ok);
          currentState := newState;
        }
        task := CheckShutdown;
      case CheckShutdown =>
        if e.shutdown {
          stopped := true;
          return NoError;
        }
        task := GetExtTemp;
        return AsyncDone;
      }
      return NoError;
    }
  }
}
