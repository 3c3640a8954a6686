/** The cryostat's asynchronous routines, one hardware access per call. */
module CryoAsync {
  import opened Common
  import opened ColdHead
  import opened CryoSampling

  class CryostatMonitor {
    const available: bool
    const log: HoursLog
    var phase: AdcPhase
    var retries: byte
    var aReg: word
    var mux: word
    var converted: word
    var task: Task
    var currentTemp: byte
    var currentPressure: byte
    var readings: seq<Reading>

    ghost predicate Valid()
      reads this
    {
      currentTemp < TEMPS && currentPressure < PRESSURES && |readings| == CHANNELS && retries <= MAX_RETRIES
    }

    ghost function Snap(): State
      requires Valid()
      reads this, log
    {
      Cryo(available, phase, retries, mux, converted, task, currentTemp, currentPressure, readings, log.Snap())
    }

    constructor (log: HoursLog, available: bool, iniRead: bool)
      ensures Valid() && Snap() == Initial(log.Snap(), available, iniRead) && this.log == log
    {
      this.available, this.log := available, log;
      phase, retries, aReg, mux, converted := WriteAddress, 0, 0, 0, 0;
      task, currentTemp, currentPressure, readings := GetTemp, 0, 0, NoReadings(iniRead);
    }

    /** One step of the converter machine, for the monitor point selected in `aReg`. */
    method GetCryoAnalogMonitor(io: Io) returns (r: Status)
      requires Valid()
      modifies `phase, `retries, `mux, `converted
      ensures Valid() && (Snap(), r) == AdcStep(old(Snap()), aReg, io)
    {
      match phase {
      case WriteAddress =>
        if !io.ok {
          return Error;
        }
        mux := aReg;
        phase := StartWait;
      case StartWait =>
        if !io.ok {
          phase := WriteAddress;
          return Error;
        }
        phase := Waiting;
      case Waiting =>
        if io.timer == TimerError {
          phase := WriteAddress;
          return Error;
        }
        if io.timer == Expired {
          phase := Convert;
        }
      case Convert =>
        if !io.ok {
          phase := WriteAddress;
          return Error;
        }
        converted := mux;
        phase := AwaitReady;
      case AwaitReady =>
        if !io.ok {
          phase := WriteAddress;
          return Error;
        }
        if !io.busy {
          phase, retries := ReadBack, 0;
          return NoError;
        }
        retries := retries + 1;
        if retries > MAX_RETRIES {
          phase, retries := WriteAddress, 0;
          return Error;
        }
      case ReadBack =>
        phase := WriteAddress;
        return if io.ok then AsyncDone else Error;
      }
      return NoError;
    }

    method GetCryostatTemp(mode: Mode, io: Io) returns (r: Status)
      requires Valid()
      modifies `phase, `retries, `mux, `converted, `aReg, `readings
      ensures Valid() && (Snap(), r) == Sample(old(Snap()), currentTemp, mode, io)
    {
      if mode == Simulation {
        readings := readings[currentTemp := Reading(io.value, Simulated)];
        return AsyncDone;
      }
      aReg := Address(currentTemp);
      r := GetCryoAnalogMonitor(io);
      if r != AsyncDone {
        return;
      }
      if io.domainError {
        readings := readings[currentTemp := Reading(FLOAT_ERROR, DomainError)];
        return Error;
      }
      readings := readings[currentTemp := Reading(io.value, Sampled(converted))];
    }

    method GetVacuumSensor(mode: Mode, io: Io) returns (r: Status)
      requires Valid()
      modifies `phase, `retries, `mux, `converted, `aReg, `readings
      ensures Valid() && (Snap(), r) == Sample(old(Snap()), TEMPS + currentPressure, mode, io)
    {
      var k := TEMPS + currentPressure;
      if mode == Simulation {
        readings := readings[k := Reading(io.value, Simulated)];
        return AsyncDone;
      }
      aReg := Address(k);
      r := GetCryoAnalogMonitor(io);
      if r != AsyncDone {
        return;
      }
      if io.domainError {
        readings := readings[k := Reading(FLOAT_ERROR, DomainError)];
        return Error;
      }
      readings := readings[k := Reading(io.value, Sampled(converted))];
    }

    method GetSupplyCurrent230V(mode: Mode, io: Io) returns (r: Status)
      requires Valid()
      modifies `phase, `retries, `mux, `converted, `aReg, `readings
      ensures Valid() && (Snap(), r) == Sample(old(Snap()), CHANNELS - 1, mode, io)
    {
      if mode == Simulation {
        readings := readings[CHANNELS - 1 := Reading(io.value, Simulated)];
        return AsyncDone;
      }
      aReg := Address(CHANNELS - 1);
      r := GetCryoAnalogMonitor(io);
      if r == AsyncDone {
        readings := readings[CHANNELS - 1 := Reading(io.value, Sampled(converted))];
      }
    }

    /** On to the next channel of the current task, or to the next task. */
    method NextSensor()
      requires Valid()
      modifies `task, `currentTemp, `currentPressure
      ensures Valid() && Snap() == Advance(old(Snap()))
    {
      match task {
      case GetTemp =>
        currentTemp := currentTemp + 1;
        if currentTemp == TEMPS {
          currentTemp := currentTemp - TEMPS;
          task := GetPressure;
        }
      case GetPressure =>
        currentPressure := currentPressure + 1;
        if currentPressure == PRESSURES {
          currentPressure := currentPressure - PRESSURES;
          task := GetCurrent;
        }
      case GetCurrent =>
        task := LogTheHours;
      case LogTheHours =>
        task := GetTemp;
      }
    }

    method CryostatAsync(mode: Mode, io: Io) returns (r: Status)
      requires Valid()
      modifies this, log
      ensures Valid() && (Snap(), r) == CryoSampling.Step(old(Snap()), Event(mode, io))
    {
      if !available {
        return NoError;
      }
      var current := task;
      match current {
      case GetTemp =>
        r := GetCryostatTemp(mode, io);
      case GetPressure =>
        r := GetVacuumSensor(mode, io);
      case GetCurrent =>
        r := GetSupplyCurrent230V(mode, io);
      case LogTheHours =>
        r := log.CryostatAsyncLogHours(io.ok, io.timer, Stages(readings[0].value, readings[5].value, readings[9].value));
      }
      if r == NoError {
        return;
      }
      NextSensor();
      r := if current == GetCurrent || current == LogTheHours then AsyncDone else NoError;
    }
  }
}
