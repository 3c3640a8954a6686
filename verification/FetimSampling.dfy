/** The thermal-interlock module's asynchronous routine: three readings through one serial
    converter, and the front-end status bit derived from the cryostat pressure. */
module FetimSampling {
  import opened Common

  const SENSORS := 2
  const HE2 := 2
  const POINTS := 3
  const MAX_COOLING_PRESSURE := 0.0005

  datatype Phase = SelectPoint | ReadConverter

  datatype Task = GetExtTemp | GetHe2 | SetFeStatus | CheckShutdown

  datatype Origin = Unset | Simulated | Sampled(point: nat)

  datatype Reading = Reading(value: real, origin: Origin)

  /** `mux` is the monitor point the hardware holds. `decided` is what the routine believes
      it reported last, `reported` the status word, `judged` the pressure last looked at. */
  datatype Fetim = Fetim(
    available: bool, phase: Phase, mux: nat, task: Task, sensor: nat, readings: seq<Reading>,
    decided: bool, reported: bool, judged: Option<real>, stopped: bool)

  datatype Event = Event(mode: Mode, ok: bool, value: real, pressure: real, shutdown: bool)

  predicate WellFormed(s: Fetim) { s.sensor < SENSORS && |s.readings| == POINTS }

  type State = s: Fetim | WellFormed(s)
    ghost witness Fetim(true, SelectPoint, 0, GetExtTemp, 0, [Reading(0.0, Unset), Reading(0.0, Unset), Reading(0.0, Unset)],
                        false, false, None, false)

  function Initial(available: bool): State {
    var none := Reading(0.0, Unset);
    Fetim(available, SelectPoint, 0, GetExtTemp, 0, [none, none, none], false, false, None, false)
  }

  /** The monitor point the current task reads. */
  function Point(s: State): (k: nat)
    ensures k < POINTS
  {
    if s.task == GetExtTemp then s.sensor else HE2
  }

  predicate Samples(s: State) { s.task == GetExtTemp || s.task == GetHe2 }

  /** The front end is safe when the pressure was measured, validly, and is low enough. */
  predicate SafePressure(p: real) {
    p != FLOAT_ERROR && p != FLOAT_UNINIT && p <= MAX_COOLING_PRESSURE
  }

  // ----- Steps ---------------------------------------------------------------

  function Store(s: State, k: nat, r: Reading): State
    requires k < POINTS
  {
    s.(readings := s.readings[k := r])
  }

  /** One call towards a reading of point `k`: select it, then convert and read. */
  function Sample(s: State, k: nat, e: Event): (State, Status)
    requires k < POINTS
  {
    if e.mode == Simulation then (Store(s, k, Reading(e.value, Simulated)), AsyncDone)
    else if s.phase == SelectPoint then
      if e.ok then (s.(mux := k, phase := ReadConverter), NoError) else (s, Error)
    else if e.ok then (Store(s, k, Reading(e.value, Sampled(s.mux))).(phase := SelectPoint), AsyncDone)
    else (s.(phase := SelectPoint), Error)
  }

  function Advance(s: State): State {
    if s.task == GetHe2 then s.(task := SetFeStatus)
    else if s.sensor + 1 == SENSORS then s.(sensor := 0, task := GetHe2)
    else s.(sensor := s.sensor + 1)
  }

  /** Judge the pressure; report only a change, and consider it reported either way. */
  function Report(s: State, e: Event): State {
    var safe := SafePressure(e.pressure);
    var s1 := s.(judged := Some(e.pressure), task := CheckShutdown);
    if safe == s.decided then s1
    else s1.(decided := safe, reported := if e.mode == Simulation || e.ok then safe else s.reported)
  }

  function Step(s: State, e: Event): (State, Status) {
    if s.stopped then (s, NoError)
    else if !s.available then (s, AsyncDone)
    else match s.task
      case SetFeStatus => (Report(s, e), NoError)
      case CheckShutdown => if e.shutdown then (s.(stopped := true), NoError) else (s.(task := GetExtTemp), AsyncDone)
      case _ =>
        var (s1, r) := Sample(s, Point(s), e);
        (if r == NoError then s1 else Advance(s1), NoError)
  }

  function Run(s: State, events: seq<Event>): State {
    if events == [] then s else Step(Run(s, events[..|events| - 1]), events[|events| - 1]).0
  }

  // ----- Readings belong to their channels ---------------------------------------

  ghost predicate Coherent(s: State) {
    s.phase == ReadConverter ==> Samples(s) && s.mux == Point(s)
  }

  ghost predicate Unmixed(s: State) {
    forall k :: 0 <= k < POINTS && s.readings[k].origin.Sampled? ==> s.readings[k].origin.point == k
  }

  /** A call keeps the machine coherent exactly when it is not a simulated call made between
      selecting a point and reading it. */
  lemma StepKeepsCoherentIff(s: State, e: Event)
    requires s.available && !s.stopped && Coherent(s)
    ensures Coherent(Step(s, e).0) <==> !(e.mode == Simulation && s.phase == ReadConverter)
  {
  }

  lemma SampleKeepsUnmixed(s: State, k: nat, e: Event)
    requires k < POINTS && Unmixed(s) && (s.phase == ReadConverter ==> s.mux == k)
    ensures Unmixed(Sample(s, k, e).0)
  {
    forall j | 0 <= j < POINTS && j != k
      ensures Sample(s, k, e).0.readings[j] == s.readings[j]
    {
    }
  }

  lemma StepKeepsUnmixed(s: State, e: Event)
    requires Coherent(s) && Unmixed(s)
    ensures Unmixed(Step(s, e).0)
  {
    if Samples(s) {
      SampleKeepsUnmixed(s, Point(s), e);
      assert Step(s, e).0.readings in [s.readings, Sample(s, Point(s), e).0.readings];
    }
  }

  ghost predicate SimulatesBetween(s: State, events: seq<Event>) {
    events != [] ==>
      var n := |events| - 1;
      && SimulatesBetween(s, events[..n])
      && (events[n].mode == Simulation ==> Run(s, events[..n]).phase == SelectPoint)
  }

  /** Every stored temperature or pressure was read at the monitor point selected for it. */
  lemma {:induction false} ReadingsBelongToTheirPoints(s: State, events: seq<Event>)
    requires Coherent(s) && Unmixed(s) && SimulatesBetween(s, events)
    ensures Coherent(Run(s, events)) && Unmixed(Run(s, events))
  {
    if events != [] {
      var n := |events| - 1;
      ReadingsBelongToTheirPoints(s, events[..n]);
      var before := Run(s, events[..n]);
      if before.available && !before.stopped { StepKeepsCoherentIff(before, events[n]); }
      StepKeepsUnmixed(before, events[n]);
    }
  }

  // ----- The status bit -----------------------------------------------------------

  /** The routine's own belief is always the verdict on the pressure last judged. */
  ghost predicate Believes(s: State) {
    s.decided == (s.judged.Some? && SafePressure(s.judged.value))
  }

  lemma StepKeepsBelief(s: State, e: Event)
    requires Believes(s)
    ensures Believes(Step(s, e).0)
  {
  }

  /** The reported status follows that belief, except that a change whose write fails is
      taken as reported. */
  lemma ReportStaysCurrentIff(s: State, e: Event)
    requires s.reported == s.decided
    ensures var s' := Step(s, e).0;
            s'.reported == s'.decided <==>
              !(s.available && !s.stopped && s.task == SetFeStatus && SafePressure(e.pressure) != s.decided
                && e.mode != Simulation && !e.ok)
  {
  }

  /** No status write of the run fails. */
  ghost predicate StatusWritesSucceed(s: State, events: seq<Event>) {
    events != [] ==>
      var n := |events| - 1;
      && StatusWritesSucceed(s, events[..n])
      && (Run(s, events[..n]).task == SetFeStatus ==> events[n].ok || events[n].mode == Simulation)
  }

  /** Without failing writes the status says SAFE exactly when the pressure last judged was
      measured, valid and within the maximum. */
  lemma {:induction false} StatusIsTheVerdict(available: bool, events: seq<Event>)
    requires StatusWritesSucceed(Initial(available), events)
    ensures var s := Run(Initial(available), events);
            && s.reported == s.decided && Believes(s)
            && (s.reported <==> s.judged.Some? && SafePressure(s.judged.value))
  {
    if events != [] {
      var n := |events| - 1;
      StatusIsTheVerdict(available, events[..n]);
      var before := Run(Initial(available), events[..n]);
      StepKeepsBelief(before, events[n]);
      ReportStaysCurrentIff(before, events[n]);
    }
  }

  /** A lost report is never repeated: as long as the verdict stays the same, the status stays
      wrong, however many later writes would succeed. */
  lemma {:induction false} LostReportPersists(s: State, events: seq<Event>)
    requires s.reported != s.decided
    requires forall i :: 0 <= i < |events| ==> SafePressure(events[i].pressure) == s.decided
    ensures var s' := Run(s, events); s'.reported == s.reported && s'.decided == s.decided
  {
    if events != [] {
      LostReportPersists(s, events[..|events| - 1]);
    }
  }

  /** It does happen from startup: three readings fail, the pressure is low, and the report of
      it is lost. */
  lemma ReportLostInARun(p: real)
    requires SafePressure(p)
    ensures var e := Event(Operational, false, 0.0, p, false);
            var s := Run(Initial(true), [e, e, e, e]);
            s.decided && !s.reported
  {
    var e := Event(Operational, false, 0.0, p, false);
    var s0 := Initial(true);
    var s1, s2 := s0.(sensor := 1), s0.(task := GetHe2);
    var es := [e, e, e, e];
    assert es[..3] == [e, e, e] && [e, e, e][..2] == [e, e] && [e, e][..1] == [e] && [e][..0] == [];
    assert Run(s0, [e]) == s1;
    assert Run(s0, [e, e]) == s2;
    assert Run(s0, [e, e, e]) == s2.(task := SetFeStatus);
  }

  // ----- What one call does --------------------------------------------------------------

  /** Safe means measured, valid and at most half a microbar. */
  lemma SafeMeans(p: real)
    ensures SafePressure(p) <==> p != -1.0 && p != -2.0 && p <= 0.0005
  {
  }

  /** The points are read in order, then the pressure is judged, then the shutdown request looked
      at: it ends the program exactly when it is there, and otherwise the turn is handed on. */
  lemma StepOutcome(s: State, e: Event)
    requires s.available && !s.stopped && e.mode != Simulation
    ensures var (s', r) := Step(s, e);
            && (s.task == CheckShutdown ==> s'.stopped == e.shutdown && r == (if e.shutdown then NoError else AsyncDone)
                                            && (!e.shutdown ==> s'.task == GetExtTemp))
            && (s.task != CheckShutdown ==> !s'.stopped && r == NoError)
            && (s.task == SetFeStatus ==> s'.task == CheckShutdown && s'.judged == Some(e.pressure))
            && (s.task == GetHe2 ==> s'.task == if e.ok && s.phase == SelectPoint then GetHe2 else SetFeStatus)
            && (s.task == GetExtTemp ==>
                  if e.ok && s.phase == SelectPoint then s'.task == GetExtTemp && s'.sensor == s.sensor
                  else if s.sensor == 0 then s'.task == GetExtTemp && s'.sensor == 1
                  else s'.task == GetHe2 && s'.sensor == 0)
  {
  }

  /** A completed reading stores its value for the current point and nothing else. */
  lemma SampleOutcome(s: State, k: nat, e: Event)
    requires k < 3
    ensures var (s', r) := Sample(s, k, e);
            && (forall j :: 0 <= j < 3 && j != k ==> s'.readings[j] == s.readings[j])
            && (r == AsyncDone ==> s'.readings[k].value == e.value)
            && (r != AsyncDone ==> s'.readings == s.readings)
            && (r == AsyncDone <==> e.mode == Simulation || (s.phase == ReadConverter && e.ok))
            && (s.phase == SelectPoint && e.ok && e.mode != Simulation ==> s'.mux == k && s'.phase == ReadConverter)
  {
  }
}
