/** Sampling the cryostat: sixteen analog channels share one multiplexer and one converter,
    read by a machine that does one hardware access per call. */
module CryoSampling {
  import opened Common
  import opened ColdHead

  const TEMPS := 13
  const PRESSURES := 2
  const CHANNELS := 16
  const MAX_RETRIES := 10

  /** Monitor-point addresses: thirteen temperatures, two pressures, the supply current. */
  function Address(k: nat): word {
    if k < TEMPS then
      [0x0000, 0x0004, 0x0005, 0x0008, 0x000A, 0x000C, 0x0010, 0x0014, 0x0018, 0x0100, 0x0120, 0x0140, 0x0160][k]
    else if k < TEMPS + PRESSURES then 0x100 * (k - TEMPS) + 0x200
    else 0x400
  }

  lemma AddressesDistinct(j: nat, k: nat)
    requires j < CHANNELS && k < CHANNELS
    ensures Address(j) == Address(k) <==> j == k
  {
  }

  datatype AdcPhase = WriteAddress | StartWait | Waiting | Convert | AwaitReady | ReadBack

  datatype Task = GetTemp | GetPressure | GetCurrent | LogTheHours

  /** Where a stored reading comes from; `Sampled` names the address the multiplexer held
      when the conversion was started. */
  datatype Origin = Unset | Simulated | DomainError | Sampled(address: word)

  datatype Reading = Reading(value: real, origin: Origin)

  /** `mux` and `converted` are hardware: the address last written, and the one in force when
      the last conversion was started. */
  datatype Cryo = Cryo(
    available: bool, phase: AdcPhase, retries: nat, mux: word, converted: word,
    task: Task, temp: nat, pressure: nat, readings: seq<Reading>, hours: Hours)

  /** What the hardware answers in one call, and the value the scaled conversion yields. */
  datatype Io = Io(ok: bool, timer: TimerReply, busy: bool, value: real, domainError: bool)

  datatype Event = Event(mode: Mode, io: Io)

  /** Temperatures and pressures start out marked as not measured yet; when the configuration
      file cannot be read, startup ends before it has marked them, and they are zero. */
  function NoReadings(iniRead: bool): (rs: seq<Reading>)
    ensures |rs| == CHANNELS && forall k :: 0 <= k < CHANNELS ==> rs[k].origin == Unset
    ensures forall k :: 0 <= k < TEMPS + PRESSURES ==> rs[k].value == if iniRead then FLOAT_UNINIT else 0.0
  {
    seq(CHANNELS, k => Reading(if iniRead && k < TEMPS + PRESSURES then FLOAT_UNINIT else 0.0, Unset))
  }

  predicate WellFormed(s: Cryo) {
    s.temp < TEMPS && s.pressure < PRESSURES && |s.readings| == CHANNELS && s.retries <= MAX_RETRIES
  }

  type State = s: Cryo | WellFormed(s)
    ghost witness Cryo(true, WriteAddress, 0, 0, 0, GetTemp, 0, 0, NoReadings(true),
                       Hours(0, true, None, SetTimer))

  function Initial(hours: Hours, available: bool, iniRead: bool): State {
    Cryo(available, WriteAddress, 0, 0, 0, GetTemp, 0, 0, NoReadings(iniRead), hours)
  }

  /** The channel the current task is sampling. */
  function Channel(s: State): (k: nat)
    ensures k < CHANNELS
  {
    match s.task
    case GetTemp => s.temp
    case GetPressure => TEMPS + s.pressure
    case _ => CHANNELS - 1
  }

  // ----- Steps ---------------------------------------------------------------

  /** One call of the converter machine. The retry count is kept across a failed poll. */
  function AdcStep(s: State, address: word, io: Io): (State, Status) {
    match s.phase
    case WriteAddress => if io.ok then (s.(mux := address, phase := StartWait), NoError) else (s, Error)
    case StartWait => if io.ok then (s.(phase := Waiting), NoError) else (s.(phase := WriteAddress), Error)
    case Waiting =>
      (match io.timer
       case TimerError => (s.(phase := WriteAddress), Error)
       case Expired => (s.(phase := Convert), NoError)
       case NotExpired => (s, NoError))
    case Convert =>
      if io.ok then (s.(converted := s.mux, phase := AwaitReady), NoError) else (s.(phase := WriteAddress), Error)
    case AwaitReady =>
      if !io.ok then (s.(phase := WriteAddress), Error)
      else if !io.busy then (s.(phase := ReadBack, retries := 0), NoError)
      else if s.retries + 1 > MAX_RETRIES then (s.(phase := WriteAddress, retries := 0), Error)
      else (s.(retries := s.retries + 1), NoError)
    case ReadBack => if io.ok then (s.(phase := WriteAddress), AsyncDone) else (s.(phase := WriteAddress), Error)
  }

  function Store(s: State, k: nat, r: Reading): State
    requires k < CHANNELS
  {
    s.(readings := s.readings[k := r])
  }

  /** One call towards a sample of channel `k`. */
  function Sample(s: State, k: nat, mode: Mode, io: Io): (State, Status)
    requires k < CHANNELS
  {
    if mode == Simulation then (Store(s, k, Reading(io.value, Simulated)), AsyncDone)
    else
      var (s1, r) := AdcStep(s, Address(k), io);
      if r != AsyncDone then (s1, r)
      else if io.domainError && k < CHANNELS - 1 then (Store(s1, k, Reading(FLOAT_ERROR, DomainError)), Error)
      else (Store(s1, k, Reading(io.value, Sampled(s1.converted))), AsyncDone)
  }

  /** Done or failed: on to the next channel, or to the next task after the last one. */
  function Advance(s: State): State {
    match s.task
    case GetTemp => if s.temp + 1 == TEMPS then s.(temp := 0, task := GetPressure) else s.(temp := s.temp + 1)
    case GetPressure =>
      if s.pressure + 1 == PRESSURES then s.(pressure := 0, task := GetCurrent) else s.(pressure := s.pressure + 1)
    case GetCurrent => s.(task := LogTheHours)
    case LogTheHours => s.(task := GetTemp)
  }

  function StageReadings(s: State): Stages {
    Stages(s.readings[0].value, s.readings[5].value, s.readings[9].value)
  }

  /** One call of the cryostat's asynchronous routine. */
  function Step(s: State, e: Event): (State, Status) {
    if !s.available then (s, NoError)
    else if s.task == LogTheHours then
      var (h, r) := LogStep(s.hours, e.io.ok, e.io.timer, StageReadings(s));
      var s1 := s.(hours := h);
      if r == NoError then (s1, NoError) else (Advance(s1), AsyncDone)
    else
      var (s1, r) := Sample(s, Channel(s), e.mode, e.io);
      if r == NoError then (s1, NoError)
      else (Advance(s1), if s.task == GetCurrent then AsyncDone else NoError)
  }

  function Run(s: State, events: seq<Event>): State {
    if events == [] then s else Step(Run(s, events[..|events| - 1]), events[|events| - 1]).0
  }

  // ----- No two conversions mix ------------------------------------------------

  /** While a conversion is under way the multiplexer holds the current channel's address,
      and so did it when the conversion was started. */
  ghost predicate Coherent(s: State) {
    && (s.phase != WriteAddress ==> s.task != LogTheHours && s.mux == Address(Channel(s)))
    && (s.phase == AwaitReady || s.phase == ReadBack ==> s.converted == Address(Channel(s)))
  }

  /** Every sampled reading is a reading of its own channel. */
  ghost predicate Unmixed(s: State) {
    forall k :: 0 <= k < CHANNELS && s.readings[k].origin.Sampled? ==> s.readings[k].origin.address == Address(k)
  }

  /** What one call does to the machine and to the readings, for the channel `k` whose
      conversion is under way. */
  lemma SampleKeeps(s: State, k: nat, mode: Mode, io: Io)
    requires k < CHANNELS && Unmixed(s)
    requires s.phase != WriteAddress ==> s.mux == Address(k)
    requires s.phase == AwaitReady || s.phase == ReadBack ==> s.converted == Address(k)
    ensures var (s', r) := Sample(s, k, mode, io);
            && Unmixed(s') && Channel(s') == Channel(s) && s'.task == s.task
            && (s'.phase != WriteAddress ==> s'.mux == Address(k))
            && (s'.phase == AwaitReady || s'.phase == ReadBack ==> s'.converted == Address(k))
            && (r != NoError && mode != Simulation ==> s'.phase == WriteAddress)
            && (mode == Simulation ==> r == AsyncDone && s'.phase == s.phase)
  {
    forall j | 0 <= j < CHANNELS && j != k
      ensures Sample(s, k, mode, io).0.readings[j] == s.readings[j]
    {
    }
  }

  /** A call keeps the machine coherent exactly when it is not a simulated call made in the
      middle of a conversion. */
  lemma StepKeepsCoherentIff(s: State, e: Event)
    requires s.available && Coherent(s) && Unmixed(s)
    ensures Coherent(Step(s, e).0) <==> !(e.mode == Simulation && s.phase != WriteAddress)
  {
    var s' := Step(s, e).0;
    if s.task != LogTheHours {
      SampleKeeps(s, Channel(s), e.mode, e.io);
      if e.mode == Simulation && s'.task != LogTheHours {
        AddressesDistinct(Channel(s), Channel(s'));
      }
    }
  }

  lemma StepKeepsUnmixed(s: State, e: Event)
    requires Coherent(s) && Unmixed(s)
    ensures Unmixed(Step(s, e).0)
  {
    if s.task != LogTheHours { SampleKeeps(s, Channel(s), e.mode, e.io); }
  }

  /** Simulated calls only occur between conversions. */
  ghost predicate SimulatesBetween(s: State, events: seq<Event>) {
    events != [] ==>
      var n := |events| - 1;
      && SimulatesBetween(s, events[..n])
      && (events[n].mode == Simulation ==> Run(s, events[..n]).phase == WriteAddress)
  }

  /** Over all interleavings of serial errors, timer errors, busy polls and retries, every
      sample stored comes from a conversion started while the multiplexer held that
      channel's own address. */
  lemma {:induction false} NoTwoConversionsMix(s: State, events: seq<Event>)
    requires Coherent(s) && Unmixed(s) && SimulatesBetween(s, events)
    ensures Coherent(Run(s, events)) && Unmixed(Run(s, events))
  {
    if events != [] {
      var n := |events| - 1;
      NoTwoConversionsMix(s, events[..n]);
      var before := Run(s, events[..n]);
      if before.available { StepKeepsCoherentIff(before, events[n]); }
      StepKeepsUnmixed(before, events[n]);
    }
  }

  lemma InitialIsCoherent(hours: Hours, available: bool, iniRead: bool)
    ensures Coherent(Initial(hours, available, iniRead)) && Unmixed(Initial(hours, available, iniRead))
  {
  }

  /** Entering simulation in the middle of a conversion does mix: a conversion that is ready to
      be read for one channel is then stored for the next. */
  lemma SimulationMixes(s: State, sim: Io, read: Io)
    requires s.available && Coherent(s) && s.phase == ReadBack && s.task == GetTemp && s.temp + 1 < TEMPS
    requires read.ok && !read.domainError
    ensures var s1 := Step(s, Event(Simulation, sim)).0;
            var s2 := Step(s1, Event(Operational, read)).0;
            s2.readings[s.temp + 1].origin == Sampled(Address(s.temp)) && !Unmixed(s2)
  {
    AddressesDistinct(s.temp, s.temp + 1);
  }

  /** A call in which everything succeeds at once. */
  function Smooth(mode: Mode): Event { Event(mode, Io(true, Expired, false, 4.0, false)) }

  function Repeat(e: Event, n: nat): (es: seq<Event>)
    ensures |es| == n
  {
    if n == 0 then [] else Repeat(e, n - 1) + [e]
  }

  lemma RunMore(s: State, es: seq<Event>, e: Event)
    ensures Run(s, es + [e]) == Step(Run(s, es), e).0
  {
    assert (es + [e])[..|es|] == es;
  }

  lemma SmoothStep(s: State)
    requires s.available && s.task == GetTemp && s.phase != ReadBack
    ensures Step(s, Smooth(Operational)).0 ==
            match s.phase
            case WriteAddress => s.(mux := Address(s.temp), phase := StartWait)
            case StartWait => s.(phase := Waiting)
            case Waiting => s.(phase := Convert)
            case Convert => s.(converted := s.mux, phase := AwaitReady)
            case AwaitReady => s.(phase := ReadBack, retries := 0)
  {
  }

  lemma OneMoreCall(s: State, n: nat)
    ensures Run(s, Repeat(Smooth(Operational), n + 1)) == Step(Run(s, Repeat(Smooth(Operational), n)), Smooth(Operational)).0
  {
    RunMore(s, Repeat(Smooth(Operational), n), Smooth(Operational));
  }

  /** Five calls bring a conversion to the point where it can be read. */
  lemma FiveCalls(s: State)
    requires s.available && s.phase == WriteAddress && s.task == GetTemp
    ensures Run(s, Repeat(Smooth(Operational), 5)) ==
            s.(phase := ReadBack, mux := Address(s.temp), converted := Address(s.temp), retries := 0)
  {
    var a := Address(s.temp);
    var s1, s2, s3 := s.(mux := a, phase := StartWait), s.(mux := a, phase := Waiting), s.(mux := a, phase := Convert);
    var s4 := s.(mux := a, converted := a, phase := AwaitReady);
    OneMoreCall(s, 0);
    SmoothStep(s);
    OneMoreCall(s, 1);
    SmoothStep(s1);
    OneMoreCall(s, 2);
    SmoothStep(s2);
    OneMoreCall(s, 3);
    SmoothStep(s3);
    OneMoreCall(s, 4);
    SmoothStep(s4);
  }

  /** It does happen from startup: five calls, one in simulation, one more, and the second
      temperature holds the first sensor's conversion. */
  lemma SimulationMixesInARun(hours: Hours, iniRead: bool)
    ensures var s := Run(Initial(hours, true, iniRead), Repeat(Smooth(Operational), 5) + [Smooth(Simulation)] + [Smooth(Operational)]);
            s.readings[1].origin == Sampled(Address(0)) && Address(0) != Address(1)
  {
    var s := Initial(hours, true, iniRead);
    var es := Repeat(Smooth(Operational), 5);
    FiveCalls(s);
    RunMore(s, es, Smooth(Simulation));
    RunMore(s, es + [Smooth(Simulation)], Smooth(Operational));
    InitialIsCoherent(hours, true, iniRead);
    SimulationMixes(Run(s, es), Smooth(Simulation).io, Smooth(Operational).io);
  }

  // ----- What one call does ----------------------------------------------------------

  /** The monitor point of each channel. */
  lemma AddressTable()
    ensures Address(0) == 0x0000 && Address(1) == 0x0004 && Address(2) == 0x0005 && Address(3) == 0x0008
    ensures Address(4) == 0x000A && Address(5) == 0x000C && Address(6) == 0x0010 && Address(7) == 0x0014
    ensures Address(8) == 0x0018 && Address(9) == 0x0100 && Address(10) == 0x0120 && Address(11) == 0x0140
    ensures Address(12) == 0x0160 && Address(13) == 0x0200 && Address(14) == 0x0300 && Address(15) == 0x0400
  {
  }

  function Order(p: AdcPhase): nat {
    match p
    case WriteAddress => 0
    case StartWait => 1
    case Waiting => 2
    case Convert => 3
    case AwaitReady => 4
    case ReadBack => 5
  }

  /** A conversion goes through its six phases in order, and on to the next one only when the
      address is written, the wait is started, the wait has run out, the conversion is started,
      the converter is ready; it is done when the value is read. Every failure starts it over. */
  lemma PhasesInOrder(s: State, a: word, io: Io)
    ensures var (s', r) := AdcStep(s, a, io);
            var k := Order(s.phase);
            && (r == AsyncDone <==> k == 5 && io.ok)
            && (r != NoError ==> Order(s'.phase) == 0)
            && (r == NoError ==> Order(s'.phase) == k || Order(s'.phase) == k + 1)
            && (Order(s'.phase) == k + 1 <==>
                  (k == 0 && io.ok) || (k == 1 && io.ok) || (k == 2 && io.timer == Expired) || (k == 3 && io.ok)
                  || (k == 4 && io.ok && !io.busy))
            && s'.mux == (if k == 0 && io.ok then a else s.mux)
            && (k != 2 && k != 4 ==> (r == Error <==> !io.ok))
            && (k == 2 ==> (r == Error <==> io.timer == TimerError))
            && (k == 4 ==> (r == Error <==> !io.ok || (io.busy && s.retries >= 10)))
  {
  }

  /** A finished conversion stores the scaled value for its channel and nothing else; a domain
      error stores the failure mark, for a temperature or a pressure. */
  lemma SampleOutcome(s: State, k: nat, mode: Mode, io: Io)
    requires k < 16
    ensures var (s', r) := Sample(s, k, mode, io);
            && (forall j :: 0 <= j < 16 && j != k ==> s'.readings[j] == s.readings[j])
            && (r == AsyncDone ==> s'.readings[k].value == io.value)
            && (r == NoError ==> s'.readings == s.readings)
            && (r == Error ==>
                  (s'.readings == s.readings || (k < 15 && io.domainError && s.phase == ReadBack && s'.readings[k].value == -1.0)))
  {
  }

  /** The cold-head hours look at the 4 K, 12 K and 90 K cryocooler stages. */
  lemma StagesAreCryocoolers(s: State)
    ensures var t := StageReadings(s);
            t.t4 == s.readings[0].value && t.t12 == s.readings[5].value && t.t90 == s.readings[9].value
  {
  }

  // ----- Every channel is sampled -------------------------------------------------------

  /** The cursors that are not in use stand at zero. */
  ghost predicate InOrder(s: State) {
    (s.task != GetTemp ==> s.temp == 0) && (s.task != GetPressure ==> s.pressure == 0)
  }

  /** The call ends the current channel's visit, with a value or with an error. */
  predicate EndsVisit(s: State, e: Event) {
    s.available && s.task != LogTheHours && Sample(s, Channel(s), e.mode, e.io).1 != NoError
  }

  /** The channels whose visits have ended, in order of time. */
  function Ended(s: State, events: seq<Event>): seq<nat> {
    if events == [] then []
    else
      var n := |events| - 1;
      var before := Run(s, events[..n]);
      Ended(s, events[..n]) + if EndsVisit(before, events[n]) then [Channel(before)] else []
  }

  function After(k: nat): nat { if k == 15 then 0 else k + 1 }

  /** Channel after channel, from 0 to 15 and round. */
  ghost predicate Consecutive(ks: seq<nat>) {
    (ks != [] ==> ks[0] == 0) && forall i :: 0 <= i && i + 1 < |ks| ==> ks[i + 1] == After(ks[i])
  }

  /** The channel that is due: that after the last one whose visit has ended. */
  function Due(ks: seq<nat>): nat { if ks == [] then 0 else After(ks[|ks| - 1]) }

  /** Where a call leads: a visit that ends leads to the next channel, and to the hours and then to
      channel 0 after the last one. */
  lemma StepOrder(s: State, e: Event)
    requires InOrder(s)
    ensures var (s', r) := Step(s, e);
            && InOrder(s')
            && (!EndsVisit(s, e) && s.task != LogTheHours ==> s'.task == s.task && Channel(s') == Channel(s) && r == NoError)
            && (EndsVisit(s, e) && Channel(s) < 15 ==> s'.task != LogTheHours && Channel(s') == Channel(s) + 1 && r == NoError)
            && (EndsVisit(s, e) && Channel(s) == 15 ==> s'.task == LogTheHours && r == AsyncDone)
            && (s.task == LogTheHours ==> (s'.task == LogTheHours && r == NoError) || (Channel(s') == 0 && s'.task == GetTemp && r == AsyncDone))
  {
    if s.available && s.task != LogTheHours {
      var s1 := Sample(s, Channel(s), e.mode, e.io).0;
      assert s1.task == s.task && s1.temp == s.temp && s1.pressure == s.pressure;
    }
  }

  /** In every run from startup the visits end in the order of the channels, none left out, and
      the current channel is the one that is due. The turn is handed on after channel 15 and
      after the hours, and at no other time. */
  lemma {:induction false} ChannelsInTurn(hours: Hours, available: bool, iniRead: bool, events: seq<Event>)
    ensures var s, ks := Run(Initial(hours, available, iniRead), events), Ended(Initial(hours, available, iniRead), events);
            && Consecutive(ks) && InOrder(s)
            && (if s.task == LogTheHours then Due(ks) == 0 else Channel(s) == Due(ks))
    ensures forall e :: var s := Run(Initial(hours, available, iniRead), events);
              Step(s, e).1 == AsyncDone ==> s.task == LogTheHours || (EndsVisit(s, e) && Channel(s) == 15)
  {
    var s0 := Initial(hours, available, iniRead);
    if events != [] {
      var n := |events| - 1;
      ChannelsInTurn(hours, available, iniRead, events[..n]);
      StepOrder(Run(s0, events[..n]), events[n]);
    }
    forall e
      ensures var s := Run(s0, events); Step(s, e).1 == AsyncDone ==> s.task == LogTheHours || (EndsVisit(s, e) && Channel(s) == 15)
    {
      StepOrder(Run(s0, events), e);
    }
  }
}
