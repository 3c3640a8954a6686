/** The cooperative scheduler: whoever owns the turn gets one small step per call, and hands
    the turn on when it is done. */
module Scheduler {
  import opened Common
  import C = CryoSampling
  import P = Cartridges
  import F = FetimSampling
  import H = ColdHead

  /** Who has the turn: a subsystem, or nobody while the process is switched off (AsyncOff) or
      about to start again (AsyncOn). */
  datatype Owner = Cryostat | Cartridges | Fetim | AsyncOff | AsyncOn

  /** `source` is a history variable: where the pressure came from that the interlock module
      judged last. */
  datatype System = System(owner: Owner, cryo: C.State, carts: P.Sys, fetim: F.State, source: C.Origin)

  /** What startup found: whether there is a cryostat, whether its configuration file could be
      read, and whether there is an interlock module. */
  datatype Found = Found(cryostat: bool, iniRead: bool, fetim: bool)

  function Initial(hours: H.Hours, found: Found): System {
    System(Cryostat, C.Initial(hours, found.cryostat, found.iniRead), P.Initial(), F.Initial(found.fetim), C.Unset)
  }

  /** Everything the hardware may answer in one call; `io` is for the cryostat, `cart` for the
      cartridges and the last three for the interlock module. */
  datatype Event =
    | Call(mode: Mode, io: C.Io, cart: P.Io, ok: bool, value: real, shutdown: bool)
    | Power(m: nat, command: byte, mode: Mode, ok: bool)
    | Address(number: nat)
    | Toggle

  predicate Sensible(e: Event) { (e.Power? ==> e.m < P.CARTRIDGES) && (e.Address? ==> e.number < 16) }

  function Next(o: Owner): Owner {
    match o
    case Cryostat => Cartridges
    case Cartridges => Fetim
    case Fetim => Cryostat
    case AsyncOff => AsyncOff
    case AsyncOn => Cryostat
  }

  /** The interlock module judges the pressure last stored for the cryostat. */
  function FetimEvent(s: System, e: Event): F.Event
    requires e.Call?
  {
    F.Event(e.mode, e.ok, e.value, s.cryo.readings[C.TEMPS].value, e.shutdown)
  }

  /** One call by the owner of the turn, and what it answers. */
  function Serve(s: System, e: Event): (System, Status)
    requires e.Call?
  {
    match s.owner
    case Cryostat => var (c, r) := C.Step(s.cryo, C.Event(e.mode, e.io)); (s.(cryo := c), r)
    case Cartridges => var (c, r) := P.SweepStep(s.carts, e.cart); (s.(carts := c), r)
    case Fetim =>
      var (f, r) := F.Step(s.fetim, FetimEvent(s, e));
      (s.(fetim := f, source := if Judges(s.fetim) then s.cryo.readings[C.TEMPS].origin else s.source), r)
    case AsyncOff => (s, NoError)
    case AsyncOn => (s, AsyncDone)
  }

  /** The interlock module's next step is to judge the pressure. */
  predicate Judges(f: F.State) { f.available && !f.stopped && f.task == F.SetFeStatus }

  /** Commands that switch a cartridge on or send it to standby take the turn to the cartridges. */
  predicate Wakes(s: System, e: Event)
    requires Sensible(e)
  {
    && e.Power? && e.command != 0 && P.PowerCommand(s.carts, e.m, e.command, e.mode, e.ok).1 == NoError
    && (s.carts.carts[e.m].state == P.Off || (e.command == 2 && !s.carts.carts[e.m].standby2))
  }

  function Step(s: System, e: Event): System
    requires Sensible(e)
  {
    match e
    case Call(_, _, _, _, _, _) =>
      var (s1, r) := Serve(s, e);
      if r == NoError then s1 else s1.(owner := Next(s.owner))
    case Power(m, command, mode, ok) =>
      var s1 := s.(carts := P.PowerCommand(s.carts, m, command, mode, ok).0);
      if Wakes(s, e) then s1.(owner := Cartridges) else s1
    case Address(number) => s.(carts := s.carts.(addressed := number))
    case Toggle => s.(owner := if s.owner == AsyncOff then AsyncOn else AsyncOff)
  }

  function Run(s: System, events: seq<Event>): System
    requires forall e :: e in events ==> Sensible(e)
  {
    if events == [] then s else Step(Run(s, events[..|events| - 1]), events[|events| - 1])
  }

  // ----- How far a visit is from its end -------------------------------------------

  /** Calls left in one conversion of the cryostat; a busy converter is polled eleven times. */
  function ConversionRank(s: C.State): (n: nat)
    ensures 1 <= n <= 16
  {
    match s.phase
    case WriteAddress => 16
    case StartWait => 15
    case Waiting => 14
    case Convert => 13
    case AwaitReady => 12 - s.retries
    case ReadBack => 1
  }

  function CryoRank(s: C.State): (n: nat)
    ensures 1 <= n <= 256
  {
    if s.task == C.LogTheHours then
      match s.hours.phase
      case SetTimer => 3
      case ReadTimer => 2
      case CheckTemps => 1
    else 16 * (C.CHANNELS - 1 - C.Channel(s)) + ConversionRank(s)
  }

  function TaskRank(s: P.Sys): (n: nat)
    ensures 1 <= n <= 5
  {
    match s.task
    case Idle => 5
    case EnterStandby2 => 1
    case Initialize =>
      match s.phase
      case StartWait => 4
      case Waiting => 3
      case DoInit => 2
  }

  function SweepRank(s: P.Sys): (n: nat)
    ensures 1 <= n <= 50
  {
    5 * (P.CARTRIDGES - 1 - s.current) + TaskRank(s)
  }

  function FetimRank(s: F.State): (n: nat)
    ensures 1 <= n <= 8
  {
    match s.task
    case GetExtTemp => 2 * (F.SENSORS - s.sensor) + (if s.phase == F.SelectPoint then 4 else 3)
    case GetHe2 => if s.phase == F.SelectPoint then 4 else 3
    case SetFeStatus => 2
    case CheckShutdown => 1
  }

  const LONGEST := 256

  function Rank(s: System): (n: nat)
    ensures 1 <= n <= LONGEST
  {
    match s.owner
    case Cryostat => CryoRank(s.cryo)
    case Cartridges => SweepRank(s.carts)
    case Fetim => FetimRank(s.fetim)
    case _ => 1
  }

  /** The call only finds a timer that is still running. */
  predicate StillWaiting(s: System, e: Event) {
    && e.Call?
    && match s.owner
       case Cryostat =>
         s.cryo.task != C.LogTheHours && s.cryo.phase == C.Waiting && e.mode != Simulation && e.io.timer == NotExpired
       case Cartridges =>
         s.carts.task == P.Initialize && s.carts.phase == P.Waiting && P.Here(s.carts).state != P.Off && e.cart.query == NotExpired
       case _ => false
  }

  /** The cryostat is there, the program has not been told to shut down, nor the process to
      stop. */
  predicate Alive(s: System) { s.cryo.available && !s.fetim.stopped && s.owner != AsyncOff }

  lemma CryoProgress(s: C.State, e: C.Event)
    requires s.available
    requires !(s.task != C.LogTheHours && s.phase == C.Waiting && e.mode != Simulation && e.io.timer == NotExpired)
    ensures C.Step(s, e).1 == NoError ==> CryoRank(C.Step(s, e).0) < CryoRank(s)
  {
    if s.task != C.LogTheHours {
      var (s1, r) := C.Sample(s, C.Channel(s), e.mode, e.io);
      assert s1.task == s.task && s1.temp == s.temp && s1.pressure == s.pressure;
      if r == NoError {
        assert ConversionRank(s1) < ConversionRank(s);
      } else if s.task != C.GetCurrent {
        assert C.Channel(C.Advance(s1)) > C.Channel(s);
      }
    }
  }

  lemma SweepProgress(s: P.Sys, io: P.Io)
    requires !(s.task == P.Initialize && s.phase == P.Waiting && P.Here(s).state != P.Off && io.query == NotExpired)
    ensures P.SweepStep(s, io).1 == NoError ==> SweepRank(P.SweepStep(s, io).0) < SweepRank(s)
  {
    match s.task
    case Idle =>
    case Initialize =>
      var (s1, r) := P.InitStep(s, io);
      assert s1.current == s.current && s1.task == s.task;
    case EnterStandby2 =>
  }

  lemma FetimProgress(s: F.State, e: F.Event)
    requires !s.stopped && !e.shutdown
    ensures F.Step(s, e).1 == NoError ==> FetimRank(F.Step(s, e).0) < FetimRank(s)
  {
  }

  /** Every call that does not merely poll a running timer ends the visit or brings its end
      nearer. */
  lemma CallProgress(s: System, e: Event)
    requires Alive(s) && e.Call? && !e.shutdown && !StillWaiting(s, e)
    ensures var s' := Step(s, e);
            s'.owner == Next(s.owner) || (s'.owner == s.owner && Rank(s') < Rank(s))
  {
    match s.owner
    case Cryostat => CryoProgress(s.cryo, C.Event(e.mode, e.io));
    case Cartridges => SweepProgress(s.carts, e.cart);
    case Fetim => FetimProgress(s.fetim, FetimEvent(s, e));
    case _ =>
  }

  lemma WaitingChangesNothing(s: System, e: Event)
    requires Alive(s) && StillWaiting(s, e)
    ensures Step(s, e) == s
  {
  }

  // ----- Everybody is served ---------------------------------------------------------

  /** Calls a run may take, polls of running timers apart, until `target` has the turn. */
  function Distance(s: System, target: Owner): nat {
    if s.owner == target then 0
    else if Next(s.owner) == target then Rank(s)
    else if Next(Next(s.owner)) == target then Rank(s) + LONGEST
    else Rank(s) + 2 * LONGEST
  }

  /** Calls that are not polls of a running timer. */
  function Productive(s: System, events: seq<Event>): nat
    requires forall e :: e in events ==> Sensible(e)
  {
    if events == [] then 0
    else
      var n := |events| - 1;
      Productive(s, events[..n]) + (if events[n].Call? && !StillWaiting(Run(s, events[..n]), events[n]) then 1 else 0)
  }

  /** Commands that take the turn to the cartridges. */
  function Interruptions(s: System, events: seq<Event>): nat
    requires forall e :: e in events ==> Sensible(e)
  {
    if events == [] then 0
    else
      var n := |events| - 1;
      Interruptions(s, events[..n]) + (if Wakes(Run(s, events[..n]), events[n]) then 1 else 0)
  }

  /** Neither a shutdown nor the console's switch. */
  predicate Calm(e: Event) { !e.Toggle? && (e.Call? ==> !e.shutdown) }

  predicate Subsystem(o: Owner) { o == Cryostat || o == Cartridges || o == Fetim }

  predicate Undisturbed(events: seq<Event>) {
    forall e :: e in events ==> Sensible(e) && Calm(e)
  }

  lemma CryoStaysAvailable(s: C.State, e: C.Event)
    ensures C.Step(s, e).0.available == s.available
  {
    if s.available && s.task != C.LogTheHours {
      assert C.Sample(s, C.Channel(s), e.mode, e.io).0.available;
    }
  }

  lemma FetimStaysUp(s: F.State, e: F.Event)
    requires !s.stopped && !e.shutdown
    ensures !F.Step(s, e).0.stopped
  {
  }

  lemma StepStaysAlive(s: System, e: Event)
    requires Alive(s) && Sensible(e) && Calm(e)
    ensures Alive(Step(s, e))
  {
    if e.Call? {
      CryoStaysAvailable(s.cryo, C.Event(e.mode, e.io));
      FetimStaysUp(s.fetim, FetimEvent(s, e));
    }
  }

  /** What one event does to the distance to an owner that does not have the turn. */
  lemma StepDistance(s: System, e: Event, target: Owner)
    requires Alive(s) && Sensible(e) && Calm(e)
    requires Subsystem(target) && s.owner != target
    ensures var s' := Step(s, e);
            && Distance(s', target) + (if e.Call? && !StillWaiting(s, e) then 1 else 0)
                 <= Distance(s, target) + (if Wakes(s, e) then 2 * LONGEST else 0)
  {
    if e.Call? {
      if StillWaiting(s, e) { WaitingChangesNothing(s, e); } else { CallProgress(s, e); }
    } else {
      CommandKeepsRanks(s, e);
    }
  }

  /** Commands move no asynchronous process. */
  lemma CommandKeepsRanks(s: System, e: Event)
    requires Sensible(e) && !e.Call? && !e.Toggle?
    ensures var s' := Step(s, e);
            && CryoRank(s'.cryo) == CryoRank(s.cryo) && SweepRank(s'.carts) == SweepRank(s.carts)
            && FetimRank(s'.fetim) == FetimRank(s.fetim)
            && s'.owner == if Wakes(s, e) then Cartridges else s.owner
  {
  }

  lemma {:induction false} DistanceBudget(s: System, events: seq<Event>, target: Owner)
    requires Alive(s) && Undisturbed(events) && Subsystem(target)
    requires forall i :: 0 <= i <= |events| ==> Run(s, events[..i]).owner != target
    ensures Alive(Run(s, events))
    ensures Productive(s, events) + Distance(Run(s, events), target)
            <= Distance(s, target) + 2 * LONGEST * Interruptions(s, events)
  {
    if events != [] {
      var n := |events| - 1;
      assert forall i :: 0 <= i <= n ==> events[..n][..i] == events[..i];
      DistanceBudget(s, events[..n], target);
      var before := Run(s, events[..n]);
      StepDistance(before, events[n], target);
      StepStaysAlive(before, events[n]);
    }
  }

  /** Every subsystem has had the turn after more than 513 productive calls, and 512 more for
      every command that takes the turn away, whatever the hardware answers. */
  lemma EverySubsystemIsServed(s: System, events: seq<Event>, target: Owner)
    requires Alive(s) && Undisturbed(events) && Subsystem(target)
    requires Productive(s, events) > 2 * LONGEST * (1 + Interruptions(s, events)) + 1
    ensures exists i :: 0 <= i <= |events| && Run(s, events[..i]).owner == target
  {
    if forall i :: 0 <= i <= |events| ==> Run(s, events[..i]).owner != target {
      DistanceBudget(s, events, target);
    }
  }

  /** Polls since the last productive call. */
  function Patience(s: System, events: seq<Event>): nat
    requires forall e :: e in events ==> Sensible(e)
  {
    if events == [] then 0
    else
      var n := |events| - 1;
      if !events[n].Call? then Patience(s, events[..n])
      else if StillWaiting(Run(s, events[..n]), events[n]) then Patience(s, events[..n]) + 1
      else 0
  }

  function Calls(events: seq<Event>): nat {
    if events == [] then 0
    else Calls(events[..|events| - 1]) + (if events[|events| - 1].Call? then 1 else 0)
  }

  /** A timer is polled at most `w` times before it expires. */
  ghost predicate TimersExpire(s: System, events: seq<Event>, w: nat)
    requires forall e :: e in events ==> Sensible(e)
  {
    events != [] ==> TimersExpire(s, events[..|events| - 1], w) && Patience(s, events) <= w
  }

  lemma OneMore(a: nat, w: nat)
    ensures (a + 1) * (w + 1) == a * (w + 1) + w + 1
  {
  }

  lemma {:induction false} CallsAreProductive(s: System, events: seq<Event>, w: nat)
    requires forall e :: e in events ==> Sensible(e)
    requires TimersExpire(s, events, w)
    ensures Calls(events) <= Productive(s, events) * (w + 1) + Patience(s, events)
  {
    if events != [] {
      var n := |events| - 1;
      CallsAreProductive(s, events[..n], w);
      OneMore(Productive(s, events[..n]), w);
      assert Patience(s, events[..n]) <= w;
    }
  }

  /** With timers that expire, boundedly many calls of any kind suffice. */
  lemma ServedWithinBound(s: System, events: seq<Event>, target: Owner, w: nat)
    requires Alive(s) && Undisturbed(events) && TimersExpire(s, events, w) && Subsystem(target)
    requires Calls(events) > (2 * LONGEST * (1 + Interruptions(s, events)) + 1) * (w + 1) + w
    ensures exists i :: 0 <= i <= |events| && Run(s, events[..i]).owner == target
  {
    CallsAreProductive(s, events, w);
    MoreProductive(Calls(events), Productive(s, events), 2 * LONGEST * (1 + Interruptions(s, events)) + 1, w, Patience(s, events));
    EverySubsystemIsServed(s, events, target);
  }

  lemma MoreProductive(calls: nat, productive: nat, bound: nat, w: nat, patience: nat)
    requires calls <= productive * (w + 1) + patience && patience <= w && calls > bound * (w + 1) + w
    ensures productive > bound
  {
    assert productive <= bound ==> productive * (w + 1) <= bound * (w + 1);
  }

  /** Without a cryostat the rotation stops: once the cryostat has the turn only a power command
      ends its visit, and nothing at all is done meanwhile. So it does when switched off. */
  lemma {:induction false} RotationStops(s: System, events: seq<Event>)
    requires (!s.cryo.available && s.owner == Cryostat) || s.owner == AsyncOff
    requires forall e :: e in events ==> e.Call?
    ensures Run(s, events) == s
  {
    if events != [] {
      RotationStops(s, events[..|events| - 1]);
    }
  }

  // ----- Every cartridge is attended to ------------------------------------------------

  /** Switched on, and its initialization not ended yet. */
  predicate Pending(s: P.Sys, c: nat)
    requires c < P.CARTRIDGES
  {
    s.carts[c].state == P.On || s.carts[c].state == P.Initing
  }

  /** Calls of the sweep left until cartridge `c` is done with, polls of its timer apart. */
  function SweepEffort(s: P.Sys, c: nat): (n: nat)
    requires c < P.CARTRIDGES
    ensures 1 <= n <= 50
  {
    SweepRank(s) + (if s.current <= c then 0 else 50) - 5 * (P.CARTRIDGES - 1 - c)
  }

  /** A productive call of the sweep brings the end of a pending initialization nearer. */
  lemma SweepEffortFalls(s: P.Sys, io: P.Io, c: nat)
    requires c < P.CARTRIDGES && P.OneIniting(s)
    requires !(s.task == P.Initialize && s.phase == P.Waiting && P.Here(s).state != P.Off && io.query == NotExpired)
    requires Pending(s, c) && Pending(P.SweepStep(s, io).0, c)
    ensures var (s', r) := P.SweepStep(s, io);
            && SweepEffort(s', c) < SweepEffort(s, c)
            && (if r == NoError then s'.current > c ==> s.current > c else s.current > c && s'.current == 0)
  {
    P.SweepHere(s, io);
    SweepProgress(s, io);
    SweepMoves(s, io);
  }

  /** The sweep stays, or moves to the next cartridge, or starts over and says so. */
  lemma SweepMoves(s: P.Sys, io: P.Io)
    ensures var (s', r) := P.SweepStep(s, io);
            if r == NoError then s'.current == s.current || (s'.current == s.current + 1 && s'.task == P.Idle)
            else s.current == P.CARTRIDGES - 1 && s'.current == 0 && s'.task == P.Idle
  {
    if s.task == P.Initialize { assert P.InitStep(s, io).0.current == s.current; }
  }

  /** Calls of any subsystem left, power commands or not: the way to the cartridges' turn, the
      sweep, and one more round if the sweep has passed the cartridge already. */
  function Effort(s: System, c: nat): nat
    requires c < P.CARTRIDGES
  {
    Distance(s, Cartridges) + SweepEffort(s.carts, c) + (if s.carts.current > c then 2 * LONGEST else 0)
  }

  lemma StepEffort(s: System, e: Event, c: nat)
    requires Alive(s) && Sensible(e) && Calm(e) && c < P.CARTRIDGES && P.OneIniting(s.carts)
    requires Pending(s.carts, c) && Pending(Step(s, e).carts, c)
    ensures Effort(Step(s, e), c) + (if e.Call? && !StillWaiting(s, e) then 1 else 0) <= Effort(s, c)
  {
    if !e.Call? {
      CommandKeepsRanks(s, e);
    } else if StillWaiting(s, e) {
      WaitingChangesNothing(s, e);
    } else if s.owner == Cartridges {
      SweepEffortFalls(s.carts, e.cart, c);
    } else {
      StepDistance(s, e, Cartridges);
    }
  }

  lemma {:induction false} EffortBudget(s: System, events: seq<Event>, c: nat)
    requires Alive(s) && Undisturbed(events) && c < P.CARTRIDGES && P.OneIniting(s.carts)
    requires forall i :: 0 <= i <= |events| ==> Pending(Run(s, events[..i]).carts, c)
    ensures Alive(Run(s, events)) && P.OneIniting(Run(s, events).carts)
    ensures Productive(s, events) + Effort(Run(s, events), c) <= Effort(s, c)
  {
    if events != [] {
      var n := |events| - 1;
      assert forall i :: 0 <= i <= n ==> events[..n][..i] == events[..i];
      EffortBudget(s, events[..n], c);
      var before := Run(s, events[..n]);
      assert Pending(before.carts, c);
      assert events[..n + 1] == events && Pending(Run(s, events).carts, c);
      StepEffort(before, events[n], c);
      StepStaysAlive(before, events[n]);
      StepKeepsOneIniting(before, events[n]);
    }
  }

  lemma StepKeepsOneIniting(s: System, e: Event)
    requires Sensible(e) && P.OneIniting(s.carts)
    ensures P.OneIniting(Step(s, e).carts)
  {
    match e
    case Call(_, _, _, _, _, _) => P.SweepKeepsOneIniting(s.carts, e.cart);
    case Power(m, command, mode, ok) => P.StepKeepsOneIniting(s.carts, P.Power(m, command, mode, ok));
    case Address(number) => P.StepKeepsOneIniting(s.carts, P.Address(number));
    case Toggle =>
  }

  /** A cartridge that is switched on does not stay "on" or "initializing": after more than 1074
      productive calls it is ready, off, faulty or on its way to standby, whatever the hardware
      answers and however many commands are given to the other cartridges. */
  lemma EveryCartridgeIsAttended(s: System, events: seq<Event>, c: nat)
    requires Alive(s) && Undisturbed(events) && c < P.CARTRIDGES && P.OneIniting(s.carts)
    requires Productive(s, events) > 4 * LONGEST + 50
    ensures exists i :: 0 <= i <= |events| && !Pending(Run(s, events[..i]).carts, c)
  {
    if forall i :: 0 <= i <= |events| ==> Pending(Run(s, events[..i]).carts, c) {
      EffortBudget(s, events, c);
    }
  }

  // ----- The subsystems together -------------------------------------------------------

  /** Readings come from their own channels, the interlock module believes the verdict on the
      pressure it judged last, and only the cartridge the sweep is at is initializing. */
  ghost predicate Healthy(s: System) {
    && C.Coherent(s.cryo) && C.Unmixed(s.cryo)
    && F.Coherent(s.fetim) && F.Unmixed(s.fetim) && F.Believes(s.fetim)
    && P.OneIniting(s.carts)
  }

  lemma StepKeepsHealthy(s: System, e: Event)
    requires Sensible(e) && Healthy(s) && (e.Call? ==> e.mode != Simulation)
    ensures Healthy(Step(s, e))
  {
    StepKeepsOneIniting(s, e);
    if e.Call? {
      match s.owner {
        case Cryostat =>
          if s.cryo.available { C.StepKeepsCoherentIff(s.cryo, C.Event(e.mode, e.io)); }
          C.StepKeepsUnmixed(s.cryo, C.Event(e.mode, e.io));
        case Fetim =>
          var f := FetimEvent(s, e);
          if s.fetim.available && !s.fetim.stopped { F.StepKeepsCoherentIff(s.fetim, f); }
          F.StepKeepsUnmixed(s.fetim, f);
          F.StepKeepsBelief(s.fetim, f);
        case _ =>
      }
    }
  }

  /** Sharing the processor spoils nothing: over every interleaving of calls and commands the
      facts proved for each subsystem alone hold of the three together. */
  lemma {:induction false} SubsystemsStayHealthy(hours: H.Hours, found: Found, events: seq<Event>)
    requires forall e :: e in events ==> Sensible(e) && (e.Call? ==> e.mode != Simulation)
    ensures Healthy(Run(Initial(hours, found), events))
  {
    if events == [] {
      C.InitialIsCoherent(hours, found.cryostat, found.iniRead);
    } else {
      var n := |events| - 1;
      SubsystemsStayHealthy(hours, found, events[..n]);
      StepKeepsHealthy(Run(Initial(hours, found), events[..n]), events[n]);
    }
  }

  // ----- Safe means measured -------------------------------------------------------------

  /** Outside simulation the stored pressure is a sample, the mark of a failed conversion, or
      what startup left there. */
  ghost predicate PressureTraceable(s: C.State, iniRead: bool) {
    var p := s.readings[C.TEMPS];
    && !p.origin.Simulated?
    && (p.origin.Unset? ==> p.value == if iniRead then FLOAT_UNINIT else 0.0)
    && (p.origin.DomainError? ==> p.value == FLOAT_ERROR)
  }

  lemma StepKeepsTraceable(s: C.State, e: C.Event, iniRead: bool)
    requires PressureTraceable(s, iniRead) && e.mode != Simulation
    ensures PressureTraceable(C.Step(s, e).0, iniRead)
  {
    if s.available && s.task != C.LogTheHours {
      var s1 := C.Sample(s, C.Channel(s), e.mode, e.io).0;
      assert s1.readings[C.TEMPS] == s.readings[C.TEMPS] || C.Channel(s) == C.TEMPS;
      assert C.Step(s, e).0.readings == s1.readings;
    }
  }

  /** A pressure sampled from its own channel, or never sampled at all after a startup that
      could not mark it. */
  predicate Measured(source: C.Origin, iniRead: bool) {
    source == C.Sampled(C.Address(C.TEMPS)) || (!iniRead && source == C.Unset)
  }

  ghost predicate SafeIsMeasured(s: System, iniRead: bool) {
    && PressureTraceable(s.cryo, iniRead)
    && (s.fetim.judged.Some? && F.SafePressure(s.fetim.judged.value) ==> Measured(s.source, iniRead))
  }

  lemma StepKeepsSafeIsMeasured(s: System, e: Event, iniRead: bool)
    requires Sensible(e) && (e.Call? ==> e.mode != Simulation)
    requires SafeIsMeasured(s, iniRead) && C.Unmixed(s.cryo)
    ensures SafeIsMeasured(Step(s, e), iniRead)
  {
    if e.Call? {
      if s.owner == Cryostat { StepKeepsTraceable(s.cryo, C.Event(e.mode, e.io), iniRead); }
      if s.owner == Fetim { JudgedOnlyWhenJudging(s.fetim, FetimEvent(s, e)); }
    }
  }

  lemma JudgedOnlyWhenJudging(f: F.State, e: F.Event)
    ensures F.Step(f, e).0.judged == if Judges(f) then Some(e.pressure) else f.judged
  {
  }

  /** The status writes of the run succeed. */
  ghost predicate StatusWritesSucceed(s: System, events: seq<Event>)
    requires forall e :: e in events ==> Sensible(e)
  {
    events != [] ==>
      var n := |events| - 1;
      var before := Run(s, events[..n]);
      && StatusWritesSucceed(s, events[..n])
      && (events[n].Call? && before.owner == Fetim && Judges(before.fetim) ==> events[n].ok)
  }

  /** Over every interleaving outside simulation, with status writes that succeed: when the
      interlock module is told SAFE, the pressure judged last was valid and low enough, and it
      was sampled with the multiplexer on the cryostat pressure's own address; unless startup
      could not read the configuration file and no sample has been stored yet. */
  lemma {:induction false} SafeMeansMeasured(hours: H.Hours, found: Found, events: seq<Event>)
    requires forall e :: e in events ==> Sensible(e) && (e.Call? ==> e.mode != Simulation)
    requires StatusWritesSucceed(Initial(hours, found), events)
    ensures var s := Run(Initial(hours, found), events);
            && s.fetim.reported == s.fetim.decided && SafeIsMeasured(s, found.iniRead)
            && (s.fetim.reported ==>
                  && s.fetim.judged.Some? && F.SafePressure(s.fetim.judged.value)
                  && Measured(s.source, found.iniRead))
  {
    if events != [] {
      var n := |events| - 1;
      SafeMeansMeasured(hours, found, events[..n]);
      SubsystemsStayHealthy(hours, found, events[..n]);
      SubsystemsStayHealthy(hours, found, events);
      var before := Run(Initial(hours, found), events[..n]);
      StepKeepsSafeIsMeasured(before, events[n], found.iniRead);
      if events[n].Call? && before.owner == Fetim { F.ReportStaysCurrentIff(before.fetim, FetimEvent(before, events[n])); }
    }
  }

  // ----- The answer to an unsafe pressure ------------------------------------------------

  /** SAFE is reported, truly so far, while the pressure stored for the cryostat is not safe. */
  predicate Stale(s: System) {
    s.fetim.available && s.fetim.reported && !F.SafePressure(s.cryo.readings[C.TEMPS].value)
  }

  /** Calls of the interlock module left until it judges the pressure. */
  function CallsToJudge(f: F.State): (n: nat)
    ensures n <= 8
  {
    if f.task == F.CheckShutdown then 8 else FetimRank(f) - 1
  }

  /** Calls of any subsystem left: the way to the module's turn, its own calls, and one more
      round if it has judged in this turn already. */
  function CallsToAnswer(s: System): nat {
    Distance(s, Fetim) + CallsToJudge(s.fetim) + (if s.fetim.task == F.CheckShutdown then 2 * LONGEST else 0)
  }

  /** The call of the interlock module that judges an unsafe pressure reports it. */
  lemma JudgingAnswers(f: F.State, e: F.Event)
    requires Judges(f) && f.reported == f.decided && !F.SafePressure(e.pressure) && e.ok
    ensures !F.Step(f, e).0.reported
  {
  }

  lemma FetimCallNearer(s: System, e: Event)
    requires Alive(s) && e.Call? && !e.shutdown && s.owner == Fetim && Stale(s)
    requires s.fetim.reported == s.fetim.decided && (Judges(s.fetim) ==> e.ok)
    requires Stale(Step(s, e))
    ensures CallsToAnswer(Step(s, e)) < CallsToAnswer(s)
  {
    var f := FetimEvent(s, e);
    if Judges(s.fetim) {
      JudgingAnswers(s.fetim, f);
      assert false;
    } else {
      FetimProgress(s.fetim, f);
    }
  }

  lemma StepNearer(s: System, e: Event)
    requires Alive(s) && Sensible(e) && Calm(e) && Stale(s) && Stale(Step(s, e))
    requires s.fetim.reported == s.fetim.decided && (e.Call? && s.owner == Fetim && Judges(s.fetim) ==> e.ok)
    ensures CallsToAnswer(Step(s, e)) + (if e.Call? && !StillWaiting(s, e) then 1 else 0)
            <= CallsToAnswer(s) + (if Wakes(s, e) then 2 * LONGEST else 0)
  {
    if s.owner != Fetim {
      StepDistance(s, e, Fetim);
    } else if e.Call? {
      FetimCallNearer(s, e);
    } else {
      CommandKeepsRanks(s, e);
    }
  }

  lemma {:induction false} AnswerBudget(s: System, events: seq<Event>)
    requires Alive(s) && Undisturbed(events) && s.fetim.reported == s.fetim.decided
    requires StatusWritesSucceed(s, events)
    requires forall i :: 0 <= i <= |events| ==> Stale(Run(s, events[..i]))
    ensures var t := Run(s, events);
            && Alive(t) && t.fetim.reported == t.fetim.decided
            && Productive(s, events) + CallsToAnswer(t) <= CallsToAnswer(s) + 2 * LONGEST * Interruptions(s, events)
  {
    if events != [] {
      var n := |events| - 1;
      assert forall i :: 0 <= i <= n ==> events[..n][..i] == events[..i];
      AnswerBudget(s, events[..n]);
      var before := Run(s, events[..n]);
      assert Stale(before) && events[..n + 1] == events && Stale(Run(s, events));
      StepNearer(before, events[n]);
      StepStaysAlive(before, events[n]);
      if events[n].Call? && before.owner == Fetim { F.ReportStaysCurrentIff(before.fetim, FetimEvent(before, events[n])); }
    }
  }

  /** An unsafe pressure is answered: after more than 1033 productive calls, and 512 more for every
      command that takes the turn away, the interlock module is no longer told SAFE, or the
      pressure has become safe in the meantime. Status writes succeed. */
  lemma UnsafePressureIsAnswered(s: System, events: seq<Event>)
    requires Alive(s) && Undisturbed(events) && s.fetim.available && s.fetim.reported == s.fetim.decided
    requires StatusWritesSucceed(s, events)
    requires Productive(s, events) > 4 * LONGEST + 9 + 2 * LONGEST * Interruptions(s, events)
    ensures exists i :: 0 <= i <= |events| && !Stale(Run(s, events[..i]))
  {
    if forall i :: 0 <= i <= |events| ==> Stale(Run(s, events[..i])) {
      AnswerBudget(s, events);
    }
  }

  // ----- Every channel of the cryostat is sampled --------------------------------------------

  /** The event is the cryostat's call that ends the visit of channel `k`. */
  predicate Samples(s: System, e: Event, k: nat) {
    e.Call? && s.owner == Cryostat && C.EndsVisit(s.cryo, C.Event(e.mode, e.io)) && C.Channel(s.cryo) == k
  }

  /** Calls of any subsystem left until the visit of channel `k` has ended: in this turn, or after
      the hours, or after the rest of this turn and the hours. */
  function CallsToSample(s: System, k: nat): nat
    requires k < C.CHANNELS
  {
    Distance(s, Cryostat) +
    if s.cryo.task == C.LogTheHours then CryoRank(s.cryo) + 2 * LONGEST + 16 * (k + 1)
    else if C.Channel(s.cryo) <= k then CryoRank(s.cryo) - 16 * (C.CHANNELS - 1 - k)
    else CryoRank(s.cryo) + 2 * LONGEST + 3 + 2 * LONGEST + 16 * (k + 1)
  }

  lemma CallsToSampleBounded(s: System, k: nat)
    requires k < C.CHANNELS && s.owner != AsyncOff
    ensures CallsToSample(s, k) <= 2052
  {
  }

  lemma CryoCallNearer(s: System, e: Event, k: nat)
    requires Alive(s) && e.Call? && !StillWaiting(s, e) && s.owner == Cryostat && k < C.CHANNELS
    requires C.InOrder(s.cryo) && !Samples(s, e, k)
    ensures CallsToSample(Step(s, e), k) < CallsToSample(s, k)
  {
    var c := C.Event(e.mode, e.io);
    C.StepOrder(s.cryo, c);
    CryoProgress(s.cryo, c);
  }

  lemma StepNearerSample(s: System, e: Event, k: nat)
    requires Alive(s) && Sensible(e) && Calm(e) && k < C.CHANNELS && C.InOrder(s.cryo) && !Samples(s, e, k)
    ensures CallsToSample(Step(s, e), k) + (if e.Call? && !StillWaiting(s, e) then 1 else 0)
            <= CallsToSample(s, k) + (if Wakes(s, e) then 2 * LONGEST else 0)
  {
    if s.owner != Cryostat {
      StepDistance(s, e, Cryostat);
    } else if !e.Call? {
      CommandKeepsRanks(s, e);
    } else if StillWaiting(s, e) {
      WaitingChangesNothing(s, e);
    } else {
      CryoCallNearer(s, e, k);
    }
  }

  lemma StepKeepsInOrder(s: System, e: Event)
    requires Sensible(e) && C.InOrder(s.cryo)
    ensures C.InOrder(Step(s, e).cryo)
  {
    if e.Call? && s.owner == Cryostat { C.StepOrder(s.cryo, C.Event(e.mode, e.io)); }
  }

  lemma {:induction false} SampleBudget(s: System, events: seq<Event>, k: nat)
    requires Alive(s) && Undisturbed(events) && k < C.CHANNELS && C.InOrder(s.cryo)
    requires forall i :: 0 <= i < |events| ==> !Samples(Run(s, events[..i]), events[i], k)
    ensures Alive(Run(s, events)) && C.InOrder(Run(s, events).cryo)
    ensures Productive(s, events) + CallsToSample(Run(s, events), k)
            <= CallsToSample(s, k) + 2 * LONGEST * Interruptions(s, events)
  {
    if events != [] {
      var n := |events| - 1;
      assert forall i :: 0 <= i < n ==> events[..n][..i] == events[..i];
      SampleBudget(s, events[..n], k);
      var before := Run(s, events[..n]);
      StepNearerSample(before, events[n], k);
      StepStaysAlive(before, events[n]);
      StepKeepsInOrder(before, events[n]);
    }
  }

  /** Every temperature, every pressure and the supply current is sampled, or its sampling has
      failed, after more than 2052 productive calls, and 512 more for every command that takes the
      turn away, whatever the hardware answers. */
  lemma EveryChannelIsSampled(s: System, events: seq<Event>, k: nat)
    requires Alive(s) && Undisturbed(events) && k < 16 && C.InOrder(s.cryo)
    requires Productive(s, events) > 2052 + 2 * LONGEST * Interruptions(s, events)
    ensures exists i :: 0 <= i < |events| && Samples(Run(s, events[..i]), events[i], k)
  {
    if forall i :: 0 <= i < |events| ==> !Samples(Run(s, events[..i]), events[i], k) {
      SampleBudget(s, events, k);
      CallsToSampleBounded(s, k);
    }
  }

  // ----- Who gets the turn --------------------------------------------------------------------

  /** The turn goes from the cryostat to the cartridges, on to the interlock module and back, exactly
      when the owner's routine is done; the switch turns the process off, and on again at the
      cryostat. */
  lemma TurnOutcome(s: System, e: Event)
    requires Sensible(e)
    ensures var o' := Step(s, e).owner;
            && (e.Call? && s.owner == Cryostat ==>
                  o' == if C.Step(s.cryo, C.Event(e.mode, e.io)).1 == NoError then Cryostat else Cartridges)
            && (e.Call? && s.owner == Cartridges ==> o' == if P.SweepStep(s.carts, e.cart).1 == NoError then Cartridges else Fetim)
            && (e.Call? && s.owner == Fetim ==> o' == if F.Step(s.fetim, FetimEvent(s, e)).1 == NoError then Fetim else Cryostat)
            && (e.Call? && s.owner == AsyncOn ==> o' == Cryostat) && (e.Call? && s.owner == AsyncOff ==> o' == AsyncOff)
            && (e.Toggle? ==> o' == if s.owner == AsyncOff then AsyncOn else AsyncOff)
            && (e.Address? ==> o' == s.owner)
  {
  }

  /** Powering a cartridge up and sending one to standby, and no other command, give the cartridges
      the turn, also when the process is switched off. */
  lemma WakeOutcome(s: System, e: Event)
    requires Sensible(e) && e.Power?
    ensures Step(s, e).owner ==
            if P.PowersUp(s.carts, e.m, e.command, e.mode, e.ok) || P.SendsToStandby(s.carts, e.m, e.command) then Cartridges
            else s.owner
  {
  }

  /** Each call serves its owner alone, and commands serve none but the cartridges. */
  lemma OthersUntouched(s: System, e: Event)
    requires Sensible(e)
    ensures var s' := Step(s, e);
            && (s'.cryo != s.cryo ==> e.Call? && s.owner == Cryostat && s'.cryo == C.Step(s.cryo, C.Event(e.mode, e.io)).0)
            && (s'.fetim != s.fetim ==> e.Call? && s.owner == Fetim && s'.fetim == F.Step(s.fetim, FetimEvent(s, e)).0)
            && (s'.carts != s.carts ==> (e.Call? && s.owner == Cartridges) || e.Power? || e.Address?)
  {
  }
}
