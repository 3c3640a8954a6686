/** Cold-head operating hours: the counter, its "needs saving" mark, the file it is saved in,
    and the timer-driven step that advances it. */
module ColdHead {
  import opened Common

  const THRESHOLD := 265.0
  const ULONG_RANGE := 0x1_0000_0000

  datatype Phase = SetTimer | ReadTimer | CheckTemps

  /** `file` is the value the hours file holds, if it holds one. */
  datatype Hours = Hours(hours: nat, dirty: bool, file: Option<nat>, phase: Phase)

  /** Latest readings of the three cold-head stages. */
  datatype Stages = Stages(t4: real, t12: real, t90: real)

  /** At least two of the three stages read below the threshold. */
  predicate IsCold(t: Stages) {
    var a, b, c := BelowMax(t.t4, THRESHOLD), BelowMax(t.t12, THRESHOLD), BelowMax(t.t90, THRESHOLD);
    (a && b) || (a && c) || (b && c)
  }

  // ----- Steps ---------------------------------------------------------------

  /** Startup: a missing or unreadable file means zero hours that need saving. */
  function Startup(file: Option<nat>, readOk: bool): Hours {
    if file.Some? && readOk then Hours(file.value, false, file, SetTimer) else Hours(0, true, file, SetTimer)
  }

  function Tick(s: Hours): Hours {
    s.(hours := (s.hours + 1) % ULONG_RANGE, dirty := true)
  }

  function LogStep(s: Hours, startOk: bool, query: TimerReply, t: Stages): (Hours, Status) {
    match s.phase
    case SetTimer => if startOk then (s.(phase := ReadTimer), NoError) else (s, Error)
    case ReadTimer =>
      (match query
       case TimerError => (s.(phase := SetTimer), Error)
       case Expired => (s.(phase := CheckTemps), NoError)
       case NotExpired => (s, AsyncDone))
    case CheckTemps => ((if IsCold(t) then Tick(s) else s).(phase := SetTimer), AsyncDone)
  }

  /** Save when marked. The result of the file update is not looked at. */
  function Save(s: Hours, writeOk: bool): Hours {
    if !s.dirty then s
    else s.(dirty := false, file := if writeOk then Some(s.hours) else s.file)
  }

  datatype Event =
    | Log(startOk: bool, query: TimerReply, t: Stages)
    | SetHours(h: word)
    | WriteMemory(writeOk: bool)

  function Step(s: Hours, e: Event): Hours {
    match e
    case Log(startOk, query, t) => LogStep(s, startOk, query, t).0
    case SetHours(h) => s.(hours := h, dirty := true)
    case WriteMemory(ok) => Save(s, ok)
  }

  function Run(s: Hours, events: seq<Event>): Hours {
    if events == [] then s else Step(Run(s, events[..|events| - 1]), events[|events| - 1])
  }

  // ----- The dirty mark --------------------------------------------------------

  /** Not marked means saved. */
  ghost predicate Saved(s: Hours) { !s.dirty ==> s.file == Some(s.hours) }

  /** A step keeps the mark honest unless it is a failing save of a value the file does not
      already hold. */
  lemma StepKeepsSavedIff(s: Hours, e: Event)
    requires Saved(s)
    ensures Saved(Step(s, e)) <==> !(e == WriteMemory(false) && s.dirty && s.file != Some(s.hours))
  {
  }

  /** It does happen from startup: hours are set, saving them fails, and the mark is gone. */
  lemma FailingSaveInARun(file: Option<nat>, readOk: bool, h: word)
    requires file != Some(h as nat)
    ensures !Saved(Run(Startup(file, readOk), [SetHours(h), WriteMemory(false)]))
  {
    var s, es, first := Startup(file, readOk), [SetHours(h), WriteMemory(false)], [SetHours(h)];
    assert es[..1] == first && first[..0] == [];
    assert Run(s, first) == s.(hours := h as nat, dirty := true);
    assert Run(s, es) == Step(Run(s, first), WriteMemory(false));
  }

  lemma {:induction false} RunKeepsSaved(file: Option<nat>, readOk: bool, events: seq<Event>)
    requires WriteMemory(false) !in events
    ensures Saved(Run(Startup(file, readOk), events))
  {
    if events != [] {
      var n := |events| - 1;
      RunKeepsSaved(file, readOk, events[..n]);
      StepKeepsSavedIff(Run(Startup(file, readOk), events[..n]), events[n]);
    }
  }

  /** Whatever happened before, a successful save survives a restart. */
  lemma SavedHoursSurviveRestart(file: Option<nat>, readOk: bool, events: seq<Event>)
    requires WriteMemory(false) !in events
    ensures var s := Save(Run(Startup(file, readOk), events), true);
            Startup(s.file, true).hours == s.hours && !s.dirty
  {
    RunKeepsSaved(file, readOk, events);
  }

  // ----- Accounting -------------------------------------------------------------

  /** Timer intervals that ran out during a run. */
  function Intervals(s: Hours, events: seq<Event>): nat {
    if events == [] then 0
    else
      var n := |events| - 1;
      var before, e := Run(s, events[..n]), events[n];
      Intervals(s, events[..n]) + (if e.Log? && before.phase == ReadTimer && e.query == Expired then 1 else 0)
  }

  /** Intervals of a run whose stage temperatures were judged, and those judged cold. */
  function Judged(s: Hours, events: seq<Event>): nat {
    if events == [] then 0
    else
      var n := |events| - 1;
      Judged(s, events[..n]) + (if events[n].Log? && Run(s, events[..n]).phase == CheckTemps then 1 else 0)
  }

  function ColdIntervals(s: Hours, events: seq<Event>): nat {
    if events == [] then 0
    else
      var n := |events| - 1;
      ColdIntervals(s, events[..n]) +
      (if events[n].Log? && Run(s, events[..n]).phase == CheckTemps && IsCold(events[n].t) then 1 else 0)
  }

  function Pending(s: Hours): nat { if s.phase == CheckTemps then 1 else 0 }

  /** Every interval that runs out is judged once: none is skipped, none counted twice. */
  lemma {:induction false} EveryIntervalJudgedOnce(s: Hours, events: seq<Event>)
    ensures Pending(s) + Intervals(s, events) == Judged(s, events) + Pending(Run(s, events))
  {
    if events != [] { EveryIntervalJudgedOnce(s, events[..|events| - 1]); }
  }

  /** Between set commands the hours grow by exactly the number of cold intervals. */
  lemma {:induction false} HoursCountColdIntervals(s: Hours, events: seq<Event>)
    requires s.hours < ULONG_RANGE
    requires forall i :: 0 <= i < |events| ==> !events[i].SetHours?
    ensures Run(s, events).hours == (s.hours + ColdIntervals(s, events)) % ULONG_RANGE
  {
    if events != [] {
      var n := |events| - 1;
      HoursCountColdIntervals(s, events[..n]);
      NextModulo(s.hours + ColdIntervals(s, events[..n]));
    }
  }

  lemma NextModulo(x: nat)
    ensures (x % ULONG_RANGE + 1) % ULONG_RANGE == (x + 1) % ULONG_RANGE
  {
  }

  /** A set command discards what was counted before it. */
  lemma HoursAfterSet(s: Hours, upTo: seq<Event>, after: seq<Event>)
    requires upTo != [] && upTo[|upTo| - 1].SetHours?
    requires forall i :: 0 <= i < |after| ==> !after[i].SetHours?
    ensures Run(s, upTo + after).hours ==
            (upTo[|upTo| - 1].h + ColdIntervals(Run(s, upTo), after)) % ULONG_RANGE
  {
    RunSplit(s, upTo, after);
    HoursCountColdIntervals(Run(s, upTo), after);
  }

  lemma {:induction false} RunSplit(s: Hours, a: seq<Event>, b: seq<Event>)
    ensures Run(s, a + b) == Run(Run(s, a), b)
  {
    if b == [] {
      assert a + b == a;
    } else {
      var n := |b| - 1;
      assert (a + b)[..|a + b| - 1] == a + b[..n];
      RunSplit(s, a, b[..n]);
    }
  }

  // ----- The routines -----------------------------------------------------------

  class HoursLog {
    var coldHeadHours: nat
    var coldHeadHoursDirty: bool
    var phase: Phase
    var file: Option<nat>

    ghost function Snap(): Hours
      reads this
    {
      Hours(coldHeadHours, coldHeadHoursDirty, file, phase)
    }

    /** `exists` says whether the file could be opened; a missing one is created empty. */
    constructor CryostatStartup(found: bool, file: Option<nat>, readOk: bool)
      ensures Snap() == Startup(if found then file else None, readOk)
    {
      phase := SetTimer;
      var contents := if found then file else None;
      this.file := contents;
      if contents.Some? && readOk {
        coldHeadHours, coldHeadHoursDirty := contents.value, !found;
      } else {
        coldHeadHours, coldHeadHoursDirty := 0, true;
      }
    }

    method CryostatAsyncLogHours(startOk: bool, query: TimerReply, t: Stages) returns (r: Status)
      modifies `coldHeadHours, `coldHeadHoursDirty, `phase
      ensures (Snap(), r) == LogStep(old(Snap()), startOk, query, t)
    {
      match phase {
      case SetTimer =>
        if !startOk {
          return Error;
        }
        phase := ReadTimer;
      case ReadTimer =>
        if query == TimerError {
          phase := SetTimer;
          return Error;
        }
        if query != Expired {
          return AsyncDone;
        }
        phase := CheckTemps;
      case CheckTemps =>
        var cnt := 0;
        if BelowMax(t.t4, THRESHOLD) {
          cnt := cnt + 1;
        }
        if BelowMax(t.t12, THRESHOLD) {
          cnt := cnt + 1;
        }
        if BelowMax(t.t90, THRESHOLD) {
          cnt := cnt + 1;
        }
        if cnt >= 2 {
          coldHeadHours := (coldHeadHours + 1) % ULONG_RANGE;
          coldHeadHoursDirty := true;
        }
        phase := SetTimer;
        return AsyncDone;
      }
      return NoError;
    }

    method ColdHeadHoursHandler(h: word)
      modifies `coldHeadHours, `coldHeadHoursDirty
      ensures Snap() == Step(old(Snap()), SetHours(h))
    {
      coldHeadHours := h;
      coldHeadHoursDirty := true;
    }

    method FrontendWriteNVMemory(writeOk: bool)
      modifies `coldHeadHoursDirty, `file
      ensures Snap() == Save(old(Snap()), writeOk)
    {
      if coldHeadHoursDirty {
        if writeOk {
          file := Some(coldHeadHours);
        }
        coldHeadHoursDirty := false;
      }
    }
  }

  /** A stage counts when its reading lies between absolute zero and 265 K; an interval is cold when
      at least two of three count. */
  lemma ColdMeansTwoOfThree(t: Stages)
    ensures IsCold(t) <==>
            (if 0.0 < t.t4 < 265.0 then 1 else 0) + (if 0.0 < t.t12 < 265.0 then 1 else 0) + (if 0.0 < t.t90 < 265.0 then 1 else 0) >= 2
  {
  }

  /** A save that succeeds leaves the hours in the file and no mark; the interval machine alone
      never touches the file. */
  lemma SaveOutcome(s: Hours)
    ensures s.dirty ==> Step(s, WriteMemory(true)) == s.(dirty := false, file := Some(s.hours))
    ensures !s.dirty ==> Step(s, WriteMemory(true)) == s
  {
  }

  /** Hours that could be read are taken over unmarked; otherwise counting starts at zero, marked. */
  lemma StartupOutcome(hours: nat, readOk: bool)
    ensures var s := Startup(Some(hours), readOk);
            s.hours == (if readOk then hours else 0) && s.dirty == !readOk && s.file == Some(hours)
    ensures var s := Startup(None, readOk); s.hours == 0 && s.dirty
  {
  }
}
