/** A run of the three subsystems together that reports SAFE with nothing measured. */
module SchedulerRuns {
  import opened Common
  import opened Scheduler
  import C = CryoSampling
  import P = Cartridges
  import F = FetimSampling
  import H = ColdHead

  /** A call in which every serial access to the interlock module succeeds, or none does. */
  function Try(ok: bool): Event {
    Call(Operational, C.Io(false, NotExpired, false, 0.0, false), P.Io(true, NotExpired, true, true, true), ok, 0.0, false)
  }

  function Switch(value: byte): Event { Power(0, value, Operational, true) }

  predicate Ordinary(es: seq<Event>) {
    forall e :: e in es ==> Sensible(e) && (e.Call? ==> e.mode == Operational)
  }

  lemma RunSnoc(s: System, es: seq<Event>, e: Event)
    requires Sensible(e) && forall e :: e in es ==> Sensible(e)
    ensures Run(s, es + [e]) == Step(Run(s, es), e)
  {
    assert (es + [e])[..|es|] == es;
  }

  ghost predicate AllOff(s: P.Sys) {
    s.task == P.Idle && forall c :: 0 <= c < P.CARTRIDGES ==> s.carts[c].state == P.Off
  }

  /** Switching a cartridge on and off again gives the cartridges the turn before the cryostat
      has made a single call. */
  lemma TurnTaken(hours: H.Hours, found: Found) returns (es: seq<Event>)
    ensures Ordinary(es)
    ensures var s, t := Initial(hours, found), Run(Initial(hours, found), es);
            && t.owner == Cartridges && AllOff(t.carts) && t.carts.current == 0
            && t.cryo == s.cryo && t.fetim == s.fetim
  {
    var s := Initial(hours, found);
    assert Run(s, []) == s;
    RunSnoc(s, [], Switch(1));
    assert [] + [Switch(1)] == [Switch(1)];
    RunSnoc(s, [Switch(1)], Switch(0));
    es := [Switch(1)] + [Switch(0)];
  }

  lemma PassOne(t: System)
    requires t.owner == Cartridges && AllOff(t.carts)
    ensures Step(t, Try(false)) ==
            if t.carts.current + 1 < P.CARTRIDGES then t.(carts := t.carts.(current := t.carts.current + 1))
            else t.(carts := t.carts.(current := 0), owner := Fetim)
  {
  }

  /** The sweep has nothing to do for cartridges that are off, and hands the turn on. */
  lemma SweepPasses(s: System, es: seq<Event>) returns (more: seq<Event>)
    requires Ordinary(es)
    requires var t := Run(s, es); t.owner == Cartridges && AllOff(t.carts)
    ensures Ordinary(more)
    ensures var t := Run(s, es); Run(s, more) == t.(carts := t.carts.(current := 0), owner := Fetim)
    decreases P.CARTRIDGES - Run(s, es).carts.current
  {
    RunSnoc(s, es, Try(false));
    PassOne(Run(s, es));
    more := es + [Try(false)];
    if Run(s, more).owner == Cartridges { more := SweepPasses(s, more); }
  }

  /** A reading that fails takes the interlock module on to the next. */
  lemma ReadingFails(t: System)
    requires t.owner == Fetim && t.fetim.available && !t.fetim.stopped && t.fetim.phase == F.SelectPoint && F.Samples(t.fetim)
    ensures Step(t, Try(false)) == t.(fetim := F.Advance(t.fetim))
  {
  }

  lemma ReadingsFail(s: System, es: seq<Event>) returns (more: seq<Event>)
    requires Ordinary(es)
    requires var t := Run(s, es); t.owner == Fetim && t.fetim == F.Initial(true)
    ensures Ordinary(more) && Run(s, more) == Run(s, es).(fetim := F.Initial(true).(task := F.SetFeStatus))
  {
    var a, b := es + [Try(false)], es + [Try(false)] + [Try(false)];
    RunSnoc(s, es, Try(false));
    ReadingFails(Run(s, es));
    RunSnoc(s, a, Try(false));
    ReadingFails(Run(s, a));
    RunSnoc(s, b, Try(false));
    ReadingFails(Run(s, b));
    more := b + [Try(false)];
  }

  /** With the turn at the interlock module, three failing readings and one status write. */
  lemma StatusReported(s: System, es: seq<Event>) returns (more: seq<Event>)
    requires Ordinary(es)
    requires var t := Run(s, es); t.owner == Fetim && t.fetim == F.Initial(true)
    requires F.SafePressure(Run(s, es).cryo.readings[C.TEMPS].value)
    ensures Ordinary(more)
    ensures var t, t' := Run(s, es), Run(s, more);
            t'.fetim.reported && t'.source == t.cryo.readings[C.TEMPS].origin && t'.cryo == t.cryo
  {
    var before := ReadingsFail(s, es);
    RunSnoc(s, before, Try(true));
    more := before + [Try(true)];
  }

  /** Startup without its configuration file, one cartridge switched on and off, one sweep: the
      interlock module is told SAFE, and no pressure has ever been measured. */
  lemma SafeWithNothingMeasured(hours: H.Hours) returns (events: seq<Event>)
    ensures Ordinary(events)
    ensures var s := Run(Initial(hours, Found(true, false, true)), events);
            s.fetim.reported && s.source == C.Unset && s.cryo.readings[C.TEMPS].origin == C.Unset
  {
    var s := Initial(hours, Found(true, false, true));
    events := TurnTaken(hours, Found(true, false, true));
    events := SweepPasses(s, events);
    events := StatusReported(s, events);
  }
}
