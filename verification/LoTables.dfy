/** One local oscillator and its limits table together: uploads and clears arrive between the
    commands. */
module LoTables {
  import opened Common
  import opened PaLimits
  import opened PaUploads
  import L = LoSafety

  // ----- What one upload does to the limits in force ---------------------------------

  /** The row an upload writes. */
  function NewRow(t: Table, u: Upload): Entry {
    Assign(if t.es != [] && u.yto == Last(t.es).yto then Last(t.es) else if t.clean then ZERO else u.junk, u)
  }

  /** Whether the limit at `y` is affected: the first row of a table, or a row written above the
      rows below `y`; not a rejected upload, nor one that wraps the row count. */
  predicate Touches(t: Table, u: Upload, y: word) {
    if t.es == [] then true
    else if u.yto < Last(t.es).yto then false
    else if u.yto == Last(t.es).yto then |t.es| == 1 || t.es[|t.es| - 2].yto < y
    else |t.es| != MAX_ROWS && Last(t.es).yto < y
  }

  /** On the last segment of a table, or past its end. */
  function OnSegment(lo: Entry, hi: Entry, y: word): Entry
    requires lo.yto < y
  {
    if hi.yto <= y then hi else Between(lo, hi, y)
  }

  /** The limits at `y` after such an upload, from the rows next to it alone. */
  function RowAfter(t: Table, u: Upload, y: word): Entry
    requires Touches(t, u, y)
  {
    if t.es == [] then NewRow(t, u)
    else if u.yto == Last(t.es).yto then
      if |t.es| == 1 then NewRow(t, u) else OnSegment(t.es[|t.es| - 2], NewRow(t, u), y)
    else OnSegment(Last(t.es), NewRow(t, u), y)
  }

  lemma LookupAtEnd(es: seq<Entry>, y: word)
    requires Increasing(es) && |es| >= 2 && es[|es| - 2].yto < y
    ensures Lookup(es, y) == Some(OnSegment(es[|es| - 2], es[|es| - 1], y))
  {
    if y < Last(es).yto { SegmentLookup(es, y, |es| - 2); }
  }

  lemma LookupAfter(t: Table, u: Upload, y: word)
    requires Increasing(t.es) && Touches(t, u, y)
    ensures Lookup(Accept(t, u).es, y) == Some(RowAfter(t, u, y))
  {
    var es' := Accept(t, u).es;
    if |es'| >= 2 { LookupAtEnd(es', y); }
  }

  /** Both voltages are within the limits of one row. */
  predicate Fits(v: seq<real>, band: nat, row: Entry)
    requires |v| == 2
  {
    v[L.Channel(band, 0)] <= row.vd0 && v[1 - L.Channel(band, 0)] <= row.vd1
  }

  /** Voltages within the limits in force stay so through an upload exactly if it does not touch
      them, or they fit the new limits. */
  lemma UploadKeepsWithinIff(v: seq<real>, t: Table, u: Upload, band: nat, y: word)
    requires |v| == 2 && Increasing(t.es) && L.Within(v, t.es, band, y)
    ensures L.Within(v, Accept(t, u).es, band, y) <==> (Touches(t, u, y) ==> Fits(v, band, RowAfter(t, u, y)))
  {
    var es' := Accept(t, u).es;
    if Touches(t, u, y) {
      LookupAfter(t, u, y);
      L.WithinBoth(v, es', band, y);
    } else if es' != [] {
      UploadKeepsLimitsBelow(t, u, y);
      L.WithinBoth(v, t.es, band, y);
      L.WithinBoth(v, es', band, y);
    }
  }

  // ----- Runs ---------------------------------------------------------------------------

  datatype System = System(osc: L.Osc, table: Table)

  datatype Event = Command(e: L.Event) | Load(u: Upload) | Clear

  function Step(s: System, band: nat, e: Event): System {
    match e
    case Command(e) => s.(osc := L.Step(s.osc, s.table.es, band, e))
    case Load(u) => s.(table := Accept(s.table, u))
    case Clear => s.(table := Table([], true))
  }

  function Run(s: System, band: nat, events: seq<Event>): System {
    if events == [] then s else Step(Run(s, band, events[..|events| - 1]), band, events[|events| - 1])
  }

  /** The maxima the decoder lets through are not negative, nor is what it has left in memory. */
  predicate Decoded(e: Event) {
    e.Load? ==> 0.0 <= e.u.vd && 0.0 <= e.u.junk.vd0 && 0.0 <= e.u.junk.vd1
  }

  ghost predicate TableGood(t: Table) { Increasing(t.es) && L.NonNegative(t.es) }

  lemma AcceptKeepsTableGood(t: Table, u: Upload)
    requires TableGood(t) && Decoded(Load(u))
    ensures TableGood(Accept(t, u))
  {
    var es' := Accept(t, u).es;
    if t.es != [] && u.yto == Last(t.es).yto {
      assert forall i :: 0 <= i < |t.es| - 1 ==> es'[i] == t.es[i];
    }
  }

  ghost predicate Guarded(s: System, band: nat) { TableGood(s.table) && L.Guarded(s.osc, s.table.es, band) }

  /** A safe command; or an upload that leaves commands and amplifiers within the limits. Clearing
      the table lifts them. */
  ghost predicate StepSafe(s: System, band: nat, e: Event) {
    match e
    case Command(e) => L.StepSafe(s.osc, s.table.es, band, e)
    case Load(u) =>
      Touches(s.table, u, s.osc.yto) ==>
        Fits(s.osc.last, band, RowAfter(s.table, u, s.osc.yto)) && Fits(L.VoltsOf(s.osc.hw), band, RowAfter(s.table, u, s.osc.yto))
    case Clear => true
  }

  lemma StepSafeIff(s: System, band: nat, e: Event)
    requires Guarded(s, band) && Decoded(e)
    ensures Guarded(Step(s, band, e), band) <==> StepSafe(s, band, e)
  {
    match e
    case Command(c) => L.StepHardwareSafeIff(s.osc, s.table.es, band, c);
    case Load(u) =>
      AcceptKeepsTableGood(s.table, u);
      UploadKeepsWithinIff(s.osc.last, s.table, u, band, s.osc.yto);
      UploadKeepsWithinIff(L.VoltsOf(s.osc.hw), s.table, u, band, s.osc.yto);
    case Clear =>
  }

  ghost predicate AllSafe(s: System, band: nat, events: seq<Event>) {
    events != [] ==>
      var n := |events| - 1;
      AllSafe(s, band, events[..n]) && StepSafe(Run(s, band, events[..n]), band, events[n])
  }

  ghost predicate GuardedThroughout(s: System, band: nat, events: seq<Event>) {
    Guarded(Run(s, band, events), band) && (events != [] ==> GuardedThroughout(s, band, events[..|events| - 1]))
  }

  /** Over every interleaving of commands in any mode with uploads and clears, and with arbitrary
      write failures: the limits in force are kept throughout exactly if every step is safe. */
  lemma {:induction false} RunKeepsLimitsInForceIff(s: System, band: nat, events: seq<Event>)
    requires Guarded(s, band) && forall i :: 0 <= i < |events| ==> Decoded(events[i])
    ensures GuardedThroughout(s, band, events) <==> AllSafe(s, band, events)
  {
    if events != [] {
      var n := |events| - 1;
      RunKeepsLimitsInForceIff(s, band, events[..n]);
      if AllSafe(s, band, events[..n]) { StepSafeIff(Run(s, band, events[..n]), band, events[n]); }
    }
  }
}
