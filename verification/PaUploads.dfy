/** What a sequence of uploads leaves in the limits table: the step the firmware takes for
    one entry, folded over a run, against a definition that looks at the run as a whole. */
module PaUploads {
  import opened Common
  import opened PaLimits

  /** One upload. `junk` is what the memory of the next row holds when that memory has been
      used before; it only matters after the byte-wide row count has wrapped. */
  datatype Upload = Upload(pol: byte, yto: word, vd: real, junk: Entry)

  /** The rows, and whether the unused rows behind them are still zeroed. */
  datatype Table = Table(es: seq<Entry>, clean: bool)

  predicate Names(pol: byte, p: nat) { pol == p || pol == 2 }

  function Assign(base: Entry, u: Upload): Entry {
    Entry(u.yto, if Names(u.pol, 0) then u.vd else base.vd0, if Names(u.pol, 1) then u.vd else base.vd1)
  }

  /** One entry: start the table, reject, merge into the last row, or append. The 256th row
      takes the row count back to zero, so the table reads as empty again. */
  function Accept(t: Table, u: Upload): Table {
    var base := if t.clean then ZERO else u.junk;
    if t.es == [] then Table([Assign(base, u)], t.clean)
    else if u.yto < Last(t.es).yto then t
    else if u.yto == Last(t.es).yto then Table(t.es[..|t.es| - 1] + [Assign(Last(t.es), u)], t.clean)
    else if |t.es| == MAX_ROWS then Table([], false)
    else Table(t.es + [Assign(base, u)], t.clean)
  }

  function Run(t: Table, ups: seq<Upload>): Table {
    if ups == [] then t else Accept(Run(t, ups[..|ups| - 1]), ups[|ups| - 1])
  }

  /** A run of uploads that starts from a freshly cleared table. */
  function Fold(ups: seq<Upload>): Table {
    Run(Table([], true), ups)
  }

  /** An upload counts when no earlier one in the run named a larger tuning word. */
  ghost predicate Counts(ups: seq<Upload>, i: nat)
    requires i < |ups|
  {
    forall j :: 0 <= j < i ==> ups[j].yto <= ups[i].yto
  }

  ghost function Words(ups: seq<Upload>): set<word> {
    set i | 0 <= i < |ups| && Counts(ups, i) :: ups[i].yto
  }

  /** The latest upload that counts at tuning word `y` and names polarization `p`; zero if none. */
  ghost function Latest(ups: seq<Upload>, y: word, p: nat): real {
    if ups == [] then 0.0
    else
      var n := |ups| - 1;
      if ups[n].yto == y && Names(ups[n].pol, p) && Counts(ups, n) then ups[n].vd
      else Latest(ups[..n], y, p)
  }

  ghost function Endpoints(es: seq<Entry>): set<word> {
    set i | 0 <= i < |es| :: es[i].yto
  }

  /** The table a run ought to leave: one row for each word that counts, in increasing
      order, holding the latest value uploaded for each polarization. */
  ghost predicate Faithful(es: seq<Entry>, ups: seq<Upload>) {
    && Increasing(es)
    && Endpoints(es) == Words(ups)
    && forall i :: 0 <= i < |es| ==> es[i].vd0 == Latest(ups, es[i].yto, 0) && es[i].vd1 == Latest(ups, es[i].yto, 1)
  }

  // ----- Fold against the definition --------------------------------------

  lemma CountsPrefix(ups: seq<Upload>, n: nat)
    requires n <= |ups|
    ensures forall i :: 0 <= i < n ==> (Counts(ups[..n], i) <==> Counts(ups, i))
  {
  }

  lemma WordsStep(ups: seq<Upload>)
    requires ups != []
    ensures var n := |ups| - 1;
            Words(ups) == Words(ups[..n]) + (if Counts(ups, n) then {ups[n].yto} else {})
  {
    var n := |ups| - 1;
    CountsPrefix(ups, n);
    forall w | w in Words(ups) ensures w in Words(ups[..n]) + (if Counts(ups, n) then {ups[n].yto} else {}) {
      var i :| 0 <= i < |ups| && Counts(ups, i) && ups[i].yto == w;
      if i < n { assert ups[..n][i].yto == w && Counts(ups[..n], i); }
    }
    forall w | w in Words(ups[..n]) ensures w in Words(ups) {
      var i :| 0 <= i < n && Counts(ups[..n], i) && ups[..n][i].yto == w;
      assert Counts(ups, i);
    }
  }

  lemma EndpointsStep(es: seq<Entry>)
    requires es != []
    ensures Endpoints(es) == Endpoints(es[..|es| - 1]) + {es[|es| - 1].yto}
  {
    var n := |es| - 1;
    forall w | w in Endpoints(es) ensures w in Endpoints(es[..n]) + {es[n].yto} {
      var i :| 0 <= i < |es| && es[i].yto == w;
      if i < n { assert es[..n][i].yto == w; }
    }
    forall w | w in Endpoints(es[..n]) ensures w in Endpoints(es) {
      var i :| 0 <= i < n && es[..n][i].yto == w;
      assert es[i].yto == w;
    }
  }

  lemma {:induction false} EndpointsCount(es: seq<Entry>)
    requires Increasing(es)
    ensures |Endpoints(es)| == |es|
  {
    if es != [] {
      var n := |es| - 1;
      EndpointsCount(es[..n]);
      EndpointsStep(es);
      assert es[n].yto !in Endpoints(es[..n]);
    }
  }

  /** The last row of a faithful table is the largest word uploaded so far. */
  ghost predicate Tops(es: seq<Entry>, ups: seq<Upload>) {
    (es == [] <==> ups == []) && forall j :: 0 <= j < |ups| ==> es != [] && ups[j].yto <= Last(es).yto
  }

  ghost predicate Good(t: Table, ups: seq<Upload>) {
    t.clean && |t.es| <= MAX_ROWS && Faithful(t.es, ups) && Tops(t.es, ups)
  }

  lemma {:induction false} FoldGood(ups: seq<Upload>)
    requires |Words(ups)| <= MAX_ROWS
    ensures Good(Fold(ups), ups)
  {
    if ups != [] {
      var n := |ups| - 1;
      WordsStep(ups);
      assert Words(ups) == Words(ups[..n]) + (Words(ups) - Words(ups[..n]));
      FoldGood(ups[..n]);
      AcceptGood(Fold(ups[..n]), ups);
    }
  }

  lemma AcceptGood(t: Table, ups: seq<Upload>)
    requires ups != [] && |Words(ups)| <= MAX_ROWS
    requires Good(t, ups[..|ups| - 1])
    ensures Good(Accept(t, ups[|ups| - 1]), ups)
  {
    var n := |ups| - 1;
    var u, es, es' := ups[n], t.es, Accept(t, ups[n]).es;
    WordsStep(ups);
    CountsIffAccepted(es, ups);
    AcceptRoom(es, ups);
    EndpointsOfAccept(t, u);
    AcceptTops(t, ups);
    forall i | 0 <= i < |es'|
      ensures es'[i].vd0 == Latest(ups, es'[i].yto, 0) && es'[i].vd1 == Latest(ups, es'[i].yto, 1)
    {
      AcceptValue(t, ups, i, 0);
      AcceptValue(t, ups, i, 1);
    }
  }

  lemma AcceptTops(t: Table, ups: seq<Upload>)
    requires ups != [] && Tops(t.es, ups[..|ups| - 1]) && Increasing(t.es) && |t.es| <= MAX_ROWS
    requires t.es == [] || |t.es| < MAX_ROWS || ups[|ups| - 1].yto <= Last(t.es).yto
    ensures var es' := Accept(t, ups[|ups| - 1]).es; Tops(es', ups) && Increasing(es') && |es'| <= MAX_ROWS
  {
    var n := |ups| - 1;
    assert forall j :: 0 <= j < n ==> ups[j] == ups[..n][j];
  }

  lemma CountsIffAccepted(es: seq<Entry>, ups: seq<Upload>)
    requires ups != [] && Faithful(es, ups[..|ups| - 1]) && Tops(es, ups[..|ups| - 1])
    ensures Counts(ups, |ups| - 1) <==> (es == [] || Last(es).yto <= ups[|ups| - 1].yto)
  {
    var n := |ups| - 1;
    assert forall j :: 0 <= j < n ==> ups[j] == ups[..n][j];
    if es != [] {
      assert Last(es).yto in Endpoints(es);
      var i :| 0 <= i < n && Counts(ups[..n], i) && ups[..n][i].yto == Last(es).yto;
    }
  }

  lemma AcceptRoom(es: seq<Entry>, ups: seq<Upload>)
    requires ups != [] && |Words(ups)| <= MAX_ROWS
    requires Faithful(es, ups[..|ups| - 1]) && Tops(es, ups[..|ups| - 1])
    ensures es == [] || |es| < MAX_ROWS || ups[|ups| - 1].yto <= Last(es).yto
  {
    var n := |ups| - 1;
    if es != [] && Last(es).yto < ups[n].yto {
      WordsStep(ups);
      CountsIffAccepted(es, ups);
      EndpointsCount(es);
      assert ups[n].yto !in Endpoints(es);
    }
  }

  lemma AcceptValue(t: Table, ups: seq<Upload>, i: nat, p: nat)
    requires ups != [] && Good(t, ups[..|ups| - 1]) && p < 2
    requires t.es == [] || |t.es| < MAX_ROWS || ups[|ups| - 1].yto <= Last(t.es).yto
    requires i < |Accept(t, ups[|ups| - 1]).es|
    ensures var e := Accept(t, ups[|ups| - 1]).es[i];
            e.Vd(p) == Latest(ups, e.yto, p)
  {
    var n := |ups| - 1;
    var u, es, es' := ups[n], t.es, Accept(t, ups[n]).es;
    CountsIffAccepted(es, ups);
    if i == |es'| - 1 && (es == [] || Last(es).yto < u.yto) {
      assert forall j :: 0 <= j < n ==> ups[j] == ups[..n][j];
      LatestAbsent(ups[..n], u.yto, p);
    } else {
      assert es'[i].yto == es[i].yto && es[i].Vd(p) == Latest(ups[..n], es[i].yto, p);
    }
  }

  lemma LatestAbsent(ups: seq<Upload>, y: word, p: nat)
    requires forall j :: 0 <= j < |ups| ==> ups[j].yto < y
    ensures Latest(ups, y, p) == 0.0
  {
  }

  lemma EndpointsOfAccept(t: Table, u: Upload)
    requires t.es == [] || |t.es| < MAX_ROWS || u.yto <= Last(t.es).yto
    ensures Endpoints(Accept(t, u).es) ==
            Endpoints(t.es) + (if t.es == [] || Last(t.es).yto <= u.yto then {u.yto} else {})
  {
    var es, es' := t.es, Accept(t, u).es;
    forall w | w in Endpoints(es') ensures w in Endpoints(es) + {u.yto} {
      var i :| 0 <= i < |es'| && es'[i].yto == w;
      if i < |es| { assert es[i].yto == w; }
    }
    forall w | w in Endpoints(es) ensures w in Endpoints(es') {
      var i :| 0 <= i < |es| && es[i].yto == w;
      assert es'[i].yto == w;
    }
    if t.es == [] || Last(t.es).yto <= u.yto { assert Last(es').yto == u.yto; }
  }

  lemma {:induction false} FoldBounded(ups: seq<Upload>)
    ensures |Fold(ups).es| <= MAX_ROWS
  {
    if ups != [] { FoldBounded(ups[..|ups| - 1]); }
  }

  /** A run of uploads leaves the table it ought to exactly when it names no more than 255
      distinct words that count: the row count is one byte, and the 256th row empties it. */
  lemma UploadsFaithfulIff(ups: seq<Upload>)
    ensures Faithful(Fold(ups).es, ups) <==> |Words(ups)| <= MAX_ROWS
  {
    FoldBounded(ups);
    if Faithful(Fold(ups).es, ups) {
      EndpointsCount(Fold(ups).es);
    }
    if |Words(ups)| <= MAX_ROWS {
      FoldGood(ups);
    }
  }

  /** The shortest run that loses every limit: 256 increasing words. */
  lemma FullTableWrapsToEmpty(vd: real)
    ensures var ups := seq(MAX_ROWS + 1, i requires 0 <= i <= MAX_ROWS => Upload(2, i, vd, ZERO));
            Fold(ups).es == [] && |Words(ups)| == MAX_ROWS + 1
  {
    var ups := seq(MAX_ROWS + 1, i requires 0 <= i <= MAX_ROWS => Upload(2, i, vd, ZERO));
    IncreasingRun(ups, MAX_ROWS);
    assert ups[..|ups|] == ups;
    assert ups[..|ups| - 1] == ups[..MAX_ROWS];
    var all := seq(MAX_ROWS + 1, i requires 0 <= i <= MAX_ROWS => Entry(i, vd, vd));
    EndpointsCount(all);
    assert Words(ups) == Endpoints(all) by {
      forall w | w in Endpoints(all) ensures w in Words(ups) {
        var i :| 0 <= i < |all| && all[i].yto == w;
        assert Counts(ups, i) && ups[i].yto == w;
      }
      forall w | w in Words(ups) ensures w in Endpoints(all) {
        assert all[w].yto == w;
      }
    }
  }

  lemma {:induction false} IncreasingRun(ups: seq<Upload>, n: nat)
    requires n <= |ups| && n <= MAX_ROWS
    requires forall i :: 0 <= i < |ups| ==> ups[i].yto == i
    ensures |Fold(ups[..n]).es| == n
    ensures n > 0 ==> Last(Fold(ups[..n]).es).yto == n - 1
  {
    if n > 0 {
      IncreasingRun(ups, n - 1);
      assert ups[..n][..n - 1] == ups[..n - 1];
    }
  }

  // ----- Limits already in force ------------------------------------------

  /** No upload of the run appends a 256th row. */
  ghost predicate NoWrap(t: Table, ups: seq<Upload>) {
    ups != [] ==>
      var before := Run(t, ups[..|ups| - 1]).es;
      && NoWrap(t, ups[..|ups| - 1])
      && !(|before| == MAX_ROWS && Last(before).yto < ups[|ups| - 1].yto)
  }

  /** An upload above the last endpoint leaves the limit as it was at every tuning word up
      to that endpoint, unless it wraps the row count; overwriting the last row, at every word
      up to the row before it; a rejected upload everywhere. */
  lemma UploadKeepsLimitsBelow(t: Table, u: Upload, y: word)
    requires t.es != [] && Increasing(t.es)
    requires Last(t.es).yto == u.yto ==> |t.es| >= 2 && y <= t.es[|t.es| - 2].yto
    requires Last(t.es).yto < u.yto ==> |t.es| != MAX_ROWS && y <= Last(t.es).yto
    ensures Lookup(Accept(t, u).es, y) == Lookup(t.es, y)
  {
    if u.yto == Last(t.es).yto {
      PrefixDecides(t.es[..|t.es| - 1], t.es, y);
      PrefixDecides(t.es[..|t.es| - 1], Accept(t, u).es, y);
    } else if Last(t.es).yto < u.yto {
      PrefixDecides(t.es, Accept(t, u).es, y);
    }
  }

  /** Uploading never disturbs the limits below the table's last two rows, however many
      entries follow, as long as the row count does not wrap. */
  lemma UploadsKeepLimitsBelow(t: Table, ups: seq<Upload>, y: word)
    requires |t.es| >= 2 && |t.es| <= MAX_ROWS && Increasing(t.es) && NoWrap(t, ups)
    requires y <= t.es[|t.es| - 2].yto
    ensures Lookup(Run(t, ups).es, y) == Lookup(t.es, y)
  {
    RunExtends(t, ups);
    var kept, es := t.es[..|t.es| - 1], Run(t, ups).es;
    assert kept <= es && y <= Last(kept).yto;
    PrefixDecides(kept, t.es, y);
    PrefixDecides(kept, es, y);
  }

  lemma {:induction false} RunExtends(t: Table, ups: seq<Upload>)
    requires t.es != [] && |t.es| <= MAX_ROWS && Increasing(t.es) && NoWrap(t, ups)
    ensures var es := Run(t, ups).es;
            t.es[..|t.es| - 1] <= es && |t.es| <= |es| <= MAX_ROWS && Increasing(es)
  {
    if ups != [] { RunExtends(t, ups[..|ups| - 1]); }
  }

  /** The ranges the CAN decoder enforces carry over to every limit ever looked up. */
  lemma UploadedLimitsInRange(ups: seq<Upload>, y: word, pol: nat, hi: real)
    requires 0.0 <= hi
    requires forall i :: 0 <= i < |ups| ==> 0.0 <= ups[i].vd <= hi && InRange([ups[i].junk], 0.0, hi)
    requires Fold(ups).es != []
    ensures 0.0 <= Limit(Fold(ups).es, y, pol) <= hi
  {
    FoldInRange(ups, hi);
    LimitInRange(Fold(ups).es, y, pol, 0.0, hi);
  }

  lemma {:induction false} FoldInRange(ups: seq<Upload>, hi: real)
    requires 0.0 <= hi
    requires forall i :: 0 <= i < |ups| ==> 0.0 <= ups[i].vd <= hi && InRange([ups[i].junk], 0.0, hi)
    ensures InRange(Fold(ups).es, 0.0, hi)
  {
    if ups != [] {
      var n := |ups| - 1;
      FoldInRange(ups[..n], hi);
      assert [ups[n].junk][0] == ups[n].junk;
    }
  }

  // ----- Which polarization an upload sets ------------------------------------

  /** An upload that is neither rejected nor wraps the row count sets the limit at its tuning word
      for the polarizations it names: 0 the first, 1 the second, 2 both. The other one keeps the
      value of the row it is merged into, and is zero in a new row of a clean table. */
  lemma UploadSetsNamedPolarizations(t: Table, u: Upload)
    requires Increasing(t.es)
    requires t.es == [] || u.yto == Last(t.es).yto || (u.yto > Last(t.es).yto && |t.es| < 255)
    ensures var es' := Accept(t, u).es;
            && es' != []
            && (u.pol == 0 || u.pol == 2 ==> Limit(es', u.yto, 0) == u.vd)
            && (u.pol == 1 || u.pol == 2 ==> Limit(es', u.yto, 1) == u.vd)
            && (t.es != [] && u.yto == Last(t.es).yto && u.pol == 0 ==> Limit(es', u.yto, 1) == Last(t.es).vd1)
            && (t.es != [] && u.yto == Last(t.es).yto && u.pol == 1 ==> Limit(es', u.yto, 0) == Last(t.es).vd0)
            && (t.clean && (t.es == [] || u.yto > Last(t.es).yto) && u.pol == 0 ==> Limit(es', u.yto, 1) == 0.0)
            && (t.clean && (t.es == [] || u.yto > Last(t.es).yto) && u.pol == 1 ==> Limit(es', u.yto, 0) == 0.0)
  {
    var es' := Accept(t, u).es;
    assert Last(es').yto == u.yto;
    LookupTotal(es', u.yto);
    if |es'| > 1 { assert es'[0].yto < u.yto by { assert es'[0] == t.es[0]; } }
    assert Lookup(es', u.yto) == Some(Last(es'));
  }
}
