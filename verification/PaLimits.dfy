/** The power-amplifier limits table as a value: what a lookup returns, and what a
    sequence of uploads leaves in it. */
module PaLimits {
  import opened Common

  /** One row: the YTO tuning word and the largest drain voltage of each polarization. */
  datatype Entry = Entry(yto: word, vd0: real, vd1: real) {
    function Vd(pol: nat): real { if pol == 0 then vd0 else vd1 }
  }

  const ZERO := Entry(0, 0.0, 0.0)

  /** Table rows are addressed by an `unsigned char`. */
  const MAX_ROWS := 255

  ghost predicate Increasing(es: seq<Entry>) {
    forall i, j :: 0 <= i < j < |es| ==> es[i].yto < es[j].yto
  }

  function Last(es: seq<Entry>): Entry
    requires es != []
  {
    es[|es| - 1]
  }

  // ----- Lookup -----------------------------------------------------------

  /** Linear interpolation between two neighbouring rows. */
  function Between(lo: Entry, hi: Entry, y: word): Entry
    requires lo.yto < y <= hi.yto
  {
    var f := (y - lo.yto) as real / (hi.yto - lo.yto) as real;
    Entry(y, lo.vd0 + f * (hi.vd0 - lo.vd0), lo.vd1 + f * (hi.vd1 - lo.vd1))
  }

  function FirstAtLeast(es: seq<Entry>, y: word): (i: nat)
    ensures i <= |es|
    ensures forall j :: 0 <= j < i ==> es[j].yto < y
    ensures i < |es| ==> y <= es[i].yto
  {
    if es == [] || y <= es[0].yto then 0 else 1 + FirstAtLeast(es[1..], y)
  }

  /** What the search returns, for any table, ordered or not. */
  function Lookup(es: seq<Entry>, y: word): Option<Entry> {
    if es == [] then None
    else if |es| == 1 || y <= es[0].yto then Some(es[0])
    else if Last(es).yto <= y then Some(Last(es))
    else
      var i := FirstAtLeast(es, y);
      if i == |es| then None
      else if es[i].yto == y then Some(es[i])
      else Some(Between(es[i - 1], es[i], y))
  }

  /** The limit in force for one polarization at one tuning word. */
  function Limit(es: seq<Entry>, y: word, pol: nat): real
    requires es != []
  {
    LookupTotal(es, y);
    Lookup(es, y).value.Vd(pol)
  }

  /** No table with a row in it leaves the search without an answer. */
  lemma LookupTotal(es: seq<Entry>, y: word)
    ensures Lookup(es, y).None? <==> es == []
  {
    if |es| > 1 && es[0].yto < y < Last(es).yto {
      assert es[|es| - 1].yto > y;
    }
  }

  /** The clamped piecewise-linear graph through the rows, stated without the search:
      a point beyond an end, or a point on the chord of a segment that contains `y`. */
  ghost predicate OnGraph(es: seq<Entry>, pol: nat, y: word, v: real)
    requires es != []
  {
    || (y <= es[0].yto && v == es[0].Vd(pol))
    || (Last(es).yto <= y && v == Last(es).Vd(pol))
    || (exists i :: 0 <= i < |es| - 1 && OnChord(es[i], es[i + 1], pol, y, v))
  }

  ghost predicate OnChord(lo: Entry, hi: Entry, pol: nat, y: word, v: real) {
    && lo.yto <= y <= hi.yto
    && (v - lo.Vd(pol)) * (hi.yto - lo.yto) as real == (hi.Vd(pol) - lo.Vd(pol)) * (y - lo.yto) as real
  }

  lemma ChordValue(v: real, lo: real, hi: real, a: real, d: real)
    requires d > 0.0
    ensures (v - lo) * d == (hi - lo) * a <==> v == lo + a / d * (hi - lo)
  {
    var f := a / d;
    assert f * d == a;
    assert f * (hi - lo) * d == (hi - lo) * a;
    if (v - lo) * d == (hi - lo) * a {
      assert ((v - lo) - f * (hi - lo)) * d == 0.0;
    }
  }

  lemma OnChordUnique(lo: Entry, hi: Entry, pol: nat, y: word, v: real)
    requires lo.yto < hi.yto && lo.yto <= y <= hi.yto
    ensures OnChord(lo, hi, pol, y, v) <==>
            v == (if y == lo.yto then lo else if y == hi.yto then hi else Between(lo, hi, y)).Vd(pol)
  {
    ChordValue(v, lo.Vd(pol), hi.Vd(pol), (y - lo.yto) as real, (hi.yto - lo.yto) as real);
  }

  /** On a strictly increasing table the search computes exactly the clamped
      piecewise-linear function through the rows. */
  lemma LookupIsPiecewiseLinear(es: seq<Entry>, pol: nat, y: word, v: real)
    requires es != [] && Increasing(es)
    ensures OnGraph(es, pol, y, v) <==> v == Limit(es, y, pol)
  {
    LookupTotal(es, y);
    forall i | 0 <= i < |es| - 1 && es[i].yto <= y <= es[i + 1].yto
      ensures OnChord(es[i], es[i + 1], pol, y, v) <==> v == Limit(es, y, pol)
    {
      OnChordUnique(es[i], es[i + 1], pol, y, v);
      SegmentLookup(es, y, i);
    }
    if es[0].yto < y < Last(es).yto {
      var i := FirstAtLeast(es, y);
      assert es[i - 1].yto <= y <= es[i - 1 + 1].yto;
    }
  }

  lemma SegmentLookup(es: seq<Entry>, y: word, i: nat)
    requires Increasing(es) && i + 1 < |es| && es[i].yto <= y <= es[i + 1].yto
    ensures Lookup(es, y) ==
            Some(if y == es[i].yto then es[i] else if y == es[i + 1].yto then es[i + 1] else Between(es[i], es[i + 1], y))
  {
    var k := FirstAtLeast(es, y);
    assert k == if y == es[i].yto then i else i + 1;
  }

  lemma BetweenBounds(lo: Entry, hi: Entry, y: word, pol: nat)
    requires lo.yto < y <= hi.yto
    ensures Min(lo.Vd(pol), hi.Vd(pol)) <= Between(lo, hi, y).Vd(pol) <= Max(lo.Vd(pol), hi.Vd(pol))
  {
    var f := (y - lo.yto) as real / (hi.yto - lo.yto) as real;
    assert 0.0 <= f <= 1.0;
    Convex(lo.Vd(pol), hi.Vd(pol), f);
  }

  lemma ProductNonNegative(a: real, b: real)
    requires 0.0 <= a && 0.0 <= b
    ensures 0.0 <= a * b
  {
  }

  lemma Fraction(f: real, x: real, p: real)
    requires 0.0 <= f <= 1.0 && p == f * x
    ensures if 0.0 <= x then 0.0 <= p <= x else x <= p <= 0.0
  {
    var m := if 0.0 <= x then x else -x;
    ProductNonNegative(f, m);
    ProductNonNegative(1.0 - f, m);
    assert (1.0 - f) * m == m - f * m;
    assert f * m == if 0.0 <= x then p else -p;
  }

  lemma Convex(a: real, b: real, f: real)
    requires 0.0 <= f <= 1.0
    ensures Min(a, b) <= a + f * (b - a) <= Max(a, b)
  {
    Fraction(f, b - a, f * (b - a));
  }

  function Min(a: real, b: real): real { if a <= b then a else b }

  function Max(a: real, b: real): real { if a <= b then b else a }

  /** For any table, ordered or not, every limit lies between the values of two rows of
      the table that are equal or adjacent. */
  lemma LimitBetweenNeighbours(es: seq<Entry>, y: word, pol: nat) returns (i: nat, j: nat)
    requires es != []
    ensures i <= j <= i + 1 && j < |es|
    ensures Min(es[i].Vd(pol), es[j].Vd(pol)) <= Limit(es, y, pol) <= Max(es[i].Vd(pol), es[j].Vd(pol))
    ensures es[0].yto < y < Last(es).yto ==> es[i].yto <= y <= es[j].yto
  {
    LookupTotal(es, y);
    if |es| == 1 || y <= es[0].yto {
      i, j := 0, 0;
    } else if Last(es).yto <= y {
      i, j := |es| - 1, |es| - 1;
    } else {
      j := FirstAtLeast(es, y);
      if es[j].yto == y {
        i := j;
      } else {
        i := j - 1;
        BetweenBounds(es[i], es[j], y, pol);
      }
    }
  }

  ghost predicate InRange(es: seq<Entry>, lo: real, hi: real) {
    forall i :: 0 <= i < |es| ==> lo <= es[i].vd0 <= hi && lo <= es[i].vd1 <= hi
  }

  /** Interpolation never leaves the range of the stored maxima. */
  lemma LimitInRange(es: seq<Entry>, y: word, pol: nat, lo: real, hi: real)
    requires es != [] && InRange(es, lo, hi)
    ensures lo <= Limit(es, y, pol) <= hi
  {
    var i, j := LimitBetweenNeighbours(es, y, pol);
  }

  /** If the stored maxima do not decrease along the table, neither does the limit. */
  lemma LimitMonotone(es: seq<Entry>, pol: nat, y: word, z: word)
    requires es != [] && Increasing(es) && y <= z
    requires Rising(es, pol)
    ensures Limit(es, y, pol) <= Limit(es, z, pol)
  {
    var k := FirstAtLeast(es, y);
    if es[0].yto < y && z < Last(es).yto && z < es[k].yto {
      SegmentLookup(es, y, k - 1);
      SegmentLookup(es, z, k - 1);
      BetweenMonotone(es[k - 1], es[k], pol, y, z);
    } else {
      MonotoneAcross(es, pol, y, z);
    }
  }

  lemma Slope(f: real, g: real, x: real)
    requires f <= g && 0.0 <= x
    ensures f * x <= g * x
  {
    ProductNonNegative(g - f, x);
    assert (g - f) * x == g * x - f * x;
  }

  lemma QuotientMonotone(a: real, b: real, d: real)
    requires a <= b && 0.0 < d
    ensures a / d <= b / d
  {
    assert b / d - a / d == (b - a) / d;
    assert 0.0 <= (b - a) / d;
  }

  lemma BetweenMonotone(lo: Entry, hi: Entry, pol: nat, y: word, z: word)
    requires lo.yto < y <= z <= hi.yto && lo.Vd(pol) <= hi.Vd(pol)
    ensures Between(lo, hi, y).Vd(pol) <= Between(lo, hi, z).Vd(pol)
  {
    var d := (hi.yto - lo.yto) as real;
    var f, g := (y - lo.yto) as real / d, (z - lo.yto) as real / d;
    QuotientMonotone((y - lo.yto) as real, (z - lo.yto) as real, d);
    Slope(f, g, hi.Vd(pol) - lo.Vd(pol));
  }

  ghost predicate Rising(es: seq<Entry>, pol: nat) {
    forall i, j :: 0 <= i <= j < |es| ==> es[i].Vd(pol) <= es[j].Vd(pol)
  }

  lemma LimitUpToRow(es: seq<Entry>, pol: nat, y: word, k: nat)
    requires Increasing(es) && Rising(es, pol) && k < |es| && (y <= es[k].yto || k == |es| - 1)
    ensures Limit(es, y, pol) <= es[k].Vd(pol)
  {
    var i, i' := LimitBetweenNeighbours(es, y, pol);
    LookupTotal(es, y);
    assert es[i].Vd(pol) <= es[i'].Vd(pol);
    if es[0].yto < y < Last(es).yto { assert i' <= k || es[k].yto == y; }
  }

  lemma LimitFromRow(es: seq<Entry>, pol: nat, y: word, k: nat)
    requires Increasing(es) && Rising(es, pol) && k < |es| && (es[k].yto <= y || k == 0)
    ensures es[k].Vd(pol) <= Limit(es, y, pol)
  {
    var i, i' := LimitBetweenNeighbours(es, y, pol);
    LookupTotal(es, y);
    assert es[i].Vd(pol) <= es[i'].Vd(pol);
    if es[0].yto < y < Last(es).yto { assert k <= i || es[k].yto == y; }
  }

  /** Tuning words in different segments: a row separates them. */
  lemma MonotoneAcross(es: seq<Entry>, pol: nat, y: word, z: word)
    requires es != [] && Increasing(es) && Rising(es, pol) && y <= z
    requires y <= es[0].yto || Last(es).yto <= z || es[FirstAtLeast(es, y)].yto <= z
    ensures Limit(es, y, pol) <= Limit(es, z, pol)
  {
    var k := if y <= es[0].yto then 0 else if Last(es).yto <= z then |es| - 1 else FirstAtLeast(es, y);
    LimitUpToRow(es, pol, y, k);
    LimitFromRow(es, pol, z, k);
  }

  // ----- Tables that share a prefix --------------------------------------

  /** Rows above `y`'s segment do not matter: a table that only continues another one
      answers the same at every tuning word up to the old last endpoint. */
  lemma PrefixDecides(es: seq<Entry>, fs: seq<Entry>, y: word)
    requires es != [] && es <= fs && Increasing(fs)
    requires y <= Last(es).yto
    ensures Lookup(fs, y) == Lookup(es, y)
  {
    if |es| > 1 && es[0].yto < y {
      var i, k := FirstAtLeast(es, y), FirstAtLeast(fs, y);
      assert fs[i].yto == es[i].yto >= y;
      assert i == k;
    }
  }
}
