/** Single-bit fields of a 16-bit register. */
module Bits {

  predicate OneBit(m: bv16) {
    m == 0x1 || m == 0x2 || m == 0x4 || m == 0x8 || m == 0x10
  }

  function With(r: bv16, m: bv16, on: bool): bv16 {
    if on then r | m else r & !m
  }

  predicate Has(r: bv16, m: bv16) { r & m != 0 }

  lemma SetClear(r: bv16, m: bv16)
    ensures (r | m) & m == m && (r & !m) & m == 0
  {
  }

  lemma Apart(r: bv16, m: bv16, k: bv16)
    requires m & k == 0
    ensures (r | m) & k == r & k && (r & !m) & k == r & k
  {
  }

  lemma OneBitsApart(m: bv16, k: bv16)
    requires OneBit(m) && OneBit(k)
    ensures m == k || m & k == 0
  {
  }

  /** Writing a one-bit field sets that field and leaves every other one alone. */
  lemma FieldsIndependent(r: bv16, m: bv16, k: bv16, on: bool)
    requires OneBit(m) && OneBit(k)
    ensures Has(With(r, m, on), k) <==> if m == k then on else Has(r, k)
  {
    if m == k {
      SetClear(r, m);
      assert m != 0;
    } else {
      OneBitsApart(m, k);
      Apart(r, m, k);
    }
  }
}
