/** The limits table as the firmware keeps it: a heap array that grows by eight rows, a
    row count and an allocation count of one byte each, and the search over it. */
module PaLimitsTable {
  import opened Common
  import opened PaLimits
  import opened PaUploads

  const GROWTH := 8

  class LimitsTable {
    var table: array?<Entry>
    var size: byte
    var capacity: byte

    /** The stored allocation is the array's length modulo 256. */
    ghost predicate Valid()
      reads this, table
    {
      if table == null then size == 0 && capacity == 0
      else 0 < table.Length && capacity == table.Length % 0x100 && size <= table.Length
    }

    ghost function Entries(): (es: seq<Entry>)
      requires Valid()
      reads this, table
      ensures |es| == size
    {
      if table == null then [] else table[..size]
    }

    /** Every unused row is still zero. */
    ghost predicate Clean()
      requires Valid()
      reads this, table
    {
      table != null ==> forall i :: size <= i < table.Length ==> table[i] == ZERO
    }

    ghost function View(): PaUploads.Table
      requires Valid()
      reads this, table
    {
      PaUploads.Table(Entries(), Clean())
    }

    /** What the memory of the next row holds: zero when that memory has not been used yet. */
    ghost function NextRow(): Entry
      requires Valid()
      reads this, table
    {
      if table == null || (size != 0 && size == capacity) then ZERO else table[size]
    }

    /** Every row of the memory, in use or not, holds maxima between zero and `hi`. */
    ghost predicate RowsWithin(hi: real)
      reads this, table
    {
      table != null ==> InRange(table[..], 0.0, hi)
    }

    constructor ()
      ensures Valid() && View() == PaUploads.Table([], true) && table == null
    {
      table, size, capacity := null, 0, 0;
    }

    method Reset()
      modifies this
      ensures Valid() && table == null && View() == PaUploads.Table([], true)
    {
      table, size, capacity := null, 0, 0;
    }

    static method AssignEntry(a: array<Entry>, i: nat, pol: byte, yto: word, maxVD: real)
      requires i < a.Length
      modifies a
      ensures a[..] == old(a[..])[i := Assign(old(a[i]), Upload(pol, yto, maxVD, ZERO))]
      ensures a[i] == Entry(yto, if pol == 0 || pol == 2 then maxVD else old(a[i].vd0), if pol == 1 || pol == 2 then maxVD else old(a[i].vd1))
      ensures forall hi :: 0.0 <= maxVD <= hi && old(InRange(a[..], 0.0, hi)) ==> InRange(a[..], 0.0, hi)
    {
      a[i] := a[i].(yto := yto);
      if pol == 0 || pol == 2 {
        a[i] := a[i].(vd0 := maxVD);
      }
      if pol == 1 || pol == 2 {
        a[i] := a[i].(vd1 := maxVD);
      }
    }

    /** Add one entry. `memory` says whether an allocation made by this call would succeed. */
    method AddEntry(pol: byte, yto: word, maxVD: real, memory: bool) returns (r: Status)
      requires Valid()
      modifies this, table
      ensures Valid() && (table == old(table) || table == null || fresh(table))
      ensures
        var t := Accept(old(View()), Upload(pol, yto, maxVD, old(NextRow())));
        || (Entries() == t.es && (t.clean ==> Clean()))
        || (!memory && r == Error && Entries() == [])
      ensures memory ==> (r == Error <==> old(Entries()) != [] && yto < Last(old(Entries())).yto)
      ensures forall hi :: 0.0 <= maxVD <= hi && old(RowsWithin(hi)) ==> RowsWithin(hi)
      ensures r == NoError || r == Error
    {
      if table == null {
        if !memory {
          Reset();
          return Error;
        }
        table, size, capacity := new Entry[GROWTH](_ => ZERO), 0, GROWTH;
      }
      if size == 0 {
        FirstRow(pol, yto, maxVD);
        return NoError;
      }
      assert table == old(table) && Entries() == old(Entries());
      var last := table[size - 1].yto;
      if yto < last {
        return Error;
      } else if yto == last {
        Merge(pol, yto, maxVD);
        return NoError;
      }
      r := Append(pol, yto, maxVD, memory);
    }

    /** The first row of an empty table. */
    method FirstRow(pol: byte, yto: word, maxVD: real)
      requires Valid() && table != null && size == 0
      modifies this, table
      ensures Valid() && table == old(table)
      ensures Entries() == [Assign(old(table[0]), Upload(pol, yto, maxVD, ZERO))] && (old(Clean()) ==> Clean())
      ensures forall hi :: 0.0 <= maxVD <= hi && old(RowsWithin(hi)) ==> RowsWithin(hi)
    {
      AssignEntry(table, 0, pol, yto, maxVD);
      size := 1;
      assert Entries() == [table[0]];
    }

    /** New maxima for the last row. */
    method Merge(pol: byte, yto: word, maxVD: real)
      requires Valid() && table != null && size > 0
      modifies table
      ensures Valid() && (old(Clean()) ==> Clean())
      ensures Entries() == old(Entries())[..size - 1] + [Assign(old(table[size - 1]), Upload(pol, yto, maxVD, ZERO))]
      ensures forall hi :: 0.0 <= maxVD <= hi && old(RowsWithin(hi)) ==> RowsWithin(hi)
    {
      AssignEntry(table, size - 1, pol, yto, maxVD);
      assert Entries() == old(Entries())[..size - 1] + [table[size - 1]];
    }

    /** Add a row behind the last one, growing the array first when it is full. */
    method Append(pol: byte, yto: word, maxVD: real, memory: bool) returns (r: Status)
      requires Valid() && size > 0
      modifies this, table
      ensures Valid() && (table == old(table) || table == null || fresh(table))
      ensures r == if memory || old(size) != old(capacity) then NoError else Error
      ensures r == Error ==> Entries() == []
      ensures r == NoError ==> table != null && size == (old(size) + 1) % 0x100
      ensures r == NoError && size != 0 ==>
        Entries() == old(Entries()) + [Assign(old(NextRow()), Upload(pol, yto, maxVD, ZERO))]
      ensures r == NoError && size != 0 && old(Clean()) ==> Clean()
      ensures !memory && r == NoError ==> table == old(table)
      ensures forall hi :: 0.0 <= maxVD <= hi && old(RowsWithin(hi)) ==> RowsWithin(hi)
    {
      if size == capacity {
        if !memory {
          Reset();
          return Error;
        }
        Grow();
      }
      AssignEntry(table, size, pol, yto, maxVD);
      size := (size + 1) % 0x100;
      if size != 0 {
        assert table[..size] == old(Entries()) + [table[size - 1]];
      }
      return NoError;
    }

    /** Move the rows into a larger array; the stored allocation wraps. */
    method Grow()
      requires Valid() && table != null && size == capacity
      modifies this
      ensures Valid() && fresh(table) && size == old(size) && size < table.Length
      ensures table[..size] == old(table[..size])
      ensures forall i :: size <= i < table.Length ==> table[i] == ZERO
      ensures forall hi :: 0.0 <= hi && old(RowsWithin(hi)) ==> RowsWithin(hi)
    {
      var wider := new Entry[capacity + GROWTH](_ => ZERO);
      for i := 0 to size
        invariant table == old(table) && unchanged(this) && unchanged(table)
        invariant wider[..i] == table[..i]
        invariant forall j :: i <= j < wider.Length ==> wider[j] == ZERO
      {
        wider[i] := table[i];
      }
      table, capacity := wider, wider.Length % 0x100;
    }

    /** The search. It terminates, and its past-the-end branch is never taken. */
    method FindMaxSafeEntry(yto: word) returns (r: Option<Entry>)
      requires Valid()
      ensures r == Lookup(Entries(), yto)
    {
      if size == 0 || table == null {
        return None;
      }
      var entry := table[0];
      if size == 1 || yto <= entry.yto {
        return Some(entry);
      }
      if yto >= table[size - 1].yto {
        return Some(table[size - 1]);
      }
      ghost var k := FirstAtLeast(Entries(), yto);
      assert Entries()[size - 1].yto > yto;
      var index, done := 0, false;
      var found := Some(entry);
      while !done
        invariant 0 <= index <= k < size
        invariant !done ==> found == Some(table[if index == 0 then 0 else index - 1])
        invariant done ==> found == Lookup(Entries(), yto)
        decreases !done, size - index
      {
        if index >= size {
          found, done := None, true;
        } else {
          var lastEntry := found.value;
          entry := table[index];
          if yto == entry.yto {
            found, done := Some(entry), true;
          } else if lastEntry.yto < yto < entry.yto {
            found, done := Some(Between(lastEntry, entry, yto)), true;
          } else {
            found, index := Some(entry), index + 1;
          }
        }
      }
      return found;
    }
  }

  /** A live table gives no limit outside the range of its memory. */
  lemma LiveLimitsInRange(t: LimitsTable, y: word, pol: nat, hi: real)
    requires t.Valid() && t.RowsWithin(hi) && t.Entries() != []
    ensures 0.0 <= Limit(t.Entries(), y, pol) <= hi
  {
    assert forall i :: 0 <= i < t.size ==> t.table[..][i] == t.Entries()[i];
    LimitInRange(t.Entries(), y, pol, 0.0, hi);
  }
}
