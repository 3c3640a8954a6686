/** The CAN messages that load and clear the limits tables: a decoder that shifts the
    payload in place, and the round trip it completes. */
module CanPaLimits {
  import opened Common
  import opened PaLimits
  import opened PaUploads
  import opened PaLimitsTable

  const BANDS := 10
  const YTO_MAX := 4095
  const VD_MAX := 2.5

  /** How four bytes, least significant first, read as a C `float`. */
  type FloatView = seq<byte> -> real

  datatype Request = Request(pol: byte, yto: word, vd: real)

  function Reversed4(s: seq<byte>): seq<byte>
    requires |s| == 4
  {
    [s[3], s[2], s[1], s[0]]
  }

  function WordOf(high: byte, low: byte): word {
    0x100 * (high as int) + (low as int)
  }

  /** The payload read as polarization, big-endian word, big-endian float. */
  function Decode(d: seq<byte>, flt: FloatView): Option<Request>
    requires |d| == 8
  {
    var yto := WordOf(d[1], d[2]);
    var vd := flt(Reversed4(d[3..7]));
    if d[0] <= 2 && yto <= YTO_MAX && 0.0 <= vd <= VD_MAX then Some(Request(d[0], yto, vd)) else None
  }

  function Encode(pol: byte, yto: word, value: seq<byte>): (d: seq<byte>)
    requires |value| == 4
    ensures |d| == 8
  {
    [pol, yto / 0x100, yto % 0x100] + Reversed4(value) + [0]
  }

  /** Whatever is encoded is handed on unchanged, or dropped exactly when one of the three
      values is out of range. */
  lemma DecodeEncode(pol: byte, yto: word, value: seq<byte>, flt: FloatView)
    requires |value| == 4
    ensures Decode(Encode(pol, yto, value), flt) ==
            if pol <= 2 && yto <= YTO_MAX && 0.0 <= flt(value) <= VD_MAX
            then Some(Request(pol, yto, flt(value))) else None
  {
    var d := Encode(pol, yto, value);
    assert d[3..7] == Reversed4(value);
    assert Reversed4(Reversed4(value)) == value;
    assert WordOf(d[1], d[2]) == yto;
  }

  /** Byte by byte: the polarization, the word with its high byte first, and the four bytes of the
      float, most significant first; the last byte is not looked at. */
  lemma DecodeBytes(p: byte, h: byte, l: byte, b0: byte, b1: byte, b2: byte, b3: byte, x: byte, flt: FloatView)
    ensures var v, w := flt([b3, b2, b1, b0]), 0x100 * (h as int) + l as int;
            Decode([p, h, l, b0, b1, b2, b3, x], flt) ==
            if p <= 2 && w <= 4095 && 0.0 <= v <= 2.5 then Some(Request(p, w, v)) else None
  {
    var d := [p, h, l, b0, b1, b2, b3, x];
    assert d[3..7] == [b0, b1, b2, b3];
    assert Reversed4(d[3..7]) == [b3, b2, b1, b0];
  }

  lemma EncodeBytes(pol: byte, yto: word, value: seq<byte>)
    requires |value| == 4
    ensures var d := Encode(pol, yto, value);
            && d[0] == pol && 0x100 * (d[1] as int) + d[2] as int == yto
            && d[3] == value[3] && d[4] == value[2] && d[5] == value[1] && d[6] == value[0]
  {
  }

  /** The uploads that a run of messages makes; `junk(i)` is what the memory of the next row
      holds when message `i` arrives. */
  function Uploads(ds: seq<seq<byte>>, flt: FloatView, junk: nat -> Entry): seq<Upload>
    requires forall i :: 0 <= i < |ds| ==> |ds[i]| == 8
  {
    if ds == [] then []
    else
      Uploads(ds[..|ds| - 1], flt, junk) +
      match Decode(ds[|ds| - 1], flt)
      case None => []
      case Some(q) => [Upload(q.pol, q.yto, q.vd, junk(|ds| - 1))]
  }

  /** Whatever messages arrive, every limit the table then gives lies between 0 and 2.5 V, if
      the memory it reuses held such values; for the live tables that is an invariant of the
      message handlers below. */
  lemma MessagesGiveSafeLimits(ds: seq<seq<byte>>, flt: FloatView, junk: nat -> Entry, y: word, pol: nat)
    requires forall i :: 0 <= i < |ds| ==> |ds[i]| == 8
    requires forall i :: 0 <= i < |ds| ==> InRange([junk(i)], 0.0, VD_MAX)
    requires Fold(Uploads(ds, flt, junk)).es != []
    ensures 0.0 <= Limit(Fold(Uploads(ds, flt, junk)).es, y, pol) <= VD_MAX
  {
    UploadsInRange(ds, flt, junk);
    UploadedLimitsInRange(Uploads(ds, flt, junk), y, pol, VD_MAX);
  }

  lemma {:induction false} UploadsInRange(ds: seq<seq<byte>>, flt: FloatView, junk: nat -> Entry)
    requires forall i :: 0 <= i < |ds| ==> |ds[i]| == 8
    requires forall i :: 0 <= i < |ds| ==> InRange([junk(i)], 0.0, VD_MAX)
    ensures forall u :: u in Uploads(ds, flt, junk) ==>
      0.0 <= u.vd <= VD_MAX && u.yto <= YTO_MAX && u.pol <= 2 && InRange([u.junk], 0.0, VD_MAX)
  {
    if ds != [] { UploadsInRange(ds[..|ds| - 1], flt, junk); }
  }

  /** Reverse the order of the bytes of a float. */
  method ChangeEndian(destination: array<byte>, source: array<byte>)
    requires destination != source && destination.Length >= 4 && source.Length >= 4
    modifies destination
    ensures destination[..4] == [source[3], source[2], source[1], source[0]]
    ensures destination[4..] == old(destination[4..])
  {
    destination[3] := source[0];
    destination[2] := source[1];
    destination[1] := source[2];
    destination[0] := source[3];
  }

  /** Swap the bytes of each of two words. */
  method ChangeEndianInt(destination: array<byte>, source: array<byte>)
    requires destination != source && destination.Length >= 4 && source.Length >= 4
    modifies destination
    ensures destination[..4] == [source[1], source[0], source[3], source[2]]
    ensures destination[4..] == old(destination[4..])
  {
    destination[3] := source[2];
    destination[2] := source[3];
    destination[1] := source[0];
    destination[0] := source[1];
  }

  class CanInterface {
    const data: array<byte>
    const convert: array<byte>
    const tables: seq<LimitsTable>

    ghost predicate Valid()
      reads this, set t | t in tables, set t | t in tables :: t.table
    {
      && data.Length == 8 && convert.Length == 4 && data != convert && |tables| == BANDS
      && (forall i :: 0 <= i < BANDS ==> tables[i].Valid())
      && (forall i, j :: 0 <= i < j < BANDS ==> tables[i] != tables[j])
      && (forall i, j :: 0 <= i < j < BANDS && tables[i].table != null ==> tables[i].table != tables[j].table)
    }

    /** Every row of every table's memory, in use or not, holds maxima a message may carry. */
    ghost predicate Safe()
      reads this, set t | t in tables, set t | t in tables :: t.table
    {
      forall i :: 0 <= i < |tables| ==> tables[i].RowsWithin(VD_MAX)
    }

    constructor (tables: seq<LimitsTable>)
      requires |tables| == BANDS && forall i :: 0 <= i < BANDS ==> tables[i].Valid()
      requires forall i, j :: 0 <= i < j < BANDS ==> tables[i] != tables[j]
      requires forall i, j :: 0 <= i < j < BANDS && tables[i].table != null ==> tables[i].table != tables[j].table
      ensures Valid() && this.tables == tables && fresh(data) && fresh(convert)
    {
      this.tables := tables;
      data := new byte[8](_ => 0);
      convert := new byte[4](_ => 0);
    }

    method ClearPaLimits(band: nat)
      requires Valid() && band < BANDS
      modifies tables[band]
      ensures Valid() && tables[band].View() == PaUploads.Table([], true)
      ensures forall i :: 0 <= i < BANDS && i != band ==> tables[i].View() == old(tables[i].View())
      ensures old(Safe()) ==> Safe()
    {
      tables[band].Reset();
    }

    /** Read one entry out of the payload, shifting it twice in place. */
    method DecodeEntry(flt: FloatView) returns (q: Option<Request>)
      requires data.Length == 8 && convert.Length == 4 && data != convert
      modifies data, convert
      ensures q == Decode(old(data[..]), flt)
    {
      ghost var d := data[..];
      var pol := data[0];
      if pol > 2 {
        return None;
      }
      data[0] := data[1];
      data[1] := data[2];
      ChangeEndianInt(convert, data);
      assert convert[..4][0] == d[2] && convert[..4][1] == d[1];
      var ytoTuning := WordOf(convert[1], convert[0]);
      if ytoTuning > YTO_MAX {
        return None;
      }
      data[0] := data[3];
      data[1] := data[4];
      data[2] := data[5];
      data[3] := data[6];
      ChangeEndian(convert, data);
      assert data[..4] == d[3..7];
      assert convert[..] == convert[..4];
      var maxVD := flt(convert[..]);
      if maxVD < 0.0 || maxVD > VD_MAX {
        return None;
      }
      return Some(Request(pol, ytoTuning, maxVD));
    }

    /** The message handler: decode, then add to the addressed band's table. */
    method SetPaLimitsEntry(band: nat, flt: FloatView, memory: bool) returns (r: Status)
      requires Valid() && band < BANDS
      modifies data, convert, tables[band], tables[band].table
      ensures Valid()
      ensures forall i :: 0 <= i < BANDS && i != band ==> tables[i].View() == old(tables[i].View())
      ensures match Decode(old(data[..]), flt)
              case None => r == Error && tables[band].View() == old(tables[band].View())
              case Some(q) =>
                var t := Accept(old(tables[band].View()), Upload(q.pol, q.yto, q.vd, old(tables[band].NextRow())));
                || (tables[band].Entries() == t.es && (t.clean ==> tables[band].Clean()))
                || (!memory && r == Error && tables[band].Entries() == [])
      ensures old(Safe()) ==> Safe()
    {
      var q := DecodeEntry(flt);
      if q.None? {
        return Error;
      }
      r := AddDecoded(band, q.value, memory);
    }

    /** Hand a decoded entry to the addressed band's table. */
    method AddDecoded(band: nat, q: Request, memory: bool) returns (r: Status)
      requires Valid() && band < BANDS && 0.0 <= q.vd <= VD_MAX
      modifies tables[band], tables[band].table
      ensures Valid()
      ensures forall i :: 0 <= i < BANDS && i != band ==> tables[i].View() == old(tables[i].View())
      ensures var t := Accept(old(tables[band].View()), Upload(q.pol, q.yto, q.vd, old(tables[band].NextRow())));
              || (tables[band].Entries() == t.es && (t.clean ==> tables[band].Clean()))
              || (!memory && r == Error && tables[band].Entries() == [])
      ensures old(Safe()) ==> Safe()
    {
      r := tables[band].AddEntry(q.pol, q.yto, q.vd, memory);
    }
  }

  /** So whatever messages have arrived since the tables were cleared, memory reused or not,
      every limit any live table gives lies between 0 and 2.5 V. */
  lemma LiveTablesGiveSafeLimits(can: CanInterface, band: nat, y: word, pol: nat)
    requires can.Valid() && can.Safe() && band < BANDS && can.tables[band].Entries() != []
    ensures 0.0 <= Limit(can.tables[band].Entries(), y, pol) <= VD_MAX
  {
    LiveLimitsInRange(can.tables[band], y, pol, VD_MAX);
  }
}
