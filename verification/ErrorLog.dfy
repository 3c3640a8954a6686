/** The error history: a ring addressed by two wrapping bytes, against a bounded queue. */
module ErrorLog {
  import opened Common

  const CAPACITY := 255
  const NO_MORE_ERRORS: word := 0xFFFF

  /** Module number in the high byte, error number in the low byte. */
  function Code(moduleNo: byte, errorNo: byte): word {
    0x100 * (moduleNo as int) + (errorNo as int)
  }

  // ----- The queue ---------------------------------------------------------

  /** Keep the newest 255 elements. */
  function Newest(q: seq<word>): seq<word> {
    if |q| > CAPACITY then q[|q| - CAPACITY..] else q
  }

  datatype Event = Store(code: word) | Read

  /** Unread errors, errors handed out, and errors lost to overwriting, in order of time. */
  datatype Log = Log(unread: seq<word>, delivered: seq<word>, lost: nat)

  function Step(s: Log, e: Event): Log {
    match e
    case Store(c) =>
      var q := s.unread + [c];
      Log(Newest(q), s.delivered, s.lost + (|q| - |Newest(q)|))
    case Read =>
      if s.unread == [] then s else Log(s.unread[1..], s.delivered + [s.unread[0]], s.lost)
  }

  function Run(events: seq<Event>): Log {
    if events == [] then Log([], [], 0) else Step(Run(events[..|events| - 1]), events[|events| - 1])
  }

  function Stored(events: seq<Event>): seq<word> {
    if events == [] then []
    else
      Stored(events[..|events| - 1]) +
      match events[|events| - 1]
      case Store(c) => [c]
      case Read => []
  }

  /** In every run the unread errors are the latest ones stored, at most 255 of them, and
      every stored error is unread, delivered or lost. */
  lemma {:induction false} UnreadAreNewest(events: seq<Event>)
    ensures var s, all := Run(events), Stored(events);
            && |s.unread| <= CAPACITY
            && |s.delivered| + s.lost + |s.unread| == |all|
            && s.unread == all[|all| - |s.unread|..]
  {
    if events != [] {
      UnreadAreNewest(events[..|events| - 1]);
    }
  }

  /** Nothing is reordered or invented: delivered errors are a subsequence of those stored,
      and the run loses none exactly when delivered and unread together are all of them. */
  lemma {:induction false} LossIffIncomplete(events: seq<Event>)
    ensures var s, all := Run(events), Stored(events);
            s.lost == 0 <==> s.delivered + s.unread == all
  {
    UnreadAreNewest(events);
    var s := Run(events);
    if s.lost == 0 {
      NoLossKeepsAll(events);
    }
  }

  lemma {:induction false} NoLossKeepsAll(events: seq<Event>)
    requires Run(events).lost == 0
    ensures Run(events).delivered + Run(events).unread == Stored(events)
  {
    if events != [] {
      var before := Run(events[..|events| - 1]);
      NoLossKeepsAll(events[..|events| - 1]);
      if events[|events| - 1].Read? && before.unread != [] {
        assert before.delivered + [before.unread[0]] + before.unread[1..] == before.delivered + before.unread;
      }
    }
  }

  /** The positions of the delivered errors in the order of storing. */
  lemma {:induction false} DeliveredInOrder(events: seq<Event>) returns (at: seq<nat>)
    ensures var s, all := Run(events), Stored(events);
            && |at| == |s.delivered|
            && (forall i :: 0 <= i < |at| ==> at[i] < |all| - |s.unread| && all[at[i]] == s.delivered[i])
            && (forall i, j :: 0 <= i < j < |at| ==> at[i] < at[j])
  {
    if events == [] {
      at := [];
    } else {
      var before := events[..|events| - 1];
      UnreadAreNewest(before);
      UnreadAreNewest(events);
      at := DeliveredInOrder(before);
      if events[|events| - 1].Read? && Run(before).unread != [] {
        at := at + [|Stored(before)| - |Run(before).unread|];
      }
    }
  }

  // ----- The ring ----------------------------------------------------------

  /** Arithmetic on slots, modulo 256. */
  function Plus(slot: byte, i: nat): byte
    requires i <= 0x100
  {
    if slot + i < 0x100 then slot + i else slot + i - 0x100
  }

  /** `++` on an unsigned char. */
  function Increment(b: byte): (r: byte)
    ensures r == Plus(b, 1)
  {
    (b + 1) % 0x100
  }

  function Distance(oldest: byte, newest: byte): (n: byte)
    ensures Plus(oldest, n) == newest
  {
    if oldest <= newest then newest - oldest else newest + 0x100 - oldest
  }

  /** The `n` slots from `oldest` on, going round. */
  function Ring(h: seq<word>, oldest: byte, n: byte): (q: seq<word>)
    requires |h| == 0x100
    ensures |q| == n
  {
    seq(n, i requires 0 <= i < n => h[Plus(oldest, i)])
  }

  /** The slot the n-th error since startup is written to. The allocation has 255 slots, and
      every 256th error is written one past its end. */
  function Slot(n: nat): nat {
    if n == 0 then 0 else (Slot(n - 1) + 1) % 0x100
  }

  class ErrorHistory {
    const history: array<word>
    var errorNewest: byte
    var errorOldest: byte
    const errorOn: bool
    /** How many errors have been stored since startup. */
    ghost var stored: nat

    ghost predicate Valid() {
      if errorOn then history.Length == 0x100 else history.Length == 1
    }

    /** With the history disabled a single fixed code can be read, once. */
    ghost predicate Inv()
      reads this, history
    {
      Valid() && (if errorOn then errorNewest == Slot(stored) else errorNewest == 1 && errorOldest <= 1 && history[0] == 1)
    }

    ghost function Unread(): (q: seq<word>)
      requires Inv()
      reads this, history
    {
      if errorOn then Ring(history[..], errorOldest, Distance(errorOldest, errorNewest))
      else if errorOldest == 0 then [1] else []
    }

    constructor (memory: bool)
      ensures Inv() && errorOn == memory && fresh(history)
      ensures Unread() == (if memory then [] else [1]) && stored == 0
    {
      errorOn := memory;
      errorOldest, stored := 0, 0;
      if memory {
        history, errorNewest := new word[0x100](_ => 0), 0;
      } else {
        history, errorNewest := new word[1](_ => 1), 1;
      }
    }

    method StoreError(moduleNo: byte, errorNo: byte)
      requires Inv()
      modifies this, history
      ensures Inv()
      ensures Unread() == if errorOn then Newest(old(Unread()) + [Code(moduleNo, errorNo)]) else old(Unread())
      ensures errorOn ==> stored == old(stored) + 1 && history[..] == old(history[..])[Slot(old(stored)) := Code(moduleNo, errorNo)]
    {
      if errorOn {
        RingStore(history[..], errorOldest, errorNewest, Code(moduleNo, errorNo));
        history[errorNewest] := Code(moduleNo, errorNo);
        assert history[..] == old(history[..])[errorNewest := Code(moduleNo, errorNo)];
        errorNewest, stored := Increment(errorNewest), stored + 1;
        if errorNewest == errorOldest {
          errorOldest := Increment(errorOldest);
        }
      }
    }

    /** GET_ERRORS_NUMBER, computed without a modulo across the wrap. */
    method GetErrorsNumber() returns (n: word)
      requires Inv()
      ensures n == |Unread()|
    {
      if errorNewest >= errorOldest {
        n := errorNewest - errorOldest;
      } else {
        n := 0xFF - (errorOldest - errorNewest) + 1;
      }
    }

    /** GET_NEXT_ERROR. */
    method GetNextError() returns (code: word)
      requires Inv()
      modifies `errorOldest
      ensures Inv()
      ensures old(Unread()) == [] ==> code == NO_MORE_ERRORS && Unread() == []
      ensures old(Unread()) != [] ==> code == old(Unread())[0] && Unread() == old(Unread())[1..]
    {
      if errorNewest == errorOldest {
        code := NO_MORE_ERRORS;
      } else {
        code := history[errorOldest];
        if errorOn {
          RingPop(history[..], errorOldest, errorNewest);
        }
        errorOldest := Increment(errorOldest);
      }
    }
  }

  lemma RingStore(h: seq<word>, oldest: byte, newest: byte, c: word)
    requires |h| == 0x100
    ensures var h', newest' := h[newest := c], Plus(newest, 1);
            var oldest' := if newest' == oldest then Plus(oldest, 1) else oldest;
            Ring(h', oldest', Distance(oldest', newest')) == Newest(Ring(h, oldest, Distance(oldest, newest)) + [c])
  {
    var n := Distance(oldest, newest);
    var q, h', newest' := Ring(h, oldest, n), h[newest := c], Plus(newest, 1);
    if newest' == oldest {
      assert n == CAPACITY && Distance(Plus(oldest, 1), newest') == CAPACITY;
      assert Newest(q + [c]) == q[1..] + [c];
      assert Ring(h', Plus(oldest, 1), CAPACITY) == q[1..] + [c];
    } else {
      assert n < CAPACITY && Distance(oldest, newest') == n + 1;
      assert Newest(q + [c]) == q + [c];
      assert Ring(h', oldest, n + 1) == q + [c];
    }
  }

  lemma RingPop(h: seq<word>, oldest: byte, newest: byte)
    requires |h| == 0x100 && oldest != newest
    ensures var q := Ring(h, oldest, Distance(oldest, newest));
            q[0] == h[oldest] && q[1..] == Ring(h, Plus(oldest, 1), Distance(Plus(oldest, 1), newest))
  {
  }

  /** What GET_NEXT_ERROR answers. */
  function Answer(s: Log): word {
    if s.unread == [] then NO_MORE_ERRORS else s.unread[0]
  }

  /** The marker is never a stored error: module numbers end at 0x41. So in every run it is
      returned exactly when nothing is unread. */
  lemma MarkerIffEmpty(events: seq<Event>)
    requires forall i :: 0 <= i < |events| && events[i].Store? ==> events[i].code < Code(0x42, 0)
    ensures Answer(Run(events)) == NO_MORE_ERRORS <==> Run(events).unread == []
  {
    UnreadAreNewest(events);
    StoredCodes(events);
    var s := Run(events);
    if s.unread != [] {
      assert s.unread[0] == Stored(events)[|Stored(events)| - |s.unread|];
    }
  }

  lemma {:induction false} StoredCodes(events: seq<Event>)
    requires forall i :: 0 <= i < |events| && events[i].Store? ==> events[i].code < Code(0x42, 0)
    ensures forall i :: 0 <= i < |Stored(events)| ==> Stored(events)[i] < Code(0x42, 0)
  {
    if events != [] { StoredCodes(events[..|events| - 1]); }
  }

  lemma {:induction false} SlotPastAllocationIff(n: nat)
    ensures Slot(n) >= CAPACITY <==> n % 0x100 == 0xFF
  {
    SlotIsModulo(n);
  }

  lemma NextByte(m: nat)
    ensures (m % 0x100 + 1) % 0x100 == (m + 1) % 0x100
  {
  }

  lemma {:induction false} SlotIsModulo(n: nat)
    ensures Slot(n) == n % 0x100
  {
    if n > 0 {
      SlotIsModulo(n - 1);
      NextByte(n - 1);
    }
  }

  /** The code carries the module number in its high byte and the error number in its low byte. */
  lemma CodeBytes(moduleNo: byte, errorNo: byte)
    ensures Code(moduleNo, errorNo) / 0x100 == moduleNo && Code(moduleNo, errorNo) % 0x100 == errorNo
  {
  }
}
