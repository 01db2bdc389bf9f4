/** Address ranges and the two searches of an allocation: internal/allocation and ensureAllocation. */
module Addresses {
  import opened Prelude

  /** netip.Addr without zones.  An IPv4 address written in IPv6 form is an IPv6 address here. */
  datatype Addr = Addr4(bits: nat) | Addr6(bits: nat) | Invalid

  const LAST4: nat := 0xFFFF_FFFF
  const LAST6: nat := 0xFFFF_FFFF_FFFF_FFFF_FFFF_FFFF_FFFF_FFFF

  predicate IsAddr(a: Addr) {
    match a
    case Addr4(bits) => bits <= LAST4
    case Addr6(bits) => bits <= LAST6
    case Invalid => true
  }

  /** Addr.Less: shorter addresses first. */
  predicate Less(a: Addr, b: Addr) {
    if a.Invalid? || b.Invalid? then a.Invalid? && !b.Invalid?
    else if a.Addr4? == b.Addr4? then a.bits < b.bits
    else a.Addr4?
  }

  /** Addr.Next: after the last address of a family comes the invalid one. */
  function Following(a: Addr): Addr {
    match a
    case Addr4(bits) => if bits >= LAST4 then Invalid else Addr4(bits + 1)
    case Addr6(bits) => if bits >= LAST6 then Invalid else Addr6(bits + 1)
    case Invalid => Invalid
  }

  datatype Range = Range(addresses: seq<Ip>) | Unparsable | NotOrdered | TooLarge

  /** Every address from `first` to `last`, ascending. */
  function Span(first: Ip, last: Ip): (s: seq<Ip>)
    requires first <= last
    ensures |s| == last - first + 1
    ensures forall i :: 0 <= i < |s| ==> s[i] == first + i
  {
    seq(last - first + 1, i requires i >= 0 => first + i)
  }

  predicate IsRange(first: Option<Addr>, last: Option<Addr>) {
    && first.Some? && last.Some? && first.value.Addr4? && last.value.Addr4? && first.value.bits <= last.value.bits
  }

  /**
    allocation.Addresses: the loop collects addresses until it meets the last one, and gives up once it has more
    than a binary million.  It succeeds exactly on ordered IPv4 ranges of at most 2^20 + 1 addresses.
   */
  method Enumerate(first: Option<Addr>, last: Option<Addr>) returns (range: Range)
    requires (first.Some? ==> IsAddr(first.value)) && (last.Some? ==> IsAddr(last.value))
    ensures range.Range? <==> IsRange(first, last) && last.value.bits - first.value.bits + 1 <= 0x10_0000 + 1
    ensures range.Range? ==> range.addresses == Span(first.value.bits, last.value.bits)
    ensures range.TooLarge? <==> IsRange(first, last) && last.value.bits - first.value.bits + 1 > 0x10_0000 + 1
    ensures range.Unparsable? <==> first.None? || last.None?
  {
    if first.None? || last.None? {
      return Unparsable;
    }
    var start, end := first.value, last.value;
    if !start.Addr4? || !end.Addr4? || Less(end, start) {
      return NotOrdered;
    }
    var addresses: seq<Ip> := [];
    var current := start;
    while true
      invariant current.Addr4? && current.bits == start.bits + |addresses| && current.bits <= end.bits
      invariant |addresses| <= 0x10_0000
      invariant forall i :: 0 <= i < |addresses| ==> addresses[i] == start.bits + i
      decreases end.bits - current.bits
    {
      addresses := addresses + [current.bits];
      if current == end {
        break;
      }
      if current.Invalid? || |addresses| > 0x10_0000 {
        return TooLarge;
      }
      current := Following(current);
    }
    range := Range(addresses);
  }

  // ----- first fit

  /** The least address of the range that nobody holds. */
  ghost predicate IsFirstFree(first: Ip, last: Ip, held: set<Ip>, a: Ip) {
    first <= a <= last && a !in held && forall b :: first <= b < a ==> b in held
  }

  ghost predicate AllHeld(first: Ip, last: Ip, held: set<Ip>) {
    forall b :: first <= b <= last ==> b in held
  }

  /** The search for an address: one query per candidate, in order. */
  method FirstFree(addresses: seq<Ip>, held: set<Ip>) returns (found: Option<Ip>)
    ensures found.Some? ==> exists i :: 0 <= i < |addresses| && addresses[i] == found.value
                                        && found.value !in held && forall j :: 0 <= j < i ==> addresses[j] in held
    ensures found.None? <==> forall i :: 0 <= i < |addresses| ==> addresses[i] in held
  {
    found := None;
    for i := 0 to |addresses|
      invariant found.None? && forall j :: 0 <= j < i ==> addresses[j] in held
    {
      var used := addresses[i] in held;
      if !used {
        found := Some(addresses[i]);
        break;
      }
    }
  }

  const MAC_CANDIDATES: nat := 65536

  /** The search for a MAC address: the candidates of one resource by counter. */
  method FirstFreeMac(candidates: seq<Mac>, held: set<Mac>) returns (found: Option<Mac>)
    requires |candidates| == MAC_CANDIDATES
    ensures found.Some? ==> exists i :: 0 <= i < |candidates| && candidates[i] == found.value
                                        && found.value !in held && forall j :: 0 <= j < i ==> candidates[j] in held
    ensures found.None? <==> forall i :: 0 <= i < |candidates| ==> candidates[i] in held
  {
    found := None;
    var counter := 0;
    while counter < MAC_CANDIDATES
      invariant counter <= MAC_CANDIDATES
      invariant found.None? && forall j :: 0 <= j < counter ==> candidates[j] in held
    {
      var used := candidates[counter] in held;
      if !used {
        found := Some(candidates[counter]);
        break;
      }
      counter := counter + 1;
    }
  }

  /** Enumerating and searching: the least free address, or exhaustion exactly when every address is held. */
  method FindAddress(first: Option<Addr>, last: Option<Addr>, held: set<Ip>) returns (range: Range, found: Option<Ip>)
    requires (first.Some? ==> IsAddr(first.value)) && (last.Some? ==> IsAddr(last.value))
    ensures range.Range? <==> IsRange(first, last) && last.value.bits - first.value.bits + 1 <= 0x10_0000 + 1
    ensures range.Range? ==>
              if found.Some? then IsFirstFree(first.value.bits, last.value.bits, held, found.value)
              else AllHeld(first.value.bits, last.value.bits, held)
  {
    range := Enumerate(first, last);
    found := None;
    if range.Range? {
      found := FirstFree(range.addresses, held);
      FirstFreeInSpan(first.value.bits, last.value.bits, held, found);
    }
  }

  lemma FirstFreeInSpan(first: Ip, last: Ip, held: set<Ip>, found: Option<Ip>)
    requires first <= last
    requires var s := Span(first, last);
             && (found.Some? ==> exists i :: 0 <= i < |s| && s[i] == found.value && found.value !in held
                                             && forall j :: 0 <= j < i ==> s[j] in held)
             && (found.None? ==> forall i :: 0 <= i < |s| ==> s[i] in held)
    ensures if found.Some? then IsFirstFree(first, last, held, found.value) else AllHeld(first, last, held)
  {
    var s := Span(first, last);
    if found.Some? {
      var i :| 0 <= i < |s| && s[i] == found.value && found.value !in held && forall j :: 0 <= j < i ==> s[j] in held;
      forall b | first <= b < found.value ensures b in held {
        assert s[b - first] == b;
      }
    } else {
      forall b | first <= b <= last ensures b in held {
        assert s[b - first] == b;
      }
    }
  }

  /** A range with all its addresses held needs that many holders. */
  lemma {:induction false} HoldersOfFullRange(first: Ip, last: Ip, held: set<Ip>)
    requires first <= last + 1 && AllHeld(first, last, held)
    ensures |held| >= last + 1 - first
    decreases last + 1 - first
  {
    if first <= last {
      assert first in held;
      HoldersOfFullRange(first + 1, last, held - {first});
    }
  }

  /** Pigeonhole: fewer other holders than addresses rules exhaustion out. */
  lemma FewHoldersLeaveRoom(first: Ip, last: Ip, held: set<Ip>)
    requires first <= last && |held| < last - first + 1
    ensures !AllHeld(first, last, held)
  {
    if AllHeld(first, last, held) {
      HoldersOfFullRange(first, last, held);
    }
  }
}
