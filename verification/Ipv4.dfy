/**
 IPv4 addresses, prefixes and their text.

 The control plane keeps addresses as dotted-decimal text (the IPv4address grammar of
 section 3.2.2 of RFC 3986) and prefixes as an address followed by "/bits" (section 3.1 of
 RFC 4632), and turns them into numbers only to walk a network.  An address is its 32-bit
 value; the one past 255.255.255.255 does not exist.
 */
module Ipv4 {
  import opened Wrappers

  const ADDRESS_COUNT: nat := 0x1_0000_0000

  type Addr = a: nat | a < 0x1_0000_0000

  type Bits = b: nat | b <= 32

  datatype Prefix = Prefix(addr: Addr, bits: Bits)

  // ---------- numbers ----------

  /** The number of addresses in a block with the given prefix length. */
  function BlockSize(bits: Bits): (size: nat)
    ensures size > 0
    decreases 32 - bits
  {
    if bits == 32 then 1 else 2 * BlockSize(bits + 1)
  }

  /** The successor of an address; the last address has none. */
  function Next(a: Addr): Option<Addr> {
    if a + 1 == ADDRESS_COUNT then None else Some(a + 1)
  }

  /** Same leading bits: dividing by the block size drops the host bits. */
  predicate Contains(p: Prefix, a: Addr) {
    a / BlockSize(p.bits) == p.addr / BlockSize(p.bits)
  }

  /** The greatest multiple of size that is at most a. */
  function Floor(a: nat, size: nat): nat
    requires size > 0
  {
    a / size * size
  }

  /** The first number of the block that p.addr lies in. */
  function BlockStart(p: Prefix): nat {
    Floor(p.addr, BlockSize(p.bits))
  }

  /** The first number past the block that p.addr lies in. */
  function BlockEnd(p: Prefix): nat {
    (p.addr / BlockSize(p.bits) + 1) * BlockSize(p.bits)
  }

  /** How many addresses of the block lie strictly above p.addr. */
  function Capacity(p: Prefix): (n: nat) {
    BlockEndIsAnAddressBound(p);
    BlockEnd(p) - 1 - p.addr
  }

  /** The i-th address after p.addr, counting from 0. */
  function Nth(p: Prefix, i: nat): (a: Addr)
    requires i < Capacity(p)
  {
    BlockEndIsAnAddressBound(p);
    p.addr + 1 + i
  }

  lemma BlockSizeOfAll()
    ensures BlockSize(0) == ADDRESS_COUNT
  {
    assert BlockSize(28) == 0x10;
    assert BlockSize(24) == 0x100;
    assert BlockSize(20) == 0x1000;
    assert BlockSize(16) == 0x1_0000;
    assert BlockSize(12) == 0x10_0000;
    assert BlockSize(8) == 0x100_0000;
    assert BlockSize(4) == 0x1000_0000;
  }

  /** Every block size divides the number of addresses. */
  lemma {:induction false} BlockSizeDivides(bits: Bits) returns (blocks: nat)
    ensures blocks * BlockSize(bits) == ADDRESS_COUNT
    decreases bits
  {
    if bits == 0 {
      blocks := 1;
      BlockSizeOfAll();
    } else {
      var b := BlockSizeDivides(bits - 1);
      blocks := 2 * b;
    }
  }

  lemma DivisionBracket(a: nat, size: nat)
    requires size > 0
    ensures a / size * size <= a < (a / size + 1) * size
  {
    assert a == a / size * size + a % size;
  }

  lemma {:induction false} BlockEndIsAnAddressBound(p: Prefix)
    ensures p.addr < BlockEnd(p) <= ADDRESS_COUNT
  {
    var size := BlockSize(p.bits);
    var blocks := BlockSizeDivides(p.bits);
    DivisionBracket(p.addr, size);
    if p.addr / size >= blocks {
      ProductIsMonotone(blocks, p.addr / size, size);
      assert false;
    }
    ProductIsMonotone(p.addr / size + 1, blocks, size);
  }

  lemma ProductIsMonotone(a: nat, b: nat, c: nat)
    requires a <= b
    ensures a * c <= b * c
  {
  }

  lemma QuotientIsMonotone(a: nat, b: nat, size: nat)
    requires a <= b && size > 0
    ensures a / size <= b / size
  {
    DivisionBracket(a, size);
    DivisionBracket(b, size);
    if a / size > b / size {
      ProductIsMonotone(b / size + 1, a / size, size);
    }
  }

  lemma SameQuotient(q: nat, size: nat, b: nat)
    requires size > 0 && b == q * size
    ensures b / size == q
  {
    var d := b / size;
    DivisionBracket(b, size);
    if q > d {
      ProductIsMonotone(d + 1, q, size);
    } else if q < d {
      ProductIsMonotone(q + 1, d, size);
    }
  }

  lemma FloorIsBelow(a: nat, size: nat)
    requires size > 0
    ensures Floor(a, size) <= a
  {
    DivisionBracket(a, size);
  }

  lemma FloorKeepsQuotient(a: nat, size: nat)
    requires size > 0
    ensures Floor(a, size) / size == a / size
  {
    SameQuotient(a / size, size, Floor(a, size));
  }

  lemma FloorIsItsOwn(a: nat, size: nat)
    requires size > 0
    ensures Floor(Floor(a, size), size) == Floor(a, size)
  {
    FloorKeepsQuotient(a, size);
  }

  /** The start of a block is an address of it, and its own block's start. */
  lemma BlockStartIsInTheBlock(p: Prefix)
    ensures BlockStart(p) <= p.addr
    ensures Contains(p, BlockStart(p))
    ensures BlockStart(Prefix(BlockStart(p), p.bits)) == BlockStart(p)
  {
    FloorIsBelow(p.addr, BlockSize(p.bits));
    FloorKeepsQuotient(p.addr, BlockSize(p.bits));
    FloorIsItsOwn(p.addr, BlockSize(p.bits));
  }

  /** Above its own address a prefix contains exactly the numbers below the end of the block. */
  lemma ContainsAbove(p: Prefix, a: Addr)
    requires p.addr <= a
    ensures Contains(p, a) <==> a < BlockEnd(p)
  {
    SameBlock(p.addr, a, BlockSize(p.bits));
  }

  lemma SameBlock(b: nat, a: nat, size: nat)
    requires b <= a && size > 0
    ensures a / size == b / size <==> a < (b / size + 1) * size
  {
    QuotientIsMonotone(b, a, size);
    if a / size == b / size {
      DivisionBracket(a, size);
    } else {
      LaterBlock(b / size, a, size);
    }
  }

  lemma LaterBlock(q: nat, a: nat, size: nat)
    requires size > 0 && q < a / size
    ensures (q + 1) * size <= a
  {
    DivisionBracket(a, size);
    ProductIsMonotone(q + 1, a / size, size);
  }

  /** A prefix contains exactly the numbers of its block. */
  lemma ContainsIsTheBlock(p: Prefix, a: Addr)
    ensures Contains(p, a) <==> BlockStart(p) <= a < BlockEnd(p)
  {
    BlockStartIsInTheBlock(p);
    if BlockStart(p) <= a {
      ContainsAbove(Prefix(BlockStart(p), p.bits), a);
    } else if Contains(p, a) {
      DivisionBracket(a, BlockSize(p.bits));
      assert false;
    }
  }

  // ---------- text ----------

  function Digit(n: nat): (c: char)
    requires n < 10
    ensures '0' <= c <= '9' && c as int - '0' as int == n
  {
    (48 + n) as char
  }

  function ShowOctet(n: nat): (s: string)
    requires n < 256
    ensures 1 <= |s| <= 3
    ensures |s| == 1 <==> n < 10
    ensures |s| == 3 <==> n >= 100
  {
    if n < 10 then [Digit(n)]
    else if n < 100 then [Digit(n / 10), Digit(n % 10)]
    else [Digit(n / 100), Digit(n / 10 % 10), Digit(n % 10)]
  }

  function Octets(a: Addr): (o: seq<nat>)
    ensures |o| == 4 && forall i :: 0 <= i < 4 ==> o[i] < 256
  {
    [a / 256 / 256 / 256, a / 256 / 256 % 256, a / 256 % 256, a % 256]
  }

  function FromOctets(o: seq<nat>): Addr
    requires |o| == 4 && forall i :: 0 <= i < 4 ==> o[i] < 256
  {
    ((o[0] * 256 + o[1]) * 256 + o[2]) * 256 + o[3]
  }

  /** Dotted-decimal text of the leading octets, each followed by a dot. */
  function ShowFields(fields: seq<nat>): string
    requires forall i :: 0 <= i < |fields| ==> fields[i] < 256
  {
    if fields == [] then ""
    else ShowFields(fields[..|fields| - 1]) + ShowOctet(fields[|fields| - 1]) + "."
  }

  /** netip.Addr.String for an IPv4 address. */
  function Show(a: Addr): string {
    ShowFields(Octets(a)[..3]) + ShowOctet(Octets(a)[3])
  }

  /** A left-to-right reader of dotted-decimal text: finished octets, the open one, its length. */
  datatype Reader = Bad | Reading(fields: seq<nat>, octet: nat, length: nat)

  const START := Reading([], 0, 0)

  function Feed(st: Reader, c: char): Reader {
    match st
    case Bad => Bad
    case Reading(fields, octet, length) =>
      if '0' <= c <= '9' then
        if length == 1 && octet == 0 then Bad  // leading zero
        else
          var grown := octet * 10 + (c as int - '0' as int);
          if grown > 255 then Bad else Reading(fields, grown, length + 1)
      else if c == '.' && length > 0 && |fields| < 3 then Reading(fields + [octet], 0, 0)
      else Bad
  }

  function FeedAll(st: Reader, s: string): Reader {
    if s == "" then st else Feed(FeedAll(st, s[..|s| - 1]), s[|s| - 1])
  }

  /** What a reader in state st has consumed. */
  ghost predicate Consumed(st: Reader, s: string) {
    st.Reading? ==>
      && |st.fields| <= 3
      && (forall i :: 0 <= i < |st.fields| ==> st.fields[i] < 256)
      && st.octet < 256
      && (if st.length == 0 then st.octet == 0 && s == ShowFields(st.fields)
          else st.length == |ShowOctet(st.octet)| && s == ShowFields(st.fields) + ShowOctet(st.octet))
  }

  /** netip.ParseAddr restricted to IPv4 text. */
  function ParseAddr(s: string): Option<Addr> {
    var st := FeedAll(START, s);
    ReaderConsumes(s);
    if st.Reading? && |st.fields| == 3 && st.length > 0 then Some(FromOctets(st.fields + [st.octet])) else None
  }

  lemma FeedConsumes(st: Reader, front: string, c: char)
    requires Consumed(st, front)
    ensures Consumed(Feed(st, c), front + [c])
  {
    if st.Reading? && '0' <= c <= '9' {
      FeedDigit(st, front, c);
    } else if st.Reading? && c == '.' {
      var fields := st.fields + [st.octet];
      assert fields[..|fields| - 1] == st.fields;
    }
  }

  lemma FeedDigit(st: Reader, front: string, c: char)
    requires Consumed(st, front) && st.Reading? && '0' <= c <= '9'
    ensures Consumed(Feed(st, c), front + [c])
  {
    var st' := Feed(st, c);
    if st'.Reading? {
      var digit := c as int - '0' as int;
      assert [c] == [Digit(digit)];
      if st.length == 0 {
        assert ShowOctet(st'.octet) == [c];
      } else {
        GrownOctet(st.octet, digit);
        assert ShowFields(st.fields) + ShowOctet(st.octet) + [c] == ShowFields(st.fields) + ShowOctet(st'.octet);
      }
    }
  }

  lemma GrownOctet(n: nat, digit: nat)
    requires n > 0 && digit < 10 && n * 10 + digit < 256
    ensures ShowOctet(n * 10 + digit) == ShowOctet(n) + [Digit(digit)]
  {
  }

  lemma {:induction false} ReaderConsumes(s: string)
    ensures Consumed(FeedAll(START, s), s)
    decreases |s|
  {
    if s != "" {
      var front, c := s[..|s| - 1], s[|s| - 1];
      ReaderConsumes(front);
      FeedConsumes(FeedAll(START, front), front, c);
      assert s == front + [c];
    }
  }

  lemma {:induction false} FeedAllConcat(st: Reader, s: string, t: string)
    ensures FeedAll(st, s + t) == FeedAll(FeedAll(st, s), t)
    decreases |t|
  {
    if t == "" {
      assert s + t == s;
    } else {
      FeedAllConcat(st, s, t[..|t| - 1]);
      assert (s + t)[..|s + t| - 1] == s + t[..|t| - 1];
    }
  }

  lemma FeedOne(st: Reader, a: char)
    ensures FeedAll(st, [a]) == Feed(st, a)
  {
    assert [a][..0] == "";
  }

  lemma FeedTwo(st: Reader, a: char, b: char)
    ensures FeedAll(st, [a, b]) == Feed(Feed(st, a), b)
  {
    FeedOne(st, a);
    assert [a, b][..1] == [a];
  }

  lemma FeedThree(st: Reader, a: char, b: char, c: char)
    ensures FeedAll(st, [a, b, c]) == Feed(Feed(Feed(st, a), b), c)
  {
    FeedTwo(st, a, b);
    assert [a, b, c][..2] == [a, b];
  }

  lemma FeedOctet(fields: seq<nat>, n: nat)
    requires n < 256
    ensures FeedAll(Reading(fields, 0, 0), ShowOctet(n)) == Reading(fields, n, |ShowOctet(n)|)
  {
    var st := Reading(fields, 0, 0);
    if n < 10 {
      FeedOne(st, Digit(n));
    } else if n < 100 {
      FeedTwo(st, Digit(n / 10), Digit(n % 10));
    } else {
      FeedThree(st, Digit(n / 100), Digit(n / 10 % 10), Digit(n % 10));
    }
  }

  lemma {:induction false} FeedFields(fields: seq<nat>)
    requires |fields| <= 3 && forall i :: 0 <= i < |fields| ==> fields[i] < 256
    ensures FeedAll(START, ShowFields(fields)) == Reading(fields, 0, 0)
    decreases |fields|
  {
    if fields != [] {
      var front, n := fields[..|fields| - 1], fields[|fields| - 1];
      FeedFields(front);
      FeedOctet(front, n);
      FeedAllConcat(START, ShowFields(front), ShowOctet(n));
      FeedAllConcat(START, ShowFields(front) + ShowOctet(n), ".");
      assert "."[..0] == "";
      assert front + [n] == fields;
    }
  }

  lemma OctetsInvert(a: Addr)
    ensures FromOctets(Octets(a)) == a
  {
  }

  lemma FromOctetsInvert(o: seq<nat>)
    requires |o| == 4 && forall i :: 0 <= i < 4 ==> o[i] < 256
    ensures Octets(FromOctets(o)) == o
  {
    SplitByte(o[0], o[1]);
    SplitByte(o[0] * 256 + o[1], o[2]);
    SplitByte((o[0] * 256 + o[1]) * 256 + o[2], o[3]);
  }

  lemma SplitByte(q: nat, r: nat)
    requires r < 256
    ensures (q * 256 + r) / 256 == q && (q * 256 + r) % 256 == r
  {
  }

  /** Printing then parsing gives the address back. */
  lemma ParseShow(a: Addr)
    ensures ParseAddr(Show(a)) == Some(a)
  {
    var o := Octets(a);
    FeedFields(o[..3]);
    FeedOctet(o[..3], o[3]);
    FeedAllConcat(START, ShowFields(o[..3]), ShowOctet(o[3]));
    assert o[..3] + [o[3]] == o;
    OctetsInvert(a);
  }

  /** Only the text that an address prints as is parsed as that address. */
  lemma ShowParse(s: string)
    requires ParseAddr(s).Some?
    ensures Show(ParseAddr(s).value) == s
  {
    ReaderConsumes(s);
    var st := FeedAll(START, s);
    var o := st.fields + [st.octet];
    FromOctetsInvert(o);
    assert o[..3] == st.fields;
  }

  /** Distinct addresses never share a text, so text works as a set or map key. */
  lemma ShowInjective(a: Addr, b: Addr)
    requires Show(a) == Show(b)
    ensures a == b
  {
    ParseShow(a);
    ParseShow(b);
  }

  // ---------- prefixes ----------

  /** The position of the last slash, or -1. */
  function LastSlash(s: string): (i: int)
    ensures -1 <= i < |s|
    ensures i >= 0 ==> s[i] == '/'
    ensures forall j :: i < j < |s| ==> s[j] != '/'
  {
    if s == "" then -1
    else if s[|s| - 1] == '/' then |s| - 1
    else LastSlash(s[..|s| - 1])
  }

  /** The prefix length: at most 32, one or two digits, no leading zero. */
  function ParseBits(s: string): Option<Bits> {
    if |s| == 1 && '0' <= s[0] <= '9' then Some(s[0] as int - '0' as int)
    else if |s| == 2 && '1' <= s[0] <= '9' && '0' <= s[1] <= '9' then
      var n := (s[0] as int - '0' as int) * 10 + (s[1] as int - '0' as int);
      if n <= 32 then Some(n) else None
    else None
  }

  /** netip.ParsePrefix restricted to IPv4 text: host bits are kept. */
  function ParsePrefix(s: string): Option<Prefix> {
    var i := LastSlash(s);
    if i < 0 then None
    else
      match (ParseAddr(s[..i]), ParseBits(s[i + 1..]))
      case (Some(addr), Some(bits)) => Some(Prefix(addr, bits))
      case _ => None
  }

  lemma SlashAt(front: string, rest: string)
    requires '/' !in rest
    ensures var s := front + ("/" + rest);
            LastSlash(s) == |front| && s[..|front|] == front && s[|front| + 1..] == rest
  {
    var s := front + ("/" + rest);
    assert s[|front|] == '/';
    assert s[|front| + 1..] == rest;
    forall j | |front| < j < |s|
      ensures s[j] != '/'
    {
      assert s[j] == rest[j - |front| - 1];
    }
  }

  /** An address text followed by a slash and a prefix length parses to the two parts. */
  lemma ParsePrefixOf(addr: Addr, text: string)
    requires ParseBits(text).Some?
    ensures ParsePrefix(Show(addr) + ("/" + text)) == Some(Prefix(addr, ParseBits(text).value))
  {
    SlashAt(Show(addr), text);
    ParseShow(addr);
  }

  /** The text of a prefix length. */
  lemma ParseBitsShow(text: string, bits: Bits)
    ensures ParseBits(text) == Some(bits) <==> text == ShowOctet(bits)
  {
    if text == ShowOctet(bits) {
      assert |text| <= 2;
    }
  }

  lemma PrefixText(s: string, p: Prefix)
    requires ParsePrefix(s) == Some(p)
    ensures s == Show(p.addr) + ("/" + ShowOctet(p.bits))
  {
    var i := LastSlash(s);
    var front, rest := s[..i], s[i + 1..];
    assert ParseAddr(front) == Some(p.addr) && ParseBits(rest) == Some(p.bits);
    ShowParse(front);
    ParseBitsShow(rest, p.bits);
    assert s == front + ("/" + rest);
  }

  /** A text reads as a prefix exactly if it is the address, a slash and the length, in decimal. */
  lemma ParsePrefixIff(s: string, p: Prefix)
    ensures ParsePrefix(s) == Some(p) <==> s == Show(p.addr) + ("/" + ShowOctet(p.bits))
  {
    if ParsePrefix(s) == Some(p) {
      PrefixText(s, p);
    } else {
      ParseBitsShow(ShowOctet(p.bits), p.bits);
      ParsePrefixOf(p.addr, ShowOctet(p.bits));
    }
  }
}
