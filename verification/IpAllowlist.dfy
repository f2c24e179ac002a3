/**
 * The IP allow list: exact addresses and IPv4 CIDR entries, with the 32-bit masks of
 * the code (section 3.1 of RFC 4632 for what a prefix means).
 */
module IpAllowlist {
  import opened Wrappers
  import opened Int32

  /** JavaScript's trim, toLowerCase and Number; None stands for NaN and the infinities. */
  datatype Js = Js(trim: string -> string, lower: string -> string, number: string -> Option<real>)

  // ---- Text ---------------------------------------------------------------

  function Split(text: string, separator: char): (parts: seq<string>)
    ensures |parts| >= 1
  {
    if |text| == 0 then [""]
    else
      var rest := Split(text[1..], separator);
      if text[0] == separator then [""] + rest else [[text[0]] + rest[0]] + rest[1..]
  }

  function Joined(parts: seq<string>, separator: char): string {
    if |parts| == 0 then "" else if |parts| == 1 then parts[0] else parts[0] + [separator] + Joined(parts[1..], separator)
  }

  /** The parts, with a separator between them, are the text again, and none of them holds a separator. */
  lemma {:induction false} SplitMeaning(text: string, separator: char)
    ensures Joined(Split(text, separator), separator) == text
    ensures forall i :: 0 <= i < |Split(text, separator)| ==> separator !in Split(text, separator)[i]
    decreases |text|
  {
    if |text| > 0 {
      var rest := Split(text[1..], separator);
      SplitMeaning(text[1..], separator);
      assert text == [text[0]] + text[1..];
      if text[0] == separator {
        assert ([""] + rest)[1..] == rest;
      } else {
        var parts := [[text[0]] + rest[0]] + rest[1..];
        assert parts[1..] == rest[1..];
        assert forall i :: 0 < i < |parts| ==> parts[i] == rest[i];
        if |rest| > 1 {
          assert [text[0]] + (rest[0] + [separator] + Joined(rest[1..], separator))
              == [text[0]] + rest[0] + [separator] + Joined(rest[1..], separator);
        }
      }
    }
  }

  /** A text of some parts without separators splits into these parts. */
  lemma {:induction false} JoinedSplits(parts: seq<string>, separator: char)
    requires |parts| > 0 && forall i :: 0 <= i < |parts| ==> separator !in parts[i]
    ensures Split(Joined(parts, separator), separator) == parts
    decreases |parts|
  {
    var rest := parts[1..];
    if |parts| == 1 {
      SplitFirst(parts[0], separator, None);
    } else {
      JoinedSplits(rest, separator);
      SplitFirst(parts[0], separator, Some(Joined(rest, separator)));
      assert parts[0] + ([separator] + Joined(rest, separator)) == Joined(parts, separator);
      assert [parts[0]] + rest == parts;
    }
  }

  lemma {:induction false} SplitFirst(first: string, separator: char, more: Option<string>)
    requires separator !in first
    ensures more.None? ==> Split(first, separator) == [first]
    ensures more.Some? ==> Split(first + ([separator] + more.value), separator) == [first] + Split(more.value, separator)
    decreases |first|
  {
    if |first| == 0 {
      if more.Some? {
        assert first + ([separator] + more.value) == [separator] + more.value;
        assert ([separator] + more.value)[1..] == more.value;
      }
    } else {
      SplitFirst(first[1..], separator, more);
      assert first[0] in first && first == [first[0]] + first[1..];
      if more.Some? {
        var text := first + ([separator] + more.value);
        assert text[1..] == first[1..] + ([separator] + more.value);
      }
    }
  }

  function NormalizeIp(js: Js, ip: string): string {
    var trimmed := js.lower(js.trim(ip));
    if "::ffff:" <= trimmed then trimmed[7..] else trimmed
  }

  /** An address in its IPv4-mapped form, trimmed and in lower case, is read as the address. */
  lemma NormalizeMeaning(js: Js, ip: string)
    ensures var plain := js.lower(js.trim(ip));
            && (forall rest :: plain == "::ffff:" + rest ==> NormalizeIp(js, ip) == rest)
            && (!("::ffff:" <= plain) ==> NormalizeIp(js, ip) == plain)
  {
    var plain := js.lower(js.trim(ip));
    forall rest | plain == "::ffff:" + rest ensures NormalizeIp(js, ip) == rest {
      assert |"::ffff:"| == 7 && plain[7..] == rest;
    }
  }

  lemma MappedNormalizesAlike(js: Js, ip: string)
    requires js.trim(ip) == ip && js.lower(ip) == ip && !("::ffff:" <= ip)
    requires var mapped := "::ffff:" + ip; js.trim(mapped) == mapped && js.lower(mapped) == mapped
    ensures NormalizeIp(js, "::ffff:" + ip) == NormalizeIp(js, ip) == ip
  {
    NormalizeMeaning(js, ip);
    NormalizeMeaning(js, "::ffff:" + ip);
  }

  // ---- Addresses ----------------------------------------------------------

  /** Number.isInteger(value) and 0 <= value <= 255. */
  function Octet(js: Js, text: string): (r: Option<nat>)
    ensures r.Some? ==> r.value < 256
  {
    match js.number(text)
    case None => None
    case Some(x) => if x == x.Floor as real && 0.0 <= x <= 255.0 then Some(x.Floor) else None
  }

  /** An octet is a text that reads as an integer from 0 to 255, with that value. */
  lemma OctetMeaning(js: Js, text: string)
    ensures forall n: nat :: Octet(js, text) == Some(n) <==> n <= 255 && js.number(text) == Some(n as real)
  {
  }

  predicate AllOctets(js: Js, octets: seq<string>) {
    forall i :: 0 <= i < |octets| ==> Octet(js, octets[i]).Some?
  }

  /** The base-256 value, most significant octet first. */
  function Value(js: Js, octets: seq<string>): nat {
    if |octets| == 0 then 0
    else Value(js, octets[..|octets| - 1]) * 256 + Octet(js, octets[|octets| - 1]).GetOr(0)
  }

  /** Four integers from 0 to 255; anything else is no IPv4 address. */
  function Ipv4(js: Js, ip: string): Option<nat> {
    var octets := Split(ip, '.');
    if |octets| == 4 && AllOctets(js, octets) then Some(Value(js, octets)) else None
  }

  lemma {:induction false} ValueBound(js: Js, octets: seq<string>)
    ensures Value(js, octets) < Pow2(8 * |octets|)
    decreases |octets|
  {
    if |octets| > 0 {
      ValueBound(js, octets[..|octets| - 1]);
      EightMore(8 * |octets| - 8);
    }
  }

  lemma EightMore(n: nat)
    ensures Pow2(n + 8) == 256 * Pow2(n)
  {
    assert Pow2(n + 2) == 4 * Pow2(n) && Pow2(n + 4) == 4 * Pow2(n + 2) && Pow2(n + 6) == 4 * Pow2(n + 4);
  }

  /** a.b.c.d is a * 2^24 + b * 2^16 + c * 2^8 + d. */
  lemma Ipv4IsBase256(js: Js, ip: string)
    ensures var o := Split(ip, '.');
            Ipv4(js, ip).Some? ==>
              && |o| == 4 && AllOctets(js, o)
              && Ipv4(js, ip).value == Octet(js, o[0]).value * 0x100_0000 + Octet(js, o[1]).value * 0x1_0000
                                       + Octet(js, o[2]).value * 0x100 + Octet(js, o[3]).value
              && Ipv4(js, ip).value < 0x1_0000_0000
  {
    var o := Split(ip, '.');
    if Ipv4(js, ip).Some? {
      assert o[..3][..2] == o[..2] && o[..2][..1] == o[..1] && o[..1][..0] == [];
      assert Value(js, o[..3]) == Value(js, o[..2]) * 256 + Octet(js, o[2]).value;
      assert Value(js, o[..2]) == Value(js, o[..1]) * 256 + Octet(js, o[1]).value;
      assert Value(js, o[..1]) == Value(js, o[..1][..0]) * 256 + Octet(js, o[0]).value;
      ValueBound(js, o);
      Powers();
    }
  }

  /** (result << 8) | value, while the result has at most three octets. */
  lemma PutOctet(result: int, value: nat)
    requires value < 256 && ToUint32(result) < 0x100_0000
    ensures ToUint32(Or(Shl(result, 8), value)) == ToUint32(result) * 256 + value
  {
    var u := ToUint32(result);
    Powers();
    assert Pow2(24) == 0x100_0000;
    ShiftedWord(result, 8);
    LowOfSmall(u, 24);
    OrWord(Shl(result, 8), value, 8);
    OrFillsGap(u, value, 8);
    LeftEight(u);
  }

  lemma LeftEight(u: nat)
    ensures Left(u, 8) == 256 * u
  {
    assert Left(u, 1) == 2 * Left(u, 0) && Left(u, 2) == 2 * Left(u, 1) && Left(u, 3) == 2 * Left(u, 2);
    assert Left(u, 4) == 2 * Left(u, 3) && Left(u, 5) == 2 * Left(u, 4) && Left(u, 6) == 2 * Left(u, 5);
  }

  method Ipv4ToInt(js: Js, ip: string) returns (r: Option<nat>)
    ensures r == Ipv4(js, ip)
  {
    var octets := Split(ip, '.');
    if |octets| != 4 { return None; }
    var result := 0;
    for i := 0 to 4
      invariant AllOctets(js, octets[..i])
      invariant ToUint32(result) == Value(js, octets[..i])
    {
      var value := Octet(js, octets[i]);
      if value.None? { return None; }
      NextOctet(js, octets, i, result);
      result := Or(Shl(result, 8), value.value);
    }
    assert octets[..4] == octets;
    r := Some(ToUint32(result));
  }

  lemma NextOctet(js: Js, octets: seq<string>, i: nat, result: int)
    requires i < |octets| == 4 && Octet(js, octets[i]).Some? && ToUint32(result) == Value(js, octets[..i])
    ensures ToUint32(Or(Shl(result, 8), Octet(js, octets[i]).value)) == Value(js, octets[..i + 1])
  {
    assert octets[..i + 1][..i] == octets[..i];
    FitsThree(js, octets[..i]);
    PutOctet(result, Octet(js, octets[i]).value);
  }

  lemma FitsThree(js: Js, octets: seq<string>)
    requires |octets| <= 3
    ensures Value(js, octets) < 0x100_0000
  {
    ValueBound(js, octets);
    PowerGrows(8 * |octets|, 24);
    Powers();
    assert Pow2(24) == 0x100_0000;
  }

  // ---- Masks --------------------------------------------------------------

  function Bit(a: nat, i: nat): nat {
    Right(a, i) % 2
  }

  /** The first `prefix` of 32 bits, most significant first, are equal. */
  predicate AgreeOnPrefix(a: nat, b: nat, prefix: nat)
    requires prefix <= 32
  {
    forall i :: 32 - prefix <= i < 32 ==> Bit(a, i) == Bit(b, i)
  }

  lemma {:induction false} SameBits(a: nat, b: nat, k: nat, n: nat)
    requires k <= n && Right(a, n) == Right(b, n) == 0
    ensures Right(a, k) == Right(b, k) <==> forall i :: k <= i < n ==> Bit(a, i) == Bit(b, i)
    decreases n - k
  {
    if k < n {
      RightOne(a, k);
      RightOne(b, k);
      SameBits(a, b, k + 1, n);
      if Right(a, k) != Right(b, k) && Right(a, k + 1) == Right(b, k + 1) { assert Bit(a, k) != Bit(b, k); }
    }
  }

  lemma RightOne(a: nat, k: nat)
    ensures Right(a, k + 1) == Right(a, k) / 2
  {
    RightRight(a, k, 1);
    assert Right(Right(a, k), 1) == Right(Right(a, k) / 2, 0);
  }

  lemma WordEnds(a: nat)
    requires a < 0x1_0000_0000
    ensures Right(a, 32) == 0
  {
    Powers();
    RightBound(a, 32, 0);
  }

  /** (0xffffffff << k) >>> 0: 32 - k ones above k zeros. */
  lemma MaskOf(k: nat)
    requires k < 32
    ensures Pow2(k) <= Pow2(32) && ToUint32(Shl(0xffff_ffff, k)) == Pow2(32) - Pow2(k)
  {
    assert Pow2(32) == 0x1_0000_0000 by { Powers(); }
    assert ToUint32(0xffff_ffff) == 0xffff_ffff;
    ShiftedWord(0xffff_ffff, k);
    LowOfOnes(32, 32 - k);
    LeftOfOnes(32 - k, k);
    PowerGrows(k, 32);
  }

  lemma HalfOfOdd(x: int)
    ensures (2 * x + 1) / 2 == x && (2 * x + 1) % 2 == 1
  {
  }

  lemma {:induction false} LowOfOnes(n: nat, k: nat)
    requires k <= n
    ensures Low(Pow2(n) - 1, k) == Pow2(k) - 1
    decreases k
  {
    if k > 0 {
      var half := Pow2(n - 1);
      assert Pow2(n) - 1 == 2 * (half - 1) + 1;
      HalfOfOdd(half - 1);
      LowOfOnes(n - 1, k - 1);
    }
  }

  lemma {:induction false} LeftOfOnes(n: nat, k: nat)
    ensures Left(Pow2(n) - 1, k) == Pow2(n + k) - Pow2(k)
    decreases k
  {
    if k > 0 { LeftOfOnes(n, k - 1); }
  }

  /** Rounding to the nearest integer, ties to the even one. */
  function RoundEven(x: real): int {
    var f := x.Floor;
    var rest := x - f as real;
    if rest < 0.5 || (rest == 0.5 && f % 2 == 0) then f else f + 1
  }

  const GRID := 281_474_976_710_656.0

  /**
   * 32 - prefix on IEEE 754 doubles. From 16 on the difference of doubles is exact;
   * below, it lies between 16 and 32, where doubles are the multiples of 2^-48.
   */
  function Minus32(prefix: real): real {
    if prefix >= 16.0 then 32.0 - prefix else RoundEven((32.0 - prefix) * GRID) as real / GRID
  }

  /** A double from 16 to 32 is a multiple of 2^-48, and so is its difference: at most 53 bits, nothing to round. */
  lemma DifferenceIsExact(prefix: real, n: int)
    requires 16.0 <= prefix <= 32.0 && prefix == n as real / GRID
    ensures 0 <= 9_007_199_254_740_992 - n <= 0x10_0000_0000_0000
    ensures 32.0 - prefix == (9_007_199_254_740_992 - n) as real / GRID
  {
  }

  /** The shift count: truncated, and taken modulo 32 by the shift. */
  function ShiftCount(prefix: real): (k: nat)
    ensures k < 32
  {
    Minus32(prefix).Floor % 32
  }

  /** The number of leading bits a prefix compares. */
  function PrefixBits(prefix: real): (n: nat)
    ensures n <= 32
  {
    if prefix == 0.0 then 0 else 32 - ShiftCount(prefix)
  }

  /** The least integer that is not less. */
  function Ceiling(x: real): int {
    if x == x.Floor as real then x.Floor else x.Floor + 1
  }

  /** Below 16 the difference keeps the fraction unless that is within half a grid step. */
  lemma RoundedFloor(prefix: real)
    requires 0.0 < prefix < 16.0
    ensures Minus32(prefix).Floor ==
            if prefix == prefix.Floor as real || prefix - prefix.Floor as real > 1.0 / 562_949_953_421_312.0
            then 32 - Ceiling(prefix) else 32 - prefix.Floor
  {
    var m := prefix.Floor;
    var t := prefix - m as real;
    var y := (32.0 - prefix) * GRID;
    var top := (32 - m) * 281_474_976_710_656;
    assert y == top as real - t * GRID;
    var r := RoundEven(y);
    if t == 0.0 {
      assert y.Floor == top && r == top;
      QuotientFloor(r, 32 - m);
    } else if t > 1.0 / 562_949_953_421_312.0 {
      assert t * GRID > 0.5 && t * GRID < GRID;
      assert top - 281_474_976_710_656 <= r < top;
      QuotientFloor(r, 31 - m);
    } else {
      assert 0.0 < t * GRID <= 0.5;
      assert y.Floor == top - 1;
      assert r == top;
      QuotientFloor(r, 32 - m);
    }
  }

  lemma QuotientFloor(r: int, q: int)
    requires q * 281_474_976_710_656 <= r < (q + 1) * 281_474_976_710_656
    ensures (r as real / GRID).Floor == q
  {
  }

  /**
   * A prefix that is not an integer counts as the next one if and only if it is at
   * least 16 or its fraction exceeds 2^-49.
   */
  lemma PrefixIsCeilingIff(prefix: real)
    requires 0.0 <= prefix <= 32.0
    ensures PrefixBits(prefix) == Ceiling(prefix) <==>
              prefix == prefix.Floor as real || prefix >= 16.0 || prefix - prefix.Floor as real > 1.0 / 562_949_953_421_312.0
  {
    if 0.0 < prefix < 16.0 { RoundedFloor(prefix); }
  }

  /** Otherwise the fraction is lost: the prefix counts as its integer part, and as 32 when that is 0. */
  lemma TinyFractionIsLost(prefix: real)
    requires 0.0 < prefix < 16.0
    requires 0.0 < prefix - prefix.Floor as real <= 1.0 / 562_949_953_421_312.0
    ensures PrefixBits(prefix) == if prefix < 1.0 then 32 else prefix.Floor
  {
    RoundedFloor(prefix);
  }

  /** prefix === 0 ? 0 : (0xffffffff << (32 - prefix)) >>> 0. */
  function Mask(prefix: real): nat {
    if prefix == 0.0 then 0 else ToUint32(Shl(0xffff_ffff, ShiftCount(prefix)))
  }

  lemma {:induction false} LeftInjective(a: nat, b: nat, k: nat)
    requires Left(a, k) == Left(b, k)
    ensures a == b
    decreases k
  {
    if k > 0 { LeftInjective(a, b, k - 1); }
  }

  /** x & mask clears the low k bits; as signed integers two such values are equal exactly when the bits above are. */
  lemma MaskedEqual(a: nat, b: nat, k: nat)
    requires a < 0x1_0000_0000 && b < 0x1_0000_0000 && k < 32
    ensures var mask := ToUint32(Shl(0xffff_ffff, k));
            And(a, mask) == And(b, mask) <==> Right(a, k) == Right(b, k)
  {
    MaskOf(k);
    MaskedWord(a, k);
    MaskedWord(b, k);
    if Left(Right(a, k), k) == Left(Right(b, k), k) { LeftInjective(Right(a, k), Right(b, k), k); }
  }

  lemma MaskedWord(a: nat, k: nat)
    requires a < 0x1_0000_0000 && k < 32
    ensures ToUint32(And(a, ToUint32(Shl(0xffff_ffff, k)))) == Left(Right(a, k), k)
  {
    var m := ToUint32(Shl(0xffff_ffff, k));
    MaskOf(k);
    Cleared(a, m, k);
    AndWord(a, m);
  }

  lemma Cleared(a: nat, m: nat, k: nat)
    requires a < 0x1_0000_0000 && k < 32 && m == Pow2(32) - Pow2(k)
    ensures BitAnd(a, m) == Left(Right(a, k), k) <= a
  {
    WordBits(a);
    AndHighBits(a, 32, k);
    SplitJoins(a, k);
  }

  lemma AndWord(a: nat, m: nat)
    requires a < 0x1_0000_0000 && m < 0x1_0000_0000 && BitAnd(a, m) <= a
    ensures ToUint32(And(a, m)) == BitAnd(a, m)
  {
    WordItself(a);
    WordItself(m);
    WordItself(BitAnd(a, m));
  }

  lemma WordItself(u: nat)
    requires u < 0x1_0000_0000
    ensures ToUint32(u) == u == ToUint32(ToInt32(u))
  {
  }

  /**
   * For every prefix from 0 to 32, the signed comparison of the masked addresses is
   * true exactly when the addresses agree on their first `prefix` bits.
   */
  lemma MaskMeaning(a: nat, b: nat, prefix: real)
    requires a < 0x1_0000_0000 && b < 0x1_0000_0000 && 0.0 <= prefix <= 32.0
    ensures And(a, Mask(prefix)) == And(b, Mask(prefix)) <==> AgreeOnPrefix(a, b, PrefixBits(prefix))
  {
    var k := 32 - PrefixBits(prefix);
    WordEnds(a);
    WordEnds(b);
    SameBits(a, b, k, 32);
    if prefix == 0.0 {
      AndZero(a);
      AndZero(b);
    } else {
      MaskedEqual(a, b, k);
    }
  }

  lemma AndZero(a: int)
    ensures And(a, 0) == 0
  {
  }

  // ---- Entries ------------------------------------------------------------

  /** What a CIDR entry allows; text after a second slash is ignored. */
  predicate CidrAllows(js: Js, ip: string, cidr: string) {
    PartsAllow(js, ip, Split(cidr, '/'))
  }

  predicate PartsAllow(js: Js, ip: string, parts: seq<string>) {
    |parts| >= 2 && parts[0] != "" && parts[1] != ""
    && js.number(parts[1]).Some? && 0.0 <= js.number(parts[1]).value <= 32.0
    && Ipv4(js, ip).Some? && Ipv4(js, NormalizeIp(js, parts[0])).Some?
    && AgreeOnPrefix(Ipv4(js, ip).value, Ipv4(js, NormalizeIp(js, parts[0])).value, PrefixBits(js.number(parts[1]).value))
  }

  /** What one line of the list allows. */
  predicate EntryAllows(js: Js, rawIp: string, entry: string) {
    var ip, trimmed := NormalizeIp(js, rawIp), js.trim(entry);
    trimmed != "" && if '/' in trimmed then CidrAllows(js, ip, trimmed) else NormalizeIp(js, trimmed) == ip
  }

  /**
   * A CIDR entry with an integer prefix n, and anything after a second slash, allows
   * exactly the addresses equal to its own above the low 32 - n bits.
   */
  lemma CidrMeaning(js: Js, ip: string, range: string, prefix: string, more: seq<string>, n: nat)
    requires '/' !in range && '/' !in prefix && (forall i :: 0 <= i < |more| ==> '/' !in more[i])
    requires range != "" && prefix != "" && js.number(prefix) == Some(n as real) && n <= 32
    requires Ipv4(js, ip).Some? && Ipv4(js, NormalizeIp(js, range)).Some?
    ensures var a, b := Ipv4(js, ip).value, Ipv4(js, NormalizeIp(js, range)).value;
            CidrAllows(js, ip, Joined([range, prefix] + more, '/')) <==> Right(a, 32 - n) == Right(b, 32 - n)
  {
    var a, b := Ipv4(js, ip).value, Ipv4(js, NormalizeIp(js, range)).value;
    JoinedSplits([range, prefix] + more, '/');
    assert PrefixBits(n as real) == n by { PrefixIsCeilingIff(n as real); }
    Ipv4IsBase256(js, ip);
    Ipv4IsBase256(js, NormalizeIp(js, range));
    WordEnds(a);
    WordEnds(b);
    SameBits(a, b, 32 - n, 32);
  }

  /** It allows nothing when a part is missing or empty, the prefix is no number from 0 to 32, or an address is none. */
  lemma PartsRefused(js: Js, ip: string, parts: seq<string>)
    requires |parts| < 2 || parts[0] == "" || parts[1] == ""
             || js.number(parts[1]).None? || js.number(parts[1]).value < 0.0 || 32.0 < js.number(parts[1]).value
             || Ipv4(js, ip).None? || Ipv4(js, NormalizeIp(js, parts[0])).None?
    ensures !PartsAllow(js, ip, parts)
  {
  }

  lemma CidrRefused(js: Js, ip: string, parts: seq<string>)
    requires |parts| > 0 && forall i :: 0 <= i < |parts| ==> '/' !in parts[i]
    requires |parts| < 2 || parts[0] == "" || parts[1] == ""
             || js.number(parts[1]).None? || js.number(parts[1]).value < 0.0 || 32.0 < js.number(parts[1]).value
             || Ipv4(js, ip).None? || Ipv4(js, NormalizeIp(js, parts[0])).None?
    ensures !CidrAllows(js, ip, Joined(parts, '/'))
  {
    PartsRefused(js, ip, parts);
    JoinedSplits(parts, '/');
  }

  /** An entry without a slash allows its own address only, an empty one nothing, one with a slash what its range holds. */
  lemma EntryMeaning(js: Js, rawIp: string, entry: string)
    ensures js.trim(entry) == "" ==> !EntryAllows(js, rawIp, entry)
    ensures js.trim(entry) != "" && '/' !in js.trim(entry) ==>
              (EntryAllows(js, rawIp, entry) <==> NormalizeIp(js, rawIp) == NormalizeIp(js, js.trim(entry)))
    ensures '/' in js.trim(entry) ==> (EntryAllows(js, rawIp, entry) <==> CidrAllows(js, NormalizeIp(js, rawIp), js.trim(entry)))
  {
  }

  method MatchesCidr(js: Js, ip: string, cidr: string) returns (r: bool)
    ensures r <==> CidrAllows(js, ip, cidr)
  {
    var parts := Split(cidr, '/');
    if |parts| < 2 || parts[0] == "" || parts[1] == "" { return false; }
    var prefix := js.number(parts[1]);
    var ipInt := Ipv4ToInt(js, ip);
    var rangeInt := Ipv4ToInt(js, NormalizeIp(js, parts[0]));
    if ipInt.None? || rangeInt.None? || prefix.None? || prefix.value < 0.0 || prefix.value > 32.0 { return false; }
    var mask := Mask(prefix.value);
    Ipv4IsBase256(js, ip);
    Ipv4IsBase256(js, NormalizeIp(js, parts[0]));
    MaskMeaning(ipInt.value, rangeInt.value, prefix.value);
    r := And(ipInt.value, mask) == And(rangeInt.value, mask);
  }

  /** True exactly when some entry of the list allows the address. */
  method IsIpAllowed(js: Js, rawIp: string, allowlist: seq<string>) returns (r: bool)
    ensures r <==> exists i :: 0 <= i < |allowlist| && EntryAllows(js, rawIp, allowlist[i])
  {
    var ip := NormalizeIp(js, rawIp);
    for i := 0 to |allowlist|
      invariant forall k :: 0 <= k < i ==> !EntryAllows(js, rawIp, allowlist[k])
    {
      var trimmed := js.trim(allowlist[i]);
      if trimmed == "" { continue; }
      if '/' in trimmed {
        var matches := MatchesCidr(js, ip, trimmed);
        if matches { return true; }
        continue;
      }
      if NormalizeIp(js, trimmed) == ip { return true; }
    }
    r := false;
  }
}
