/** Base 32 without padding (section 6 of RFC 4648), as two loops over a wrapping 32-bit accumulator. */
module Base32 {
  import opened Int32

  type Byte = b: int | 0 <= b < 256
  type Symbol = s: int | 0 <= s < 32

  // ---- Specification: only the bits not yet emitted matter -----------------

  lemma Bounds()
    ensures Pow2(5) == 32 && Pow2(8) == 256 && 0xff == Pow2(8) - 1 && 31 == Pow2(5) - 1
  {
    Powers();
  }

  lemma JoinBound(high: nat, low: nat, n: nat, k: nat)
    requires high < Pow2(n) && low < Pow2(k)
    ensures Join(high, low, k) < Pow2(n + k)
  {
    LeftBound(high, n, k);
  }

  /** `acc` holds the n bits read but not yet emitted. */
  function Enc(bytes: seq<Byte>, acc: nat, n: nat): seq<Symbol>
    requires acc < Pow2(n)
    decreases |bytes|, n
  {
    Bounds();
    if n >= 5 then
      RightBound(acc, n - 5, 5);
      [Right(acc, n - 5)] + Enc(bytes, Low(acc, n - 5), n - 5)
    else if |bytes| > 0 then
      JoinBound(acc, bytes[0], n, 8);
      Enc(bytes[1..], Join(acc, bytes[0], 8), n + 8)
    else if n > 0 then
      LeftBound(acc, n, 5 - n);
      [Left(acc, 5 - n)]
    else []
  }

  /** `acc` holds the m < 8 bits of an unfinished byte. */
  function Dec(symbols: seq<Symbol>, acc: nat, m: nat): seq<Byte>
    requires m < 8 && acc < Pow2(m)
    decreases |symbols|
  {
    if |symbols| == 0 then []
    else
      Bounds();
      JoinBound(acc, symbols[0], m, 5);
      var v := Join(acc, symbols[0], 5);
      if m < 3 then Dec(symbols[1..], v, m + 5)
      else
        RightBound(v, m - 3, 8);
        [Right(v, m - 3)] + Dec(symbols[1..], Low(v, m - 3), m - 3)
  }

  // ---- Round trip ---------------------------------------------------------

  /** The whole bytes in a number of the given length, 0, 8 or 16 bits. */
  function Held(v: nat, bits: nat): seq<int> {
    if bits == 8 then [v] else if bits == 16 then [Right(v, 8), Low(v, 8)] else []
  }

  /** Encoder and decoder are a whole number of bytes apart. */
  predicate InStep(n: nat, m: nat) {
    n + m == 0 || n + m == 8 || n + m == 16
  }

  /** Moving a symbol from the encoder to the decoder keeps the number they hold together. */
  lemma Regroup(accD: nat, accE: nat, n: nat)
    requires n >= 5
    ensures Join(Join(accD, Right(accE, n - 5), 5), Low(accE, n - 5), n - 5) == Join(accD, accE, n)
  {
    var s := Right(accE, n - 5);
    LeftAdds(Left(accD, 5), s, n - 5);
    LeftLeft(accD, 5, n - 5);
    SplitJoins(accE, n - 5);
  }

  lemma RegroupByte(accD: nat, accE: nat, b: nat, n: nat)
    ensures Join(accD, Join(accE, b, 8), n + 8) == Join(Join(accD, accE, n), b, 8)
  {
    LeftAdds(Left(accD, n), accE, 8);
    LeftLeft(accD, n, 8);
  }

  lemma ByteMoves(accD: nat, accE: nat, n: nat, m: nat, b: Byte)
    requires accE < Pow2(n) && accD < Pow2(m) && (n + m == 0 || n + m == 8)
    ensures Held(Join(accD, Join(accE, b, 8), n + 8), n + m + 8) == Held(Join(accD, accE, n), n + m) + [b]
  {
    Bounds();
    RegroupByte(accD, accE, b, n);
    var high := Join(accD, accE, n);
    if n + m == 0 {
      assert high == 0 && Left(0, 8) == 0 by { LowOfSmall(0, 8); LeftAdds(0, 0, 8); }
    } else {
      JoinSplits(high, b, 8);
      LowOfJoin(high, b, 8, 0);
    }
  }

  /** The decoder's byte is the top byte of what is held. */
  lemma ByteLeaves(v: nat, low: nat, n: nat, m: nat)
    requires n >= 5 && m >= 3 && (n + m == 8 || n + m == 16) && low < Pow2(n - 5)
    ensures Held(Join(v, low, n - 5), n + m) == [Right(v, m - 3)] + Held(Join(Low(v, m - 3), low, n - 5), n + m - 8)
  {
    if n + m == 16 {
      JoinSplits(v, low, n - 5);
      RightRight(Join(v, low, n - 5), n - 5, m - 3);
      LowOfJoin(v, low, n - 5, m - 3);
    }
  }

  lemma ByteCompletes(rest: seq<Byte>, bytes: seq<Byte>, v: nat, low: nat, n: nat, m: nat)
    requires 5 <= n && 3 <= m && low < Pow2(n - 5) && InStep(n, m)
    requires rest == Held(Join(Low(v, m - 3), low, n - 5), n + m - 8) + bytes
    ensures [Right(v, m - 3)] + rest == Held(Join(v, low, n - 5), n + m) + bytes
  {
    ByteLeaves(v, low, n, m);
    PutFirst(Right(v, m - 3), Held(Join(Low(v, m - 3), low, n - 5), n + m - 8), bytes);
  }

  lemma PutFirst<T>(x: T, xs: seq<T>, ys: seq<T>)
    ensures [x] + (xs + ys) == [x] + xs + ys
  {
  }

  lemma LastByte(accD: nat, accE: nat, n: nat)
    requires 0 < n < 5
    ensures Right(Join(accD, Left(accE, 5 - n), 5), 5 - n) == Join(accD, accE, n)
  {
    LeftLeft(accD, n, 5 - n);
    LeftAdds(Left(accD, n), accE, 5 - n);
    JoinSplits(Join(accD, accE, n), 0, 5 - n);
  }

  /** Whatever is pending on either side, the decoder yields the held bytes and then the rest. */
  lemma {:induction false} PendingRoundTrip(bytes: seq<Byte>, accE: nat, n: nat, accD: nat, m: nat)
    requires m < 8 && accE < Pow2(n) && accD < Pow2(m) && InStep(n, m)
    ensures Dec(Enc(bytes, accE, n), accD, m) == Held(Join(accD, accE, n), n + m) + bytes
    decreases |bytes|, n, 1
  {
    if n >= 5 {
      SymbolStep(bytes, accE, n, accD, m);
    } else if |bytes| > 0 {
      ByteStep(bytes, accE, n, accD, m);
    } else if n > 0 {
      LastRoundTrip(accE, n, accD, m);
    }
  }

  lemma {:induction false} ByteStep(bytes: seq<Byte>, accE: nat, n: nat, accD: nat, m: nat)
    requires |bytes| > 0 && n < 5 && m < 8 && accE < Pow2(n) && accD < Pow2(m) && InStep(n, m)
    ensures Dec(Enc(bytes, accE, n), accD, m) == Held(Join(accD, accE, n), n + m) + bytes
    decreases |bytes|, n, 0
  {
    Bounds();
    JoinBound(accE, bytes[0], n, 8);
    var v := Join(accE, bytes[0], 8);
    PendingRoundTrip(bytes[1..], v, n + 8, accD, m);
    ByteMoves(accD, accE, n, m, bytes[0]);
    Append(Held(Join(accD, accE, n), n + m), bytes[0], bytes[1..]);
    assert [bytes[0]] + bytes[1..] == bytes;
  }

  lemma LastRoundTrip(accE: nat, n: nat, accD: nat, m: nat)
    requires 0 < n < 5 && m < 8 && accE < Pow2(n) && accD < Pow2(m) && InStep(n, m)
    ensures Dec(Enc([], accE, n), accD, m) == Held(Join(accD, accE, n), n + m)
  {
    Bounds();
    LeftBound(accE, n, 5 - n);
    LastByte(accD, accE, n);
    DecFirst(Left(accE, 5 - n), [], accD, m);
  }

  lemma EncFirst(bytes: seq<Byte>, acc: nat, n: nat)
    requires 5 <= n && acc < Pow2(n)
    ensures 0 <= Right(acc, n - 5) < 32 && Enc(bytes, acc, n) == [Right(acc, n - 5)] + Enc(bytes, Low(acc, n - 5), n - 5)
  {
    Bounds();
    RightBound(acc, n - 5, 5);
  }

  lemma DecFirst(s: Symbol, rest: seq<Symbol>, acc: nat, m: nat)
    requires m < 8 && acc < Pow2(m)
    ensures var v := Join(acc, s, 5);
            if m < 3 then v < Pow2(m + 5) && Dec([s] + rest, acc, m) == Dec(rest, v, m + 5)
            else 0 <= Right(v, m - 3) < 256 && Dec([s] + rest, acc, m) == [Right(v, m - 3)] + Dec(rest, Low(v, m - 3), m - 3)
  {
    Bounds();
    JoinBound(acc, s, m, 5);
    if m >= 3 { RightBound(Join(acc, s, 5), m - 3, 8); }
    assert ([s] + rest)[1..] == rest;
  }

  lemma {:induction false} SymbolStep(bytes: seq<Byte>, accE: nat, n: nat, accD: nat, m: nat)
    requires 5 <= n && m < 8 && accE < Pow2(n) && accD < Pow2(m) && InStep(n, m)
    ensures Dec(Enc(bytes, accE, n), accD, m) == Held(Join(accD, accE, n), n + m) + bytes
    decreases |bytes|, n, 0
  {
    EncFirst(bytes, accE, n);
    var s, low := Right(accE, n - 5), Low(accE, n - 5);
    var v := Join(accD, s, 5);
    Regroup(accD, accE, n);
    DecFirst(s, Enc(bytes, low, n - 5), accD, m);
    if m < 3 {
      PendingRoundTrip(bytes, low, n - 5, v, m + 5);
    } else {
      PendingRoundTrip(bytes, low, n - 5, Low(v, m - 3), m - 3);
      ByteCompletes(Dec(Enc(bytes, low, n - 5), Low(v, m - 3), m - 3), bytes, v, low, n, m);
    }
  }

  /** Decoding what was encoded gives the bytes back, for any length. */
  lemma RoundTrip(bytes: seq<Byte>)
    ensures Dec(Enc(bytes, 0, 0), 0, 0) == bytes
  {
    PendingRoundTrip(bytes, 0, 0, 0, 0);
  }

  // ---- The same bits, five at a time --------------------------------------

  /** The number read most significant first, bytes and symbols appended to `high`. */
  function OfBytes(high: nat, bytes: seq<Byte>): nat
    decreases |bytes|
  {
    if |bytes| == 0 then high else OfBytes(Join(high, bytes[0], 8), bytes[1..])
  }

  function OfSymbols(high: nat, symbols: seq<Symbol>): nat
    decreases |symbols|
  {
    if |symbols| == 0 then high else OfSymbols(Join(high, symbols[0], 5), symbols[1..])
  }

  /** The symbols cover the bits, with fewer than five to spare. */
  lemma {:induction false} EncLength(bytes: seq<Byte>, acc: nat, n: nat)
    requires acc < Pow2(n)
    ensures 0 <= 5 * |Enc(bytes, acc, n)| - (n + 8 * |bytes|) < 5
    decreases |bytes|, n
  {
    Bounds();
    if n >= 5 {
      EncLength(bytes, Low(acc, n - 5), n - 5);
    } else if |bytes| > 0 {
      JoinBound(acc, bytes[0], n, 8);
      EncLength(bytes[1..], Join(acc, bytes[0], 8), n + 8);
    }
  }

  lemma {:induction false} PendingIsBigEndian(high: nat, bytes: seq<Byte>, acc: nat, n: nat, pad: nat)
    requires acc < Pow2(n) && 5 * |Enc(bytes, acc, n)| == n + 8 * |bytes| + pad
    ensures OfSymbols(high, Enc(bytes, acc, n)) == Left(OfBytes(Join(high, acc, n), bytes), pad)
    decreases |bytes|, n, 1
  {
    if n >= 5 {
      FirstIsBigEndian(high, bytes, acc, n, pad);
    } else if |bytes| > 0 {
      Bounds();
      JoinBound(acc, bytes[0], n, 8);
      RegroupByte(high, acc, bytes[0], n);
      PendingIsBigEndian(high, bytes[1..], Join(acc, bytes[0], 8), n + 8, pad);
    } else if n > 0 {
      LastSymbolPads(high, acc, n);
    }
  }

  lemma {:induction false} FirstIsBigEndian(high: nat, bytes: seq<Byte>, acc: nat, n: nat, pad: nat)
    requires n >= 5 && acc < Pow2(n) && 5 * |Enc(bytes, acc, n)| == n + 8 * |bytes| + pad
    ensures OfSymbols(high, Enc(bytes, acc, n)) == Left(OfBytes(Join(high, acc, n), bytes), pad)
    decreases |bytes|, n, 0
  {
    Bounds();
    RightBound(acc, n - 5, 5);
    var s, low := Right(acc, n - 5), Low(acc, n - 5);
    Regroup(high, acc, n);
    PendingIsBigEndian(Join(high, s, 5), bytes, low, n - 5, pad);
    FirstSymbol(high, s, Enc(bytes, low, n - 5));
  }

  lemma FirstSymbol(high: nat, s: Symbol, rest: seq<Symbol>)
    ensures OfSymbols(high, [s] + rest) == OfSymbols(Join(high, s, 5), rest)
  {
    assert ([s] + rest)[1..] == rest;
  }

  lemma LastSymbolPads(high: nat, acc: nat, n: nat)
    requires 0 < n < 5 && acc < Pow2(n)
    ensures 0 <= Left(acc, 5 - n) < 32
    ensures OfSymbols(high, [Left(acc, 5 - n)]) == Left(Join(high, acc, n), 5 - n)
  {
    Bounds();
    LeftBound(acc, n, 5 - n);
    LeftLeft(high, n, 5 - n);
    LeftAdds(Left(high, n), acc, 5 - n);
    assert OfSymbols(high, [Left(acc, 5 - n)]) == OfSymbols(Join(high, Left(acc, 5 - n), 5), [Left(acc, 5 - n)][1..]);
  }

  /**
   * The symbols are the bytes' bits, most significant first, cut into fives and
   * padded with zeros: ceil(8 n / 5) symbols for n bytes.
   */
  lemma EncodingIsBigEndian(bytes: seq<Byte>)
    ensures var symbols := Enc(bytes, 0, 0);
            var pad := 5 * |symbols| - 8 * |bytes|;
            0 <= pad < 5 && OfSymbols(0, symbols) == Left(OfBytes(0, bytes), pad)
  {
    EncLength(bytes, 0, 0);
    PendingIsBigEndian(0, bytes, 0, 0, 5 * |Enc(bytes, 0, 0)| - 8 * |bytes|);
  }

  // ---- Letters ------------------------------------------------------------

  const ALPHABET := "ABCDEFGHIJKLMNOPQRSTUVWXYZ234567"

  function Text(symbols: seq<Symbol>): string {
    seq(|symbols|, i requires 0 <= i < |symbols| => ALPHABET[symbols[i]])
  }

  /** ALPHABET.indexOf(c), or -1. */
  function IndexOf(c: char): (i: int)
    ensures -1 <= i < 32
  {
    if 'A' <= c <= 'Z' then (c - 'A') as int else if '2' <= c <= '7' then 26 + (c - '2') as int else -1
  }

  lemma AlphabetText()
    ensures |ALPHABET| == 32
    ensures forall i :: 0 <= i < 32 ==> ALPHABET[i] == LetterOf(i)
  {
  }

  function LetterOf(i: int): char
    requires 0 <= i < 32
  {
    if i < 26 then 'A' + i as char else '2' + (i - 26) as char
  }

  /** The position of a letter of the alphabet, and -1 exactly for what is none. */
  lemma IndexOfMeaning(c: char)
    ensures IndexOf(c) != -1 ==> ALPHABET[IndexOf(c)] == c
    ensures IndexOf(c) == -1 <==> c !in ALPHABET
  {
    AlphabetText();
    var i := IndexOf(c);
    if i != -1 {
      assert LetterOf(i) == c;
    } else {
      forall k | 0 <= k < 32 ensures ALPHABET[k] != c { assert ALPHABET[k] == LetterOf(k); }
    }
  }

  lemma IndexOfLetter(s: Symbol)
    ensures IndexOf(ALPHABET[s]) == s
  {
    AlphabetText();
  }

  /** The symbols of a text already upper-cased: characters outside the alphabet are skipped. */
  function Symbols(text: string): seq<Symbol> {
    if |text| == 0 then [] else SymbolsOf(text[0]) + Symbols(text[1..])
  }

  function SymbolsOf(c: char): seq<Symbol> {
    if IndexOf(c) == -1 then [] else [IndexOf(c)]
  }

  /** toUpperCase maps a character to one or more; on ASCII it is the usual map. */
  ghost predicate UpperCases(upper: char -> string) {
    && (forall c :: 'a' <= c <= 'z' ==> upper(c) == ['A' + (c - 'a')])
    && (forall c :: c < '\U{80}' && !('a' <= c <= 'z') ==> upper(c) == [c])
  }

  function Upper(upper: char -> string, text: string): string {
    if |text| == 0 then "" else upper(text[0]) + Upper(upper, text[1..])
  }

  /** replace(/=+$/, ''). */
  function TrimPadding(text: string): string {
    if |text| > 0 && text[|text| - 1] == '=' then TrimPadding(text[..|text| - 1]) else text
  }

  /** The symbols decoding reads from an input. */
  function Read(upper: char -> string, input: string): seq<Symbol> {
    Symbols(TrimPadding(Upper(upper, input)))
  }

  lemma {:induction false} SymbolsJoin(a: string, b: string)
    ensures Symbols(a + b) == Symbols(a) + Symbols(b)
    decreases |a|
  {
    if |a| == 0 {
      assert a + b == b;
    } else {
      assert (a + b)[1..] == a[1..] + b;
      SymbolsJoin(a[1..], b);
    }
  }

  /** Trimming the padding removes no symbol, so only letters of the alphabet count. */
  lemma {:induction false} PaddingIsNoSymbol(text: string)
    ensures Symbols(TrimPadding(text)) == Symbols(text)
    decreases |text|
  {
    if |text| > 0 && text[|text| - 1] == '=' {
      var init := text[..|text| - 1];
      PaddingIsNoSymbol(init);
      assert text == init + "=";
      SymbolsJoin(init, "=");
      assert Symbols("=") == SymbolsOf('=') + Symbols("=" [1..]);
    }
  }

  /** A text reads character by character. */
  lemma ReadFirst(upper: char -> string, text: string)
    requires |text| > 0
    ensures Read(upper, text) == Symbols(upper(text[0])) + Read(upper, text[1..])
  {
    PaddingIsNoSymbol(Upper(upper, text));
    PaddingIsNoSymbol(Upper(upper, text[1..]));
    SymbolsJoin(upper(text[0]), Upper(upper, text[1..]));
  }

  /** A character that reads as no symbol: padding, a space, a dash, anything outside the alphabet in either case. */
  predicate IsSeparator(upper: char -> string, c: char) {
    Symbols(upper(c)) == []
  }

  /** On ASCII these are the characters that are neither letters nor 2 to 7. */
  lemma AsciiSeparators(upper: char -> string, c: char)
    requires UpperCases(upper) && c < '\U{80}'
    ensures IsSeparator(upper, c) <==> !('A' <= c <= 'Z') && !('a' <= c <= 'z') && !('2' <= c <= '7')
  {
    var u := if 'a' <= c <= 'z' then 'A' + (c - 'a') else c;
    assert upper(c) == [u];
    assert Symbols([u]) == SymbolsOf(u) + Symbols([u][1..]);
  }

  /** The text without its separators. */
  function Stripped(upper: char -> string, text: string): string {
    if |text| == 0 then ""
    else (if IsSeparator(upper, text[0]) then "" else [text[0]]) + Stripped(upper, text[1..])
  }

  /** Separators anywhere in a text, in any number, do not change what it reads as. */
  lemma {:induction false} ReadStripped(upper: char -> string, text: string)
    ensures Read(upper, Stripped(upper, text)) == Read(upper, text)
    decreases |text|
  {
    if |text| > 0 {
      ReadStripped(upper, text[1..]);
      ReadFirst(upper, text);
      if !IsSeparator(upper, text[0]) {
        ReadFirst(upper, Stripped(upper, text));
        assert Stripped(upper, text)[1..] == Stripped(upper, text[1..]);
      } else {
        assert "" + Stripped(upper, text[1..]) == Stripped(upper, text[1..]);
        assert [] + Read(upper, text[1..]) == Read(upper, text[1..]);
      }
    }
  }

  function LowerCase(c: char): char {
    if 'A' <= c <= 'Z' then 'a' + (c - 'A') else c
  }

  /** The same text with any of its letters in lower case. */
  predicate SameLetters(text: string, other: string) {
    |other| == |text| && forall i :: 0 <= i < |text| ==> SameLetter(text[i], other[i])
  }

  predicate SameLetter(c: char, d: char) {
    d == c || d == LowerCase(c)
  }

  lemma UpperSame(upper: char -> string, c: char, d: char)
    requires UpperCases(upper) && SameLetter(c, d)
    ensures upper(d) == upper(c)
  {
  }

  /** Any input reads the same with any of its letters in lower case. */
  lemma {:induction false} CaseIsIgnored(upper: char -> string, text: string, other: string)
    requires UpperCases(upper) && SameLetters(text, other)
    ensures Read(upper, other) == Read(upper, text)
    decreases |text|
  {
    if |text| > 0 {
      ReadFirst(upper, text);
      ReadFirst(upper, other);
      UpperSame(upper, text[0], other[0]);
      forall i | 0 <= i < |text| - 1 ensures SameLetter(text[1..][i], other[1..][i]) {
        assert SameLetter(text[i + 1], other[i + 1]);
      }
      CaseIsIgnored(upper, text[1..], other[1..]);
    } else {
      assert text == other;
    }
  }

  lemma UpperLetter(upper: char -> string, s: Symbol, d: char)
    requires UpperCases(upper) && SameLetter(ALPHABET[s], d)
    ensures upper(d) == [ALPHABET[s]] && SymbolsOf(ALPHABET[s]) == [s]
  {
    AlphabetText();
    IndexOfLetter(s);
  }

  /** What was printed reads back as the same symbols, in upper, lower or mixed case. */
  lemma {:induction false} ReadText(upper: char -> string, symbols: seq<Symbol>, text: string)
    requires UpperCases(upper) && SameLetters(Text(symbols), text)
    ensures Read(upper, text) == symbols
    decreases |symbols|
  {
    if |symbols| > 0 {
      var s, rest := symbols[0], symbols[1..];
      assert SameLetter(Text(symbols)[0], text[0]);
      UpperLetter(upper, s, text[0]);
      ReadFirst(upper, text);
      assert Symbols([ALPHABET[s]]) == SymbolsOf(ALPHABET[s]) + Symbols([ALPHABET[s]][1..]);
      assert SameLetters(Text(rest), text[1..]) by { RestSameLetters(symbols, text); }
      ReadText(upper, rest, text[1..]);
    }
  }

  lemma RestSameLetters(symbols: seq<Symbol>, text: string)
    requires |symbols| > 0 && SameLetters(Text(symbols), text)
    ensures SameLetters(Text(symbols[1..]), text[1..])
  {
    forall i | 0 <= i < |symbols| - 1 ensures SameLetter(Text(symbols[1..])[i], text[1..][i]) {
      assert SameLetter(Text(symbols)[i + 1], text[i + 1]);
    }
  }

  // ---- The two loops ------------------------------------------------------

  /** The pending bits of the accumulator. */
  function Pending(value: int, bits: nat): nat {
    Low(ToUint32(value), bits)
  }

  /** The text so far and the text still to come make up `all`. */
  predicate Encoding(output: string, rest: seq<Byte>, value: int, bits: nat, all: string) {
    output + Text(Enc(rest, Pending(value, bits), bits)) == all
  }

  method Base32Encode(buffer: seq<Byte>) returns (output: string)
    ensures output == Text(Enc(buffer, 0, 0))
  {
    var bits: nat, value := 0, 0;
    output := "";
    ghost var all := Text(Enc(buffer, 0, 0));
    for i := 0 to |buffer|
      invariant bits < 5 && Encoding(output, buffer[i..], value, bits, all)
    {
      assert buffer[i..][1..] == buffer[i + 1..];
      EncByte(output, buffer[i..], value, bits, all);
      value := Or(Shl(value, 8), buffer[i]);
      bits := bits + 8;
      while bits >= 5
        invariant bits <= 12 && Encoding(output, buffer[i + 1..], value, bits, all)
        decreases bits
      {
        EncSymbol(output, buffer[i + 1..], value, bits, all);
        output := output + [ALPHABET[And(Ushr(value, bits - 5), 31)]];
        bits := bits - 5;
      }
    }
    assert buffer[|buffer|..] == [];
    EncEnd(output, value, bits, all);
    if bits > 0 {
      output := output + [ALPHABET[And(Shl(value, 5 - bits), 31)]];
    }
  }

  lemma EncByte(output: string, bytes: seq<Byte>, value: int, n: nat, all: string)
    requires |bytes| > 0 && n < 5 && Encoding(output, bytes, value, n, all)
    ensures Encoding(output, bytes[1..], Or(Shl(value, 8), bytes[0]), n + 8, all)
  {
    Bounds();
    ShiftIn(value, bytes[0], 8, n);
  }

  lemma Append<T>(xs: seq<T>, y: T, ys: seq<T>)
    ensures xs + ([y] + ys) == xs + [y] + ys
  {
  }

  lemma EncSymbol(output: string, bytes: seq<Byte>, value: int, n: nat, all: string)
    requires 5 <= n <= 12 && Encoding(output, bytes, value, n, all)
    ensures var s := And(Ushr(value, n - 5), 31);
            0 <= s < 32 && Encoding(output + [ALPHABET[s]], bytes, value, n - 5, all)
  {
    Bounds();
    ShiftOut(value, n - 5, 5);
    RightBound(Pending(value, n), n - 5, 5);
    var rest := Enc(bytes, Pending(value, n - 5), n - 5);
    var s := And(Ushr(value, n - 5), 31);
    TextFirst(s, rest);
    Append(output, ALPHABET[s], Text(rest));
  }

  lemma TextFirst(s: Symbol, rest: seq<Symbol>)
    ensures Text([s] + rest) == [ALPHABET[s]] + Text(rest)
  {
  }

  /** The bits left over at the end are one more symbol, padded with zeros. */
  lemma EncEnd(output: string, value: int, n: nat, all: string)
    requires n < 5 && Encoding(output, [], value, n, all)
    ensures if n == 0 then all == output
            else
              var s := And(Shl(value, 5 - n), 31);
              0 <= s < 32 && all == output + [ALPHABET[s]]
  {
    if n > 0 {
      Bounds();
      PadOut(value, n, 5 - n);
      LeftBound(Pending(value, n), n, 5 - n);
      TextFirst(And(Shl(value, 5 - n), 31), []);
    }
  }

  /** The bytes so far and the bytes still to come make up `all`. */
  predicate Decoding(bytes: seq<Byte>, rest: seq<Symbol>, value: int, bits: nat, all: seq<Byte>)
    requires bits < 8
  {
    bytes + Dec(rest, Pending(value, bits), bits) == all
  }

  lemma SymbolsFrom(text: string, i: nat)
    requires i < |text|
    ensures Symbols(text[i..])
         == if IndexOf(text[i]) == -1 then Symbols(text[i + 1..]) else [IndexOf(text[i])] + Symbols(text[i + 1..])
  {
    assert text[i..][1..] == text[i + 1..];
  }

  lemma ByteOut(value: int, j: nat)
    requires j <= 24
    ensures And(Ushr(value, j), 0xff) == Right(Pending(value, j + 8), j)
    ensures Pending(value, j) == Low(Pending(value, j + 8), j)
  {
    Bounds();
    ShiftOut(value, j, 8);
  }

  lemma SymbolIn(value: int, s: Symbol, m: nat)
    requires m < 8
    ensures Pending(Or(Shl(value, 5), s), m + 5) == Join(Pending(value, m), s, 5)
  {
    Bounds();
    ShiftIn(value, s, 5, m);
  }

  lemma DecSymbol(bytes: seq<Byte>, rest: seq<Symbol>, value: int, s: Symbol, m: nat, all: seq<Byte>)
    requires m < 8 && Decoding(bytes, [s] + rest, value, m, all)
    ensures var next := Or(Shl(value, 5), s);
            if m < 3 then Decoding(bytes, rest, next, m + 5, all)
            else
              var b := And(Ushr(next, m - 3), 0xff);
              0 <= b < 256 && Decoding(bytes + [b], rest, next, m - 3, all)
  {
    var next, acc := Or(Shl(value, 5), s), Pending(value, m);
    SymbolIn(value, s, m);
    DecFirst(s, rest, acc, m);
    if m >= 3 {
      ByteOut(next, m - 3);
      var tail := Dec(rest, Low(Join(acc, s, 5), m - 3), m - 3);
      Append(bytes, Right(Join(acc, s, 5), m - 3), tail);
    }
  }

  /** What the loop has decoded of an input and what it has still to read make up the whole. */
  predicate DecodedTo(clean: string, i: nat, bytes: seq<Byte>, value: int, bits: nat) {
    i <= |clean| && bits < 8 && Decoding(bytes, Symbols(clean[i..]), value, bits, Dec(Symbols(clean), 0, 0))
  }

  lemma DecodeStarts(clean: string)
    ensures DecodedTo(clean, 0, [], 0, 0)
  {
    assert clean[0..] == clean;
  }

  lemma DecodeEnds(clean: string, bytes: seq<Byte>, value: int, bits: nat)
    requires DecodedTo(clean, |clean|, bytes, value, bits)
    ensures bytes == Dec(Symbols(clean), 0, 0)
  {
    assert clean[|clean|..] == [];
  }

  lemma DecodeSkips(clean: string, i: nat, bytes: seq<Byte>, value: int, bits: nat)
    requires i < |clean| && DecodedTo(clean, i, bytes, value, bits) && IndexOf(clean[i]) == -1
    ensures DecodedTo(clean, i + 1, bytes, value, bits)
  {
    SymbolsFrom(clean, i);
  }

  lemma DecodeTakes(clean: string, i: nat, bytes: seq<Byte>, value: int, bits: nat)
    requires i < |clean| && DecodedTo(clean, i, bytes, value, bits) && IndexOf(clean[i]) != -1
    ensures var next := Or(Shl(value, 5), IndexOf(clean[i]));
            if bits < 3 then DecodedTo(clean, i + 1, bytes, next, bits + 5)
            else
              var b := And(Ushr(next, bits - 3), 0xff);
              0 <= b < 256 && DecodedTo(clean, i + 1, bytes + [b], next, bits - 3)
  {
    SymbolsFrom(clean, i);
    DecSymbol(bytes, Symbols(clean[i + 1..]), value, IndexOf(clean[i]), bits, Dec(Symbols(clean), 0, 0));
  }

  method Base32Decode(upper: char -> string, input: string) returns (bytes: seq<Byte>)
    ensures bytes == Dec(Read(upper, input), 0, 0)
  {
    var clean := TrimPadding(Upper(upper, input));
    var bits: nat, value := 0, 0;
    bytes := [];
    DecodeStarts(clean);
    for i := 0 to |clean|
      invariant DecodedTo(clean, i, bytes, value, bits)
    {
      var index := IndexOf(clean[i]);
      if index == -1 {
        DecodeSkips(clean, i, bytes, value, bits);
        continue;
      }
      bytes, value, bits := PushSymbol(clean, i, bytes, value, bits, index);
    }
    DecodeEnds(clean, bytes, value, bits);
  }

  /** One symbol: five more bits, and a byte as soon as eight are pending. */
  method PushSymbol(ghost clean: string, ghost i: nat, bytes: seq<Byte>, value: int, bits: nat, index: int)
    returns (more: seq<Byte>, next: int, left: nat)
    requires i < |clean| && DecodedTo(clean, i, bytes, value, bits) && index == IndexOf(clean[i]) != -1
    ensures DecodedTo(clean, i + 1, more, next, left)
  {
    DecodeTakes(clean, i, bytes, value, bits);
    more, next, left := bytes, Or(Shl(value, 5), index), bits + 5;
    if left >= 8 {
      more := bytes + [And(Ushr(next, left - 8), 0xff)];
      left := left - 8;
    }
  }

  // ---- Encode, then decode ------------------------------------------------

  /**
   * For bytes of any length: every text that, its separators dropped, is what
   * Base32Encode printed in upper, lower or mixed case decodes to the bytes.
   */
  lemma {:induction false} DecodeEncode(upper: char -> string, bytes: seq<Byte>, text: string)
    requires UpperCases(upper) && SameLetters(Text(Enc(bytes, 0, 0)), Stripped(upper, text))
    ensures Dec(Read(upper, text), 0, 0) == bytes
  {
    ReadStripped(upper, text);
    ReadText(upper, Enc(bytes, 0, 0), Stripped(upper, text));
    RoundTrip(bytes);
  }
}
