/** Base32 secrets (Authenticator/src/base32.ts) against RFC 4648, section 6. */
module Base32 {
  import opened JsBits
  import Arithmetic

  datatype Result<+T> = Ok(value: T) | Invalid

  // ---------------------------------------------------------- digit strings

  /** The number a string of digits stands for, most significant first. */
  function Value(base: nat, digits: seq<nat>): nat {
    if |digits| == 0 then 0 else Value(base, digits[..|digits| - 1]) * base + digits[|digits| - 1]
  }

  function Quotient(v: nat, d: nat): nat
    requires d > 0
  {
    v / d
  }

  function Rest(v: nat, d: nat): (r: nat)
    requires d > 0
    ensures r < d
  {
    v % d
  }

  lemma QuotientAndRest(v: nat, d: nat, q: nat, r: nat)
    requires d > 0
    ensures v == Quotient(v, d) * d + Rest(v, d)
    ensures v == q * d + r && r < d ==> Quotient(v, d) == q && Rest(v, d) == r
  {
    Arithmetic.DivMod(v, d);
    Swap(d, v / d);
    if v == q * d + r && r < d {
      Swap(d, q);
      Arithmetic.DivModUnique(v, d, q, r);
    }
  }

  /** The `n` digits of a number. */
  function Digits(base: nat, v: nat, n: nat): (s: seq<nat>)
    requires base > 0
    ensures |s| == n
    ensures forall i :: 0 <= i < n ==> s[i] < base
    decreases n
  {
    if n == 0 then [] else Digits(base, Quotient(v, base), n - 1) + [Rest(v, base)]
  }

  function Power(base: nat, n: nat): nat {
    if n == 0 then 1 else Power(base, n - 1) * base
  }

  lemma {:induction false} ValueAppend(base: nat, a: seq<nat>, b: seq<nat>)
    ensures Value(base, a + b) == Value(base, a) * Power(base, |b|) + Value(base, b)
  {
    if |b| == 0 {
      assert a + b == a;
    } else {
      var most, last := b[..|b| - 1], b[|b| - 1];
      assert (a + b)[..|a + b| - 1] == a + most;
      ValueAppend(base, a, most);
      Distribute(Value(base, a), Power(base, |most|), Value(base, most), base);
    }
  }

  lemma Distribute(a: int, p: int, v: int, base: int)
    ensures (a * p + v) * base == a * (p * base) + v * base
  {
  }

  lemma {:induction false} ValueBelow(base: nat, s: seq<nat>)
    requires forall i :: 0 <= i < |s| ==> s[i] < base
    ensures Value(base, s) < Power(base, |s|)
  {
    if |s| > 0 {
      ValueBelow(base, s[..|s| - 1]);
      Carry(Value(base, s[..|s| - 1]), Power(base, |s| - 1), s[|s| - 1], base);
    }
  }

  lemma Carry(v: nat, p: nat, d: nat, base: nat)
    requires v < p && d < base
    ensures v * base + d < p * base
  {
    Arithmetic.MulMono(base, v + 1, p);
    assert base * (v + 1) == v * base + base;
  }

  lemma {:induction false} DigitsOfValue(base: nat, s: seq<nat>)
    requires base > 0 && forall i :: 0 <= i < |s| ==> s[i] < base
    ensures Digits(base, Value(base, s), |s|) == s
  {
    if |s| > 0 {
      hide Quotient, Rest;
      var most, last := s[..|s| - 1], s[|s| - 1];
      DigitsOfValue(base, most);
      QuotientAndRest(Value(base, s), base, Value(base, most), last);
    }
  }

  lemma Swap(a: int, b: int)
    ensures a * b == b * a
  {
  }

  lemma {:induction false} ValueOfDigits(base: nat, v: nat, n: nat)
    requires base > 0 && v < Power(base, n)
    ensures Value(base, Digits(base, v, n)) == v
    decreases n
  {
    if n > 0 {
      hide Quotient, Rest;
      var s := Digits(base, v, n);
      assert s[..n - 1] == Digits(base, Quotient(v, base), n - 1);
      QuotientBelow(v, Power(base, n - 1), base);
      ValueOfDigits(base, Quotient(v, base), n - 1);
      QuotientAndRest(v, base, 0, 0);
    }
  }

  lemma QuotientBelow(v: nat, p: nat, base: nat)
    requires base > 0 && v < p * base
    ensures Quotient(v, base) < p
  {
    Arithmetic.DivMod(v, base);
    if v / base >= p {
      Arithmetic.MulMono(base, p, v / base);
      Swap(base, p);
      assert false;
    }
  }

  // ------------------------------------------------------------------ text

  const ALPHABET := "ABCDEFGHIJKLMNOPQRSTUVWXYZ234567"

  predicate IsSymbol(c: char) { 'A' <= c <= 'Z' || '2' <= c <= '7' }

  /** `ALPHABET.indexOf(c)` for a symbol. */
  function IndexOf(c: char): (i: nat)
    requires IsSymbol(c)
    ensures i < 32
  {
    if 'A' <= c <= 'Z' then c as int - 'A' as int else c as int - '2' as int + 26
  }

  /** `toUpperCase` on one character: what it turns into, as far as that can be a symbol.
      The letters beyond ASCII listed here are all that upper-case to letters A to Z. */
  function Upper(c: char): string {
    if 'a' <= c <= 'z' then [(c as int - 32) as char]
    else if c == '\U{DF}' then "SS" else if c == '\U{131}' then "I" else if c == '\U{17F}' then "S"
    else if c == '\U{FB00}' then "FF" else if c == '\U{FB01}' then "FI" else if c == '\U{FB02}' then "FL"
    else if c == '\U{FB03}' then "FFI" else if c == '\U{FB04}' then "FFL"
    else if c == '\U{FB05}' || c == '\U{FB06}' then "ST"
    else [c]
  }

  /** The class `[\s=-]`. */
  predicate IsSeparator(c: char) {
    || c == '=' || c == '-' || c == ' ' || '\U{9}' <= c <= '\U{D}' || c == '\U{A0}' || c == '\U{1680}'
    || '\U{2000}' <= c <= '\U{200A}' || c == '\U{2028}' || c == '\U{2029}' || c == '\U{202F}' || c == '\U{205F}'
    || c == '\U{3000}' || c == '\U{FEFF}'
  }

  /** `normalizeBase32`: upper case, separators dropped. */
  function Normalize(v: string): string {
    if |v| == 0 then [] else (if IsSeparator(v[0]) then [] else Upper(v[0])) + Normalize(v[1..])
  }

  predicate AllSymbols(s: string) { forall i :: 0 <= i < |s| ==> IsSymbol(s[i]) }

  function Indices(s: string): (r: seq<nat>)
    requires AllSymbols(s)
    ensures |r| == |s|
    ensures forall i :: 0 <= i < |s| ==> r[i] == IndexOf(s[i]) < 32
  {
    seq(|s|, i requires 0 <= i < |s| => IndexOf(s[i]))
  }

  // -------------------------------------------------------------- decoding

  /** The bytes that `n` symbols carry: floor(5n/8) of them, the spare bits cut off. */
  function Decoded(s: string): seq<nat>
    requires AllSymbols(s)
  {
    Digits(256, Quotient(Value(32, Indices(s)), Pow2(5 * |s| % 8)), 5 * |s| / 8)
  }

  function Decode(v: string): Result<seq<nat>> {
    var s := Normalize(v);
    if s == "" || !AllSymbols(s) then Invalid else Ok(Decoded(s))
  }

  /** What the loop has: the symbols so far are the bytes out, then `bits` in `bitCount` places. */
  ghost predicate Holds(indices: seq<nat>, output: seq<nat>, bits: int, bitCount: int) {
    && 0 <= bitCount && 0 <= bits < Pow2(bitCount)
    && 8 * |output| + bitCount == 5 * |indices|
    && (forall i :: 0 <= i < |output| ==> output[i] < 256)
    && Value(32, indices) == Value(256, output) * Pow2(bitCount) + bits
  }

  lemma SmallPowers()
    ensures Pow2(5) == 32 && Pow2(8) == 256 && Pow2(12) == 4096
  {
    PowSum(4, 4);
    PowSum(8, 4);
  }

  /** `bits = (bits << 5) | index`, with no bit lost: fewer than 13 are in use. */
  lemma TakeSymbol(indices: seq<nat>, output: seq<nat>, bits: int, bitCount: int, index: nat)
    requires Holds(indices, output, bits, bitCount) && bitCount < 8 && index < 32
    ensures Or(Shl(bits, 5), index) == bits * 32 + index
    ensures Holds(indices + [index], output, bits * 32 + index, bitCount + 5)
  {
    SmallPowers();
    PowSum(bitCount, 5);
    PowMonotone(bitCount + 5, 12);
    Carry(bits, Pow2(bitCount), index, 32);
    ShlIsTimes(bits, 5);
    OrShifted(bits, 5, index);
    assert (indices + [index])[..|indices|] == indices;
    Distribute(Value(256, output), Pow2(bitCount), bits, 32);
  }

  /** The bit operations of one byte out: the top eight of the bits in use leave, the
      rest stay. */
  lemma SplitBits(bits: nat, rest: nat)
    requires rest <= 4 && bits < Pow2(rest + 8)
    ensures And(Ushr(bits, rest), 0xff) == Quotient(bits, Pow2(rest)) < 256
    ensures And(bits, Shl(1, rest) - 1) == Rest(bits, Pow2(rest))
  {
    SmallPowers();
    var p := Pow2(rest);
    PowSum(8, rest);
    PowMonotone(rest + 8, 12);
    PowMonotone(rest, 12);
    QuotientBelow(bits, 256, p);
    SmallIsItself(bits);
    AndMask(bits / p, 8);
    SmallMod(bits / p);
    ShlIsTimes(1, rest);
    AndMask(bits, rest);
  }

  lemma SmallMod(n: nat)
    ensures n < 256 ==> n % 256 == n
  {
  }

  lemma GiveByte(indices: seq<nat>, output: seq<nat>, bits: int, bitCount: int)
    requires Holds(indices, output, bits, bitCount) && 8 <= bitCount <= 12
    ensures var p := Pow2(bitCount - 8);
            && And(Ushr(bits, bitCount - 8), 0xff) == Quotient(bits, p)
            && And(bits, Shl(1, bitCount - 8) - 1) == Rest(bits, p)
            && Holds(indices, output + [Quotient(bits, p)], Rest(bits, p), bitCount - 8)
  {
    SplitBits(bits, bitCount - 8);
    hide And, Or, Shl, Ushr, Quotient, Rest;
    var p := Pow2(bitCount - 8);
    SmallPowers();
    PowSum(8, bitCount - 8);
    assert (output + [Quotient(bits, p)])[..|output|] == output;
    MoveByte(Value(256, output), p, bits);
    hide Pow2;
  }

  lemma MoveByte(v: int, p: nat, bits: nat)
    requires p > 0
    ensures v * (256 * p) + bits == (v * 256 + Quotient(bits, p)) * p + Rest(bits, p)
  {
    QuotientAndRest(bits, p, 0, 0);
    assert v * (256 * p) == v * 256 * p;
    assert (v * 256 + Quotient(bits, p)) * p == v * 256 * p + Quotient(bits, p) * p;
  }

  /** The bytes out are settled by what the loop has. */
  lemma HoldsDecides(s: string, output: seq<nat>, bits: int, bitCount: int)
    requires AllSymbols(s) && Holds(Indices(s), output, bits, bitCount) && bitCount < 8
    ensures output == Decoded(s) && |output| == 5 * |s| / 8
  {
    assert 5 * |s| % 8 == bitCount && 5 * |s| / 8 == |output|;
    QuotientAndRest(Value(32, Indices(s)), Pow2(bitCount), Value(256, output), bits);
    DigitsOfValue(256, output);
    hide Quotient, Digits, Value, Pow2;
  }

  lemma NothingRead(indices: seq<nat>)
    requires indices == []
    ensures Holds(indices, [], 0, 0)
  {
  }

  lemma IndicesSnoc(s: string, k: nat)
    requires AllSymbols(s) && k < |s|
    ensures Indices(s[..k + 1]) == Indices(s[..k]) + [IndexOf(s[k])]
  {
  }

  /** The inner loop: whole bytes leave while there are eight bits or more. */
  method EmitBytes(ghost indices: seq<nat>, output: seq<nat>, bits: int, bitCount: int) returns (out: seq<nat>,
                                                                                                 rest: int, count: int)
    requires Holds(indices, output, bits, bitCount) && 0 <= bitCount <= 12
    ensures Holds(indices, out, rest, count) && 0 <= count < 8
  {
    out, rest, count := output, bits, bitCount;
    hide Holds, Or, And, Shl, Ushr, Quotient, Rest, Pow2;
    while count >= 8
      invariant 0 <= count <= 12
      invariant Holds(indices, out, rest, count)
      decreases count
    {
      GiveByte(indices, out, rest, count);
      count := count - 8;
      out := out + [And(Ushr(rest, count), 0xff)];
      rest := And(rest, Shl(1, count) - 1);
    }
  }

  /** `decodeBase32`. */
  method DecodeBase32(value: string) returns (r: Result<seq<nat>>)
    ensures r == Decode(value)
    ensures r.Ok? ==> |r.value| == 5 * |Normalize(value)| / 8
  {
    hide Normalize, Decoded, IsSymbol, Or, Shl, Holds, Pow2, Indices;
    var normalized := Normalize(value);
    if normalized == "" || !AllSymbols(normalized) { return Invalid; }
    var bits, bitCount := 0, 0;
    var output: seq<nat> := [];
    NothingRead(Indices(normalized[..0]));
    for k := 0 to |normalized|
      invariant 0 <= bitCount < 8
      invariant Holds(Indices(normalized[..k]), output, bits, bitCount)
    {
      var index := IndexOf(normalized[k]);
      TakeSymbol(Indices(normalized[..k]), output, bits, bitCount, index);
      IndicesSnoc(normalized, k);
      bits := Or(Shl(bits, 5), index);
      bitCount := bitCount + 5;
      output, bits, bitCount := EmitBytes(Indices(normalized[..k + 1]), output, bits, bitCount);
    }
    assert normalized[..|normalized|] == normalized;
    HoldsDecides(normalized, output, bits, bitCount);
    return Ok(output);
  }

  // -------------------------------------------------------------- encoding

  function SymbolOf(i: nat): (c: char)
    requires i < 32
    ensures IsSymbol(c) && IndexOf(c) == i && c == ALPHABET[i]
  {
    if i < 26 then (i + 'A' as int) as char else (i - 26 + '2' as int) as char
  }

  function Symbols(digits: seq<nat>): (s: string)
    requires forall i :: 0 <= i < |digits| ==> digits[i] < 32
    ensures |s| == |digits| && AllSymbols(s) && Indices(s) == digits
  {
    seq(|digits|, i requires 0 <= i < |digits| => SymbolOf(digits[i]))
  }

  predicate AreBytes(bs: seq<nat>) { forall i :: 0 <= i < |bs| ==> bs[i] < 256 }

  /** The symbols of a final quantum of 1 to 4 bytes: 2, 4, 5 or 7. */
  function SymbolCount(n: nat): nat { (8 * n + 4) / 5 }

  /** A number with `k` zero bits appended. */
  function Shifted(v: nat, k: nat): nat { v * Pow2(k) }

  /** The zero bits that fill the last symbol of a quantum. */
  function Spare(n: nat): (k: nat)
    requires n <= 5
    ensures k < 5 && 8 * n + k == 5 * SymbolCount(n)
  {
    5 * SymbolCount(n) - 8 * n
  }

  /** RFC 4648: the bits of up to five bytes, zeros added on the right to a whole number of symbols. */
  function Quantum(bs: seq<nat>): (s: string)
    requires AreBytes(bs) && |bs| <= 5
    ensures |s| == SymbolCount(|bs|) && AllSymbols(s)
  {
    Symbols(Digits(32, Shifted(Value(256, bs), Spare(|bs|)), SymbolCount(|bs|)))
  }

  /** The encoding without its padding. */
  function Unpadded(bs: seq<nat>): (s: string)
    requires AreBytes(bs)
    ensures AllSymbols(s)
  {
    if |bs| <= 5 then Quantum(bs) else Quantum(bs[..5]) + Unpadded(bs[5..])
  }

  /** The zero bits at the end of an encoding, at most four. */
  function Tail(bs: seq<nat>): (k: nat)
    requires AreBytes(bs)
    ensures k < 5 && 8 * |bs| + k == 5 * |Unpadded(bs)|
    decreases |bs|
  {
    if |bs| <= 5 then Spare(|bs|) else Tail(bs[5..])
  }

  function Repeat(c: char, n: nat): string { seq(n, i => c) }

  /** RFC 4648, section 6: `=` fills the last quantum to eight characters. */
  function Encode(bs: seq<nat>): string
    requires AreBytes(bs)
  {
    var s := Unpadded(bs);
    s + Repeat('=', (8 - |s| % 8) % 8)
  }

  lemma ShiftedFits(v: nat, bytes: nat, symbols: nat, spare: nat)
    requires v < Power(256, bytes) && 8 * bytes + spare == 5 * symbols
    ensures Shifted(v, spare) < Power(32, symbols)
  {
    PowersMeet(bytes, symbols, spare);
    Arithmetic.MulMono(Pow2(spare), v + 1, Power(256, bytes));
    Swap(Pow2(spare), v + 1);
    Swap(Pow2(spare), Power(256, bytes));
    OneMore(v, Pow2(spare));
    hide Pow2, Power;
  }

  lemma {:induction false} QuantumDigits(bs: seq<nat>)
    requires AreBytes(bs) && |bs| <= 5
    ensures Indices(Quantum(bs)) == Digits(32, Shifted(Value(256, bs), Spare(|bs|)), SymbolCount(|bs|))
  {
    hide Digits, Value, Shifted, Spare, SymbolCount;
  }

  lemma {:induction false} QuantumValue(bs: seq<nat>)
    requires AreBytes(bs) && |bs| <= 5
    ensures Value(32, Indices(Quantum(bs))) == Shifted(Value(256, bs), Spare(|bs|))
  {
    hide Quantum, Value, Pow2, Power, Digits, Shifted, Spare, SymbolCount;
    QuantumDigits(bs);
    ValueBelow(256, bs);
    ShiftedFits(Value(256, bs), |bs|, SymbolCount(|bs|), Spare(|bs|));
    ValueOfDigits(32, Shifted(Value(256, bs), Spare(|bs|)), SymbolCount(|bs|));
  }

  lemma OneMore(v: int, p: int)
    requires p > 0
    ensures v * p < (v + 1) * p
  {
  }

  lemma {:induction false} PowerIsPow2(base: nat, bits: nat, n: nat)
    requires base == Pow2(bits)
    ensures Power(base, n) == Pow2(bits * n)
  {
    if n > 0 {
      PowerIsPow2(base, bits, n - 1);
      assert bits * n == bits * (n - 1) + bits;
      PowSum(bits * (n - 1), bits);
    }
  }

  lemma PowersMeet(bytes: nat, symbols: nat, spare: nat)
    requires 8 * bytes + spare == 5 * symbols
    ensures Power(256, bytes) * Pow2(spare) == Power(32, symbols)
  {
    SmallPowers();
    PowerIsPow2(256, 8, bytes);
    PowerIsPow2(32, 5, symbols);
    PowSum(8 * bytes, spare);
  }

  /** The symbols stand for the bytes followed by at most four zero bits. */
  lemma {:induction false} UnpaddedValue(bs: seq<nat>)
    requires AreBytes(bs)
    ensures Value(32, Indices(Unpadded(bs))) == Shifted(Value(256, bs), Tail(bs))
    decreases |bs|
  {
    hide SymbolCount, Quantum, Value, Shifted, Spare;
    if |bs| <= 5 {
      QuantumValue(bs);
    } else {
      UnpaddedValue(bs[5..]);
      QuantumValue(bs[..5]);
      QuantumBefore(bs[..5], bs[5..]);
      assert bs == bs[..5] + bs[5..];
    }
  }

  /** A whole quantum in front of the rest. */
  lemma {:induction false} QuantumBefore(head: seq<nat>, tail: seq<nat>)
    requires AreBytes(head) && |head| == 5 && AreBytes(tail)
    requires Value(32, Indices(Quantum(head))) == Shifted(Value(256, head), Spare(5))
    requires Value(32, Indices(Unpadded(tail))) == Shifted(Value(256, tail), Tail(tail))
    ensures Value(32, Indices(Quantum(head) + Unpadded(tail))) == Shifted(Value(256, head + tail), Tail(tail))
  {
    hide Quantum, Unpadded, Value, Power, Pow2, Shifted, Tail, SymbolCount;
    var h, t := Quantum(head), Unpadded(tail);
    assert Indices(h + t) == Indices(h) + Indices(t);
    ValueAppend(32, Indices(h), Indices(t));
    ValueAppend(256, head, tail);
    PowersMeet(|tail|, |t|, Tail(tail));
    NoSpare(Value(256, head));
    Combine(Value(32, Indices(h + t)), Power(32, |t|), Value(256, head), Power(256, |tail|), Tail(tail), Value(256, tail));
    ShiftedIs(Value(256, head + tail), Tail(tail));
  }

  lemma ShiftedIs(v: nat, k: nat)
    ensures Shifted(v, k) == v * Pow2(k)
  {
  }

  lemma NoSpare(v: nat)
    ensures Shifted(v, 0) == v
  {
  }

  lemma Combine(v: int, r: int, h: nat, p: nat, spare: nat, t: nat)
    requires v == h * r + Shifted(t, spare) && r == p * Pow2(spare)
    ensures v == (h * p + t) * Pow2(spare)
  {
    var q := Pow2(spare);
    hide Pow2;
    assert h * (p * q) == (h * p) * q;
    assert (h * p + t) * q == (h * p) * q + t * q;
  }

  // ------------------------------------------------------------ round trip

  /** `v` writes the symbols `s`: each as it is or in lower case, separators anywhere. */
  predicate Spells(v: string, s: string)
    decreases |v|
  {
    if |v| == 0 then s == ""
    else if IsSeparator(v[0]) then Spells(v[1..], s)
    else |s| > 0 && (v[0] == s[0] || Upper(v[0]) == [s[0]]) && Spells(v[1..], s[1..])
  }

  lemma {:induction false} SpellingNormalizes(v: string, s: string)
    requires Spells(v, s) && AllSymbols(s)
    ensures Normalize(v) == s
    decreases |v|
  {
    if |v| > 0 {
      if IsSeparator(v[0]) {
        SpellingNormalizes(v[1..], s);
      } else {
        SpellingNormalizes(v[1..], s[1..]);
        assert IsSymbol(s[0]);
        assert Upper(s[0]) == [s[0]];
        assert s == [s[0]] + s[1..];
      }
    }
  }

  /** Decoding inverts the encoding of RFC 4648 for every non-empty byte string, however
      it is written: lower case, spaces, hyphens, padding. */
  lemma DecodeInvertsEncode(bs: seq<nat>, v: string)
    requires AreBytes(bs) && |bs| > 0
    ensures Spells(v, Unpadded(bs)) ==> Decode(v) == Ok(bs)
  {
    if Spells(v, Unpadded(bs)) {
      SpellingDecodes(bs, v);
    }
  }

  lemma SpellingDecodes(bs: seq<nat>, v: string)
    requires AreBytes(bs) && |bs| > 0 && Spells(v, Unpadded(bs))
    ensures Decode(v) == Ok(bs)
  {
    hide Quotient, Rest, Digits, Value, Pow2, Normalize, Spells, Unpadded, Shifted, Tail, IsSymbol, IndexOf;
    var s := Unpadded(bs);
    SpellingNormalizes(v, s);
    UnpaddedValue(bs);
    var spare := Tail(bs);
    assert 5 * |s| % 8 == spare && 5 * |s| / 8 == |bs|;
    ShiftedIs(Value(256, bs), spare);
    QuotientAndRest(Value(32, Indices(s)), Pow2(spare), Value(256, bs), 0);
    DigitsOfValue(256, bs);
  }

  lemma {:induction false} PaddingIsSkipped(s: string, n: nat)
    requires AllSymbols(s)
    ensures Spells(s + Repeat('=', n), s)
    decreases |s| + n
  {
    var v := s + Repeat('=', n);
    if |s| > 0 {
      assert v[1..] == s[1..] + Repeat('=', n);
      assert IsSymbol(s[0]);
      PaddingIsSkipped(s[1..], n);
    } else if n > 0 {
      assert v[1..] == s + Repeat('=', n - 1);
      PaddingIsSkipped(s, n - 1);
    }
  }

  /** The padded encoding itself, in particular. */
  lemma RoundTrip(bs: seq<nat>)
    requires AreBytes(bs) && |bs| > 0
    ensures Decode(Encode(bs)) == Ok(bs)
  {
    hide Decode, Spells, Unpadded, Repeat;
    var s := Unpadded(bs);
    PaddingIsSkipped(s, (8 - |s| % 8) % 8);
    DecodeInvertsEncode(bs, Encode(bs));
  }

  /** "fooba" and "f" of RFC 4648, section 10. */
  lemma Rfc4648Examples()
    ensures Encode([102, 111, 111, 98, 97]) == "MZXW6YTB"
    ensures Encode([102]) == "MY======"
  {
    WordSymbols();
    LetterSymbols();
    hide Digits, Value, Shifted;
    assert Symbols([12, 25, 23, 22, 30, 24, 19, 1]) == "MZXW6YTB";
    assert Symbols([12, 24]) == "MY" && Repeat('=', 6) == "======";
  }

  lemma WordSymbols()
    ensures var word := [102, 111, 111, 98, 97];
            Shifted(Value(256, word), 0) < 0x100_0000_0000 && Digits(32, Shifted(Value(256, word), 0), 8) == [12, 25, 23, 22, 30, 24, 19, 1]
  {
    var word, symbols := [102, 111, 111, 98, 97], [12, 25, 23, 22, 30, 24, 19, 1];
    FiveDigits(256, word);
    FourDigits(32, symbols[..4]);
    FourDigits(32, symbols[4..]);
    assert Power(32, 4) == 0x10_0000;
    hide Value, Digits, Power;
    ValueAppend(32, symbols[..4], symbols[4..]);
    assert symbols == symbols[..4] + symbols[4..];
    DigitsOfValue(32, symbols);
  }

  lemma LetterSymbols()
    ensures Digits(32, Shifted(Value(256, [102]), 2), 2) == [12, 24]
  {
    OneDigit(256, 102);
    OneDigit(32, 12);
    DigitSnoc(32, [12], 24);
    assert [12] + [24] == [12, 24];
    assert Pow2(2) == 4 by { assert Pow2(1) == 2; }
    hide Value, Digits, Pow2;
    DigitsOfValue(32, [12, 24]);
  }

  lemma OneDigit(base: nat, d: nat)
    ensures Value(base, [d]) == d
  {
    assert [d][..0] == [];
  }

  lemma DigitSnoc(base: nat, most: seq<nat>, d: nat)
    ensures Value(base, most + [d]) == Value(base, most) * base + d
  {
    assert (most + [d])[..|most|] == most;
  }

  lemma FourDigits(base: nat, d: seq<nat>)
    requires |d| == 4
    ensures Value(base, d) == ((d[0] * base + d[1]) * base + d[2]) * base + d[3]
  {
    hide Value;
    OneDigit(base, d[0]);
    DigitSnoc(base, [d[0]], d[1]);
    DigitSnoc(base, [d[0]] + [d[1]], d[2]);
    DigitSnoc(base, [d[0]] + [d[1]] + [d[2]], d[3]);
    assert [d[0]] + [d[1]] + [d[2]] + [d[3]] == d;
  }

  lemma FiveDigits(base: nat, d: seq<nat>)
    requires |d| == 5
    ensures Value(base, d) == (((d[0] * base + d[1]) * base + d[2]) * base + d[3]) * base + d[4]
  {
    hide Value;
    FourDigits(base, d[..4]);
    DigitSnoc(base, d[..4], d[4]);
    assert d[..4] + [d[4]] == d;
  }
}
