/** Time-based codes (Authenticator/src/totp.ts and the server's matching in
    Backend/backend/identity_auth.py) against RFC 4226 and RFC 6238. */
module Totp {
  import opened JsBits
  import opened Base32
  import Arithmetic

  const MAX_SAFE := 0x1F_FFFF_FFFF_FFFF

  // ---------------------------------------------------------------- counter

  lemma ByteOf(value: nat)
    ensures And(value, 0xff) == value % 256
  {
    SmallPowers();
    AndLowBits(value, 8);
    LowByte(value);
    hide And, ToUint32, Pow2;
  }

  lemma LowByte(value: nat)
    ensures ToUint32(value) % 256 == value % 256
  {
  }

  lemma PrependByte(b: nat, s: seq<nat>)
    ensures Value(256, [b] + s) == b * Power(256, |s|) + Value(256, s)
  {
    OneByte(b);
    hide Value, Power;
    ValueAppend(256, [b], s);
  }

  lemma OneByte(b: nat)
    ensures Value(256, [b]) == b
  {
    assert [b][..0] == [];
  }

  /** The bytes written so far and the value still to be written make up the counter. */
  ghost predicate Written(counter: nat, value: nat, bytes: seq<nat>) {
    AreBytes(bytes) && counter == value * Power(256, |bytes|) + Value(256, bytes)
  }

  lemma WriteByte(counter: nat, value: nat, bytes: seq<nat>)
    requires Written(counter, value, bytes)
    ensures Written(counter, value / 256, [value % 256] + bytes)
  {
    PrependByte(value % 256, bytes);
    var p := Power(256, |bytes|);
    var q, r := value / 256, value % 256;
    assert value == q * 256 + r;
    Unfold(q, r, p);
    hide Value;
  }

  lemma Unfold(q: int, r: int, p: int)
    ensures (q * 256 + r) * p == q * (p * 256) + r * p
  {
  }

  lemma NothingLeft(counter: nat, value: nat, bytes: seq<nat>)
    requires Written(counter, value, bytes) && |bytes| == 8 && counter <= MAX_SAFE
    ensures value == 0 && Value(256, bytes) == counter && AreBytes(bytes)
  {
    hide Value;
    assert Power(256, 8) == 0x1_0000_0000_0000_0000 by {
      assert Power(256, 4) == 0x1_0000_0000;
    }
  }

  /** `counterBytes`: filled from the last byte backwards. */
  method CounterBytes(counter: int) returns (ok: bool, output: array<nat>)
    ensures ok <==> 0 <= counter <= MAX_SAFE
    ensures ok ==> fresh(output) && output.Length == 8 && AreBytes(output[..]) && Value(256, output[..]) == counter
  {
    hide And, Value, Power, Written, AreBytes, ToUint32, ToInt32;
    output := new nat[8](i => 0);
    if counter > MAX_SAFE || counter < 0 { return false, output; }
    var value: nat := counter;
    var index := 7;
    NoByteYet(counter, output[8..]);
    while index >= 0
      invariant -1 <= index <= 7
      invariant Written(counter, value, output[index + 1..])
      decreases index
    {
      ghost var done := output[index + 1..];
      WriteByte(counter, value, done);
      ByteOf(value);
      output[index] := And(value, 0xff);
      assert output[index..] == [value % 256] + done;
      value := value / 256;
      index := index - 1;
    }
    assert output[0..] == output[..];
    NothingLeft(counter, value, output[..]);
    return true, output;
  }

  lemma NoByteYet(counter: nat, bytes: seq<nat>)
    requires bytes == []
    ensures Written(counter, counter, bytes)
  {
  }

  /** The big-endian form of a counter: the only eight bytes with that value. */
  function EightBytes(counter: nat): seq<nat> { Digits(256, counter, 8) }

  lemma CounterFormIsUnique(counter: nat, bytes: seq<nat>)
    requires AreBytes(bytes) && |bytes| == 8 && Value(256, bytes) == counter
    ensures bytes == EightBytes(counter)
  {
    DigitsOfValue(256, bytes);
  }

  // -------------------------------------------------------------- truncation

  /** RFC 4226, section 5.3: the four bytes at the offset, without the top bit. */
  function Truncate(digest: seq<nat>): nat
    requires |digest| == 20 && AreBytes(digest)
  {
    var offset := digest[19] % 16;
    Value(256, digest[offset..offset + 4]) % 0x8000_0000
  }

  lemma FourBytes(d: seq<nat>)
    requires |d| == 4
    ensures Value(256, d) == d[0] * 0x100_0000 + d[1] * 0x1_0000 + d[2] * 0x100 + d[3]
  {
    PrependByte(d[0], d[1..]);
    PrependByte(d[1], d[2..]);
    PrependByte(d[2], d[3..]);
    assert d == [d[0]] + d[1..] && d[1..] == [d[1]] + d[2..] && d[2..] == [d[2]] + d[3..];
    assert d[3..] == [d[3]] && [d[3]][..0] == [];
    ThreePowers();
    hide Power;
  }

  lemma ThreePowers()
    ensures Power(256, 3) == 0x100_0000 && Power(256, 2) == 0x1_0000 && Power(256, 1) == 0x100
  {
  }

  lemma PowersUsed()
    ensures Pow2(24) == 0x100_0000 && Pow2(16) == 0x1_0000 && Pow2(8) == 0x100 && Pow2(7) == 0x80 && Pow2(4) == 16
  {
    PowSum(4, 3);
    assert Pow2(4) == 16 && Pow2(3) == 8;
    PowSum(4, 4);
    PowSum(8, 8);
    PowSum(16, 8);
  }

  /** The bit operations of the code, for four bytes: no overlap and no sign bit. */
  function Combined(a: nat, b: nat, c: nat, d: nat): int {
    Or(Or(Or(Shl(And(a, 0x7f), 24), Shl(b, 16)), Shl(c, 8)), d)
  }

  lemma TopPart(a: nat)
    requires a < 256
    ensures And(a, 0x7f) == a % 128 && Shl(a % 128, 24) == (a % 128) * 0x100_0000
  {
    PowersUsed();
    AndMask(a, 7);
    ShlIsTimes(a % 128, 24);
  }

  lemma MiddleParts(b: nat, c: nat)
    requires b < 256 && c < 256
    ensures Shl(b, 16) == b * 0x1_0000 && Shl(c, 8) == c * 0x100
  {
    PowersUsed();
    ShlIsTimes(b, 16);
    ShlIsTimes(c, 8);
  }

  lemma OrAt24(high: nat, rest: nat)
    requires high < 128 && rest < 0x100_0000
    ensures Or(high * 0x100_0000, rest) == high * 0x100_0000 + rest
  {
    PowersUsed();
    OrShifted(high, 24, rest);
  }

  lemma OrAt16(high: nat, rest: nat)
    requires high < 0x8000 && rest < 0x1_0000
    ensures Or(high * 0x1_0000, rest) == high * 0x1_0000 + rest
  {
    PowersUsed();
    OrShifted(high, 16, rest);
  }

  lemma OrAt8(high: nat, rest: nat)
    requires high < 0x80_0000 && rest < 0x100
    ensures Or(high * 0x100, rest) == high * 0x100 + rest
  {
    PowersUsed();
    OrShifted(high, 8, rest);
  }

  lemma CombinedIsValue(a: nat, b: nat, c: nat, d: nat)
    requires a < 256 && b < 256 && c < 256 && d < 256
    ensures Combined(a, b, c, d) == (a % 128) * 0x100_0000 + b * 0x1_0000 + c * 0x100 + d < 0x8000_0000
  {
    hide And, Or, Shl;
    TopPart(a);
    MiddleParts(b, c);
    var high := a % 128;
    OrAt24(high, b * 0x1_0000);
    OrAt16(high * 0x100 + b, c * 0x100);
    OrAt8(high * 0x1_0000 + b * 0x100 + c, d);
  }

  lemma DropTopBit(a: nat, rest: nat)
    requires a < 256 && rest < 0x100_0000
    ensures (a * 0x100_0000 + rest) % 0x8000_0000 == (a % 128) * 0x100_0000 + rest
  {
    assert a == 128 * (a / 128) + a % 128;
  }

  /** `binary`: dynamic truncation by masks, shifts and ORs. */
  method Binary(digest: seq<nat>) returns (binary: nat)
    requires |digest| == 20 && AreBytes(digest)
    ensures binary == Truncate(digest) < 0x8000_0000
  {
    hide And, Or, Shl, Value;
    OffsetOf(digest[19]);
    var offset := And(digest[19], 0x0f);
    var a, b, c, d := digest[offset], digest[offset + 1], digest[offset + 2], digest[offset + 3];
    CombinedIsValue(a, b, c, d);
    FourBytes(digest[offset..offset + 4]);
    DropTopBit(a, b * 0x1_0000 + c * 0x100 + d);
    binary := Or(Or(Or(Shl(And(a, 0x7f), 24), Shl(b, 16)), Shl(c, 8)), d);
  }

  /** The offset leaves room for four bytes of a 20-byte digest. */
  lemma OffsetOf(last: nat)
    requires last < 256
    ensures And(last, 0x0f) == last % 16 && last % 16 + 3 < 20
  {
    PowersUsed();
    AndMask(last, 4);
  }

  // -------------------------------------------------------------------- code

  function DigitChar(n: nat): char
    requires n < 10
  {
    (n + '0' as int) as char
  }

  /** `toString()` of a natural number. */
  function ToText(n: nat): (s: string)
    ensures |s| > 0
  {
    if n < 10 then [DigitChar(n)] else ToText(n / 10) + [DigitChar(n % 10)]
  }

  /** `padStart(digits, "0")`. */
  function PadStart(s: string, digits: nat): string {
    if |s| >= digits then s else seq(digits - |s|, i => '0') + s
  }

  predicate IsDigit(c: char) { '0' <= c <= '9' }

  function DigitValue(c: char): nat
    requires IsDigit(c)
  {
    c as int - '0' as int
  }

  /** The number a decimal string stands for. */
  function Reading(s: string): nat
    requires forall i :: 0 <= i < |s| ==> IsDigit(s[i])
  {
    if |s| == 0 then 0 else Reading(s[..|s| - 1]) * 10 + DigitValue(s[|s| - 1])
  }

  lemma {:induction false} TextReads(n: nat, digits: nat)
    requires n < Power(10, digits) && digits > 0
    ensures |ToText(n)| <= digits
    ensures forall i :: 0 <= i < |ToText(n)| ==> IsDigit(ToText(n)[i])
    ensures Reading(ToText(n)) == n
    decreases digits
  {
    assert Power(10, 1) == 10;
    if n < 10 {
      assert ToText(n)[..0] == [];
    } else {
      TextReads(n / 10, digits - 1);
      var s := ToText(n);
      assert s[..|s| - 1] == ToText(n / 10);
    }
  }

  lemma {:induction false} ZerosRead(k: nat, s: string)
    requires forall i :: 0 <= i < |s| ==> IsDigit(s[i])
    ensures var padded := seq(k, i => '0') + s;
            (forall i :: 0 <= i < |padded| ==> IsDigit(padded[i])) && Reading(padded) == Reading(s)
    decreases |s|, k
  {
    var padded := seq(k, i => '0') + s;
    if |s| > 0 {
      ZerosRead(k, s[..|s| - 1]);
      assert padded[..|padded| - 1] == seq(k, i => '0') + s[..|s| - 1];
    } else if k > 0 {
      ZerosRead(k - 1, s);
      assert padded[..k - 1] == seq(k - 1, i => '0') + s;
    } else {
      assert padded == s;
    }
  }

  /** The code for a truncated value. */
  function CodeOf(binary: nat, digits: nat): string
    requires 6 <= digits <= 8
  {
    PadStart(ToText(Rest(binary, TenTo(digits))), digits)
  }

  function TenTo(digits: nat): (p: nat)
    requires 6 <= digits <= 8
    ensures p > 0
  {
    if digits == 6 then 1_000_000 else if digits == 7 then 10_000_000 else 100_000_000
  }

  /** A code has exactly `digits` decimal digits and reads as the value modulo the power of ten. */
  lemma CodeReads(binary: nat, digits: nat)
    requires 6 <= digits <= 8
    ensures var code := CodeOf(binary, digits);
            && |code| == digits && (forall i :: 0 <= i < |code| ==> IsDigit(code[i]))
            && Reading(code) == binary % TenTo(digits)
  {
    var n := Rest(binary, TenTo(digits));
    assert TenTo(digits) == Power(10, digits) by {
      assert Power(10, 6) == 1_000_000 by { assert Power(10, 3) == 1000; }
    }
    TextReads(n, digits);
    var s := ToText(n);
    hide ToText, Power, Reading;
    ZerosRead(digits - |s|, s);
    assert |s| == digits ==> seq(0, i => '0') + s == s;
  }

  /** The digest of RFC 4226, section 5.4, and the code it comes to. */
  lemma Rfc4226Example()
    ensures var digest := [0x1f, 0x86, 0x98, 0x69, 0x0e, 0x02, 0xca, 0x16, 0x61, 0x85,
                           0x50, 0xef, 0x7f, 0x19, 0xda, 0x8e, 0x94, 0x5b, 0x55, 0x5a];
            && AreBytes(digest) && Truncate(digest) == 0x50ef7f19
            && CodeOf(0x50ef7f19, 6) == "872921"
  {
    var digest := [0x1f, 0x86, 0x98, 0x69, 0x0e, 0x02, 0xca, 0x16, 0x61, 0x85,
                   0x50, 0xef, 0x7f, 0x19, 0xda, 0x8e, 0x94, 0x5b, 0x55, 0x5a];
    hide Value, ToText, Rest;
    FourBytes([0x50, 0xef, 0x7f, 0x19]);
    assert digest[10..14] == [0x50, 0xef, 0x7f, 0x19];
    QuotientAndRest(0x50ef7f19, 1_000_000, 1357, 872921);
    ExampleText();
  }

  lemma ExampleText()
    ensures ToText(872921) == "872921"
  {
    assert ToText(8) == "8";
    TextSnoc(8, 7);
    TextSnoc(87, 2);
    TextSnoc(872, 9);
    TextSnoc(8729, 2);
    TextSnoc(87292, 1);
    hide ToText;
    assert "8" + "7" + "2" + "9" + "2" + "1" == "872921";
  }

  lemma TextSnoc(n: nat, d: nat)
    requires 0 < n && d < 10
    ensures ToText(10 * n + d) == ToText(n) + [DigitChar(d)]
  {
  }

  // ------------------------------------------------------------------ window

  datatype Outcome = Code(code: string, remaining: int, period: int, progress: real) | Error

  /** HMAC-SHA-1: any function from key and message to twenty bytes. */
  type Mac = (seq<nat>, seq<nat>) -> seq<nat>

  ghost predicate IsMac(mac: Mac) {
    forall k, m :: |mac(k, m)| == 20 && AreBytes(mac(k, m))
  }

  /** RFC 4226: the code of a key at a counter. */
  function Hotp(mac: Mac, key: seq<nat>, counter: nat, digits: nat): string
    requires 6 <= digits <= 8
    requires |mac(key, EightBytes(counter))| == 20 && AreBytes(mac(key, EightBytes(counter)))
  {
    CodeOf(Truncate(mac(key, EightBytes(counter))), digits)
  }

  /** `Math.floor(now / 1000)`. */
  function Seconds(now: int): int { now / 1000 }

  predicate InWindow(counter: int, seconds: int, period: nat) {
    counter * period <= seconds < (counter + 1) * period
  }

  lemma WindowOf(seconds: int, period: nat)
    requires 15 <= period <= 120
    ensures InWindow(seconds / period, seconds, period)
    ensures seconds % period == seconds - (seconds / period) * period
    ensures seconds / period >= 0 <==> seconds >= 0
  {
    var q, r := seconds / period, seconds % period;
    Arithmetic.DivMod(seconds, period);
    Step(q, period);
    if q >= 0 {
      Arithmetic.MulNonNegative(period, q);
    } else {
      Arithmetic.MulSign(period, q);
    }
  }

  lemma Step(q: int, p: int)
    ensures (q + 1) * p == q * p + p && p * q == q * p
  {
  }

  /** `((seconds % period) + period) % period` with JavaScript's truncating `%`, on a time
      from the epoch on, is the remainder. */
  lemma CurrentSecond(seconds: nat, period: nat)
    requires period > 0
    ensures (seconds % period + period) % period == seconds % period
  {
    Arithmetic.DivMod(seconds, period);
    Arithmetic.DivModUnique(seconds % period + period, period, 1, seconds % period);
  }

  /** The code of a key for the step that contains this time. */
  ghost predicate IsCodeAt(mac: Mac, key: seq<nat>, seconds: int, digits: int, period: int, code: string)
    requires IsMac(mac)
  {
    && 6 <= digits <= 8 && 15 <= period <= 120 && 0 <= seconds / period
    && code == Hotp(mac, key, seconds / period, digits)
  }

  /** A part of the period, as an exact ratio. */
  function Share(part: int, period: int): real
    requires period > 0
  {
    part as real / period as real
  }

  lemma ShareBelowOne(part: int, period: int)
    requires 0 <= part < period
    ensures 0.0 <= Share(part, period) < 1.0
  {
    var p, q := part as real, period as real;
    assert p / q * q == p;
  }

  /** `currentTotp`. */
  method CurrentTotp(mac: Mac, secret: string, now: int, digits: int, period: int) returns (r: Outcome)
    requires IsMac(mac)
    ensures var key := Decode(secret);
            r.Code? <==> 6 <= digits <= 8 && 15 <= period <= 120 && key.Ok? && |key.value| >= 10
                         && 0 <= Seconds(now) / period <= MAX_SAFE
    ensures r.Code? ==>
              var counter := Seconds(now) / period;
              && IsCodeAt(mac, Decode(secret).value, Seconds(now), digits, period, r.code)
              && InWindow(counter, Seconds(now), period)
              && r.remaining == (counter + 1) * period - Seconds(now) && 1 <= r.remaining <= period
    ensures r.Code? ==> r.period == period && r.progress == Share(period - r.remaining, period) && 0.0 <= r.progress < 1.0
  {
    if digits < 6 || digits > 8 { return Error; }
    if period < 15 || period > 120 { return Error; }
    hide Decode, Truncate, Value, CodeOf;
    var seconds := Seconds(now);
    var counter := seconds / period;
    WindowOf(seconds, period);
    var key := DecodeBase32(secret);
    if key.Invalid? || |key.value| < 10 { return Error; }
    var ok, bytes := CounterBytes(counter);
    if !ok { return Error; }
    CounterFormIsUnique(counter, bytes[..]);
    hide EightBytes;
    var digest := mac(key.value, bytes[..]);
    var binary := Binary(digest);
    var currentSecond := (seconds % period + period) % period;
    CurrentSecond(seconds, period);
    Step(counter, period);
    var left := period - currentSecond;
    ShareBelowOne(currentSecond, period);
    return Code(CodeOf(binary, digits), if left > 1 then left else 1, period, Share(currentSecond, period));
  }

  // ---------------------------------------------------------- server matching

  datatype Option<+T> = None | Some(value: T)

  /** The first of the step before, the current one and the next that yields the code. */
  function Matching(otp: nat -> string, code: string, current: nat): Option<nat> {
    if current >= 1 && otp(current - 1) == code then Some(current - 1)
    else if otp(current) == code then Some(current)
    else if otp(current + 1) == code then Some(current + 1)
    else None
  }

  /** `_matching_totp_counter`. */
  method MatchingCounter(otp: nat -> string, code: string, current: nat) returns (found: Option<nat>)
    ensures found == Matching(otp, code, current)
    ensures found.Some? ==> current - 1 <= found.value <= current + 1 && otp(found.value) == code
    ensures found.None? <==> forall c: nat :: current - 1 <= c <= current + 1 ==> otp(c) != code
  {
    for offset := -1 to 2
      invariant forall c: nat :: current - 1 <= c < current + offset ==> otp(c) != code
    {
      var counter := current + offset;
      if counter >= 0 && otp(counter) == code { return Some(counter); }
    }
    return None;
  }

  lemma NearbyCounters(s: nat, t: nat, period: nat)
    requires period > 0 && s <= t <= s + period
    ensures s / period <= t / period <= s / period + 1
  {
    var q, r := s / period, t / period;
    Arithmetic.DivMod(s, period);
    Arithmetic.DivMod(t, period);
    assert period * (r - q) == period * r - period * q;
    Arithmetic.MulSign(period, r - q);
    if r - q >= 2 {
      Arithmetic.MulMono(period, 2, r - q);
      assert false;
    }
  }

  /** A code of the phone's step is found around the clock of a server within one period. */
  lemma NearbyCodeIsMatched(otp: nat -> string, phone: nat, server: nat, period: nat)
    requires 15 <= period <= 120 && phone <= server + period && server <= phone + period
    ensures Matching(otp, otp(phone / period), server / period).Some?
  {
    if phone <= server {
      NearbyCounters(phone, server, period);
    } else {
      NearbyCounters(server, phone, period);
    }
  }

  /** `factor.generate_otp` for the key of an enrolled phone. */
  ghost function Codes(mac: Mac, key: seq<nat>, digits: nat): nat -> string
    requires IsMac(mac) && 6 <= digits <= 8
  {
    (counter: nat) => Hotp(mac, key, counter, digits)
  }

  /** The server finds a step around its own clock, and that step yields the code. */
  predicate IsMatched(otp: nat -> string, code: string, server: nat, period: nat)
    requires period > 0
  {
    var found := Matching(otp, code, server / period);
    found.Some? && otp(found.value) == code
  }

  lemma MatchYields(otp: nat -> string, code: string, server: nat, period: nat)
    requires period > 0 && Matching(otp, code, server / period).Some?
    ensures IsMatched(otp, code, server, period)
  {
  }

  /** Whatever code `currentTotp` shows is matched by a server that holds the same key and
      whose clock is within one period of the phone's. */
  lemma PhoneCodeIsMatched(mac: Mac, key: seq<nat>, phone: nat, digits: nat, period: nat, code: string, server: nat)
    requires IsMac(mac) && 6 <= digits <= 8 && 15 <= period <= 120
    requires phone <= server + period && server <= phone + period
    ensures IsCodeAt(mac, key, phone, digits, period, code) ==> IsMatched(Codes(mac, key, digits), code, server, period)
  {
    hide Hotp, Matching, IsMatched;
    NearbyCodeIsMatched(Codes(mac, key, digits), phone, server, period);
    if IsCodeAt(mac, key, phone, digits, period, code) {
      MatchYields(Codes(mac, key, digits), code, server, period);
    }
  }
}
