/** Time-based one-time passwords (RFC 6238), with the keyed hash left open. */
module Totp {
  import opened Bytes
  import Base32
  import opened Stamps

  const TIME_STEP: nat := 30
  const CODE_MOD: nat := 1_000_000
  const U64: nat := 0x1_0000_0000_0000_0000

  /** HMAC-SHA1 as a function of key and message. */
  type Mac = (seq<byte>, seq<byte>) -> seq<byte>

  ghost predicate Sha1Sized(mac: Mac) {
    forall key, message :: |mac(key, message)| == 20
  }

  function Be64(x: u64): (b: seq<byte>)
    ensures |b| == 8
  {
    Be32(x / 0x1_0000_0000) + Be32(x % 0x1_0000_0000)
  }

  /** Dynamic truncation (section 5.3 of RFC 4226): 31 bits at the offset the last byte names. */
  function Truncate(digest: seq<byte>): (n: nat)
    requires |digest| == 20
    ensures n < 0x8000_0000
  {
    var offset := digest[19] % 16;
    var a: int, b: int, c: int, d: int := digest[offset], digest[offset + 1], digest[offset + 2], digest[offset + 3];
    a % 128 * 0x100_0000 + b * 0x1_0000 + c * 0x100 + d
  }

  function Code(mac: Mac, secret: string, now: u64): Option<string>
    requires Sha1Sized(mac)
  {
    var key := Base32.Decoded(secret);
    if key.None? then None
    else Some(Pad(Dec(Truncate(mac(key.value, Be64(now / TIME_STEP))) % CODE_MOD), 6))
  }

  predicate SixDigits(s: string) {
    |s| == 6 && forall c :: c in s ==> '0' <= c <= '9'
  }

  lemma {:induction false} DecLength(n: nat, width: nat)
    requires width > 0 && n < TenTo(width)
    ensures |Dec(n)| <= width
  {
    if n >= 10 {
      assert width > 1 by {
        assert TenTo(1) == 10 * TenTo(0);
      }
      DecLength(n / 10, width - 1);
    }
  }

  function TenTo(n: nat): nat {
    if n == 0 then 1 else 10 * TenTo(n - 1)
  }

  /** Whatever the keyed hash answers, a code is six digits. */
  lemma CodeIsSixDigits(mac: Mac, secret: string, now: u64)
    requires Sha1Sized(mac) && Code(mac, secret, now).Some?
    ensures SixDigits(Code(mac, secret, now).value)
  {
    hide Base32.Decoded, Truncate, Dec;
    var n := Truncate(mac(Base32.Decoded(secret).value, Be64(now / TIME_STEP))) % CODE_MOD;
    assert TenTo(6) == 1_000_000;
    DecLength(n, 6);
    PadDigits(n, 6);
  }

  // ---- what a code is made of ----

  lemma {:induction false} AllBitsVal(data: seq<byte>)
    requires data != []
    ensures Base32.Val(Base32.AllBits(data)) == 256 * Base32.Val(Base32.AllBits(data[..|data| - 1])) + data[|data| - 1]
  {
    hide Base32.Bits, Base32.Val, Base32.Pow2, Base32.AllBits;
    var last: int := data[|data| - 1];
    BitsOfLast(data);
    Base32.Powers();
    Base32.ValBits(last, 8);
    Base32.ValConcat(Base32.AllBits(data[..|data| - 1]), Base32.Bits(last, 8));
  }

  lemma BitsOfLast(data: seq<byte>)
    requires data != []
    ensures Base32.AllBits(data) == Base32.AllBits(data[..|data| - 1]) + Base32.Bits(data[|data| - 1], 8)
  {
  }

  /** Bytes as the digits of a number to the base 256, the most significant first. */
  function Number(data: seq<byte>): nat {
    if data == [] then 0 else 256 * Number(data[..|data| - 1]) + data[|data| - 1]
  }

  lemma {:induction false} NumberBits(data: seq<byte>)
    ensures Base32.Val(Base32.AllBits(data)) == Number(data)
  {
    if data == [] {
      assert Base32.AllBits(data) == [];
    } else {
      AllBitsVal(data);
      NumberBits(data[..|data| - 1]);
    }
  }

  lemma NumberConcat(a: seq<byte>, b: byte)
    ensures Number(a + [b]) == 256 * Number(a) + b
  {
    assert (a + [b])[..|a|] == a;
  }

  lemma Number4(a: byte, b: byte, c: byte, d: byte)
    ensures Number([a, b, c, d]) == a * 0x100_0000 + b * 0x1_0000 + c * 0x100 + d
  {
    NumberConcat([], a);
    NumberConcat([a], b);
    NumberConcat([a, b], c);
    NumberConcat([a, b, c], d);
    assert [] + [a] == [a] && [a] + [b] == [a, b] && [a, b] + [c] == [a, b, c] && [a, b, c] + [d] == [a, b, c, d];
  }

  /** Dropping the sign bit. */
  lemma WithoutTopBit(bits: seq<bool>)
    requires |bits| == 32
    ensures Base32.Val(bits[1..]) == Base32.Val(bits) % 0x8000_0000
  {
    hide Base32.Val, Base32.Pow2;
    Base32.ValConcat(bits[..1], bits[1..]);
    assert bits == bits[..1] + bits[1..];
    Pow31();
    var low := Base32.Val(bits[1..]);
    assert Base32.Val(bits) == Base32.Val(bits[..1]) * 0x8000_0000 + low;
  }

  lemma Pow31()
    ensures Base32.Pow2(31) == 0x8000_0000
  {
    assert Base32.Pow2(8) == 256;
    assert Base32.Pow2(16) == 0x1_0000;
    assert Base32.Pow2(24) == 0x100_0000;
  }

  /** Dynamic truncation, bit by bit: of the 32 bits at the offset that the last four bits name, all but the first. */
  lemma TruncateBits(digest: seq<byte>)
    requires |digest| == 20
    ensures var o := digest[19] % 16;
            Truncate(digest) == Base32.Val(Base32.AllBits(digest[o..o + 4])[1..])
  {
    hide Base32.AllBits, Base32.Val;
    var o := digest[19] % 16;
    var w := digest[o..o + 4];
    assert w == [digest[o], digest[o + 1], digest[o + 2], digest[o + 3]];
    Number4(digest[o], digest[o + 1], digest[o + 2], digest[o + 3]);
    NumberBits(w);
    WithoutTopBit(Base32.AllBits(w));
    TopByte(digest[o], digest[o + 1], digest[o + 2], digest[o + 3]);
  }

  lemma TopByte(a: byte, b: byte, c: byte, d: byte)
    ensures (a * 0x100_0000 + b * 0x1_0000 + c * 0x100 + d) % 0x8000_0000 == a % 128 * 0x100_0000 + b * 0x1_0000 + c * 0x100 + d
  {
    assert a == a / 128 * 128 + a % 128;
    assert a * 0x100_0000 + b * 0x1_0000 + c * 0x100 + d ==
           a / 128 * 0x8000_0000 + (a % 128 * 0x100_0000 + b * 0x1_0000 + c * 0x100 + d);
  }

  /** The counter goes into the hash as eight bytes, the most significant first. */
  lemma CounterBits(x: u64)
    ensures |Be64(x)| == 8 && Base32.Val(Base32.AllBits(Be64(x))) == x
  {
    hide Base32.AllBits, Base32.Val;
    NumberBits(Be64(x));
    var high, low := x / 0x1_0000_0000, x % 0x1_0000_0000;
    Be32Number([], high);
    Be32Number(Be32(high), low);
    assert [] + Be32(high) == Be32(high);
  }

  lemma Be32Number(a: seq<byte>, x: u32)
    ensures Number(a + Be32(x)) == Number(a) * 0x1_0000_0000 + x
  {
    var b := Be32(x);
    NumberConcat(a, b[0]);
    NumberConcat(a + [b[0]], b[1]);
    NumberConcat(a + [b[0], b[1]], b[2]);
    NumberConcat(a + [b[0], b[1], b[2]], b[3]);
    assert a + [b[0]] + [b[1]] == a + [b[0], b[1]] && a + [b[0], b[1]] + [b[2]] == a + [b[0], b[1], b[2]];
    assert a + [b[0], b[1], b[2]] + [b[3]] == a + b;
  }

  /** The digits of a code are those 31 bits of the keyed hash of the half minute, modulo a million. */
  lemma CodeReads(mac: Mac, secret: string, now: u64)
    requires Sha1Sized(mac) && Code(mac, secret, now).Some?
    ensures Base32.Decoded(secret).Some?
    ensures var digest := mac(Base32.Decoded(secret).value, Be64(now / 30)); var o := digest[19] % 16;
            Value(Code(mac, secret, now).value) == Base32.Val(Base32.AllBits(digest[o..o + 4])[1..]) % 1_000_000
  {
    hide Base32.Decoded, Base32.AllBits, Base32.Val, Truncate, Dec, Pad;
    var digest := mac(Base32.Decoded(secret).value, Be64(now / 30));
    TruncateBits(digest);
    ValuePad(Truncate(digest) % CODE_MOD, 6);
  }

  /** RFC 4226 works this example: a digest, and the six digits it is cut down to. */
  lemma WorkedExample(mac: Mac, key: seq<byte>, now: u64)
    requires Sha1Sized(mac) && 30 <= now < 60
    requires mac(key, [0, 0, 0, 0, 0, 0, 0, 1]) ==
             [0x75, 0xa4, 0x8a, 0x19, 0xd4, 0xcb, 0xe1, 0x00, 0x64, 0x4e, 0x8a, 0xc1, 0x39, 0x7e, 0xea, 0x74, 0x7a, 0x2d, 0x33, 0xab]
    ensures Code(mac, Base32.Encoded(key), now) == Some("287082")
  {
    hide Base32.Decoded, Base32.Encoded, Dec, Pad, Truncate;
    Base32.RoundTrip(key, "");
    assert Base32.Encoded(key) + "" == Base32.Encoded(key);
    var digest := mac(key, [0, 0, 0, 0, 0, 0, 0, 1]);
    assert Be64(1) == [0, 0, 0, 0, 0, 0, 0, 1];
    Digest287082(digest);
    Digits287082();
  }

  lemma Digest287082(digest: seq<byte>)
    requires digest == [0x75, 0xa4, 0x8a, 0x19, 0xd4, 0xcb, 0xe1, 0x00, 0x64, 0x4e, 0x8a, 0xc1, 0x39, 0x7e, 0xea, 0x74, 0x7a, 0x2d, 0x33, 0xab]
    ensures Truncate(digest) % 1_000_000 == 287082
  {
    assert digest[19] % 16 == 11;
  }

  lemma Digits287082()
    ensures Pad(Dec(287082), 6) == "287082"
  {
    assert Dec(2) == "2";
    assert Dec(28) == "28";
    assert Dec(287) == "287";
    assert Dec(2870) == "2870";
    assert Dec(28708) == "28708";
  }

  // ---- trimming ----

  /** Unicode White_Space. */
  predicate IsWhite(c: char) {
    var n := c as int;
    9 <= n <= 13 || n == 0x20 || n == 0x85 || n == 0xA0 || n == 0x1680 || 0x2000 <= n <= 0x200A ||
    n == 0x2028 || n == 0x2029 || n == 0x202F || n == 0x205F || n == 0x3000
  }

  /** The twenty-five characters, one by one. */
  lemma WhiteSpace(c: char)
    ensures IsWhite(c) <==>
            c as int in {0x9, 0xA, 0xB, 0xC, 0xD, 0x20, 0x85, 0xA0, 0x1680, 0x2000, 0x2001, 0x2002, 0x2003, 0x2004, 0x2005, 0x2006,
                         0x2007, 0x2008, 0x2009, 0x200A, 0x2028, 0x2029, 0x202F, 0x205F, 0x3000}
  {
  }

  function TrimStart(s: string): string {
    if s != [] && IsWhite(s[0]) then TrimStart(s[1..]) else s
  }

  function TrimEnd(s: string): string {
    if s != [] && IsWhite(s[|s| - 1]) then TrimEnd(s[..|s| - 1]) else s
  }

  function Trim(s: string): string {
    TrimEnd(TrimStart(s))
  }

  predicate AllWhite(s: string) {
    forall c :: c in s ==> IsWhite(c)
  }

  lemma {:induction false} TrimStartIs(s: string)
    ensures exists w :: AllWhite(w) && s == w + TrimStart(s)
    ensures TrimStart(s) != [] ==> !IsWhite(TrimStart(s)[0])
  {
    if s != [] && IsWhite(s[0]) {
      TrimStartIs(s[1..]);
      var w :| AllWhite(w) && s[1..] == w + TrimStart(s[1..]);
      assert s == [s[0]] + s[1..] == ([s[0]] + w) + TrimStart(s);
      assert AllWhite([s[0]] + w);
    } else {
      assert AllWhite([]) && s == [] + TrimStart(s);
    }
  }

  lemma {:induction false} TrimEndIs(s: string)
    ensures exists w :: AllWhite(w) && s == TrimEnd(s) + w
    ensures TrimEnd(s) != [] ==> !IsWhite(TrimEnd(s)[|TrimEnd(s)| - 1]) && TrimEnd(s)[0] == s[0]
    ensures TrimEnd(s) != [] ==> s != []
  {
    if s != [] && IsWhite(s[|s| - 1]) {
      var t := s[..|s| - 1];
      TrimEndIs(t);
      var w :| AllWhite(w) && t == TrimEnd(t) + w;
      assert s == t + [s[|s| - 1]] == TrimEnd(s) + (w + [s[|s| - 1]]);
      assert AllWhite(w + [s[|s| - 1]]);
    } else {
      assert AllWhite([]) && s == TrimEnd(s) + [];
    }
  }

  /** Trimming takes white space off both ends, all of it and nothing else. */
  lemma TrimIs(s: string)
    ensures exists before, after :: AllWhite(before) && AllWhite(after) && s == before + Trim(s) + after
    ensures Trim(s) != [] ==> !IsWhite(Trim(s)[0]) && !IsWhite(Trim(s)[|Trim(s)| - 1])
  {
    hide TrimStart, TrimEnd, AllWhite, IsWhite;
    TrimStartIs(s);
    TrimEndIs(TrimStart(s));
    var before :| AllWhite(before) && s == before + TrimStart(s);
    var after :| AllWhite(after) && TrimStart(s) == Trim(s) + after;
    assert s == before + Trim(s) + after;
  }

  lemma {:induction false} TrimsStart(w: string, s: string)
    requires AllWhite(w) && s != [] && !IsWhite(s[0])
    ensures TrimStart(w + s) == s
  {
    if w == [] {
      assert w + s == s;
    } else {
      assert w[0] in w;
      assert (w + s)[1..] == w[1..] + s;
      TrimsStart(w[1..], s);
    }
  }

  lemma {:induction false} TrimsEnd(s: string, w: string)
    requires AllWhite(w) && s != [] && !IsWhite(s[|s| - 1])
    ensures TrimEnd(s + w) == s
  {
    if w == [] {
      assert s + w == s;
    } else {
      assert w[|w| - 1] in w;
      assert (s + w)[..|s + w| - 1] == s + w[..|w| - 1];
      TrimsEnd(s, w[..|w| - 1]);
    }
  }

  /** White space around a code does not matter. */
  lemma TrimSurround(before: string, code: string, after: string)
    requires AllWhite(before) && AllWhite(after) && SixDigits(code)
    ensures Trim(before + code + after) == code
  {
    assert code[0] in code && code[5] in code;
    assert before + code + after == before + (code + after);
    TrimsStart(before, code + after);
    TrimsEnd(code, after);
  }

  // ---- verification ----

  /** The steps that are tried. */
  predicate InWindow(now: u64, s: nat) {
    var step := now / TIME_STEP;
    (if step == 0 then 0 else step - 1) <= s <= step + 1
  }

  /** The time a step is turned back into, in 64 bits. */
  function StepTime(s: nat): u64 {
    (s * TIME_STEP) % U64
  }

  ghost predicate Verifies(mac: Mac, secret: string, code: string, now: u64)
    requires Sha1Sized(mac)
  {
    var t := Trim(code);
    SixDigits(t) && exists s: nat :: InWindow(now, s) && Code(mac, secret, StepTime(s)) == Some(t)
  }

  lemma XorZero(a: bv8, b: bv8)
    ensures a ^ b == 0 <==> a == b
  {
  }

  lemma OrZero(a: bv8, b: bv8)
    ensures a | b == 0 <==> a == 0 && b == 0
  {
  }

  function Bit(b: bool, weight: bv8): bv8 {
    if b then weight else 0
  }

  /** A character as a byte, bit by bit. */
  function ToBv(c: char): bv8 {
    var b := Base32.Bits(c as int, 8);
    Bit(b[0], 128) | Bit(b[1], 64) | Bit(b[2], 32) | Bit(b[3], 16) | Bit(b[4], 8) | Bit(b[5], 4) | Bit(b[6], 2) | Bit(b[7], 1)
  }

  lemma ToBvInjective(c: char, d: char)
    requires c as int < 256 && d as int < 256
    ensures ToBv(c) == ToBv(d) <==> c == d
  {
    hide Base32.Bits;
    var b, e := Base32.Bits(c as int, 8), Base32.Bits(d as int, 8);
    if ToBv(c) == ToBv(d) {
      var x, y := ToBv(c), ToBv(d);
      assert (x & 128 != 0 <==> b[0]) && (x & 64 != 0 <==> b[1]) && (x & 32 != 0 <==> b[2]) && (x & 16 != 0 <==> b[3]);
      assert (x & 8 != 0 <==> b[4]) && (x & 4 != 0 <==> b[5]) && (x & 2 != 0 <==> b[6]) && (x & 1 != 0 <==> b[7]);
      assert (y & 128 != 0 <==> e[0]) && (y & 64 != 0 <==> e[1]) && (y & 32 != 0 <==> e[2]) && (y & 16 != 0 <==> e[3]);
      assert (y & 8 != 0 <==> e[4]) && (y & 4 != 0 <==> e[5]) && (y & 2 != 0 <==> e[6]) && (y & 1 != 0 <==> e[7]);
      assert b == e;
      Base32.Powers();
      Base32.ValBits(c as int, 8);
      Base32.ValBits(d as int, 8);
    }
  }

  /** Compares all six bytes before it answers. */
  method CodeEq(a: string, b: string) returns (eq: bool)
    requires (forall c :: c in a ==> c as int < 128) && (forall c :: c in b ==> c as int < 128)
    ensures eq <==> |a| == 6 && a == b
  {
    if |a| != 6 || |b| != 6 {
      return false;
    }
    var acc: bv8 := 0;
    for i := 0 to 6
      invariant acc == 0 <==> a[..i] == b[..i]
    {
      XorZero(ToBv(a[i]), ToBv(b[i]));
      OrZero(acc, ToBv(a[i]) ^ ToBv(b[i]));
      assert a[i] in a && b[i] in b;
      ToBvInjective(a[i], b[i]);
      assert a[..i + 1] == a[..i] + [a[i]] && b[..i + 1] == b[..i] + [b[i]];
      acc := acc | (ToBv(a[i]) ^ ToBv(b[i]));
    }
    assert a[..6] == a && b[..6] == b;
    return acc == 0;
  }

  /** Every step of the window is tried, whether or not one has matched already. */
  method Verify(mac: Mac, secret: string, code: string, now: u64) returns (matched: bool)
    requires Sha1Sized(mac)
    ensures matched <==> Verifies(mac, secret, code, now)
  {
    hide Base32.Decoded, Code, Dec, Trim;
    var t := Trim(code);
    if |t| != 6 || exists c :: c in t && !('0' <= c <= '9') {
      return false;
    }
    var step := now / TIME_STEP;
    var first := if step == 0 then 0 else step - 1;
    matched := false;
    var s := first;
    while s <= step + 1
      invariant first <= s <= step + 2
      invariant matched <==> exists r: nat :: first <= r < s && Code(mac, secret, StepTime(r)) == Some(t)
    {
      var c := Code(mac, secret, StepTime(s));
      if c.Some? {
        CodeIsSixDigits(mac, secret, StepTime(s));
      }
      var eq := CodeEq(if c.Some? then c.value else "", t);
      matched := matched || eq;
      s := s + 1;
    }
  }

  /** The code depends on the time step alone. */
  lemma SameStep(mac: Mac, secret: string, t: u64, u: u64)
    requires Sha1Sized(mac) && t / TIME_STEP == u / TIME_STEP
    ensures Code(mac, secret, t) == Code(mac, secret, u)
  {
  }

  lemma StepTimeInStep(s: nat)
    requires s * TIME_STEP < U64
    ensures StepTime(s) / TIME_STEP == s
  {
  }

  /** A code is accepted for thirty seconds before and after its own time, with white space around it or not. */
  lemma AcceptedAround(mac: Mac, secret: string, t: u64, now: u64, before: string, after: string)
    requires Sha1Sized(mac) && Code(mac, secret, t).Some? && -30 <= t - now <= 30
    requires AllWhite(before) && AllWhite(after)
    ensures Verifies(mac, secret, before + Code(mac, secret, t).value + after, now)
  {
    hide Code, Trim;
    CodeIsSixDigits(mac, secret, t);
    TrimSurround(before, Code(mac, secret, t).value, after);
    var s := t / TIME_STEP;
    StepTimeInStep(s);
    SameStep(mac, secret, t, StepTime(s));
    assert InWindow(now, s);
  }

  /** And only then: apart from the last step of 64-bit time a code that is accepted is the code of a neighbouring step. */
  lemma AcceptedIff(mac: Mac, secret: string, code: string, now: u64)
    requires Sha1Sized(mac) && (now / 30 + 1) * 30 < 0x1_0000_0000_0000_0000
    ensures Verifies(mac, secret, code, now) <==>
            SixDigits(Trim(code)) && exists t: u64 :: -1 <= t / 30 - now / 30 <= 1 && Code(mac, secret, t) == Some(Trim(code))
  {
    hide Code, Trim;
    var c := Trim(code);
    if Verifies(mac, secret, code, now) {
      var s: nat :| InWindow(now, s) && Code(mac, secret, StepTime(s)) == Some(c);
      StepTimeInStep(s);
      assert -1 <= StepTime(s) / TIME_STEP - now / TIME_STEP <= 1;
    }
    if SixDigits(c) && exists t: u64 :: -1 <= t / TIME_STEP - now / TIME_STEP <= 1 && Code(mac, secret, t) == Some(c) {
      var t: u64 :| -1 <= t / TIME_STEP - now / TIME_STEP <= 1 && Code(mac, secret, t) == Some(c);
      var s := t / TIME_STEP;
      StepTimeInStep(s);
      SameStep(mac, secret, t, StepTime(s));
      assert InWindow(now, s);
    }
  }

  /** In that last step the product wraps and the very first code is accepted too. */
  lemma LastStepWraps(mac: Mac, secret: string, now: u64)
    requires Sha1Sized(mac) && Code(mac, secret, 0).Some? && (now / 30 + 1) * 30 >= 0x1_0000_0000_0000_0000
    ensures Verifies(mac, secret, Code(mac, secret, 0).value, now)
  {
    hide Code, Trim;
    CodeIsSixDigits(mac, secret, 0);
    var code := Code(mac, secret, 0).value;
    TrimSurround("", code, "");
    assert "" + code + "" == code;
    var s := now / TIME_STEP + 1;
    assert StepTime(s) / TIME_STEP == 0;
    SameStep(mac, secret, 0, StepTime(s));
    assert InWindow(now, s);
  }

  /** A secret that cannot be decoded accepts nothing. */
  lemma NoSecretNoEntry(mac: Mac, secret: string, code: string, now: u64)
    requires Sha1Sized(mac) && Base32.Decoded(secret).None?
    ensures !Verifies(mac, secret, code, now)
  {
    hide Base32.Decoded;
  }
}
