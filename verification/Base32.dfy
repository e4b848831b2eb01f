/** Base32 (section 6 of RFC 4648) without padding, through a 32-bit buffer. */
module Base32 {
  import opened Bytes

  // ---- bits ----

  function Pow2(n: nat): (p: nat)
    ensures p > 0
  {
    if n == 0 then 1 else 2 * Pow2(n - 1)
  }

  /** The `width` low bits of `v`, most significant first. */
  function Bits(v: nat, width: nat): (bits: seq<bool>)
    ensures |bits| == width
  {
    if width == 0 then [] else Bits(v / 2, width - 1) + [v % 2 == 1]
  }

  function Val(bits: seq<bool>): (v: nat)
    ensures v < Pow2(|bits|)
  {
    if bits == [] then 0 else 2 * Val(bits[..|bits| - 1]) + if bits[|bits| - 1] then 1 else 0
  }

  lemma {:induction false} BitsVal(bits: seq<bool>)
    ensures Bits(Val(bits), |bits|) == bits
  {
    if bits != [] {
      BitsVal(bits[..|bits| - 1]);
    }
  }

  lemma {:induction false} ValBits(v: nat, width: nat)
    requires v < Pow2(width)
    ensures Val(Bits(v, width)) == v
  {
    if width > 0 {
      ValBits(v / 2, width - 1);
      assert Bits(v, width)[..width - 1] == Bits(v / 2, width - 1);
    }
  }

  lemma NextPower(n: nat)
    requires n > 0
    ensures Pow2(n) == 2 * Pow2(n - 1)
  {
  }

  function Bit(b: bool): nat {
    if b then 1 else 0
  }

  lemma ValSnoc(bits: seq<bool>)
    requires bits != []
    ensures Val(bits) == 2 * Val(bits[..|bits| - 1]) + Bit(bits[|bits| - 1])
  {
  }

  lemma {:induction false} ValConcat(a: seq<bool>, b: seq<bool>)
    ensures Val(a + b) == Val(a) * Pow2(|b|) + Val(b)
  {
    hide Pow2, Val, Bit;
    if b == [] {
      assert a + b == a;
      Empty();
    } else {
      var front, last := b[..|b| - 1], b[|b| - 1];
      assert (a + b)[..|a + b| - 1] == a + front && (a + b)[|a + b| - 1] == last;
      ValConcat(a, front);
      ValSnoc(a + b);
      ValSnoc(b);
      NextPower(|b|);
      Regroup(Val(a), Pow2(|b| - 1), Val(front), Bit(last));
    }
  }

  lemma Regroup(v: nat, p: nat, w: nat, bit: nat)
    ensures 2 * (v * p + w) + bit == v * (2 * p) + (2 * w + bit)
  {
  }

  lemma Empty()
    ensures Pow2(0) == 1 && Val([]) == 0
  {
  }

  function AllBits(data: seq<byte>): (bits: seq<bool>)
    ensures |bits| == 8 * |data|
  {
    if data == [] then [] else AllBits(data[..|data| - 1]) + Bits(data[|data| - 1], 8)
  }

  function Zeros(n: nat): (bits: seq<bool>)
    ensures |bits| == n
  {
    seq(n, _ => false)
  }

  /** Whole groups of `width` bits, as numbers; what is left over is dropped. */
  function Groups(bits: seq<bool>, width: nat): (g: seq<nat>)
    requires width > 0
    decreases |bits|
  {
    if |bits| < width then [] else [Val(bits[..width])] + Groups(bits[width..], width)
  }

  /** Groups in front are not disturbed by what follows. */
  lemma {:induction false} GroupsConcat(a: seq<bool>, b: seq<bool>, width: nat, n: nat)
    requires width > 0 && |a| == n * width
    ensures Groups(a + b, width) == Groups(a, width) + Groups(b, width) && |Groups(a, width)| == n
    decreases n
  {
    if n == 0 {
      assert a + b == b;
    } else {
      assert n * width == (n - 1) * width + width;
      assert (a + b)[..width] == a[..width] && (a + b)[width..] == a[width..] + b;
      GroupsConcat(a[width..], b, width, n - 1);
    }
  }

  lemma GroupsOne(bits: seq<bool>, width: nat)
    requires width > 0 && |bits| == width
    ensures Groups(bits, width) == [Val(bits)]
  {
    assert bits[..width] == bits && bits[width..] == [];
  }

  lemma GroupsShort(bits: seq<bool>, width: nat)
    requires |bits| < width
    ensures Groups(bits, width) == []
  {
  }

  // ---- symbols ----

  /** `A` to `Z`, then `2` to `7`. */
  function Symbol(i: int): char
    requires 0 <= i < 32
  {
    if i < 26 then (65 + i) as char else (24 + i) as char
  }

  predicate Below(g: seq<nat>, n: nat) {
    forall i :: 0 <= i < |g| ==> g[i] < n
  }

  function AsBytes(g: seq<nat>): (data: seq<byte>)
    requires Below(g, 256)
    ensures data == g
  {
    g
  }

  function Symbols(g: seq<nat>): (s: string)
    requires Below(g, 32)
    ensures |s| == |g| && forall i :: 0 <= i < |g| ==> s[i] == Symbol(g[i])
  {
    seq(|g|, i requires 0 <= i < |g| => Symbol(g[i]))
  }

  /** `to_ascii_uppercase() as u8`: a wide character keeps its low byte only. */
  function Narrow(c: char): byte {
    (if 'a' <= c <= 'z' then c as int - 32 else c as int) % 256
  }

  /** Where the byte stands in the alphabet. */
  function Index(b: byte): (i: Option<nat>)
    ensures i.Some? ==> i.value < 32
  {
    if 65 <= b <= 90 then Some(b - 65) else if 50 <= b <= 55 then Some(b - 24) else None
  }

  /** The alphabet of RFC 4648, letter by letter, in both directions. */
  lemma AlphabetOrder(i: nat)
    requires i < 32
    ensures Symbol(i) == "ABCDEFGHIJKLMNOPQRSTUVWXYZ234567"[i]
    ensures forall b: byte :: Index(b) == Some(i) <==> b == "ABCDEFGHIJKLMNOPQRSTUVWXYZ234567"[i] as int
  {
  }

  lemma SymbolIndex(i: nat)
    requires i < 32
    ensures Index(Narrow(Symbol(i))) == Some(i) && Symbol(i) != '='
  {
  }

  // ---- what encoding and decoding mean ----

  /** Zero bits that complete the last symbol. */
  function Fill(n: nat): nat {
    (5 - 8 * n % 5) % 5
  }

  lemma FillCompletes(n: nat)
    ensures 8 * n + Fill(n) == (8 * n + 4) / 5 * 5 && Fill(n) < 5
  {
    RoundUp(8 * n, 8 * n / 5, 8 * n % 5);
  }

  lemma RoundUp(x: nat, q: nat, r: nat)
    requires x == 5 * q + r && r < 5
    ensures x + (5 - r) % 5 == (x + 4) / 5 * 5
  {
    assert (x + 4) / 5 == if r == 0 then q else q + 1;
  }

  lemma GroupsBelow(bits: seq<bool>, width: nat)
    requires width > 0
    ensures Below(Groups(bits, width), Pow2(width))
    decreases |bits|
  {
    if |bits| >= width {
      GroupsBelow(bits[width..], width);
    }
  }

  lemma Powers()
    ensures Pow2(5) == 32 && Pow2(8) == 256
  {
  }

  /** The bits of the data, five at a time, filled up with zeros. */
  function Encoded(data: seq<byte>): string {
    var bits := AllBits(data) + Zeros(Fill(|data|));
    GroupsBelow(bits, 5);
    Powers();
    Symbols(Groups(bits, 5))
  }

  /** Up to the first padding character. */
  function BeforePad(s: string): string {
    if s == [] || s[0] == '=' then [] else [s[0]] + BeforePad(s[1..])
  }

  predicate AllKnown(s: string) {
    forall c :: c in s ==> Index(Narrow(c)).Some?
  }

  function SymbolBits(s: string): (bits: seq<bool>)
    requires AllKnown(s)
    ensures |bits| == 5 * |s|
  {
    if s == [] then [] else
    SymbolBits(s[..|s| - 1]) + Bits(Index(Narrow(s[|s| - 1])).value, 5)
  }

  /** The bits of the symbols, eight at a time; what is left over is dropped. */
  function Decoded(s: string): Option<seq<byte>> {
    var t := BeforePad(s);
    if !AllKnown(t) then None else
    GroupsBelow(SymbolBits(t), 8);
    Powers();
    Some(AsBytes(Groups(SymbolBits(t), 8)))
  }

  // ---- round trip ----

  lemma {:induction false} SymbolsKnown(g: seq<nat>)
    requires Below(g, 32)
    ensures AllKnown(Symbols(g)) && '=' !in Symbols(g)
  {
    var s := Symbols(g);
    forall c | c in s
      ensures Index(Narrow(c)).Some? && c != '='
    {
      var i :| 0 <= i < |s| && s[i] == c;
      SymbolIndex(g[i]);
    }
  }

  /** Cutting into symbols loses nothing. */
  lemma {:induction false} SymbolBitsOfGroups(bits: seq<bool>, n: nat)
    requires |bits| == n * 5
    ensures Below(Groups(bits, 5), 32) && |Groups(bits, 5)| == n
    ensures AllKnown(Symbols(Groups(bits, 5))) && SymbolBits(Symbols(Groups(bits, 5))) == bits
    decreases n
  {
    GroupsBelow(bits, 5);
    Powers();
    var g := Groups(bits, 5);
    SymbolsKnown(g);
    if n > 0 {
      var front, last := bits[..|bits| - 5], bits[|bits| - 5..];
      assert bits == front + last;
      SymbolBitsOfGroups(front, n - 1);
      GroupsConcat(front, last, 5, n - 1);
      GroupsOne(last, 5);
      var s := Symbols(g);
      assert s[..|s| - 1] == Symbols(Groups(front, 5));
      SymbolIndex(Val(last));
      BitsVal(last);
    }
  }

  lemma AllBitsSnoc(front: seq<byte>, b: byte)
    ensures AllBits(front + [b]) == AllBits(front) + Bits(b, 8)
  {
    hide Bits;
    assert (front + [b])[..|front|] == front;
  }

  lemma OneByte(b: byte, rest: seq<bool>)
    requires |rest| < 8
    ensures Groups(Bits(b, 8) + rest, 8) == [b as nat]
  {
    hide Bits, Val, Groups;
    GroupsConcat(Bits(b, 8), rest, 8, 1);
    GroupsOne(Bits(b, 8), 8);
    GroupsShort(rest, 8);
    Powers();
    ValBits(b, 8);
  }

  /** Cutting the data's bits into bytes gives the data. */
  lemma {:induction false} GroupsOfBytes(data: seq<byte>, rest: seq<bool>)
    requires |rest| < 8
    ensures Groups(AllBits(data) + rest, 8) == data
  {
    hide Bits, Val, Groups;
    if data == [] {
      assert AllBits(data) + rest == rest;
      GroupsShort(rest, 8);
    } else {
      var front, b := data[..|data| - 1], data[|data| - 1];
      GroupsOfBytes(front, []);
      assert AllBits(front) + [] == AllBits(front);
      AllBitsSnoc(front, b);
      assert data == front + [b];
      assert AllBits(data) + rest == AllBits(front) + (Bits(b, 8) + rest);
      GroupsConcat(AllBits(front), Bits(b, 8) + rest, 8, |front|);
      OneByte(b, rest);
    }
  }

  lemma {:induction false} NothingToCut(s: string, pad: string)
    requires '=' !in s && (pad == [] || pad[0] == '=')
    ensures BeforePad(s + pad) == s
  {
    if s == [] {
      assert s + pad == pad;
    } else {
      NothingToCut(s[1..], pad);
      assert (s + pad)[1..] == s[1..] + pad;
    }
  }

  /** Decoding what was encoded gives the data back, whatever padding is hung on behind; the text has ceil(8n/5) symbols. */
  lemma RoundTrip(data: seq<byte>, pad: string)
    requires pad == [] || pad[0] == '='
    ensures Decoded(Encoded(data) + pad) == Some(data)
    ensures |Encoded(data)| == (8 * |data| + 4) / 5
  {
    hide Fill;
    var fill := Zeros(Fill(|data|));
    var bits := AllBits(data) + fill;
    FillCompletes(|data|);
    SymbolBitsOfGroups(bits, (8 * |data| + 4) / 5);
    SymbolsKnown(Groups(bits, 5));
    NothingToCut(Encoded(data), pad);
    GroupsOfBytes(data, fill);
  }

  function Lower(c: char): char {
    if 'A' <= c <= 'Z' then c + 32 as char else c
  }

  function LowerAll(s: string): (t: string)
    ensures |t| == |s| && forall i :: 0 <= i < |s| ==> t[i] == Lower(s[i])
  {
    seq(|s|, i requires 0 <= i < |s| => Lower(s[i]))
  }

  /** The two characters have one low byte once in upper case, and both or neither are padding. */
  predicate AlikeAt(a: char, b: char) {
    Narrow(a) == Narrow(b) && (a == '=' <==> b == '=')
  }

  predicate Alike(s: string, t: string) {
    |s| == |t| && forall i :: 0 <= i < |s| ==> AlikeAt(s[i], t[i])
  }

  lemma {:induction false} AlikeBefore(s: string, t: string)
    requires Alike(s, t)
    ensures Alike(BeforePad(s), BeforePad(t))
  {
    hide Narrow;
    if s != [] {
      assert AlikeAt(s[0], t[0]);
      AlikeBefore(s[1..], t[1..]);
    }
  }

  lemma AlikeKnown(s: string, t: string)
    requires Alike(s, t)
    ensures AllKnown(s) <==> AllKnown(t)
  {
    hide Narrow, Index;
    forall i | 0 <= i < |s|
      ensures Index(Narrow(s[i])) == Index(Narrow(t[i]))
    {
      assert AlikeAt(s[i], t[i]);
    }
    if AllKnown(s) {
      forall c | c in t
        ensures Index(Narrow(c)).Some?
      {
        var i :| 0 <= i < |t| && t[i] == c;
        assert s[i] in s;
      }
    }
    if AllKnown(t) {
      forall c | c in s
        ensures Index(Narrow(c)).Some?
      {
        var i :| 0 <= i < |s| && s[i] == c;
        assert t[i] in t;
      }
    }
  }

  lemma {:induction false} AlikeBits(s: string, t: string)
    requires Alike(s, t) && AllKnown(s) && AllKnown(t)
    ensures SymbolBits(s) == SymbolBits(t)
  {
    hide Narrow, Index;
    if s != [] {
      assert AlikeAt(s[|s| - 1], t[|t| - 1]);
      AlikeBits(s[..|s| - 1], t[..|t| - 1]);
    }
  }

  /** Decoding looks at nothing else. */
  lemma NarrowDecides(s: string, t: string)
    requires Alike(s, t)
    ensures Decoded(s) == Decoded(t)
  {
    hide Narrow, Index, SymbolBits, BeforePad, AllKnown, Alike;
    AlikeBefore(s, t);
    AlikeKnown(BeforePad(s), BeforePad(t));
    if AllKnown(BeforePad(s)) {
      AlikeBits(BeforePad(s), BeforePad(t));
    }
  }

  /** Case does not matter, for any text. */
  lemma CaseFree(s: string)
    ensures Decoded(LowerAll(s)) == Decoded(s)
  {
    var t := LowerAll(s);
    forall i | 0 <= i < |s|
      ensures AlikeAt(t[i], s[i])
    {
    }
    NarrowDecides(t, s);
  }

  // ---- what is rejected ----

  predicate InAlphabet(c: char) {
    'A' <= c <= 'Z' || 'a' <= c <= 'z' || '2' <= c <= '7'
  }

  /** A text is refused exactly for a character whose low byte is no symbol; for ASCII text, for a foreign character. */
  lemma RejectedIff(s: string)
    ensures Decoded(s).None? <==> exists c :: c in BeforePad(s) && Index(Narrow(c)).None?
    ensures (forall c :: c in BeforePad(s) ==> c as int < 128) ==>
              (Decoded(s).None? <==> exists c :: c in BeforePad(s) && !InAlphabet(c))
  {
    forall c | c as int < 128
      ensures Index(Narrow(c)).Some? <==> InAlphabet(c)
    {
      Ascii(c);
    }
    var t := BeforePad(s);
    if Decoded(s).None? {
      var c :| c in t && Index(Narrow(c)).None?;
    }
  }

  lemma Ascii(c: char)
    requires c as int < 128
    ensures Index(Narrow(c)).Some? <==> InAlphabet(c)
  {
  }

  /** The character 256 code points further on: U+0141 for `A`. */
  function Widen(c: char): char {
    if c as int < 256 then c + 256 as char else c
  }

  function WidenAll(s: string): (t: string)
    ensures |t| == |s| && forall i :: 0 <= i < |s| ==> t[i] == Widen(s[i])
  {
    seq(|s|, i requires 0 <= i < |s| => Widen(s[i]))
  }

  lemma {:induction false} SymbolsInAlphabet(g: seq<nat>)
    requires Below(g, 32)
    ensures forall c :: c in Symbols(g) ==> InAlphabet(c)
  {
    var s := Symbols(g);
    forall c | c in s
      ensures InAlphabet(c)
    {
      var i :| 0 <= i < |s| && s[i] == c;
      assert s[i] == Symbol(g[i]);
    }
  }

  /** Foreign characters do get through: whatever the data, a text without one character of the alphabet decodes to it. */
  lemma WideCharactersAccepted(data: seq<byte>)
    ensures var t := WidenAll(Encoded(data));
            Decoded(t) == Some(data) && forall c :: c in t ==> !InAlphabet(c) && c != '='
  {
    hide Groups, SymbolBits, Decoded;
    var s := Encoded(data);
    var t := WidenAll(s);
    GroupsBelow(AllBits(data) + Zeros(Fill(|data|)), 5);
    Powers();
    SymbolsInAlphabet(Groups(AllBits(data) + Zeros(Fill(|data|)), 5));
    forall i | 0 <= i < |s|
      ensures AlikeAt(t[i], s[i]) && !InAlphabet(t[i]) && t[i] != '='
    {
      assert s[i] in s;
      WideAlike(s[i]);
    }
    RoundTrip(data, []);
    assert s + [] == s;
    NarrowDecides(t, s);
  }

  lemma WideAlike(c: char)
    requires InAlphabet(c)
    ensures !('a' <= c <= 'z') ==> AlikeAt(Widen(c), c)
    ensures !InAlphabet(Widen(c)) && Widen(c) != '='
  {
  }

  // ---- the 32-bit buffer ----

  const WORD: nat := 0x1_0000_0000

  /** `x << n`: bits pushed out on the left are gone. */
  function Shl(x: u32, n: nat): u32 {
    (x * Pow2(n)) % WORD
  }

  /** `x >> n`. */
  function Shr(x: u32, n: nat): int {
    x / Pow2(n)
  }

  lemma AtLeastOnce(d: int, k: int)
    requires d > 0 && k >= 1
    ensures d * k >= d
  {
  }

  lemma DivUnique(x: int, q: int, d: int, r: int)
    requires x == q * d + r && 0 <= r < d
    ensures x / d == q && x % d == r
  {
    var q', r' := x / d, x % d;
    assert x == d * q' + r' && 0 <= r' < d;
    assert d * (q - q') == r' - r;
    if q > q' {
      AtLeastOnce(d, q - q');
    } else if q < q' {
      AtLeastOnce(d, q' - q);
    }
  }

  /** `r * w + b` stays below `p * w`. */
  lemma Digits(r: nat, p: nat, w: nat, b: nat)
    requires r < p && b < w
    ensures r * w + b < p * w
  {
    AtLeastOnce(w, p - r);
    assert p * w == r * w + w * (p - r);
  }

  lemma {:induction false} PowAdd(a: nat, b: nat)
    ensures Pow2(a + b) == Pow2(a) * Pow2(b)
  {
    if a == 0 {
      assert Pow2(0) * Pow2(b) == Pow2(b);
    } else {
      PowAdd(a - 1, b);
      NextPower(a);
      NextPower(a + b);
      Twice(Pow2(a - 1), Pow2(b));
    }
  }

  lemma Twice(x: int, y: int)
    ensures (2 * x) * y == 2 * (x * y)
  {
  }

  lemma PowWord()
    ensures Pow2(32) == WORD
  {
    assert Pow2(4) == 16;
    PowAdd(4, 4);
    PowAdd(8, 8);
    PowAdd(16, 16);
  }

  /** The low `|pend|` bits of the buffer are the pending ones; what is above them is left over from before. */
  predicate Pending(buffer: u32, pend: seq<bool>) {
    buffer % Pow2(|pend|) == Val(pend)
  }

  /** A shift in a 32-bit word keeps the low part. */
  lemma ShiftKeeps(x: nat, w: nat, m: nat)
    requires w > 0 && m > 0 && WORD == m * w
    ensures (x * w) % WORD == (x % m) * w
  {
    var q, y := x / m, x % m;
    Digits(y, m, w, 0);
    assert x * w == q * WORD + y * w by {
      assert x == q * m + y;
      Distribute(q * m, y, w);
      assert q * m * w == q * (m * w);
    }
    DivUnique(x * w, q, WORD, y * w);
  }

  lemma Distribute(a: int, b: int, c: int)
    ensures (a + b) * c == a * c + b * c
  {
  }

  /** Cutting a number down to a multiple of `p` first does not change what is below `p`. */
  lemma LowPart(x: nat, p: nat, k: nat)
    requires p > 0 && k > 0
    ensures p * k > 0 && (x % (p * k)) % p == x % p
  {
    AtLeastOnce(p, k);
    var m := p * k;
    var q, y := x / m, x % m;
    var j, r := y / p, y % p;
    assert x == (q * k + j) * p + r by {
      Distribute(q * k, j, p);
      assert q * m == q * k * p;
    }
    DivUnique(x, q * k + j, p, r);
  }

  lemma PushNumber(x: nat, p: nat, pw: nat, k: nat, b: nat)
    requires p > 0 && k > 0 && b < pw && WORD == p * k * pw
    ensures (x * pw) % WORD + b < WORD && ((x * pw) % WORD + b) % (p * pw) == x % p * pw + b
  {
    ShiftKeeps(x, pw, p * k);
    LowPart(x, p, k);
    var y := x % (p * k);
    Digits(y, p * k, pw, b);
    var j, r := y / p, y % p;
    Digits(r, p, pw, b);
    assert y * pw + b == j * (p * pw) + (r * pw + b) by {
      Distribute(j * p, r, pw);
      assert j * p * pw == j * (p * pw);
    }
    DivUnique(y * pw + b, j, p * pw, r * pw + b);
  }

  /** `(buffer << w) | b` appends `w` bits. */
  lemma PushBits(buffer: u32, pend: seq<bool>, b: nat, w: nat)
    requires |pend| + w <= 32 && b < Pow2(w) && Pending(buffer, pend)
    ensures Shl(buffer, w) + b < WORD && Pending(Shl(buffer, w) + b, pend + Bits(b, w))
  {
    hide Pow2, Val, Bits;
    PowWord();
    PowAdd(|pend|, w);
    PowAdd(|pend|, 32 - |pend| - w);
    PowAdd(32 - w, w);
    PushNumber(buffer, Pow2(|pend|), Pow2(w), Pow2(32 - |pend| - w), b);
    ValConcat(pend, Bits(b, w));
    ValBits(b, w);
  }

  /** `buffer >> rest`, cut to `w` bits, takes the first `w` pending bits off. */
  lemma TopBits(buffer: u32, pend: seq<bool>, w: nat)
    requires w <= |pend| && Pending(buffer, pend)
    ensures Shr(buffer, |pend| - w) % Pow2(w) == Val(pend[..w]) && Pending(buffer, pend[w..])
  {
    hide Pow2, Val;
    var top, low := pend[..w], pend[w..];
    var d, pw := Pow2(|low|), Pow2(w);
    assert pend == top + low;
    ValConcat(top, low);
    PowAdd(w, |low|);
    var high := buffer / Pow2(|pend|);
    assert buffer == (high * pw + Val(top)) * d + Val(low) by {
      Distribute(high * pw, Val(top), d);
      assert high * (pw * d) == high * pw * d;
    }
    DivUnique(buffer, high * pw + Val(top), d, Val(low));
    DivUnique(high * pw + Val(top), high, pw, Val(top));
  }

  // ---- the two loops ----

  lemma {:induction false} ZeroBits(n: nat)
    ensures Bits(0, n) == Zeros(n)
  {
    if n > 0 {
      ZeroBits(n - 1);
      assert Zeros(n) == Zeros(n - 1) + [false];
    }
  }

  /** Bits done in whole symbols, as the text so far. */
  predicate Emitted(done: seq<bool>, out: string) {
    |done| == |out| * 5 && Below(Groups(done, 5), 32) && out == Symbols(Groups(done, 5))
  }

  lemma EmitOne(done: seq<bool>, five: seq<bool>, out: string)
    requires Emitted(done, out) && |five| == 5
    ensures Val(five) < 32 && Emitted(done + five, out + [Symbol(Val(five))])
  {
    Powers();
    GroupsConcat(done, five, 5, |out|);
    GroupsOne(five, 5);
    GroupsBelow(done + five, 5);
  }

  /** How far the encoder is: the data's bits are in the text, and then in the buffer. */
  predicate Encoding(data: seq<byte>, buffer: u32, done: seq<bool>, pend: seq<bool>, out: string) {
    Pending(buffer, pend) && Emitted(done, out) && AllBits(data) == done + pend
  }

  lemma Feed(data: seq<byte>, buffer: u32, done: seq<bool>, pend: seq<bool>, out: string, b: byte)
    requires Encoding(data, buffer, done, pend, out) && |pend| < 5
    ensures Shl(buffer, 8) + b < WORD && Encoding(data + [b], Shl(buffer, 8) + b, done, pend + Bits(b, 8), out)
  {
    hide Pow2, Val, Bits, Pending, Emitted;
    Powers();
    PushBits(buffer, pend, b, 8);
    assert (data + [b])[..|data|] == data;
  }

  lemma Draw(data: seq<byte>, buffer: u32, done: seq<bool>, pend: seq<bool>, out: string)
    requires Encoding(data, buffer, done, pend, out) && |pend| >= 5
    ensures Encoding(data, buffer, done + pend[..5], pend[5..], out + [Symbol(Shr(buffer, |pend| - 5) % 32)])
  {
    hide Pow2, Val, Bits, Pending, Emitted, Shr;
    Powers();
    TopBits(buffer, pend, 5);
    EmitOne(done, pend[..5], out);
    assert done + pend == done + pend[..5] + pend[5..];
  }

  /** The last symbol, if any, is filled up with zeros. */
  lemma Flush(data: seq<byte>, buffer: u32, done: seq<bool>, pend: seq<bool>, out: string)
    requires Encoding(data, buffer, done, pend, out) && |pend| < 5
    ensures Encoded(data) == if pend == [] then out else out + [Symbol(Shl(buffer, 5 - |pend|) % 32)]
  {
    hide Pow2, Val, Bits, AllBits, Groups, Shl, Emitted, Pending, Encoded;
    EmittedLength(done, out);
    FillLength(|data|, |out|, |pend|);
    var all := AllBits(data) + Zeros(Fill(|data|));
    if pend == [] {
      assert all == done;
      EncodedIs(data, done, out);
    } else {
      FillUp(buffer, done, pend, out);
      assert done + (pend + Zeros(5 - |pend|)) == all;
      EncodedIs(data, all, out + [Symbol(Shl(buffer, 5 - |pend|) % 32)]);
    }
  }

  lemma EmittedLength(done: seq<bool>, out: string)
    requires Emitted(done, out)
    ensures |done| == |out| * 5
  {
  }

  lemma FillLength(n: nat, k: nat, p: nat)
    requires 8 * n == 5 * k + p && p < 5
    ensures Fill(n) == if p == 0 then 0 else 5 - p
  {
    Remainder(8 * n, k, p);
  }

  lemma Remainder(x: nat, k: nat, p: nat)
    requires x == 5 * k + p && p < 5
    ensures x % 5 == p
  {
  }

  lemma EncodedIs(data: seq<byte>, all: seq<bool>, out: string)
    requires all == AllBits(data) + Zeros(Fill(|data|)) && Emitted(all, out)
    ensures Encoded(data) == out
  {
  }

  lemma FillUp(buffer: u32, done: seq<bool>, pend: seq<bool>, out: string)
    requires Pending(buffer, pend) && Emitted(done, out) && 0 < |pend| < 5
    ensures Emitted(done + (pend + Zeros(5 - |pend|)), out + [Symbol(Shl(buffer, 5 - |pend|) % 32)])
  {
    hide Pow2, Val, Bits, Groups, Emitted, Pending;
    var rest := 5 - |pend|;
    PushBits(buffer, pend, 0, rest);
    ZeroBits(rest);
    var last := pend + Zeros(rest);
    Powers();
    TopBits(Shl(buffer, rest), last, 5);
    assert last[..5] == last;
    NoShift(Shl(buffer, rest));
    EmitOne(done, last, out);
  }

  lemma NoShift(x: u32)
    ensures Shr(x, 0) == x
  {
  }

  method Encode(data: seq<byte>) returns (out: string)
    ensures out == Encoded(data)
  {
    hide Encoding, Encoded, Shl, Shr;
    out := [];
    var buffer: u32, bits := 0, 0;
    ghost var done: seq<bool>, pend: seq<bool> := [], [];
    StartEncoding();
    for i := 0 to |data|
      invariant |pend| == bits < 5 && Encoding(data[..i], buffer, done, pend, out)
    {
      Feed(data[..i], buffer, done, pend, out, data[i]);
      assert data[..i] + [data[i]] == data[..i + 1];
      buffer := Shl(buffer, 8) + data[i];
      pend := pend + Bits(data[i], 8);
      bits := bits + 8;
      while bits >= 5
        invariant |pend| == bits < 13 && Encoding(data[..i + 1], buffer, done, pend, out)
      {
        Draw(data[..i + 1], buffer, done, pend, out);
        bits := bits - 5;
        out := out + [Symbol(Shr(buffer, bits) % 32)];
        done, pend := done + pend[..5], pend[5..];
      }
    }
    assert data[..|data|] == data;
    Flush(data, buffer, done, pend, out);
    if bits > 0 {
      out := out + [Symbol(Shl(buffer, 5 - bits) % 32)];
    }
  }

  lemma StartEncoding()
    ensures Encoding([], 0, [], [], [])
  {
  }

  // ---- and back ----

  /** How far the decoder is: the symbols' bits are in the output, and then in the buffer. */
  predicate Decoding(t: string, buffer: u32, done: seq<bool>, pend: seq<bool>, out: seq<byte>) {
    && AllKnown(t) && '=' !in t && Pending(buffer, pend)
    && |done| == |out| * 8 && Groups(done, 8) == out && SymbolBits(t) == done + pend
  }

  lemma StartDecoding()
    ensures Decoding([], 0, [], [], [])
  {
  }

  lemma FeedSymbol(t: string, buffer: u32, done: seq<bool>, pend: seq<bool>, out: seq<byte>, c: char)
    requires Decoding(t, buffer, done, pend, out) && |pend| < 8 && c != '=' && Index(Narrow(c)).Some?
    ensures var i := Index(Narrow(c)).value;
            Shl(buffer, 5) + i < WORD && Decoding(t + [c], Shl(buffer, 5) + i, done, pend + Bits(i, 5), out)
  {
    hide Pow2, Val, Bits, Pending, Groups, Index, Narrow;
    Powers();
    PushBits(buffer, pend, Index(Narrow(c)).value, 5);
    assert (t + [c])[..|t|] == t;
  }

  lemma DrawByte(t: string, buffer: u32, done: seq<bool>, pend: seq<bool>, out: seq<byte>)
    requires Decoding(t, buffer, done, pend, out) && |pend| >= 8
    ensures Decoding(t, buffer, done + pend[..8], pend[8..], out + [Shr(buffer, |pend| - 8) % 256])
  {
    hide Pow2, Val, Bits, Pending, Groups, Index, Narrow, Shr;
    Powers();
    TopBits(buffer, pend, 8);
    GroupsConcat(done, pend[..8], 8, |out|);
    GroupsOne(pend[..8], 8);
    assert done + pend == done + pend[..8] + pend[8..];
  }

  lemma DecodedHere(t: string, buffer: u32, done: seq<bool>, pend: seq<bool>, out: seq<byte>, rest: string)
    requires Decoding(t, buffer, done, pend, out) && |pend| < 8 && (rest == [] || rest[0] == '=')
    ensures Decoded(t + rest) == Some(out)
  {
    hide Pow2, Val, Bits, Pending, Index, Narrow;
    NothingToCut(t, rest);
    GroupsConcat(done, pend, 8, |out|);
    GroupsShort(pend, 8);
    assert Groups(done, 8) + [] == Groups(done, 8);
  }

  lemma {:induction false} StillBeforePad(t: string, c: char, rest: string)
    requires '=' !in t && c != '='
    ensures c in BeforePad(t + [c] + rest)
  {
    if t == [] {
      assert t + [c] + rest == [c] + rest;
    } else {
      assert (t + [c] + rest)[1..] == t[1..] + [c] + rest;
      StillBeforePad(t[1..], c, rest);
    }
  }

  method Decode(s: string) returns (r: Option<seq<byte>>)
    ensures r == Decoded(s)
  {
    hide Decoding, Decoded, Shl, Shr, Index, Narrow;
    var out: seq<byte> := [];
    var buffer: u32, bits := 0, 0;
    ghost var done: seq<bool>, pend: seq<bool> := [], [];
    StartDecoding();
    for i := 0 to |s|
      invariant |pend| == bits < 8 && Decoding(s[..i], buffer, done, pend, out)
    {
      var c := s[i];
      assert s == s[..i] + s[i..] && s == s[..i] + [c] + s[i + 1..] && s[..i] + [c] == s[..i + 1];
      if c == '=' {
        DecodedHere(s[..i], buffer, done, pend, out, s[i..]);
        return Some(out);
      }
      var idx := Index(Narrow(c));
      if idx.None? {
        Unknown(s, s[..i], c, s[i + 1..]) by {
          SoFar(s[..i], buffer, done, pend, out);
        }
        return None;
      }
      FeedSymbol(s[..i], buffer, done, pend, out, c);
      buffer := Shl(buffer, 5) + idx.value;
      pend := pend + Bits(idx.value, 5);
      bits := bits + 5;
      if bits >= 8 {
        DrawByte(s[..i + 1], buffer, done, pend, out);
        bits := bits - 8;
        out := out + [Shr(buffer, bits) % 256];
        done, pend := done + pend[..8], pend[8..];
      }
    }
    assert s[..|s|] + [] == s;
    DecodedHere(s[..|s|], buffer, done, pend, out, []);
    return Some(out);
  }

  lemma SoFar(t: string, buffer: u32, done: seq<bool>, pend: seq<bool>, out: seq<byte>)
    requires Decoding(t, buffer, done, pend, out)
    ensures '=' !in t
  {
  }

  lemma Unknown(s: string, t: string, c: char, rest: string)
    requires s == t + [c] + rest && '=' !in t && c != '=' && Index(Narrow(c)).None?
    ensures Decoded(s).None?
  {
    StillBeforePad(t, c, rest);
  }
}
