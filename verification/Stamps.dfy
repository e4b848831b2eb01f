/** The two time stamps made of civil dates: `minute_bucket` and `fmt_ts`. */
module Stamps {
  import opened Calendar

  // ---- decimal numbers ----

  function Digit(n: int): char
    requires 0 <= n < 10
  {
    '0' + n as char
  }

  function Dec(n: nat): (s: string)
    ensures |s| > 0
  {
    if n < 10 then [Digit(n)] else Dec(n / 10) + [Digit(n % 10)]
  }

  function Zeros(n: nat): (s: string)
    ensures |s| == n
  {
    seq(n, _ => '0')
  }

  function Pad(s: string, width: nat): (p: string)
    ensures |p| == if |s| >= width then |s| else width
  {
    if |s| >= width then s else Zeros(width - |s|) + s
  }

  /** `{:0width}` of a signed number: the sign takes one place. */
  function Signed(n: int, width: nat): string
    requires width > 0
  {
    if n >= 0 then Pad(Dec(n), width) else "-" + Pad(Dec(-n), width - 1)
  }

  /** Reading the digits back. */
  function Value(s: string): int {
    if s == [] then 0 else Value(s[..|s| - 1]) * 10 + (s[|s| - 1] as int - '0' as int)
  }

  lemma ValueSnoc(s: string, c: char)
    ensures Value(s + [c]) == Value(s) * 10 + (c as int - '0' as int)
  {
    assert (s + [c])[..|s|] == s;
  }

  lemma {:induction false} ValueZeros(n: nat)
    ensures Value(Zeros(n)) == 0
  {
    if n > 0 {
      ValueZeros(n - 1);
      assert Zeros(n) == Zeros(n - 1) + ['0'];
      ValueSnoc(Zeros(n - 1), '0');
    }
  }

  lemma {:induction false} ValueDec(zeros: nat, n: nat)
    ensures Value(Zeros(zeros) + Dec(n)) == n
  {
    if n < 10 {
      ValueZeros(zeros);
      ValueSnoc(Zeros(zeros), Digit(n));
    } else {
      ValueDec(zeros, n / 10);
      assert Zeros(zeros) + Dec(n) == Zeros(zeros) + Dec(n / 10) + [Digit(n % 10)];
      ValueSnoc(Zeros(zeros) + Dec(n / 10), Digit(n % 10));
    }
  }

  lemma ValuePad(n: nat, width: nat)
    ensures Value(Pad(Dec(n), width)) == n
  {
    var k := if |Dec(n)| >= width then 0 else width - |Dec(n)|;
    ValueDec(k, n);
    assert Pad(Dec(n), width) == Zeros(k) + Dec(n);
  }

  lemma {:induction false} DecDigits(n: nat)
    ensures forall c :: c in Dec(n) ==> '0' <= c <= '9'
  {
    if n >= 10 {
      DecDigits(n / 10);
    }
  }

  lemma PadDigits(n: nat, width: nat)
    ensures forall c :: c in Pad(Dec(n), width) ==> '0' <= c <= '9'
  {
    DecDigits(n);
  }

  function Abs(n: int): nat {
    if n >= 0 then n else -n
  }

  lemma SignShows(n: int, width: nat)
    requires width > 1
    ensures Signed(n, width) != [] && (Signed(n, width)[0] == '-' <==> n < 0)
  {
    if n >= 0 {
      var s := Pad(Dec(n), width);
      PadDigits(n, width);
      assert s[0] in s;
    }
  }

  lemma SignedInjective(a: int, b: int, width: nat)
    requires width > 1 && Signed(a, width) == Signed(b, width)
    ensures a == b
  {
    hide Pad, Dec;
    SignShows(a, width);
    SignShows(b, width);
    var w := if a >= 0 then width else width - 1;
    ValuePad(Abs(a), w);
    ValuePad(Abs(b), w);
    if a < 0 {
      assert Signed(a, width)[1..] == Pad(Dec(-a), w) && Signed(b, width)[1..] == Pad(Dec(-b), w);
    }
  }

  lemma TwoDigits(n: nat)
    requires n < 100
    ensures |Signed(n, 2)| == 2
  {
    if n >= 10 {
      assert |Dec(n / 10)| == 1;
    }
  }

  // ---- the stamps ----

  const DAY: int := 86_400

  /** `fmt_ts`. */
  function FmtTs(ts: int): string {
    var t := Civil(ts / DAY);
    Signed(t.y, 4) + "-" + Signed(t.m, 2) + "-" + Signed(t.d, 2)
  }

  /** `minute_bucket`. */
  function MinuteBucket(now: int): string {
    var t := Civil(now / DAY);
    var secs := now % DAY;
    Signed(t.y, 4) + Signed(t.m, 2) + Signed(t.d, 2) + Signed(secs / 3600, 2) + Signed(secs % 3600 / 60, 2)
  }

  // ---- what the stamps say ----

  /** A number as people read it: digits, behind a minus sign if it is negative. */
  predicate Reads(s: string, n: int) {
    if n >= 0 then (forall c :: c in s ==> '0' <= c <= '9') && Value(s) == n
    else s != [] && s[0] == '-' && (forall c :: c in s[1..] ==> '0' <= c <= '9') && Value(s[1..]) == -n
  }

  lemma SignedReads(n: int, width: nat)
    requires width > 0
    ensures Reads(Signed(n, width), n) && |Signed(n, width)| >= width
  {
    hide Dec, Pad;
    var w := if n >= 0 then width else width - 1;
    PadDigits(Abs(n), w);
    ValuePad(Abs(n), w);
    if n < 0 {
      assert Signed(n, width)[1..] == Pad(Dec(-n), w);
    }
  }

  /** A date stamp is the year, at least four places, then month and day, two each, with dashes between. */
  lemma DateReads(ts: int)
    ensures var t := Civil(ts / 86_400); var s := FmtTs(ts); var k := |s| - 6;
            && k >= 4 && s[k] == '-' && s[k + 3] == '-'
            && Reads(s[..k], t.y) && Reads(s[k + 1..k + 3], t.m) && Reads(s[k + 4..], t.d)
  {
    hide Civil, Signed, Reads;
    var t := Civil(ts / DAY);
    DateInRange(ts / DAY);
    TwoDigits(t.m);
    TwoDigits(t.d);
    SignedReads(t.y, 4);
    SignedReads(t.m, 2);
    SignedReads(t.d, 2);
    var y, s := Signed(t.y, 4), FmtTs(ts);
    assert s[..|y|] == y;
    assert s[|y| + 1..|y| + 3] == Signed(t.m, 2);
    assert s[|y| + 4..] == Signed(t.d, 2);
  }

  /** A window's name is year, month, day, hour and minute without anything between. */
  lemma WindowReads(now: int)
    ensures var t := Civil(now / 86_400); var s := MinuteBucket(now); var k := |s| - 8;
            && k >= 4 && Reads(s[..k], t.y) && Reads(s[k..k + 2], t.m) && Reads(s[k + 2..k + 4], t.d)
            && Reads(s[k + 4..k + 6], now % 86_400 / 3_600) && Reads(s[k + 6..], now % 3_600 / 60)
  {
    hide Civil, Signed, Reads;
    var t := Civil(now / DAY);
    var hh, mm := now % DAY / 3600, now % DAY % 3600 / 60;
    assert mm == now % 3_600 / 60;
    DateInRange(now / DAY);
    MinuteParts(now);
    TwoDigits(t.m);
    TwoDigits(t.d);
    TwoDigits(hh);
    TwoDigits(mm);
    SignedReads(t.y, 4);
    SignedReads(t.m, 2);
    SignedReads(t.d, 2);
    SignedReads(hh, 2);
    SignedReads(mm, 2);
    var y, s := Signed(t.y, 4), MinuteBucket(now);
    assert s[..|y|] == y;
    assert s[|y|..|y| + 2] == Signed(t.m, 2);
    assert s[|y| + 2..|y| + 4] == Signed(t.d, 2);
    assert s[|y| + 4..|y| + 6] == Signed(hh, 2);
    assert s[|y| + 6..] == Signed(mm, 2);
  }

  lemma SplitEnd(a: string, x: string, b: string, y: string)
    requires |x| == |y| && a + x == b + y
    ensures a == b && x == y
  {
    assert |a| == |b|;
    assert a == (a + x)[..|a|] == (b + y)[..|b|] == b;
    assert x == (a + x)[|a|..] == (b + y)[|b|..] == y;
  }

  lemma DateInRange(days: int)
    ensures 1 <= Civil(days).m <= 12 && 1 <= Civil(days).d <= 31
  {
    hide Civil;
    CivilIsRight(days);
  }

  /** Two times carry the same date stamp exactly when they lie in the same day. */
  lemma SameDayIff(a: int, b: int)
    ensures FmtTs(a) == FmtTs(b) <==> a / DAY == b / DAY
  {
    hide Civil, Signed;
    if FmtTs(a) == FmtTs(b) {
      var s, t := Civil(a / DAY), Civil(b / DAY);
      DateInRange(a / DAY);
      DateInRange(b / DAY);
      TwoDigits(s.m);
      TwoDigits(s.d);
      TwoDigits(t.m);
      TwoDigits(t.d);
      SplitEnd(Signed(s.y, 4) + "-" + Signed(s.m, 2) + "-", Signed(s.d, 2), Signed(t.y, 4) + "-" + Signed(t.m, 2) + "-", Signed(t.d, 2));
      SplitEnd(Signed(s.y, 4) + "-" + Signed(s.m, 2), "-", Signed(t.y, 4) + "-" + Signed(t.m, 2), "-");
      SplitEnd(Signed(s.y, 4) + "-", Signed(s.m, 2), Signed(t.y, 4) + "-", Signed(t.m, 2));
      SplitEnd(Signed(s.y, 4), "-", Signed(t.y, 4), "-");
      SameDay(s, t, a / DAY, b / DAY);
    }
  }

  lemma SameDay(s: Date, t: Date, a: int, b: int)
    requires Civil(a) == s && Civil(b) == t
    requires Signed(s.y, 4) == Signed(t.y, 4) && Signed(s.m, 2) == Signed(t.m, 2) && Signed(s.d, 2) == Signed(t.d, 2)
    ensures a == b
  {
    hide Civil, Signed;
    SignedInjective(s.y, t.y, 4);
    SignedInjective(s.m, t.m, 2);
    SignedInjective(s.d, t.d, 2);
    CivilInverse(a);
    CivilInverse(b);
  }

  /** Two times share a window exactly when they lie in the same minute. */
  lemma SameMinuteIff(a: int, b: int)
    ensures MinuteBucket(a) == MinuteBucket(b) <==> a / 60 == b / 60
  {
    hide Civil, Signed;
    MinuteParts(a);
    MinuteParts(b);
    if MinuteBucket(a) == MinuteBucket(b) {
      var s, t := Civil(a / DAY), Civil(b / DAY);
      var sh, th, sm, tm := a % DAY / 3600, b % DAY / 3600, a % DAY % 3600 / 60, b % DAY % 3600 / 60;
      DateInRange(a / DAY);
      DateInRange(b / DAY);
      TwoDigits(s.m);
      TwoDigits(s.d);
      TwoDigits(t.m);
      TwoDigits(t.d);
      TwoDigits(sh);
      TwoDigits(th);
      TwoDigits(sm);
      TwoDigits(tm);
      SplitEnd(Signed(s.y, 4) + Signed(s.m, 2) + Signed(s.d, 2) + Signed(sh, 2), Signed(sm, 2),
               Signed(t.y, 4) + Signed(t.m, 2) + Signed(t.d, 2) + Signed(th, 2), Signed(tm, 2));
      SplitEnd(Signed(s.y, 4) + Signed(s.m, 2) + Signed(s.d, 2), Signed(sh, 2), Signed(t.y, 4) + Signed(t.m, 2) + Signed(t.d, 2), Signed(th, 2));
      SplitEnd(Signed(s.y, 4) + Signed(s.m, 2), Signed(s.d, 2), Signed(t.y, 4) + Signed(t.m, 2), Signed(t.d, 2));
      SplitEnd(Signed(s.y, 4), Signed(s.m, 2), Signed(t.y, 4), Signed(t.m, 2));
      SameDay(s, t, a / DAY, b / DAY);
      SignedInjective(sh, th, 2);
      SignedInjective(sm, tm, 2);
    }
  }

  /** Minutes count on from hour to hour and day to day. */
  lemma MinuteParts(now: int)
    ensures now / 60 == now / DAY * 1440 + now % DAY / 3600 * 60 + now % DAY % 3600 / 60
    ensures 0 <= now % DAY / 3600 < 24 && 0 <= now % DAY % 3600 / 60 < 60
  {
  }

  /** The two stamps agree on the date: the window's name without its time of day tells days apart as `fmt_ts` does. */
  lemma StampsAgree(a: int, b: int)
    ensures var x := MinuteBucket(a); var y := MinuteBucket(b);
            |x| > 4 && |y| > 4 && (x[..|x| - 4] == y[..|y| - 4] <==> FmtTs(a) == FmtTs(b))
  {
    hide Civil, Signed;
    SameDayIff(a, b);
    var s, t := DayStart(a), DayStart(b);
    DatePart(a);
    DatePart(b);
    SameMinuteIff(s, t);
    assert s / 60 == a / DAY * 1440 && t / 60 == b / DAY * 1440;
    var zero := Signed(0, 2) + Signed(0, 2);
    var x, y := MinuteBucket(a), MinuteBucket(b);
    assert MinuteBucket(s) == x[..|x| - 4] + zero && MinuteBucket(t) == y[..|y| - 4] + zero;
    if MinuteBucket(s) == MinuteBucket(t) {
      SplitEnd(x[..|x| - 4], zero, y[..|y| - 4], zero);
    }
  }

  function DayStart(now: int): int {
    now / DAY * DAY
  }

  /** The first window of a day and any other one differ in the time of day alone. */
  lemma DatePart(now: int)
    ensures var x := MinuteBucket(now);
            |x| > 4 && MinuteBucket(DayStart(now)) == x[..|x| - 4] + (Signed(0, 2) + Signed(0, 2))
  {
    hide Civil, Signed;
    var s := DayStart(now);
    assert s / DAY == now / DAY && s % DAY == 0;
    MinuteParts(now);
    var t := Civil(now / DAY);
    var hh, mm := now % DAY / 3600, now % DAY % 3600 / 60;
    DateInRange(now / DAY);
    TwoDigits(t.m);
    TwoDigits(hh);
    TwoDigits(mm);
    var date := Signed(t.y, 4) + Signed(t.m, 2) + Signed(t.d, 2);
    assert MinuteBucket(now) == date + (Signed(hh, 2) + Signed(mm, 2));
    assert MinuteBucket(s) == date + (Signed(0, 2) + Signed(0, 2));
    assert MinuteBucket(now)[..|date|] == date;
  }
}
