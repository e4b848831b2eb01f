/** Civil dates from day numbers, as `minute_bucket` and `fmt_ts` compute them. */
module Calendar {
  datatype Date = Date(y: int, m: int, d: int)

  // ---- the Gregorian calendar ----

  predicate Leap(y: int) {
    y % 4 == 0 && (y % 100 != 0 || y % 400 == 0)
  }

  function MonthLength(y: int, m: int): int {
    if m == 2 then (if Leap(y) then 29 else 28)
    else if m == 4 || m == 6 || m == 9 || m == 11 then 30
    else 31
  }

  predicate Valid(t: Date) {
    1 <= t.m <= 12 && 1 <= t.d <= MonthLength(t.y, t.m)
  }

  /** The day after. */
  function NextDay(t: Date): Date {
    if t.d < MonthLength(t.y, t.m) then Date(t.y, t.m, t.d + 1)
    else if t.m < 12 then Date(t.y, t.m + 1, 1)
    else Date(t.y + 1, 1, 1)
  }

  // ---- the program's arithmetic ----

  /** Division in the source truncates towards zero. */
  function Quot(a: int, b: int): int
    requires b > 0
  {
    if a >= 0 then a / b else -((-a) / b)
  }

  function Era(z: int): int {
    Quot(if z >= 0 then z else z - 146_096, 146_097)
  }

  function YearOfEra(doe: int): int {
    Quot(doe - Quot(doe, 1460) + Quot(doe, 36_524) - Quot(doe, 146_096), 365)
  }

  function DayOfYear(doe: int, yoe: int): int {
    doe - (365 * yoe + Quot(yoe, 4) - Quot(yoe, 100))
  }

  /** Years run from March; `yoe` is 0 … 399, `doy` 0 … 365. */
  function FromMarch(era: int, yoe: int, doy: int): Date {
    var mp := Quot(5 * doy + 2, 153);
    var d := doy - Quot(153 * mp + 2, 5) + 1;
    var m := if mp < 10 then mp + 3 else mp - 9;
    var y := yoe + era * 400;
    Date(if m <= 2 then y + 1 else y, m, d)
  }

  /** Day 0 is 1970-01-01. */
  function Civil(days: int): Date {
    var z := days + 719_468;
    var era := Era(z);
    var doe := z - era * 146_097;
    var yoe := YearOfEra(doe);
    FromMarch(era, yoe, DayOfYear(doe, yoe))
  }

  // ---- eras, years and days ----

  lemma EraFloors(z: int)
    ensures Era(z) == z / 146_097 && 0 <= z - Era(z) * 146_097 < 146_097
  {
  }

  /** Days before year `yoe` of an era; years begin in March. */
  function YearStart(yoe: int): int {
    365 * yoe + yoe / 4 - yoe / 100
  }

  /** Such a year is long when the February that ends it is. */
  function YearLength(yoe: int): int {
    if (yoe + 1) % 4 == 0 && ((yoe + 1) % 100 != 0 || (yoe + 1) % 400 == 0) then 366 else 365
  }

  /** Years follow each other without a gap, and 400 of them fill an era. */
  lemma YearsMeet(yoe: int)
    requires 0 <= yoe < 400
    ensures YearStart(yoe) + YearLength(yoe) == if yoe == 399 then 146_097 else YearStart(yoe + 1)
  {
    NextQuotient4(yoe);
    NextQuotient100(yoe);
    if yoe < 399 {
      assert (yoe + 1) % 400 == yoe + 1;
    }
  }

  lemma NextQuotient4(n: int)
    ensures (n + 1) / 4 == n / 4 + if (n + 1) % 4 == 0 then 1 else 0
  {
  }

  lemma NextQuotient100(n: int)
    ensures (n + 1) / 100 == n / 100 + if (n + 1) % 100 == 0 then 1 else 0
    ensures (n + 1) % 100 == 0 ==> (n + 1) % 4 == 0
  {
  }

  lemma Multiple4(a: int, k: int)
    ensures (a + 4 * k) % 4 == a % 4
  {
    assert a + 4 * k == 4 * (a / 4 + k) + a % 4;
  }

  lemma Multiple100(a: int, k: int)
    ensures (a + 100 * k) % 100 == a % 100
  {
    assert a + 100 * k == 100 * (a / 100 + k) + a % 100;
  }

  lemma Multiple400(a: int, k: int)
    ensures (a + 400 * k) % 400 == a % 400
  {
    assert a + 400 * k == 400 * (a / 400 + k) + a % 400;
  }

  lemma InEra(era: int, doe: int)
    requires 0 <= doe < 146_097
    ensures (era * 146_097 + doe) / 146_097 == era && (era * 146_097 + doe) % 146_097 == doe
  {
  }

  /** Day `k` of year `100 c + 4 q + t`. */
  predicate Splits(doe: int, c: int, q: int, t: int, k: int) {
    && 0 <= c < 4 && 0 <= q < 25 && 0 <= t < 4
    && doe == 36_524 * c + 1461 * q + 365 * t + k
    && 0 <= k <= 365 && (k == 365 ==> t == 3 && (q < 24 || c == 3))
  }

  lemma SplitDay(doe: int) returns (c: int, q: int, t: int, k: int)
    requires 0 <= doe < 146_097
    ensures Splits(doe, c, q, t, k)
  {
    c := if doe == 146_096 then 3 else doe / 36_524;
    var r := doe - 36_524 * c;
    q := r / 1461;
    var r2 := r - 1461 * q;
    t := if r2 == 1460 then 3 else r2 / 365;
    k := r2 - 365 * t;
  }

  lemma YearOf(doe: int, c: int, q: int, t: int, k: int)
    requires Splits(doe, c, q, t, k)
    ensures var yoe := 100 * c + 4 * q + t; YearOfEra(doe) == yoe && YearStart(yoe) == doe - k && k < YearLength(yoe)
  {
    hide YearOfEra;
    var yoe := 100 * c + 4 * q + t;
    Quotients(doe, c, q, t, k);
    YearOfDay(doe, c, q, t, k);
    assert yoe / 4 == 25 * c + q && yoe / 100 == c;
    if k == 365 {
      assert yoe + 1 == 4 * (25 * c + q + 1);
      assert q < 24 ==> (yoe + 1) % 100 != 0;
    }
  }

  /** `low` counts how far the 1460-day quotient has got ahead of the years. */
  lemma Quotients(doe: int, c: int, q: int, t: int, k: int)
    requires Splits(doe, c, q, t, k)
    ensures var low := 24 * c + q + 365 * t + k;
            && doe / 1460 == 25 * c + q + low / 1460 && 0 <= k - low / 1460 < 365
            && doe / 36_524 == c + (if doe == 146_096 then 1 else 0)
            && doe / 146_096 == (if doe == 146_096 then 1 else 0)
  {
    var low := 24 * c + q + 365 * t + k;
    assert doe == 1460 * (25 * c + q) + low;
    assert 0 <= low < 2920;
  }

  lemma YearOfDay(doe: int, c: int, q: int, t: int, k: int)
    requires Splits(doe, c, q, t, k)
    ensures YearOfEra(doe) == 100 * c + 4 * q + t
  {
    Quotients(doe, c, q, t, k);
    var low := 24 * c + q + 365 * t + k;
    var yoe := 100 * c + 4 * q + t;
    assert doe - doe / 1460 + doe / 36_524 - doe / 146_096 == 365 * yoe + (k - low / 1460);
  }

  /** The year found is the one the day lies in. */
  lemma YearFound(doe: int)
    requires 0 <= doe < 146_097
    ensures var yoe := YearOfEra(doe); 0 <= yoe < 400 && 0 <= doe - YearStart(yoe) < YearLength(yoe)
    ensures DayOfYear(doe, YearOfEra(doe)) == doe - YearStart(YearOfEra(doe))
  {
    var c, q, t, k := SplitDay(doe);
    YearOf(doe, c, q, t, k);
  }

  /** And it is the only one. */
  lemma YearUnique(doe: int, yoe: int)
    requires 0 <= yoe < 400 && 0 <= doe - YearStart(yoe) < YearLength(yoe)
    ensures 0 <= doe < 146_097 && YearOfEra(doe) == yoe
  {
    var c, q, t, k := yoe / 100, yoe % 100 / 4, yoe % 4, doe - YearStart(yoe);
    assert yoe == 100 * c + 4 * q + t;
    assert yoe / 4 == 25 * c + q;
    assert Splits(doe, c, q, t, k);
    YearOf(doe, c, q, t, k);
  }

  // ---- months ----

  /** Days before month `mp` of a year that begins in March. */
  function MonthStart(mp: int): int {
    (153 * mp + 2) / 5
  }

  lemma MonthFound(doy: int)
    requires 0 <= doy < 366
    ensures var mp := Quot(5 * doy + 2, 153);
            && 0 <= mp < 12 && MonthStart(mp) <= doy && doy < MonthStart(mp + 1)
            && Quot(153 * mp + 2, 5) == MonthStart(mp)
  {
  }

  lemma MonthUnique(doy: int, mp: int)
    requires 0 <= mp < 12 && MonthStart(mp) <= doy < MonthStart(mp + 1) && doy < 366
    ensures 0 <= doy && Quot(5 * doy + 2, 153) == mp
  {
  }

  /** All months but the last have the length of the calendar month. */
  lemma MonthLengths(mp: int, y: int)
    requires 0 <= mp < 11
    ensures MonthStart(mp + 1) - MonthStart(mp) == MonthLength(y, if mp < 10 then mp + 3 else mp - 9)
  {
  }

  lemma LeapYear(era: int, yoe: int)
    requires 0 <= yoe < 400
    ensures Leap(yoe + era * 400 + 1) <==> YearLength(yoe) == 366
  {
    var y := yoe + era * 400 + 1;
    Multiple4(yoe + 1, 100 * era);
    Multiple100(yoe + 1, 4 * era);
    Multiple400(yoe + 1, era);
    assert y == yoe + 1 + 400 * era;
  }

  /** A day of an existing year is a date, and the day after it is the next date. */
  lemma DayToDay(era: int, yoe: int, doy: int)
    requires 0 <= yoe < 400 && 0 <= doy < YearLength(yoe)
    ensures Valid(FromMarch(era, yoe, doy))
    ensures doy + 1 < YearLength(yoe) ==> FromMarch(era, yoe, doy + 1) == NextDay(FromMarch(era, yoe, doy))
    ensures doy + 1 == YearLength(yoe) ==> NextDay(FromMarch(era, yoe, doy)) == Date(yoe + era * 400 + 1, 3, 1)
  {
    hide Leap;
    MonthFound(doy);
    var mp := Quot(5 * doy + 2, 153);
    LeapYear(era, yoe);
    var y := yoe + era * 400;
    if mp < 11 {
      MonthLengths(mp, if mp == 10 then y + 1 else y);
      MonthUnique(doy + 1, if doy + 1 < MonthStart(mp + 1) then mp else mp + 1);
    } else if doy + 1 < YearLength(yoe) {
      MonthUnique(doy + 1, mp);
    }
  }

  // ---- the date of a day ----

  /** A day number, taken apart. */
  lemma Parts(days: int)
    ensures var z := days + 719_468; var era := z / 146_097; var doe := z % 146_097; var yoe := YearOfEra(doe);
            && Civil(days) == FromMarch(era, yoe, doe - YearStart(yoe))
            && 0 <= yoe < 400 && 0 <= doe - YearStart(yoe) < YearLength(yoe)
  {
    hide YearOfEra, FromMarch, YearStart, YearLength, DayOfYear;
    var z := days + 719_468;
    EraFloors(z);
    YearFound(z % 146_097);
  }

  /** Day 0, and then day by day through months, leap years and centuries, in both directions. */
  lemma CivilIsRight(days: int)
    ensures Civil(0) == Date(1970, 1, 1)
    ensures Valid(Civil(days)) && Civil(days + 1) == NextDay(Civil(days))
  {
    hide YearOfEra, FromMarch, YearStart, YearLength, NextDay, Valid, Civil;
    Epoch();
    var z := days + 719_468;
    var era, doe := z / 146_097, z % 146_097;
    var yoe := YearOfEra(doe);
    var doy := doe - YearStart(yoe);
    Parts(days);
    Parts(days + 1);
    DayToDay(era, yoe, doy);
    YearsMeet(yoe);
    if doy + 1 < YearLength(yoe) {
      YearUnique(doe + 1, yoe);
    } else {
      Turn(era, yoe, doe);
    }
  }

  lemma Epoch()
    ensures Civil(0) == Date(1970, 1, 1)
  {
  }

  /** The last day of a year. */
  lemma Turn(era: int, yoe: int, doe: int)
    requires 0 <= yoe < 400 && doe - YearStart(yoe) + 1 == YearLength(yoe)
    ensures var z := era * 146_097 + doe + 1; var yoe' := YearOfEra(z % 146_097);
            FromMarch(z / 146_097, yoe', z % 146_097 - YearStart(yoe')) == Date(yoe + era * 400 + 1, 3, 1)
  {
    hide YearOfEra, YearStart, YearLength, FromMarch;
    YearsMeet(yoe);
    ZeroStart();
    if yoe < 399 {
      Spans(yoe + 1);
      YearUnique(doe + 1, yoe + 1);
      FirstOfMarch(era, yoe + 1);
    } else {
      Spans(0);
      YearUnique(0, 0);
      FirstOfMarch(era + 1, 0);
    }
  }

  lemma ZeroStart()
    ensures YearStart(0) == 0
  {
  }

  lemma FirstOfMarch(era: int, yoe: int)
    ensures FromMarch(era, yoe, 0) == Date(yoe + era * 400, 3, 1)
  {
  }

  // ---- and the day of a date ----

  function DayNumber(t: Date): int {
    var y := if t.m <= 2 then t.y - 1 else t.y;
    var mp := if t.m > 2 then t.m - 3 else t.m + 9;
    y / 400 * 146_097 + YearStart(y % 400) + MonthStart(mp) + t.d - 1 - 719_468
  }

  /** Every date is the date of one day. */
  lemma CivilOnto(t: Date)
    requires Valid(t)
    ensures Civil(DayNumber(t)) == t
  {
    hide YearOfEra, YearStart, YearLength, Leap, Civil;
    var y := if t.m <= 2 then t.y - 1 else t.y;
    var mp := if t.m > 2 then t.m - 3 else t.m + 9;
    var era, yoe := y / 400, y % 400;
    var doy := MonthStart(mp) + t.d - 1;
    InYear(t, y, mp, era, yoe);
    YearUnique(YearStart(yoe) + doy, yoe);
    InEra(era, YearStart(yoe) + doy);
    Parts(DayNumber(t));
    MarchDate(t, y, mp, era, yoe);
  }

  lemma InYear(t: Date, y: int, mp: int, era: int, yoe: int)
    requires Valid(t) && y == (if t.m <= 2 then t.y - 1 else t.y) && mp == (if t.m > 2 then t.m - 3 else t.m + 9)
    requires y == era * 400 + yoe && 0 <= yoe < 400
    ensures 0 <= MonthStart(mp) + t.d - 1 < YearLength(yoe)
    ensures 0 <= mp < 12 && (mp < 11 ==> MonthStart(mp) + t.d - 1 < MonthStart(mp + 1))
  {
    hide YearLength, Leap;
    Spans(yoe);
    LeapYear(era, yoe);
    if mp < 11 {
      MonthLengths(mp, t.y);
    }
  }

  lemma MarchDate(t: Date, y: int, mp: int, era: int, yoe: int)
    requires Valid(t) && y == (if t.m <= 2 then t.y - 1 else t.y) && mp == (if t.m > 2 then t.m - 3 else t.m + 9)
    requires y == era * 400 + yoe && 0 <= yoe < 400
    ensures FromMarch(era, yoe, MonthStart(mp) + t.d - 1) == t
  {
    hide YearLength, Leap;
    InYear(t, y, mp, era, yoe);
    Spans(yoe);
    MonthUnique(MonthStart(mp) + t.d - 1, mp);
    MonthFound(MonthStart(mp) + t.d - 1);
  }

  lemma Spans(yoe: int)
    ensures YearLength(yoe) == 365 || YearLength(yoe) == 366
  {
  }

  lemma CivilInverse(days: int)
    ensures DayNumber(Civil(days)) == days
  {
    hide YearOfEra, YearStart, YearLength, Civil;
    Parts(days);
    var z := days + 719_468;
    var yoe := YearOfEra(z % 146_097);
    Spans(yoe);
    MonthFound(z % 146_097 - YearStart(yoe));
  }
}
