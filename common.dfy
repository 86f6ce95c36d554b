/**
 * Date and string utilities of the backend (backend/src/utils/common.ts), with the
 * string primitives the rest of the model shares: decimal digits, lexicographic order
 * of strings, the ISO-8601 rendering of a timestamp and the `YYYY-MM-DD` prefix test.
 *
 * A JavaScript `Date` is modelled by its UTC calendar fields (`DateTime`); the rendering
 * `Date.prototype.toISOString` is `ToIsoString`. Elapsed time is integer milliseconds.
 */
module Common {

  // ---------------------------------------------------------------------------
  // Remaining days
  // ---------------------------------------------------------------------------

  /** Milliseconds in one day, `1000 * 60 * 60 * 24`. */
  const DayMs: int := 86400000

  /**
   * calculateRemainingDays: `Math.ceil((expire - now) / DayMs)` over integer milliseconds.
   * The contract is the defining property of the ceiling: the smallest whole number of
   * days that covers the remaining time.
   */
  function CalculateRemainingDays(expireMs: int, nowMs: int): (days: int)
    ensures (days - 1) * DayMs < expireMs - nowMs <= days * DayMs
  {
    var diff := expireMs - nowMs;
    if diff % DayMs == 0 then diff / DayMs else diff / DayMs + 1
  }

  /** An expiry exactly `k` days away gives exactly `k` days. */
  lemma RemainingDaysExact(nowMs: int, k: int)
    ensures CalculateRemainingDays(nowMs + k * DayMs, nowMs) == k
  {
  }

  /** Any positive remainder of a day rounds up. */
  lemma RemainingDaysRoundsUp(nowMs: int, k: int, rest: int)
    requires 0 < rest < DayMs
    ensures CalculateRemainingDays(nowMs + k * DayMs + rest, nowMs) == k + 1
  {
  }

  /** A later expiry never has fewer remaining days. */
  lemma RemainingDaysMonotone(expire1: int, expire2: int, nowMs: int)
    requires expire1 <= expire2
    ensures CalculateRemainingDays(expire1, nowMs) <= CalculateRemainingDays(expire2, nowMs)
  {
  }

  /** An expiry that is not after now has no days left. */
  lemma RemainingDaysExpired(expireMs: int, nowMs: int)
    requires expireMs <= nowMs
    ensures CalculateRemainingDays(expireMs, nowMs) <= 0
  {
  }

  // ---------------------------------------------------------------------------
  // Decimal digits
  // ---------------------------------------------------------------------------

  predicate IsDigit(c: char) {
    '0' <= c <= '9'
  }

  predicate AllDigits(s: string) {
    forall i :: 0 <= i < |s| ==> IsDigit(s[i])
  }

  function DigitChar(d: nat): (c: char)
    requires d < 10
    ensures IsDigit(c)
  {
    ('0' as int + d) as char
  }

  function Pow10(n: nat): (p: nat)
    ensures p >= 1
  {
    if n == 0 then 1 else 10 * Pow10(n - 1)
  }

  /** The last `width` decimal digits of `n`, zero-padded on the left (`padStart(width, '0')`). */
  function Pad(n: nat, width: nat): (s: string)
    ensures |s| == width && AllDigits(s)
  {
    if width == 0 then "" else Pad(n / 10, width - 1) + [DigitChar(n % 10)]
  }

  /** Decimal rendering of a natural number, as `String(n)` gives it. */
  function DecimalString(n: nat): (s: string)
    ensures |s| >= 1 && AllDigits(s)
    ensures n >= 10 ==> |s| >= 2
  {
    if n < 10 then [DigitChar(n)] else DecimalString(n / 10) + [DigitChar(n % 10)]
  }

  /** Decimal rendering of an integer, with a leading `-` when negative. */
  function IntString(i: int): (s: string)
    ensures |s| >= 1
    ensures (i < 0) == (s[0] == '-')
  {
    if i < 0 then "-" + DecimalString(-i) else DecimalString(i)
  }

  lemma DigitCharInjective(a: nat, b: nat)
    requires a < 10 && b < 10
    ensures (DigitChar(a) < DigitChar(b)) == (a < b)
    ensures (DigitChar(a) == DigitChar(b)) == (a == b)
  {
  }

  /** Two strings ending in one character each are equal only if both parts are. */
  lemma SnocEq(p: string, c: char, q: string, d: char)
    requires |p| == |q|
    ensures (p + [c] == q + [d]) == (p == q && c == d)
  {
    if p + [c] == q + [d] {
      assert p == (p + [c])[..|p|] && q == (q + [d])[..|q|];
      assert c == (p + [c])[|p|] && d == (q + [d])[|q|];
    }
  }

  /** Distinct numbers have distinct decimal renderings. */
  lemma {:induction false} DecimalStringInjective(n: nat, m: nat)
    ensures (DecimalString(n) == DecimalString(m)) == (n == m)
  {
    if n < 10 && m < 10 {
      DigitCharInjective(n, m);
    } else if n >= 10 && m >= 10 {
      DecimalStringInjective(n / 10, m / 10);
      DigitCharInjective(n % 10, m % 10);
      if |DecimalString(n / 10)| == |DecimalString(m / 10)| {
        SnocEq(DecimalString(n / 10), DigitChar(n % 10), DecimalString(m / 10), DigitChar(m % 10));
      } else {
        assert |DecimalString(n)| != |DecimalString(m)|;
      }
    } else {
      assert |DecimalString(n)| != |DecimalString(m)|;
    }
  }

  // ---------------------------------------------------------------------------
  // Lexicographic order of strings
  // ---------------------------------------------------------------------------

  /** Strict lexicographic order by character code (what `MAX` and `>` compare on a binary collation). */
  predicate LexLess(a: string, b: string)
    decreases |a|
  {
    if |a| == 0 then |b| > 0
    else if |b| == 0 then false
    else if a[0] != b[0] then a[0] < b[0]
    else LexLess(a[1..], b[1..])
  }

  predicate LexLessEq(a: string, b: string) {
    a == b || LexLess(a, b)
  }

  lemma {:induction false} LexLessIrreflexive(a: string)
    ensures !LexLess(a, a)
  {
    if |a| > 0 {
      LexLessIrreflexive(a[1..]);
    }
  }

  lemma {:induction false} LexLessTransitive(a: string, b: string, c: string)
    requires LexLess(a, b) && LexLess(b, c)
    ensures LexLess(a, c)
  {
    if |a| > 0 && |b| > 0 && |c| > 0 && a[0] == b[0] && b[0] == c[0] {
      LexLessTransitive(a[1..], b[1..], c[1..]);
    }
  }

  lemma {:induction false} LexLessTotal(a: string, b: string)
    ensures LexLess(a, b) || a == b || LexLess(b, a)
  {
    if |a| > 0 && |b| > 0 && a[0] == b[0] {
      LexLessTotal(a[1..], b[1..]);
      if a[1..] == b[1..] {
        assert a == [a[0]] + a[1..] && b == [b[0]] + b[1..];
      }
    }
  }

  lemma LexLessAsymmetric(a: string, b: string)
    requires LexLess(a, b)
    ensures !LexLess(b, a) && a != b
  {
    if LexLess(b, a) {
      LexLessTransitive(a, b, a);
      LexLessIrreflexive(a);
    }
    LexLessIrreflexive(a);
  }

  /** Comparing two strings that start with equally long parts: the parts decide first. */
  lemma {:induction false} LexLessConcat(p: string, x: string, q: string, y: string)
    requires |p| == |q|
    ensures LexLess(p + x, q + y) == (LexLess(p, q) || (p == q && LexLess(x, y)))
  {
    if |p| == 0 {
      assert p + x == x && q + y == y;
    } else {
      assert (p + x)[0] == p[0] && (q + y)[0] == q[0];
      assert (p + x)[1..] == p[1..] + x && (q + y)[1..] == q[1..] + y;
      LexLessConcat(p[1..], x, q[1..], y);
      if p[0] == q[0] {
        assert p == [p[0]] + p[1..] && q == [q[0]] + q[1..];
      }
    }
  }

  /** On fixed-width zero-padded numbers, lexicographic order is numeric order. */
  lemma {:induction false} PadOrder(n: nat, m: nat, width: nat)
    requires n < Pow10(width) && m < Pow10(width)
    ensures LexLess(Pad(n, width), Pad(m, width)) == (n < m)
    ensures (Pad(n, width) == Pad(m, width)) == (n == m)
  {
    if width > 0 {
      PadOrder(n / 10, m / 10, width - 1);
      DigitCharInjective(n % 10, m % 10);
      var dn, dm := DigitChar(n % 10), DigitChar(m % 10);
      LexLessConcat(Pad(n / 10, width - 1), [dn], Pad(m / 10, width - 1), [dm]);
      SnocEq(Pad(n / 10, width - 1), dn, Pad(m / 10, width - 1), dm);
      assert LexLess([dn], [dm]) == (dn < dm) by {
        assert [dn][1..] == [] && [dm][1..] == [];
      }
    }
  }

  // ---------------------------------------------------------------------------
  // Timestamps and their ISO rendering
  // ---------------------------------------------------------------------------

  /** The UTC calendar fields of a JavaScript `Date`. */
  datatype DateTime = DateTime(year: nat, month: nat, day: nat, hour: nat, minute: nat, second: nat, millis: nat)

  /** The range in which `toISOString` renders a four-digit year. */
  predicate ValidDateTime(t: DateTime) {
    && t.year < 10000 && 1 <= t.month <= 12 && 1 <= t.day <= 31
    && t.hour < 24 && t.minute < 60 && t.second < 60 && t.millis < 1000
  }

  /** `YYYY-MM-DD` */
  function DatePart(t: DateTime): string {
    Pad(t.year, 4) + "-" + Pad(t.month, 2) + "-" + Pad(t.day, 2)
  }

  /** `HH:mm:ss.sssZ` */
  function TimePart(t: DateTime): string {
    Pad(t.hour, 2) + ":" + Pad(t.minute, 2) + ":" + Pad(t.second, 2) + "." + Pad(t.millis, 3) + "Z"
  }

  /** `Date.prototype.toISOString`: `YYYY-MM-DDTHH:mm:ss.sssZ`. */
  function ToIsoString(t: DateTime): string {
    DatePart(t) + "T" + TimePart(t)
  }

  /** How the MySQL driver renders a `Date` parameter: `YYYY-MM-DD HH:mm:ss.sss` (UTC assumed). */
  function SqlDateTimeString(t: DateTime): string {
    DatePart(t) + " " + Pad(t.hour, 2) + ":" + Pad(t.minute, 2) + ":" + Pad(t.second, 2) + "." + Pad(t.millis, 3)
  }

  /** The regular expression `^[0-9]{4}-[0-9]{2}-[0-9]{2}` that the validator applies to dates. */
  predicate HasDatePrefix(s: string) {
    && |s| >= 10
    && IsDigit(s[0]) && IsDigit(s[1]) && IsDigit(s[2]) && IsDigit(s[3])
    && s[4] == '-'
    && IsDigit(s[5]) && IsDigit(s[6])
    && s[7] == '-'
    && IsDigit(s[8]) && IsDigit(s[9])
  }

  /** `s.split(c)[0]`: the part of `s` before the first `c`, or all of `s` when there is none. */
  function BeforeFirst(s: string, c: char): (r: string)
    ensures r <= s && c !in r
    ensures |r| < |s| ==> s[|r|] == c
  {
    if |s| == 0 then "" else if s[0] == c then "" else [s[0]] + BeforeFirst(s[1..], c)
  }

  lemma {:induction false} BeforeFirstAppend(p: string, c: char, q: string)
    requires c !in p
    ensures BeforeFirst(p + [c] + q, c) == p
  {
    if |p| > 0 {
      assert (p + [c] + q)[1..] == p[1..] + [c] + q;
      BeforeFirstAppend(p[1..], c, q);
      assert p == [p[0]] + p[1..];
    }
  }

  /** formatDate: `new Date(date).toISOString().split('T')[0]`. */
  function FormatDate(t: DateTime): string {
    BeforeFirst(ToIsoString(t), 'T')
  }

  lemma DatePartShape(t: DateTime)
    ensures |DatePart(t)| == 10 && HasDatePrefix(DatePart(t)) && 'T' !in DatePart(t)
  {
    var d := DatePart(t);
    assert d[4] == '-' && d[7] == '-';
    assert forall i :: 0 <= i < 10 && i != 4 && i != 7 ==> IsDigit(d[i]);
  }

  /** formatDate yields exactly the `YYYY-MM-DD` calendar date, which passes the validator's date pattern. */
  lemma FormatDateIsCalendarDate(t: DateTime)
    ensures FormatDate(t) == DatePart(t)
    ensures |FormatDate(t)| == 10 && HasDatePrefix(FormatDate(t))
  {
    DatePartShape(t);
    BeforeFirstAppend(DatePart(t), 'T', TimePart(t));
  }

  /** The driver's rendering of a `Date` also passes the validator's date pattern. */
  lemma SqlDateTimeHasDatePrefix(t: DateTime)
    ensures HasDatePrefix(SqlDateTimeString(t))
  {
    DatePartShape(t);
    var s := SqlDateTimeString(t);
    assert s[..10] == DatePart(t);
  }

  // ---------------------------------------------------------------------------
  // Batch numbers
  // ---------------------------------------------------------------------------

  /** `s.replace(/[...]/g, '')` for a character class `drop`. */
  function RemoveAll(s: string, drop: set<char>): (r: string)
    ensures |r| <= |s|
    ensures forall i :: 0 <= i < |r| ==> r[i] !in drop
  {
    if |s| == 0 then "" else (if s[0] in drop then "" else [s[0]]) + RemoveAll(s[1..], drop)
  }

  /** `s.slice(0, n)` */
  function Take(s: string, n: nat): (r: string)
    ensures |r| == if |s| <= n then |s| else n
    ensures r <= s
  {
    if |s| <= n then s else s[..n]
  }

  lemma {:induction false} RemoveAllConcat(a: string, b: string, drop: set<char>)
    ensures RemoveAll(a + b, drop) == RemoveAll(a, drop) + RemoveAll(b, drop)
  {
    if |a| > 0 {
      assert (a + b)[0] == a[0] && (a + b)[1..] == a[1..] + b;
      RemoveAllConcat(a[1..], b, drop);
    } else {
      assert a + b == b;
    }
  }

  lemma {:induction false} RemoveAllKeeps(s: string, drop: set<char>)
    requires forall i :: 0 <= i < |s| ==> s[i] !in drop
    ensures RemoveAll(s, drop) == s
  {
    if |s| > 0 {
      RemoveAllKeeps(s[1..], drop);
      assert s == [s[0]] + s[1..];
    }
  }

  lemma RemoveAllPad(n: nat, width: nat, drop: set<char>)
    requires forall c :: c in drop ==> !IsDigit(c)
    ensures RemoveAll(Pad(n, width), drop) == Pad(n, width)
  {
    RemoveAllKeeps(Pad(n, width), drop);
  }

  /** The characters the batch-number code strips from the ISO string. */
  const BatchSeparators: set<char> := {'-', ':', '.'}

  /** The characters it evidently meant to strip: the separators and the `T` between date and time. */
  const BatchSeparatorsWithT: set<char> := {'-', ':', '.', 'T'}

  /**
   * generateBatchNumber as written (also the private copy in CloudService):
   * `new Date().toISOString().replace(/[-:\.]/g, '').slice(0, 14)`.
   * The `T` of the ISO string is not stripped.
   */
  function GenerateBatchNumber(now: DateTime): string {
    Take(RemoveAll(ToIsoString(now), BatchSeparators), 14)
  }

  /** generateBatchNumber with the `T` stripped too, giving the documented `yyyyMMddHHmmss`. */
  function GenerateBatchNumberFixed(now: DateTime): string {
    Take(RemoveAll(ToIsoString(now), BatchSeparatorsWithT), 14)
  }

  /** The `yyyyMMddHHmmss` digits of a timestamp. */
  function SecondStamp(t: DateTime): string {
    (Pad(t.year, 4) + Pad(t.month, 2) + Pad(t.day, 2)) + (Pad(t.hour, 2) + Pad(t.minute, 2) + Pad(t.second, 2))
  }

  /** One step of stripping: a separator in `drop` followed by a field of digits. */
  lemma StripStep(acc: string, sep: char, field: string, drop: set<char>)
    requires AllDigits(field) && sep in drop
    requires forall c :: c in drop ==> !IsDigit(c)
    ensures RemoveAll(acc + [sep] + field, drop) == RemoveAll(acc, drop) + field
  {
    RemoveAllKeeps(field, drop);
    assert RemoveAll([sep], drop) == "";
    RemoveAllConcat(acc, [sep], drop);
    RemoveAllConcat(acc + [sep], field, drop);
  }

  /** Stripping separators from `y-mo-d` leaves the digit fields. */
  lemma StripDate(y: string, mo: string, d: string, drop: set<char>)
    requires AllDigits(y) && AllDigits(mo) && AllDigits(d)
    requires forall c :: c in drop ==> !IsDigit(c)
    requires '-' in drop
    ensures RemoveAll(y + "-" + mo + "-" + d, drop) == y + mo + d
  {
    RemoveAllKeeps(y, drop);
    StripStep(y, '-', mo, drop);
    StripStep(y + "-" + mo, '-', d, drop);
  }

  /** Stripping separators from `h:mi:s.msZ` leaves the digit fields and the `Z`. */
  lemma StripTime(h: string, mi: string, s: string, ms: string, drop: set<char>)
    requires AllDigits(h) && AllDigits(mi) && AllDigits(s) && AllDigits(ms)
    requires forall c :: c in drop ==> !IsDigit(c)
    requires ':' in drop && '.' in drop && 'Z' !in drop
    ensures RemoveAll(h + ":" + mi + ":" + s + "." + ms + "Z", drop) == h + mi + s + ms + "Z"
  {
    RemoveAllKeeps(h, drop);
    var a1 := h + ":" + mi;
    StripStep(h, ':', mi, drop);
    var a2 := a1 + ":" + s;
    StripStep(a1, ':', s, drop);
    var a3 := a2 + "." + ms;
    StripStep(a2, '.', ms, drop);
    assert RemoveAll("Z", drop) == "Z";
    RemoveAllConcat(a3, "Z", drop);
  }

  /** What the stripped ISO string is, before the slice, for either set of separators. */
  lemma StrippedIso(t: DateTime, drop: set<char>)
    requires drop == BatchSeparators || drop == BatchSeparatorsWithT
    ensures RemoveAll(ToIsoString(t), drop)
         == (Pad(t.year, 4) + Pad(t.month, 2) + Pad(t.day, 2))
            + RemoveAll("T", drop)
            + (Pad(t.hour, 2) + Pad(t.minute, 2) + Pad(t.second, 2) + Pad(t.millis, 3) + "Z")
  {
    assert forall c :: c in drop ==> !IsDigit(c);
    StripDate(Pad(t.year, 4), Pad(t.month, 2), Pad(t.day, 2), drop);
    StripTime(Pad(t.hour, 2), Pad(t.minute, 2), Pad(t.second, 2), Pad(t.millis, 3), drop);
    RemoveAllConcat(DatePart(t) + "T", TimePart(t), drop);
    RemoveAllConcat(DatePart(t), "T", drop);
  }

  /** The corrected batch number is the 14 digits `yyyyMMddHHmmss`. */
  lemma BatchNumberFixedIsSecondStamp(t: DateTime)
    ensures GenerateBatchNumberFixed(t) == SecondStamp(t)
    ensures |GenerateBatchNumberFixed(t)| == 14 && AllDigits(GenerateBatchNumberFixed(t))
  {
    BatchNumberFixedValue(t);
    SecondStampDigits(t);
  }

  lemma BatchNumberFixedValue(t: DateTime)
    ensures GenerateBatchNumberFixed(t) == SecondStamp(t)
  {
    StrippedIso(t, BatchSeparatorsWithT);
    assert RemoveAll("T", BatchSeparatorsWithT) == "";
    hide ToIsoString, DatePart, TimePart, DecimalString, Pad, RemoveAll;
    var date := Pad(t.year, 4) + Pad(t.month, 2) + Pad(t.day, 2);
    var clock := Pad(t.hour, 2) + Pad(t.minute, 2) + Pad(t.second, 2);
    var rest := clock + Pad(t.millis, 3) + "Z";
    var full := RemoveAll(ToIsoString(t), BatchSeparatorsWithT);
    assert full == date + rest;
    TakeAppend(date, rest, 14);
    TakeAppend(clock, Pad(t.millis, 3) + "Z", 6);
    assert rest == clock + (Pad(t.millis, 3) + "Z");
  }

  lemma TakeAppend(a: string, b: string, n: nat)
    requires |a| <= n <= |a| + |b|
    ensures (a + b)[..n] == a + b[..n - |a|]
  {
  }

  lemma SecondStampDigits(t: DateTime)
    ensures |SecondStamp(t)| == 14 && AllDigits(SecondStamp(t))
  {
    var p2 := Pad(t.year, 4) + Pad(t.month, 2);
    var q2 := Pad(t.hour, 2) + Pad(t.minute, 2);
    AllDigitsConcat(Pad(t.year, 4), Pad(t.month, 2));
    AllDigitsConcat(p2, Pad(t.day, 2));
    AllDigitsConcat(Pad(t.hour, 2), Pad(t.minute, 2));
    AllDigitsConcat(q2, Pad(t.second, 2));
    AllDigitsConcat(p2 + Pad(t.day, 2), q2 + Pad(t.second, 2));
  }

  lemma AllDigitsConcat(a: string, b: string)
    requires AllDigits(a) && AllDigits(b)
    ensures AllDigits(a + b)
  {
  }

  /** What the code as written returns: `yyyyMMdd`, a `T`, then `HHmm` and only the tens digit of the seconds. */
  lemma BatchNumberAsWritten(t: DateTime)
    ensures GenerateBatchNumber(t)
         == Pad(t.year, 4) + Pad(t.month, 2) + Pad(t.day, 2) + "T" + Pad(t.hour, 2) + Pad(t.minute, 2) + Pad(t.second, 2)[..1]
  {
    StrippedIso(t, BatchSeparators);
    assert RemoveAll("T", BatchSeparators) == "T";
    var date := Pad(t.year, 4) + Pad(t.month, 2) + Pad(t.day, 2);
    var time := Pad(t.hour, 2) + Pad(t.minute, 2) + Pad(t.second, 2) + Pad(t.millis, 3) + "Z";
    var hm := Pad(t.hour, 2) + Pad(t.minute, 2);
    var full := RemoveAll(ToIsoString(t), BatchSeparators);
    assert full == date + "T" + time;
    assert time == hm + Pad(t.second, 2) + (Pad(t.millis, 3) + "Z");
    assert |date + "T" + hm| == 13;
    assert full[..14] == date + "T" + hm + Pad(t.second, 2)[..1];
  }

  /** As written, the batch number is never all digits: its ninth character is `T`. */
  lemma BatchNumberAsWrittenHasT(t: DateTime)
    ensures |GenerateBatchNumber(t)| == 14 && GenerateBatchNumber(t)[8] == 'T'
    ensures !AllDigits(GenerateBatchNumber(t))
  {
    BatchNumberAsWritten(t);
  }

  /** As written, two timestamps in different seconds, 10:30:41 and 10:30:45, receive the same batch number. */
  lemma BatchNumberAsWrittenCollides()
    ensures !SameSecond(DateTime(2024, 1, 15, 10, 30, 41, 0), DateTime(2024, 1, 15, 10, 30, 45, 123))
    ensures GenerateBatchNumber(DateTime(2024, 1, 15, 10, 30, 41, 0))
         == GenerateBatchNumber(DateTime(2024, 1, 15, 10, 30, 45, 123))
  {
    var a, b := DateTime(2024, 1, 15, 10, 30, 41, 0), DateTime(2024, 1, 15, 10, 30, 45, 123);
    BatchNumberAsWritten(a);
    BatchNumberAsWritten(b);
    PadTensDigit(41);
    PadTensDigit(45);
  }

  lemma PadTensDigit(n: nat)
    requires n < 100
    ensures Pad(n, 2)[..1] == [DigitChar(n / 10)]
  {
    assert Pad(n / 10, 1) == Pad(n / 100, 0) + [DigitChar((n / 10) % 10)];
  }

  /** Chronological order at one-second resolution. */
  predicate SecondBefore(a: DateTime, b: DateTime) {
    || a.year < b.year
    || (a.year == b.year && a.month < b.month)
    || (a.year == b.year && a.month == b.month && a.day < b.day)
    || (a.year == b.year && a.month == b.month && a.day == b.day && a.hour < b.hour)
    || (a.year == b.year && a.month == b.month && a.day == b.day && a.hour == b.hour && a.minute < b.minute)
    || (a.year == b.year && a.month == b.month && a.day == b.day && a.hour == b.hour && a.minute == b.minute
        && a.second < b.second)
  }

  predicate SameSecond(a: DateTime, b: DateTime) {
    a.year == b.year && a.month == b.month && a.day == b.day && a.hour == b.hour && a.minute == b.minute
    && a.second == b.second
  }

  /**
   * Corrected batch numbers sort lexicographically in chronological order at one-second
   * resolution, and two calls produce the same number exactly when they fall in the same second.
   */
  lemma BatchNumberFixedOrder(a: DateTime, b: DateTime)
    requires ValidDateTime(a) && ValidDateTime(b)
    ensures LexLess(GenerateBatchNumberFixed(a), GenerateBatchNumberFixed(b)) == SecondBefore(a, b)
    ensures (GenerateBatchNumberFixed(a) == GenerateBatchNumberFixed(b)) == SameSecond(a, b)
  {
    BatchNumberFixedIsSecondStamp(a);
    BatchNumberFixedIsSecondStamp(b);
    assert Pow10(2) == 100 && Pow10(4) == 10000 by {
      assert Pow10(1) == 10;
      assert Pow10(3) == 1000;
    }
    PadOrder(a.year, b.year, 4);
    PadOrder(a.month, b.month, 2);
    PadOrder(a.day, b.day, 2);
    PadOrder(a.hour, b.hour, 2);
    PadOrder(a.minute, b.minute, 2);
    PadOrder(a.second, b.second, 2);
    var p1a, p1b := Pad(a.year, 4), Pad(b.year, 4);
    var p2a, p2b := p1a + Pad(a.month, 2), p1b + Pad(b.month, 2);
    var da, db := p2a + Pad(a.day, 2), p2b + Pad(b.day, 2);
    var q1a, q1b := Pad(a.hour, 2), Pad(b.hour, 2);
    var q2a, q2b := q1a + Pad(a.minute, 2), q1b + Pad(b.minute, 2);
    var ca, cb := q2a + Pad(a.second, 2), q2b + Pad(b.second, 2);
    LexLessConcat(p1a, Pad(a.month, 2), p1b, Pad(b.month, 2));
    LexLessConcat(p2a, Pad(a.day, 2), p2b, Pad(b.day, 2));
    LexLessConcat(q1a, Pad(a.minute, 2), q1b, Pad(b.minute, 2));
    LexLessConcat(q2a, Pad(a.second, 2), q2b, Pad(b.second, 2));
    LexLessConcat(da, ca, db, cb);
    ConcatEq(p1a, Pad(a.month, 2), p1b, Pad(b.month, 2));
    ConcatEq(p2a, Pad(a.day, 2), p2b, Pad(b.day, 2));
    ConcatEq(q1a, Pad(a.minute, 2), q1b, Pad(b.minute, 2));
    ConcatEq(q2a, Pad(a.second, 2), q2b, Pad(b.second, 2));
    ConcatEq(da, ca, db, cb);
  }

  lemma ConcatEq(p: string, x: string, q: string, y: string)
    requires |p| == |q|
    ensures (p + x == q + y) == (p == q && x == y)
  {
    if p + x == q + y {
      assert p == (p + x)[..|p|] && q == (q + y)[..|q|];
      assert x == (p + x)[|p|..] && y == (q + y)[|q|..];
    }
  }
}
