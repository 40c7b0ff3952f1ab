/**
 Time columns (internal/store/repo/repo.go): UTC text with milliseconds, `2006-01-02T15:04:05.000Z`
 (the format of section 5.6 of RFC 3339). The text has a fixed width for four-digit years, so that
 comparing texts compares times, which every `expires_at > ?` of the store relies on.
 */
module TimeText {
  import opened Results
  import opened Scopes
  import opened Text
  import opened Tables

  // ----- Digits -----

  function Digit(d: nat): char
    requires d < 10
  {
    ('0' as int + d) as char
  }

  predicate IsDigit(c: char) { '0' <= c <= '9' }

  function Power(w: nat): (r: nat)
    ensures r >= 1
  {
    if w == 0 then 1 else 10 * Power(w - 1)
  }

  /** `n` in exactly `w` digits. */
  function Pad(n: nat, w: nat): (r: string)
    ensures |r| == w && forall i :: 0 <= i < w ==> IsDigit(r[i])
  {
    if w == 0 then "" else Pad(n / 10, w - 1) + [Digit(n % 10)]
  }

  function Number(s: string): nat
    requires forall i :: 0 <= i < |s| ==> IsDigit(s[i])
  {
    if s == "" then 0
    else
      assert IsDigit(s[|s| - 1]);
      10 * Number(s[..|s| - 1]) + (s[|s| - 1] as int - '0' as int)
  }

  lemma {:induction false} NumberOfPad(n: nat, w: nat)
    requires n < Power(w)
    ensures Number(Pad(n, w)) == n
  {
    if w > 0 {
      NumberOfPad(n / 10, w - 1);
      assert Pad(n, w)[..w - 1] == Pad(n / 10, w - 1);
    }
  }

  lemma {:induction false} PadOrder(a: nat, b: nat, w: nat)
    requires a < b < Power(w)
    ensures LexLess(Pad(a, w), Pad(b, w))
  {
    var p, q := Pad(a / 10, w - 1), Pad(b / 10, w - 1);
    if a / 10 < b / 10 {
      PadOrder(a / 10, b / 10, w - 1);
      LexIrreflexive(p);
      LexHeadDecides(p, q, [Digit(a % 10)], [Digit(b % 10)]);
    } else {
      LexCommonPrefix(p, [Digit(a % 10)], [Digit(b % 10)]);
    }
  }

  // ----- Fields of fixed width, each closed by one separator -----

  datatype Slot = Slot(width: nat, sep: char)

  const SHAPE: seq<Slot> :=
    [Slot(4, '-'), Slot(2, '-'), Slot(2, 'T'), Slot(2, ':'), Slot(2, ':'), Slot(2, '.'), Slot(3, 'Z')]

  predicate FitsShape(values: seq<nat>, shape: seq<Slot>) {
    |values| == |shape| && forall i :: 0 <= i < |values| ==> values[i] < Power(shape[i].width)
  }

  function Render(values: seq<nat>, shape: seq<Slot>): string
    requires |values| == |shape|
  {
    if values == [] then ""
    else Pad(values[0], shape[0].width) + [shape[0].sep] + Render(values[1..], shape[1..])
  }

  /** The fields of a text of exactly this shape. */
  function Parse(s: string, shape: seq<Slot>): Option<seq<nat>> {
    if shape == [] then (if s == "" then Some([]) else None)
    else
      var w := shape[0].width;
      if |s| <= w || s[w] != shape[0].sep || exists i :: 0 <= i < w && !IsDigit(s[i]) then None
      else
        var rest := Parse(s[w + 1..], shape[1..]);
        if rest.None? then None else Some([Number(s[..w])] + rest.value)
  }

  lemma {:induction false} ParseRender(values: seq<nat>, shape: seq<Slot>)
    requires FitsShape(values, shape)
    ensures Parse(Render(values, shape), shape) == Some(values)
  {
    if values != [] {
      var s, w := Render(values, shape), shape[0].width;
      var rest := Render(values[1..], shape[1..]);
      assert s[..w] == Pad(values[0], w) && s[w + 1..] == rest;
      assert forall i :: 0 <= i < w ==> s[i] == s[..w][i];
      NumberOfPad(values[0], w);
      ParseRender(values[1..], shape[1..]);
      assert [values[0]] + values[1..] == values;
    }
  }

  predicate SeqLess(a: seq<nat>, b: seq<nat>) {
    a != [] && b != [] && (a[0] < b[0] || (a[0] == b[0] && SeqLess(a[1..], b[1..])))
  }

  lemma {:induction false} SeqLessHead(a: seq<nat>, b: seq<nat>, c: seq<nat>, d: seq<nat>)
    requires |a| == |c| && SeqLess(a, c)
    ensures SeqLess(a + b, c + d)
  {
    if a[0] == c[0] {
      SeqLessHead(a[1..], b, c[1..], d);
      assert (a + b)[1..] == a[1..] + b && (c + d)[1..] == c[1..] + d;
    }
  }

  lemma {:induction false} SeqLessTail(a: seq<nat>, b: seq<nat>, d: seq<nat>)
    requires SeqLess(b, d)
    ensures SeqLess(a + b, a + d)
  {
    if a == [] {
      assert a + b == b && a + d == d;
    } else {
      SeqLessTail(a[1..], b, d);
      assert (a + b)[1..] == a[1..] + b && (a + d)[1..] == a[1..] + d;
    }
  }

  lemma {:induction false} RenderOrder(a: seq<nat>, b: seq<nat>, shape: seq<Slot>)
    requires FitsShape(a, shape) && FitsShape(b, shape) && SeqLess(a, b)
    ensures LexLess(Render(a, shape), Render(b, shape))
  {
    var w, sep := shape[0].width, shape[0].sep;
    var p, q := Pad(a[0], w), Pad(b[0], w);
    var x, y := [sep] + Render(a[1..], shape[1..]), [sep] + Render(b[1..], shape[1..]);
    assert Render(a, shape) == p + x && Render(b, shape) == q + y;
    if a[0] < b[0] {
      PadOrder(a[0], b[0], w);
      LexIrreflexive(p);
      LexHeadDecides(p, q, x, y);
    } else {
      RenderOrder(a[1..], b[1..], shape[1..]);
      LexCommonPrefix([sep], Render(a[1..], shape[1..]), Render(b[1..], shape[1..]));
      LexCommonPrefix(p, x, y);
    }
  }

  // ----- The calendar -----

  predicate Leap(year: nat) {
    (year % 4 == 0 && year % 100 != 0) || year % 400 == 0
  }

  function DaysInYear(year: nat): nat {
    if Leap(year) then 366 else 365
  }

  /** Days from 1 January of year 1 to 1 January of `year`. */
  function DaysBeforeYear(year: nat): nat {
    if year <= 1 then 0 else DaysBeforeYear(year - 1) + DaysInYear(year - 1)
  }

  function YearFrom(day: nat, year: nat): (r: nat)
    requires year >= 1 && DaysBeforeYear(year) <= day
    ensures r >= 1 && DaysBeforeYear(r) <= day < DaysBeforeYear(r) + DaysInYear(r)
    decreases day - DaysBeforeYear(year)
  {
    if day < DaysBeforeYear(year) + DaysInYear(year) then year else YearFrom(day, year + 1)
  }

  function YearOf(day: nat): (r: nat)
    ensures r >= 1 && DaysBeforeYear(r) <= day < DaysBeforeYear(r) + DaysInYear(r)
  {
    YearFrom(day, 1)
  }

  lemma {:induction false} YearsAscend(a: nat, b: nat)
    requires 1 <= a < b
    ensures DaysBeforeYear(a) + DaysInYear(a) <= DaysBeforeYear(b)
  {
    if a < b - 1 { YearsAscend(a, b - 1); }
  }

  function DaysInMonth(leap: bool, month: nat): nat {
    if month == 2 then (if leap then 29 else 28)
    else if month in {4, 6, 9, 11} then 30 else 31
  }

  function DaysBeforeMonth(leap: bool, month: nat): nat {
    if month <= 1 then 0 else DaysBeforeMonth(leap, month - 1) + DaysInMonth(leap, month - 1)
  }

  function MonthFrom(leap: bool, day: nat, month: nat): (r: nat)
    requires month >= 1 && DaysBeforeMonth(leap, month) <= day
    ensures r >= 1 && DaysBeforeMonth(leap, r) <= day < DaysBeforeMonth(leap, r) + DaysInMonth(leap, r)
    decreases day - DaysBeforeMonth(leap, month)
  {
    if day < DaysBeforeMonth(leap, month) + DaysInMonth(leap, month) then month else MonthFrom(leap, day, month + 1)
  }

  lemma {:induction false} MonthsAscend(leap: bool, a: nat, b: nat)
    requires 1 <= a < b
    ensures DaysBeforeMonth(leap, a) + DaysInMonth(leap, a) <= DaysBeforeMonth(leap, b)
  {
    if a < b - 1 { MonthsAscend(leap, a, b - 1); }
  }

  lemma TwelveMonths(leap: bool)
    ensures DaysBeforeMonth(leap, 13) == if leap then 366 else 365
  {
    assert DaysBeforeMonth(leap, 2) == 31;
    assert DaysBeforeMonth(leap, 3) == if leap then 60 else 59;
    assert DaysBeforeMonth(leap, 4) == if leap then 91 else 90;
    assert DaysBeforeMonth(leap, 5) == if leap then 121 else 120;
    assert DaysBeforeMonth(leap, 6) == if leap then 152 else 151;
    assert DaysBeforeMonth(leap, 7) == if leap then 182 else 181;
    assert DaysBeforeMonth(leap, 8) == if leap then 213 else 212;
    assert DaysBeforeMonth(leap, 9) == if leap then 244 else 243;
    assert DaysBeforeMonth(leap, 10) == if leap then 274 else 273;
    assert DaysBeforeMonth(leap, 11) == if leap then 305 else 304;
    assert DaysBeforeMonth(leap, 12) == if leap then 335 else 334;
  }

  // ----- Dates and times of day as fields -----

  function DateFields(day: nat): seq<nat> {
    var year := YearOf(day);
    var rest := day - DaysBeforeYear(year);
    var month := MonthFrom(Leap(year), rest, 1);
    [year, month, rest - DaysBeforeMonth(Leap(year), month) + 1]
  }

  const DAY_MS := 86_400_000

  function ClockFields(ms: nat): seq<nat> {
    [ms / 3_600_000, ms / 60_000 % 60, ms / 1000 % 60, ms % 1000]
  }

  function FieldsOf(ms: nat): seq<nat> {
    DateFields(ms / DAY_MS) + ClockFields(ms % DAY_MS)
  }

  /** What the fields of an existing date and time amount to; None when there is no such moment. */
  function Moment(f: seq<nat>): Option<nat>
    requires |f| == 7
  {
    var leap := Leap(f[0]);
    if f[0] < 1 || f[1] < 1 || f[1] > 12 || f[2] < 1 || f[2] > DaysInMonth(leap, f[1]) then None
    else if f[3] >= 24 || f[4] >= 60 || f[5] >= 60 || f[6] >= 1000 then None
    else
      var day := DaysBeforeYear(f[0]) + DaysBeforeMonth(leap, f[1]) + f[2] - 1;
      Some(day * DAY_MS + ((f[3] * 60 + f[4]) * 60 + f[5]) * 1000 + f[6])
  }

  lemma DateBounds(day: nat)
    ensures var f := DateFields(day);
      && |f| == 3 && f[0] >= 1 && 1 <= f[1] <= 12 && 1 <= f[2] <= DaysInMonth(Leap(f[0]), f[1])
      && DaysBeforeYear(f[0]) + DaysBeforeMonth(Leap(f[0]), f[1]) + f[2] - 1 == day
  {
    var year := YearOf(day);
    var leap := Leap(year);
    var rest := day - DaysBeforeYear(year);
    var month := MonthFrom(leap, rest, 1);
    TwelveMonths(leap);
    if month >= 13 {
      if month > 13 { MonthsAscend(leap, 13, month); }
      assert false;
    }
  }

  lemma ClockBounds(ms: nat)
    requires ms < DAY_MS
    ensures var f := ClockFields(ms);
      && f[0] < 24 && f[1] < 60 && f[2] < 60 && f[3] < 1000
      && ((f[0] * 60 + f[1]) * 60 + f[2]) * 1000 + f[3] == ms
  {
  }

  lemma MomentOfFields(ms: nat)
    ensures Moment(FieldsOf(ms)) == Some(ms)
  {
    DateBounds(ms / DAY_MS);
    ClockBounds(ms % DAY_MS);
  }

  lemma DateOrder(a: nat, b: nat)
    requires a < b
    ensures SeqLess(DateFields(a), DateFields(b))
  {
    var f, g := DateFields(a), DateFields(b);
    DateBounds(a);
    DateBounds(b);
    if f[0] > g[0] { YearsAscend(g[0], f[0]); }
    if f[0] == g[0] && f[1] > g[1] { MonthsAscend(Leap(f[0]), g[1], f[1]); }
    assert f[1..][0] == f[1] && g[1..][0] == g[1];
    assert f[1..][1..][0] == f[2] && g[1..][1..][0] == g[2];
  }

  lemma SeqLessFour(f: seq<nat>, g: seq<nat>)
    requires |f| == |g| == 4
    requires
      || f[0] < g[0]
      || (f[0] == g[0] && (f[1] < g[1] || (f[1] == g[1] && (f[2] < g[2] || (f[2] == g[2] && f[3] < g[3])))))
    ensures SeqLess(f, g)
  {
    assert f[1..][1..] == f[2..] && g[1..][1..] == g[2..];
    assert f[2..][1..] == f[3..] && g[2..][1..] == g[3..];
    assert f[3] < g[3] ==> SeqLess(f[3..], g[3..]);
    assert f[2] <= g[2] && (f[2] == g[2] ==> f[3] < g[3]) ==> SeqLess(f[2..], g[2..]);
    assert f[1] <= g[1] && (f[1] == g[1] ==> SeqLess(f[2..], g[2..])) ==> SeqLess(f[1..], g[1..]);
  }

  lemma ClockOrder(a: nat, b: nat)
    requires a < b < DAY_MS
    ensures SeqLess(ClockFields(a), ClockFields(b))
  {
    var f, g := ClockFields(a), ClockFields(b);
    ClockBounds(a);
    ClockBounds(b);
    SeqLessFour(f, g);
  }

  lemma FieldsOrder(a: nat, b: nat)
    requires a < b
    ensures SeqLess(FieldsOf(a), FieldsOf(b))
  {
    var p, q := a / DAY_MS, b / DAY_MS;
    if p < q {
      DateOrder(p, q);
      SeqLessHead(DateFields(p), ClockFields(a % DAY_MS), DateFields(q), ClockFields(b % DAY_MS));
    } else {
      ClockOrder(a % DAY_MS, b % DAY_MS);
      SeqLessTail(DateFields(p), ClockFields(a % DAY_MS), ClockFields(b % DAY_MS));
    }
  }

  // ----- encodeTime, decodeTime -----

  predicate UpToYear(ms: nat, last: nat) {
    YearOf(ms / DAY_MS) <= last
  }

  /** Four-digit years; the store's times are all of this kind. */
  predicate FourDigit(ms: nat) {
    UpToYear(ms, 9999)
  }

  function Width(year: nat): (r: nat)
    ensures r >= 4
  {
    if year < 10_000 then 4 else 1 + Width(year / 10)
  }

  /** Go pads the year to four digits and lets a longer one have as many as it needs. */
  function EncodeMs(ms: nat): string {
    var f := FieldsOf(ms);
    Pad(f[0], Width(f[0])) + ['-'] + Render(f[1..], SHAPE[1..])
  }

  function EncodeTime(t: Instant): string
    requires t >= 0
  {
    EncodeMs(Stored(t))
  }

  function DecodeTime(s: string): Result<Instant> {
    match Parse(s, SHAPE)
    case None => Err(Internal)
    case Some(f) => if |f| == 7 && Moment(f).Some? then Ok(Loaded(Moment(f).value)) else Err(Internal)
  }

  lemma Powers()
    ensures Power(2) == 100 && Power(3) == 1000 && Power(4) == 10_000
  {
    assert Power(1) == 10;
  }

  lemma FieldsFit(ms: nat)
    requires FourDigit(ms)
    ensures FitsShape(FieldsOf(ms), SHAPE) && EncodeMs(ms) == Render(FieldsOf(ms), SHAPE)
  {
    DateBounds(ms / DAY_MS);
    ClockBounds(ms % DAY_MS);
    Powers();
  }

  /** Reading back what was written gives the time cut to the millisecond. */
  lemma DecodeEncode(t: Instant)
    requires t >= 0 && FourDigit(Stored(t))
    ensures DecodeTime(EncodeTime(t)) == Ok(Loaded(Stored(t)))
    ensures Loaded(Stored(t)) <= t < Loaded(Stored(t)) + MILLISECOND
  {
    var ms := Stored(t);
    FieldsFit(ms);
    ParseRender(FieldsOf(ms), SHAPE);
    MomentOfFields(ms);
  }

  lemma EarlierIsLess(a: nat, b: nat)
    requires FourDigit(a) && FourDigit(b) && a < b
    ensures LexLess(EncodeMs(a), EncodeMs(b))
  {
    FieldsFit(a);
    FieldsFit(b);
    FieldsOrder(a, b);
    RenderOrder(FieldsOf(a), FieldsOf(b), SHAPE);
  }

  /** For four-digit years the order of the texts is the order of the times, at millisecond
      resolution (section 5.1 of RFC 3339); equal texts are equal times. */
  lemma TextOrderIsTimeOrder(a: Instant, b: Instant)
    requires a >= 0 && b >= 0 && FourDigit(Stored(a)) && FourDigit(Stored(b))
    ensures LexLess(EncodeTime(a), EncodeTime(b)) <==> Stored(a) < Stored(b)
    ensures EncodeTime(a) == EncodeTime(b) <==> Stored(a) == Stored(b)
  {
    var x, y := Stored(a), Stored(b);
    LexIrreflexive(EncodeMs(x));
    if x < y {
      EarlierIsLess(x, y);
    } else if y < x {
      EarlierIsLess(y, x);
      if LexLess(EncodeMs(x), EncodeMs(y)) { LexTransitive(EncodeMs(x), EncodeMs(y), EncodeMs(x)); }
    }
  }

  /** The statement's test `expires_at > now` on texts never passes for a lease that has really
      expired, and passes whenever at least a millisecond is left. */
  lemma TextTestMeansUnexpired(expiresAt: Instant, now: Instant)
    requires expiresAt >= 0 && now >= 0 && FourDigit(Stored(expiresAt)) && FourDigit(Stored(now))
    ensures LexLess(EncodeTime(now), EncodeTime(expiresAt)) ==> now < expiresAt
    ensures now + MILLISECOND <= expiresAt ==> LexLess(EncodeTime(now), EncodeTime(expiresAt))
  {
    TextOrderIsTimeOrder(now, expiresAt);
  }

  /** The guard of ConsumeLease, read as the text comparison the statement makes. */
  lemma ConsumeGuardIsTextTest(row: Lease, at: Instant)
    requires at >= 0 && row.expiresAt >= 0 && FourDigit(Stored(at)) && FourDigit(row.expiresAt)
    ensures Consumable(row, at) <==>
      && row.status == Active && LexLess(EncodeTime(at), EncodeMs(row.expiresAt))
      && (row.limit == 0 || row.used < row.limit)
  {
    TextOrderIsTimeOrder(at, Loaded(row.expiresAt));
  }

  /** Beyond four digits the order breaks: any time of the years 10000 to 19999 sorts before any time
      of the years 2000 to 9999. */
  lemma FiveDigitYearsSortFirst(a: nat, b: nat)
    requires 2000 <= YearOf(a / DAY_MS) <= 9999 && 10_000 <= YearOf(b / DAY_MS) <= 19_999
    ensures LexLess(EncodeMs(b), EncodeMs(a))
  {
    var y, z := YearOf(a / DAY_MS), YearOf(b / DAY_MS);
    Powers();
    FirstDigit(y, 3, y / 1000);
    FirstDigit(z, 4, 1);
    StartsWithYear(a);
    StartsWithYear(b);
  }

  /** Text order is time order for all times of years up to `last`. */
  ghost predicate OrderedUpTo(last: nat) {
    forall a: nat, b: nat :: UpToYear(a, last) && UpToYear(b, last) ==>
      (LexLess(EncodeMs(a), EncodeMs(b)) <==> a < b)
  }

  lemma FirstOfYear(year: nat) returns (ms: nat)
    requires year >= 1
    ensures YearOf(ms / DAY_MS) == year && ms == DaysBeforeYear(year) * DAY_MS
  {
    var day := DaysBeforeYear(year);
    ms := day * DAY_MS;
    var found := YearOf(day);
    if found < year { YearsAscend(found, year); }
    if found > year { YearsAscend(year, found); }
  }

  /** The four digits are exactly what the text comparison can bear. */
  lemma OrderedExactly(last: nat)
    ensures OrderedUpTo(last) <==> last <= 9999
  {
    if last <= 9999 {
      forall a: nat, b: nat | UpToYear(a, last) && UpToYear(b, last)
        ensures LexLess(EncodeMs(a), EncodeMs(b)) <==> a < b
      {
        TextOrderIsTimeOrder(Loaded(a), Loaded(b));
      }
    } else {
      var a := FirstOfYear(2000);
      var b := FirstOfYear(10_000);
      YearsAscend(2000, 10_000);
      FiveDigitYearsSortFirst(a, b);
      assert UpToYear(a, last) && UpToYear(b, last) && a < b;
    }
  }

  lemma StartsWithYear(ms: nat)
    ensures var year := YearOf(ms / DAY_MS);
      Width(year) >= 4 && EncodeMs(ms) != "" && EncodeMs(ms)[0] == Pad(year, Width(year))[0]
  {
    assert FieldsOf(ms)[0] == YearOf(ms / DAY_MS);
  }

  lemma {:induction false} FirstDigit(n: nat, w: nat, d: nat)
    requires d < 10 && n / Power(w) == d
    ensures Pad(n, w + 1)[0] == Digit(d)
  {
    if w > 0 {
      DivideTwice(n, w);
      FirstDigit(n / 10, w - 1, d);
      assert Pad(n, w + 1)[0] == Pad(n / 10, w)[0];
    } else {
      assert Pad(n, 1) == [Digit(n % 10)];
    }
  }

  lemma DivideTwice(n: nat, w: nat)
    requires w > 0
    ensures n / 10 / Power(w - 1) == n / Power(w)
  {
    var p := Power(w - 1);
    var q := n / 10 / p;
    var r, s := n / 10 - q * p, n % 10;
    assert n == q * (10 * p) + (10 * r + s);
    assert 0 <= 10 * r + s < 10 * p;
    DivideUnique(n, 10 * p, q, 10 * r + s);
  }

  lemma DivideUnique(n: nat, d: nat, q: nat, r: nat)
    requires d > 0 && n == q * d + r && r < d
    ensures n / d == q
  {
    var e := n / d;
    if e < q { TimesMonotone(e + 1, q, d); }
    if e > q { TimesMonotone(q + 1, e, d); }
  }

  lemma TimesMonotone(a: nat, b: nat, d: nat)
    requires a <= b
    ensures a * d <= b * d
  {
  }
}
