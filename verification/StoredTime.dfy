/** Stored timestamps: UTC instants as RFC 3339 text with a trimmed fraction (section 5.6 of RFC 3339), and
    where the order of the text departs from the order of time (section 5.1). */
module StoredTime {
  import opened Text

  // ---- instants and their chronological order ----

  datatype Instant = Instant(year: nat, month: nat, day: nat, hour: nat, minute: nat, second: nat, nanos: nat)

  predicate Leap(year: nat) { year % 4 == 0 && (year % 100 != 0 || year % 400 == 0) }

  function DaysIn(year: nat, month: nat): nat {
    if month == 2 then (if Leap(year) then 29 else 28)
    else if month == 4 || month == 6 || month == 9 || month == 11 then 30
    else 31
  }

  predicate Valid(t: Instant) {
    && t.year <= 9999 && 1 <= t.month <= 12 && 1 <= t.day <= DaysIn(t.year, t.month)
    && t.hour < 24 && t.minute < 60 && t.second < 60 && t.nanos < 1_000_000_000
  }

  function DaysBeforeMonth(year: nat, month: nat): nat {
    if month <= 1 then 0 else DaysBeforeMonth(year, month - 1) + DaysIn(year, month - 1)
  }

  function DaysBeforeYear(year: nat): nat {
    if year == 0 then 0 else DaysBeforeYear(year - 1) + DaysBeforeMonth(year - 1, 13)
  }

  function DayNumber(t: Instant): int { DaysBeforeYear(t.year) + DaysBeforeMonth(t.year, t.month) + t.day - 1 }

  /** Whole seconds since the start of year 0. */
  function Seconds(t: Instant): int { ((DayNumber(t) * 24 + t.hour) * 60 + t.minute) * 60 + t.second }

  predicate Before(a: Instant, b: Instant) {
    Seconds(a) < Seconds(b) || (Seconds(a) == Seconds(b) && a.nanos < b.nanos)
  }

  lemma {:induction false} MonthsAdd(year: nat, m: nat, n: nat)
    requires 1 <= m < n <= 13
    ensures DaysBeforeMonth(year, m) + DaysIn(year, m) <= DaysBeforeMonth(year, n)
  {
    if m < n - 1 { MonthsAdd(year, m, n - 1); }
  }

  lemma {:induction false} YearsAdd(y: nat, z: nat)
    requires y < z
    ensures DaysBeforeYear(y) + DaysBeforeMonth(y, 13) <= DaysBeforeYear(z)
  {
    if y < z - 1 { YearsAdd(y, z - 1); }
  }

  lemma DaysOrdered(a: Instant, b: Instant)
    requires Valid(a) && Valid(b)
    requires a.year < b.year || (a.year == b.year && (a.month < b.month || (a.month == b.month && a.day < b.day)))
    ensures DayNumber(a) < DayNumber(b)
  {
    if a.year < b.year {
      YearsAdd(a.year, b.year);
      MonthsAdd(a.year, a.month, 13);
    } else if a.month < b.month {
      MonthsAdd(a.year, a.month, b.month);
    }
  }

  // ---- the text ----

  function Digit(d: nat): char
    requires d < 10
  {
    '0' + d as char
  }

  /** `n` in `width` decimal digits. */
  function Pad(n: nat, width: nat): (r: string)
    ensures |r| == width
  {
    if width == 0 then "" else Pad(n / 10, width - 1) + [Digit(n % 10)]
  }

  datatype Field = Field(value: nat, width: nat, after: string)

  function Fields(t: Instant): seq<Field> {
    [Field(t.year, 4, "-"), Field(t.month, 2, "-"), Field(t.day, 2, "T"),
     Field(t.hour, 2, ":"), Field(t.minute, 2, ":"), Field(t.second, 2, "")]
  }

  function Render(fs: seq<Field>): string {
    if fs == [] then "" else Pad(fs[0].value, fs[0].width) + fs[0].after + Render(fs[1..])
  }

  function Trim(s: string): string {
    if s != "" && s[|s| - 1] == '0' then Trim(s[..|s| - 1]) else s
  }

  /** The digits of the fraction without trailing zeros; empty for a whole second. */
  function Fraction(t: Instant): string { Trim(Pad(t.nanos, 9)) }

  function Tail(fraction: string): string { (if fraction == "" then "" else "." + fraction) + "Z" }

  function Format(t: Instant): string { Render(Fields(t)) + Tail(Fraction(t)) }

  // ---- fixed-width fields sort like their numbers ----

  function Pow10(k: nat): nat { if k == 0 then 1 else 10 * Pow10(k - 1) }

  /** Texts that begin with parts of one length compare by the parts first. */
  lemma ByParts(p: string, q: string, a: string, b: string)
    requires |p| == |q|
    ensures TextLess(p + a, q + b) <==> TextLess(p, q) || (p == q && TextLess(a, b))
  {
    if p == q {
      CommonPrefix(p, a, b);
      Irreflexive(p);
    } else {
      DifferentPrefix(p, q, a, b);
    }
  }

  lemma {:induction false} PadOrder(m: nat, n: nat, width: nat)
    requires m < Pow10(width) && n < Pow10(width)
    ensures TextLess(Pad(m, width), Pad(n, width)) <==> m < n
    ensures Pad(m, width) == Pad(n, width) <==> m == n
  {
    if width == 0 {
    } else {
      PadOrder(m / 10, n / 10, width - 1);
      ByParts(Pad(m / 10, width - 1), Pad(n / 10, width - 1), [Digit(m % 10)], [Digit(n % 10)]);
      assert TextLess([Digit(m % 10)], [Digit(n % 10)]) <==> m % 10 < n % 10;
      if Pad(m, width) == Pad(n, width) {
        assert Pad(m, width)[..width - 1] == Pad(m / 10, width - 1);
        assert Pad(n, width)[..width - 1] == Pad(n / 10, width - 1);
        assert Pad(m, width)[width - 1] == Digit(m % 10) && Pad(n, width)[width - 1] == Digit(n % 10);
      }
    }
  }

  predicate SameLayout(fs: seq<Field>, gs: seq<Field>) {
    && |fs| == |gs|
    && forall i | 0 <= i < |fs| ::
         fs[i].width == gs[i].width && fs[i].after == gs[i].after
         && fs[i].value < Pow10(fs[i].width) && gs[i].value < Pow10(gs[i].width)
  }

  predicate LexLess(fs: seq<Field>, gs: seq<Field>)
    requires |fs| == |gs|
  {
    fs != [] && (fs[0].value < gs[0].value || (fs[0].value == gs[0].value && LexLess(fs[1..], gs[1..])))
  }

  lemma FieldOrder(x: Field, y: Field, r: string, s: string)
    requires x.width == y.width && x.after == y.after && x.value < Pow10(x.width) && y.value < Pow10(x.width)
    ensures TextLess(Pad(x.value, x.width) + x.after + r, Pad(y.value, y.width) + y.after + s)
       <==> x.value < y.value || (x.value == y.value && TextLess(r, s))
  {
    var p, q := Pad(x.value, x.width), Pad(y.value, y.width);
    PadOrder(x.value, y.value, x.width);
    assert p + x.after + r == p + (x.after + r) && q + y.after + s == q + (y.after + s);
    ByParts(p, q, x.after + r, y.after + s);
    CommonPrefix(x.after, r, s);
  }

  lemma RenderHead(fs: seq<Field>, a: string)
    requires fs != []
    ensures Render(fs) + a == Pad(fs[0].value, fs[0].width) + fs[0].after + (Render(fs[1..]) + a)
  {}

  lemma {:induction false} RenderOrder(fs: seq<Field>, gs: seq<Field>, a: string, b: string)
    requires SameLayout(fs, gs)
    ensures TextLess(Render(fs) + a, Render(gs) + b) <==> LexLess(fs, gs) || (fs == gs && TextLess(a, b))
  {
    if fs == [] {
      assert Render(fs) + a == a && Render(gs) + b == b;
    } else {
      RenderHead(fs, a);
      RenderHead(gs, b);
      FieldOrder(fs[0], gs[0], Render(fs[1..]) + a, Render(gs[1..]) + b);
      RenderOrder(fs[1..], gs[1..], a, b);
      assert fs == [fs[0]] + fs[1..] && gs == [gs[0]] + gs[1..];
    }
  }

  lemma Layout(a: Instant, b: Instant)
    requires Valid(a) && Valid(b)
    ensures SameLayout(Fields(a), Fields(b))
  {
    assert Pow10(2) == 100;
    assert Pow10(3) == 1000;
    assert Pow10(4) == 10000;
  }

  lemma LexFields(a: Instant, b: Instant)
    ensures LexLess(Fields(a), Fields(b)) <==>
      a.year < b.year || (a.year == b.year && (a.month < b.month || (a.month == b.month && (a.day < b.day
      || (a.day == b.day && (a.hour < b.hour || (a.hour == b.hour && (a.minute < b.minute
      || (a.minute == b.minute && a.second < b.second)))))))))
  {
    var f, g := Fields(a), Fields(b);
    assert LexLess(f[5..], g[5..]) <==> a.second < b.second;
    assert f[4..][1..] == f[5..] && g[4..][1..] == g[5..];
    assert f[3..][1..] == f[4..] && g[3..][1..] == g[4..];
    assert f[2..][1..] == f[3..] && g[2..][1..] == g[3..];
    assert f[1..][1..] == f[2..] && g[1..][1..] == g[2..];
    assert LexLess(f[4..], g[4..]) <==> a.minute < b.minute || (a.minute == b.minute && LexLess(f[5..], g[5..]));
    assert LexLess(f[3..], g[3..]) <==> a.hour < b.hour || (a.hour == b.hour && LexLess(f[4..], g[4..]));
    assert LexLess(f[2..], g[2..]) <==> a.day < b.day || (a.day == b.day && LexLess(f[3..], g[3..]));
    assert LexLess(f[1..], g[1..]) <==> a.month < b.month || (a.month == b.month && LexLess(f[2..], g[2..]));
  }

  lemma LexIsEarlier(a: Instant, b: Instant)
    requires Valid(a) && Valid(b) && LexLess(Fields(a), Fields(b))
    ensures Seconds(a) < Seconds(b)
  {
    LexFields(a, b);
    if a.year == b.year && a.month == b.month && a.day == b.day {
    } else {
      DaysOrdered(a, b);
      SecondsOfDays(a, b);
    }
  }

  lemma SecondsOfDays(a: Instant, b: Instant)
    requires Valid(a) && Valid(b) && DayNumber(a) < DayNumber(b)
    ensures Seconds(a) < Seconds(b)
  {}

  /** The part of the text before the fraction sorts like the second it names. */
  lemma SecondOrder(a: Instant, b: Instant)
    requires Valid(a) && Valid(b)
    ensures LexLess(Fields(a), Fields(b)) <==> Seconds(a) < Seconds(b)
    ensures Fields(a) == Fields(b) <==> Seconds(a) == Seconds(b)
  {
    LexFields(a, b);
    LexFields(b, a);
    if LexLess(Fields(a), Fields(b)) { LexIsEarlier(a, b); }
    if LexLess(Fields(b), Fields(a)) { LexIsEarlier(b, a); }
    if a.(nanos := 0) == b.(nanos := 0) {
      assert Fields(a) == Fields(b);
    } else {
      assert Fields(a)[0].value == a.year && Fields(a)[1].value == a.month && Fields(a)[2].value == a.day;
      assert Fields(a)[3].value == a.hour && Fields(a)[4].value == a.minute && Fields(a)[5].value == a.second;
    }
  }

  // ---- fractions ----

  predicate Digits(s: string) { forall i | 0 <= i < |s| :: '0' <= s[i] <= '9' }

  function Zeros(n: nat): (r: string)
    ensures |r| == n && Digits(r)
  {
    if n == 0 then "" else ['0'] + Zeros(n - 1)
  }

  predicate Trimmed(s: string) { s == "" || s[|s| - 1] != '0' }

  lemma {:induction false} PadDigits(n: nat, width: nat)
    ensures Digits(Pad(n, width))
  {
    if width == 0 {
    } else {
      PadDigits(n / 10, width - 1);
    }
  }

  lemma {:induction false} ZerosSnoc(n: nat)
    ensures Zeros(n) + ['0'] == Zeros(n + 1)
  {
    if n == 0 {
    } else {
      ZerosSnoc(n - 1);
    }
  }

  lemma {:induction false} TrimStops(s: string)
    ensures Trimmed(Trim(s)) && Trim(s) <= s
  {
    if s != "" && s[|s| - 1] == '0' { TrimStops(s[..|s| - 1]); }
  }

  lemma {:induction false} TrimSplits(s: string)
    ensures |Trim(s)| <= |s| && s == Trim(s) + Zeros(|s| - |Trim(s)|)
  {
    if s != "" && s[|s| - 1] == '0' {
      var t := s[..|s| - 1];
      TrimSplits(t);
      var f, z := Trim(t), Zeros(|t| - |Trim(t)|);
      ZerosSnoc(|t| - |f|);
      assert s == t + ['0'] && (f + z) + ['0'] == f + (z + ['0']);
    }
  }

  /** Zeros come before any digits that do not end in zero. */
  lemma {:induction false} ZerosFirst(h: string, a: nat, b: nat)
    requires h != "" && Digits(h) && Trimmed(h) && a == |h| + b
    ensures TextLess(Zeros(a), h + Zeros(b))
  {
    assert (h + Zeros(b))[1..] == h[1..] + Zeros(b);
    assert Zeros(a)[1..] == Zeros(a - 1);
    if h[0] == '0' {
      assert h[1..] != "" && h[1..][|h| - 2] == h[|h| - 1];
      ZerosFirst(h[1..], a - 1, b);
    }
  }

  /** Two fractions neither of which is a prefix of the other are decided at one position, whatever follows. */
  lemma {:induction false} Diverge(f: string, g: string, u: string, v: string, x: string, y: string)
    requires !(f <= g) && !(g <= f)
    ensures TextLess(f + u, g + v) <==> TextLess(f + x, g + y)
  {
    assert f != "" && g != "";
    assert (f + u)[1..] == f[1..] + u && (g + v)[1..] == g[1..] + v;
    assert (f + x)[1..] == f[1..] + x && (g + y)[1..] == g[1..] + y;
    if f[0] == g[0] {
      assert f == [f[0]] + f[1..] && g == [g[0]] + g[1..];
      Diverge(f[1..], g[1..], u, v, x, y);
    }
  }

  lemma ExtensionIsLarger(f: string, h: string, a: nat, b: nat)
    requires h != "" && Digits(h) && Trimmed(h) && a == |h| + b
    ensures TextLess(f + Zeros(a), (f + h) + Zeros(b))
  {
    ZerosFirst(h, a, b);
    CommonPrefix(f, Zeros(a), h + Zeros(b));
    assert (f + h) + Zeros(b) == f + (h + Zeros(b));
  }

  lemma ExtensionSortsFirst(f: string, h: string)
    requires h != "" && Digits(h)
    ensures TextLess(Tail(f + h), Tail(f))
  {
    if f != "" {
      assert Tail(f) == ("." + f) + "Z";
      assert Tail(f + h) == ("." + f) + (h + "Z");
      CommonPrefix("." + f, h + "Z", "Z");
    }
  }

  /** A fraction that properly extends another makes the larger number and the smaller text. */
  lemma PrefixReverses(f: string, g: string, a: nat, b: nat)
    requires f < g && Digits(g) && Trimmed(g) && |f| + a == |g| + b
    ensures TextLess(f + Zeros(a), g + Zeros(b))
    ensures TextLess(Tail(g), Tail(f))
  {
    var h := g[|f|..];
    assert g == f + h;
    assert h[|h| - 1] == g[|g| - 1];
    assert Digits(h);
    ExtensionIsLarger(f, h, a, b);
    ExtensionSortsFirst(f, h);
  }

  lemma DivergeAlike(f: string, g: string, a: nat, b: nat)
    requires !(f <= g) && !(g <= f)
    ensures TextLess(Tail(f), Tail(g)) <==> TextLess(f + Zeros(a), g + Zeros(b))
  {
    Diverge(f, g, "Z", "Z", Zeros(a), Zeros(b));
    assert Tail(f) == "." + (f + "Z");
    assert Tail(g) == "." + (g + "Z");
    CommonPrefix(".", f + "Z", g + "Z");
  }

  /** The tails of two trimmed fractions sort like the fractions padded to one width exactly when neither
      properly extends the other. */
  lemma TailCases(f: string, g: string, a: nat, b: nat, p: string, q: string)
    requires Digits(f) && Digits(g) && Trimmed(f) && Trimmed(g) && |f| + a == |g| + b
    requires p == f + Zeros(a) && q == g + Zeros(b)
    ensures (TextLess(Tail(f), Tail(g)) <==> TextLess(p, q)) <==> !(f < g || g < f)
  {
    if f == g {
      Irreflexive(Tail(f));
      Irreflexive(p);
    } else if f < g {
      PrefixReverses(f, g, a, b);
      Asymmetric(Tail(g), Tail(f));
    } else if g < f {
      PrefixReverses(g, f, b, a);
      Asymmetric(q, p);
    } else {
      DivergeAlike(f, g, a, b);
    }
  }

  lemma TrimOnce(p: string) returns (f: string, a: nat)
    requires Digits(p)
    ensures f == Trim(p) && Digits(f) && Trimmed(f) && |f| + a == |p| && p == f + Zeros(a)
  {
    f := Trim(p);
    TrimStops(p);
    TrimSplits(p);
    a := |p| - |f|;
  }

  lemma TrimmedOrder(p: string, q: string)
    requires Digits(p) && Digits(q) && |p| == |q|
    ensures (TextLess(Tail(Trim(p)), Tail(Trim(q))) <==> TextLess(p, q))
       <==> !(Trim(p) < Trim(q) || Trim(q) < Trim(p))
  {
    var f, a := TrimOnce(p);
    var g, b := TrimOnce(q);
    TailCases(f, g, a, b, p, q);
  }

  lemma PaddedOrder(m: nat, n: nat, width: nat)
    requires m < Pow10(width) && n < Pow10(width)
    ensures var f, g := Trim(Pad(m, width)), Trim(Pad(n, width));
      (TextLess(Tail(f), Tail(g)) <==> m < n) <==> !(f < g || g < f)
  {
    PadOrder(m, n, width);
    PadDigits(m, width);
    PadDigits(n, width);
    TrimmedOrder(Pad(m, width), Pad(n, width));
  }

  /** Within one second the tails sort like the nanoseconds exactly when neither trimmed fraction properly
      extends the other. */
  lemma TailOrder(a: Instant, b: Instant)
    requires Valid(a) && Valid(b)
    ensures (TextLess(Tail(Fraction(a)), Tail(Fraction(b))) <==> a.nanos < b.nanos)
       <==> !(Fraction(a) < Fraction(b) || Fraction(b) < Fraction(a))
  {
    NinePlaces();
    PaddedOrder(a.nanos, b.nanos, 9);
  }

  lemma NinePlaces()
    ensures Pow10(9) == 1_000_000_000
  {
    assert Pow10(3) == 1000;
    assert Pow10(6) == 1000 * Pow10(3);
    assert Pow10(9) == 1000 * Pow10(6);
  }

  /** Text order is time order exactly when the two instants do not share their second with one trimmed
      fraction, possibly empty, a proper prefix of the other. */
  lemma TextOrderExactly(a: Instant, b: Instant)
    requires Valid(a) && Valid(b)
    ensures (TextLess(Format(a), Format(b)) <==> Before(a, b))
       <==> !(Seconds(a) == Seconds(b) && (Fraction(a) < Fraction(b) || Fraction(b) < Fraction(a)))
  {
    Layout(a, b);
    RenderOrder(Fields(a), Fields(b), Tail(Fraction(a)), Tail(Fraction(b)));
    SecondOrder(a, b);
    TailOrder(a, b);
  }

  /** Different seconds always sort in time order. */
  lemma LaterSecondSortsLater(a: Instant, b: Instant)
    requires Valid(a) && Valid(b) && Seconds(a) != Seconds(b)
    ensures TextLess(Format(a), Format(b)) <==> Seconds(a) < Seconds(b)
  {
    Layout(a, b);
    RenderOrder(Fields(a), Fields(b), Tail(Fraction(a)), Tail(Fraction(b)));
    SecondOrder(a, b);
  }

  /** A family of instants in the wrong order: a whole second sorts after every later instant within it. */
  lemma WholeSecondSortsLast(a: Instant, b: Instant)
    requires Valid(a) && Valid(b) && Seconds(a) == Seconds(b) && a.nanos == 0 < b.nanos
    ensures Before(a, b) && TextLess(Format(b), Format(a))
  {
    NinePlaces();
    PadOrder(a.nanos, b.nanos, 9);
    TrimSplits(Pad(a.nanos, 9));
    TrimSplits(Pad(b.nanos, 9));
    ZeroPad(9);
    ZeroTrims(9);
    assert Fraction(a) == "" && Fraction(b) != "";
    TextOrderExactly(b, a);
  }

  lemma {:induction false} ZeroPad(width: nat)
    ensures Pad(0, width) == Zeros(width)
  {
    if width == 0 {
    } else {
      ZeroPad(width - 1);
      ZerosSnoc(width - 1);
    }
  }

  lemma {:induction false} ZeroTrims(n: nat)
    ensures Trim(Zeros(n)) == ""
  {
    if n == 0 {
    } else {
      ZerosSnoc(n - 1);
      assert (Zeros(n - 1) + ['0'])[..n - 1] == Zeros(n - 1);
      ZeroTrims(n - 1);
    }
  }

  /** Midnight and half a second later, on the first day of 2026. */
  lemma MidnightSortsLast()
    ensures var a, b := Instant(2026, 1, 1, 0, 0, 0, 0), Instant(2026, 1, 1, 0, 0, 0, 500_000_000);
      Valid(a) && Valid(b) && Before(a, b) && TextLess(Format(b), Format(a))
  {
    WholeSecondSortsLast(Instant(2026, 1, 1, 0, 0, 0, 0), Instant(2026, 1, 1, 0, 0, 0, 500_000_000));
  }
}
