/** Reading a stored timestamp back: the text is that of section 5.6 of RFC 3339, and every instant of the years 0
    to 9999 survives the round trip. */
module TimeText {
  import opened Common
  import opened StoredTime

  function Number(s: string): nat
    requires Digits(s)
  {
    if s == "" then 0 else 10 * Number(s[..|s| - 1]) + (s[|s| - 1] - '0') as nat
  }

  lemma {:induction false} NumberOfPad(n: nat, width: nat)
    requires n < Pow10(width)
    ensures Digits(Pad(n, width)) && Number(Pad(n, width)) == n
  {
    if width == 0 {
    } else {
      NumberOfPad(n / 10, width - 1);
      assert Pad(n, width)[..width - 1] == Pad(n / 10, width - 1);
      PadDigits(n, width);
    }
  }

  /** The nanoseconds in what follows the second: an optional fraction of up to nine digits, and Z. */
  function ReadTail(tail: string): Option<nat> {
    if tail == "Z" then Some(0)
    else if 3 <= |tail| <= 11 && tail[0] == '.' && tail[|tail| - 1] == 'Z' && Digits(tail[1..|tail| - 1])
    then Some(Number(tail[1..|tail| - 1] + Zeros(11 - |tail|)))
    else None
  }

  /** YYYY-MM-DDTHH:MM:SS */
  predicate HasShape(s: string) {
    |s| == 19 && s[4] == '-' && s[7] == '-' && s[10] == 'T' && s[13] == ':' && s[16] == ':'
    && Digits(s[..4]) && Digits(s[5..7]) && Digits(s[8..10]) && Digits(s[11..13]) && Digits(s[14..16]) && Digits(s[17..])
  }

  function Read(s: string): Option<Instant> {
    if |s| < 20 || !HasShape(s[..19]) || ReadTail(s[19..]) == None then None else
    var h := s[..19];
    Some(Instant(Number(h[..4]), Number(h[5..7]), Number(h[8..10]), Number(h[11..13]), Number(h[14..16]), Number(h[17..]),
                 ReadTail(s[19..]).value))
  }

  /** The fixed-width part of the text. */
  lemma HeadIs(t: Instant)
    ensures Render(Fields(t)) == Pad(t.year, 4) + "-" + (Pad(t.month, 2) + "-" + (Pad(t.day, 2) + "T"
                                 + (Pad(t.hour, 2) + ":" + (Pad(t.minute, 2) + ":" + Pad(t.second, 2)))))
  {
    var f := Fields(t);
    assert f[1..][1..] == f[2..] && f[2..][1..] == f[3..] && f[3..][1..] == f[4..] && f[4..][1..] == f[5..] && f[5..][1..] == [];
    var sixth := Pad(t.second, 2) + "" + Render([]);
    assert Render(f[5..]) == sixth == Pad(t.second, 2);
    assert Render(f[4..]) == Pad(t.minute, 2) + ":" + Render(f[5..]);
    assert Render(f[3..]) == Pad(t.hour, 2) + ":" + Render(f[4..]);
    assert Render(f[2..]) == Pad(t.day, 2) + "T" + Render(f[3..]);
    assert Render(f[1..]) == Pad(t.month, 2) + "-" + Render(f[2..]);
  }

  /** A part at position `k`, the separator after it, and what follows. */
  lemma PartAt(h: string, k: nat, part: string, sep: char, rest: string)
    requires k <= |h| && h[k..] == part + [sep] + rest
    ensures var n := k + |part|; n < |h| && h[k..n] == part && h[n] == sep && h[n + 1..] == rest
  {
    var n := k + |part|;
    assert |h| == n + 1 + |rest|;
    assert h[k..n] == h[k..][..|part|];
    assert h[n] == h[k..][|part|];
    assert h[n + 1..] == h[k..][|part| + 1..];
  }

  lemma HeadSlices(year: string, month: string, day: string, hour: string, minute: string, second: string)
    requires |year| == 4 && |month| == |day| == |hour| == |minute| == |second| == 2
    ensures var h := year + "-" + (month + "-" + (day + "T" + (hour + ":" + (minute + ":" + second))));
      && |h| == 19 && h[4] == '-' && h[7] == '-' && h[10] == 'T' && h[13] == ':' && h[16] == ':'
      && h[..4] == year && h[5..7] == month && h[8..10] == day && h[11..13] == hour && h[14..16] == minute && h[17..] == second
  {
    var h := year + "-" + (month + "-" + (day + "T" + (hour + ":" + (minute + ":" + second))));
    PartAt(h, 0, year, '-', month + "-" + (day + "T" + (hour + ":" + (minute + ":" + second))));
    PartAt(h, 5, month, '-', day + "T" + (hour + ":" + (minute + ":" + second)));
    PartAt(h, 8, day, 'T', hour + ":" + (minute + ":" + second));
    PartAt(h, 11, hour, ':', minute + ":" + second);
    PartAt(h, 14, minute, ':', second);
  }

  lemma TwoDigits(n: nat)
    requires n < 100
    ensures |Pad(n, 2)| == 2 && Digits(Pad(n, 2)) && Number(Pad(n, 2)) == n
  {
    assert Pow10(2) == 100;
    NumberOfPad(n, 2);
  }

  lemma FourDigits(n: nat)
    requires n < 10_000
    ensures |Pad(n, 4)| == 4 && Digits(Pad(n, 4)) && Number(Pad(n, 4)) == n
  {
    assert Pow10(2) == 100;
    assert Pow10(4) == 100 * Pow10(2);
    NumberOfPad(n, 4);
  }

  lemma HeadReads(t: Instant)
    requires Valid(t)
    ensures var h := Render(Fields(t));
      && HasShape(h)
      && Number(h[..4]) == t.year && Number(h[5..7]) == t.month && Number(h[8..10]) == t.day
      && Number(h[11..13]) == t.hour && Number(h[14..16]) == t.minute && Number(h[17..]) == t.second
  {
    HeadIs(t);
    FourDigits(t.year);
    TwoDigits(t.month);
    TwoDigits(t.day);
    TwoDigits(t.hour);
    TwoDigits(t.minute);
    TwoDigits(t.second);
    HeadSlices(Pad(t.year, 4), Pad(t.month, 2), Pad(t.day, 2), Pad(t.hour, 2), Pad(t.minute, 2), Pad(t.second, 2));
  }

  /** The trimmed digits and zeros up to nine places are the nine places. */
  lemma FractionPads(t: Instant)
    requires Valid(t)
    ensures var f := Fraction(t);
      Digits(f) && |f| <= 9 && Digits(f + Zeros(9 - |f|)) && Number(f + Zeros(9 - |f|)) == t.nanos
  {
    var p := Pad(t.nanos, 9);
    NinePlaces();
    NumberOfPad(t.nanos, 9);
    TrimStops(p);
    TrimSplits(p);
  }

  lemma TailReads(t: Instant)
    requires Valid(t)
    ensures ReadTail(Tail(Fraction(t))) == Some(t.nanos)
  {
    var f := Fraction(t);
    FractionPads(t);
    if f == "" {
      assert "" + Zeros(9) == Zeros(9);
      ZeroNumber(9);
    } else {
      var tail := "." + f + "Z";
      assert tail[1..|tail| - 1] == f && |tail| == |f| + 2 && tail[0] == '.' && tail[|tail| - 1] == 'Z';
    }
  }

  lemma {:induction false} ZeroNumber(n: nat)
    ensures Number(Zeros(n)) == 0
  {
    if n == 0 {
    } else {
      ZerosSnoc(n - 1);
      assert (Zeros(n - 1) + ['0'])[..n - 1] == Zeros(n - 1);
      ZeroNumber(n - 1);
    }
  }

  /** A stored timestamp reads back as the instant that was written. */
  lemma ReadFormat(t: Instant)
    requires Valid(t)
    ensures Read(Format(t)) == Some(t)
  {
    var h, tail, s := Render(Fields(t)), Tail(Fraction(t)), Format(t);
    HeadReads(t);
    TailReads(t);
    assert s[..19] == h && s[19..] == tail;
  }

  // ---- the calendar ----

  lemma MonthEnds(year: nat, m: nat)
    requires m >= 1
    ensures DaysBeforeMonth(year, m + 1) == DaysBeforeMonth(year, m) + DaysIn(year, m)
  {}

  lemma MonthsOfYear(year: nat)
    ensures DaysBeforeMonth(year, 13) == if Leap(year) then 366 else 365
  {
    assert DaysBeforeMonth(year, 1) == 0;
    MonthEnds(year, 1); MonthEnds(year, 2); MonthEnds(year, 3); MonthEnds(year, 4);
    MonthEnds(year, 5); MonthEnds(year, 6); MonthEnds(year, 7); MonthEnds(year, 8);
    MonthEnds(year, 9); MonthEnds(year, 10); MonthEnds(year, 11); MonthEnds(year, 12);
  }

  /** The leap days before a year: every fourth, but not hundredth unless four-hundredth. */
  function LeapDays(year: nat): int { (year + 3) / 4 - (year + 99) / 100 + (year + 399) / 400 }

  lemma Fourth(year: nat)
    ensures (year + 4) / 4 - (year + 3) / 4 == if year % 4 == 0 then 1 else 0
  {}

  lemma Hundredth(year: nat)
    ensures (year + 100) / 100 - (year + 99) / 100 == if year % 100 == 0 then 1 else 0
  {}

  lemma FourHundredth(year: nat)
    ensures (year + 400) / 400 - (year + 399) / 400 == if year % 400 == 0 then 1 else 0
  {}

  lemma MultipleOfFour(n: nat, k: nat)
    requires n == 4 * k
    ensures n % 4 == 0
  {}

  lemma CenturyIsFourth(year: nat)
    ensures year % 100 == 0 ==> year % 4 == 0
  {
    if year % 100 == 0 {
      MultipleOfFour(year, 25 * (year / 100));
    }
  }

  lemma FourthCenturyIsCentury(year: nat)
    ensures year % 400 == 0 ==> year % 100 == 0
  {}

  /** Inclusion and exclusion, step by step. */
  lemma Combine(a: int, b: int, c: int, x: int, y: int, z: int, fourth: bool, century: bool, fourCenturies: bool)
    requires x - a == (if fourth then 1 else 0) && y - b == (if century then 1 else 0)
    requires z - c == (if fourCenturies then 1 else 0) && (century ==> fourth) && (fourCenturies ==> century)
    ensures x - y + z == a - b + c + if fourth && (!century || fourCenturies) then 1 else 0
  {}

  lemma LeapDaysStep(year: nat)
    ensures LeapDays(year + 1) == LeapDays(year) + if Leap(year) then 1 else 0
  {
    Combine((year + 3) / 4, (year + 99) / 100, (year + 399) / 400, (year + 4) / 4, (year + 100) / 100, (year + 400) / 400,
            year % 4 == 0, year % 100 == 0, year % 400 == 0) by {
      Fourth(year);
      Hundredth(year);
      FourHundredth(year);
      CenturyIsFourth(year);
      FourthCenturyIsCentury(year);
    }
  }

  lemma {:induction false} DaysOfYears(year: nat)
    ensures DaysBeforeYear(year) == 365 * year + LeapDays(year)
  {
    if year == 0 {
    } else {
      DaysOfYears(year - 1);
      MonthsOfYear(year - 1);
      LeapDaysStep(year - 1);
    }
  }

  /** The first instant of a year in seconds since that of year 0; 1970 begins 62167219200 seconds after it. */
  lemma YearBegins(year: nat)
    ensures Seconds(Instant(year, 1, 1, 0, 0, 0, 0)) == (365 * year + LeapDays(year)) * 86_400
    ensures year == 1970 ==> Seconds(Instant(year, 1, 1, 0, 0, 0, 0)) == 62_167_219_200
  {
    DaysOfYears(year);
    assert DaysBeforeMonth(year, 1) == 0;
  }
}
