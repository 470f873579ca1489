/** Proleptic Gregorian dates of the years 1 to 9999, their ISO text, and day arithmetic. */
module Calendar {
  import opened Basics
  import opened Digits

  datatype Date = Date(year: nat, month: nat, day: nat)

  predicate IsLeap(year: nat) {
    year % 4 == 0 && (year % 100 != 0 || year % 400 == 0)
  }

  function DaysIn(year: nat, month: nat): (n: nat)
    ensures 28 <= n <= 31
  {
    if month == 2 then (if IsLeap(year) then 29 else 28)
    else if month in {4, 6, 9, 11} then 30
    else 31
  }

  predicate ValidDate(d: Date) {
    1 <= d.year <= 9999 && 1 <= d.month <= 12 && 1 <= d.day <= DaysIn(d.year, d.month)
  }

  predicate NotAfter(a: Date, b: Date) {
    a.year < b.year
    || (a.year == b.year && (a.month < b.month || (a.month == b.month && a.day <= b.day)))
  }

  function IsoText(d: Date): (s: string)
    ensures |s| >= 1
  {
    Padded(d.year, 4) + "-" + Padded(d.month, 2) + "-" + Padded(d.day, 2)
  }

  /** date.fromisoformat on the YYYY-MM-DD form. */
  function ParseIso(s: string): (r: Option<Date>)
    ensures r.Some? ==> ValidDate(r.value)
  {
    if |s| == 10 && s[4] == '-' && s[7] == '-' && AllDigits(s[..4]) && AllDigits(s[5..7]) && AllDigits(s[8..]) then
      var d := Date(NatOf(s[..4]), NatOf(s[5..7]), NatOf(s[8..]));
      if ValidDate(d) then Some(d) else None
    else None
  }

  lemma {:induction false} PartLengths(d: Date)
    requires ValidDate(d)
    ensures |Padded(d.year, 4)| == 4 && |Padded(d.month, 2)| == 2 && |Padded(d.day, 2)| == 2
  {
    assert Pow10(2) == 100;
    assert Pow10(4) == 10_000;
    PaddedLength(d.year, 4);
    PaddedLength(d.month, 2);
    PaddedLength(d.day, 2);
  }

  lemma {:induction false} IsoParts(y: string, m: string, d: string)
    requires |y| == 4 && |m| == 2 && |d| == 2
    ensures var s := y + "-" + m + "-" + d;
      |s| == 10 && s[4] == '-' && s[7] == '-' && s[..4] == y && s[5..7] == m && s[8..] == d
  {
  }

  lemma {:induction false} DateRoundTrip(d: Date)
    requires ValidDate(d)
    ensures ParseIso(IsoText(d)) == Some(d)
  {
    PartLengths(d);
    IsoParts(Padded(d.year, 4), Padded(d.month, 2), Padded(d.day, 2));
  }

  function NextDay(d: Date): (r: Date)
    requires ValidDate(d)
    ensures NotAfter(d, r)
    ensures r.year <= 9999 ==> ValidDate(r)
    ensures d.year <= r.year <= d.year + 1
  {
    if d.day < DaysIn(d.year, d.month) then Date(d.year, d.month, d.day + 1)
    else if d.month < 12 then Date(d.year, d.month + 1, 1)
    else Date(d.year + 1, 1, 1)
  }

  /** date + timedelta(days=n); None is the OverflowError past the year 9999. */
  function AddDays(d: Date, n: nat): (r: Option<Date>)
    requires ValidDate(d)
    ensures r.Some? ==> ValidDate(r.value) && NotAfter(d, r.value)
    decreases n
  {
    if n == 0 then Some(d)
    else if NextDay(d).year > 9999 then None
    else AddDays(NextDay(d), n - 1)
  }

  /** Overflow is monotone: if the larger step fits, so does every smaller one. */
  lemma {:induction false} AddDaysPrefix(d: Date, m: nat, n: nat)
    requires ValidDate(d) && m <= n && AddDays(d, n).Some?
    ensures AddDays(d, m).Some?
    decreases n
  {
    if m > 0 {
      AddDaysPrefix(NextDay(d), m - 1, n - 1);
    }
  }
}
