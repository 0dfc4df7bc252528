/** `formatRelativeDate` of src/lib/utils.ts: how long ago a date was, in days or weeks,
    falling back to the absolute date. The clock reading, date parsing (`new Date(s)`,
    where `None` stands for an invalid date) and `formatDate` are parameters. */
module Utils {
  import opened Types
  import opened Strings

  /** `1000 * 60 * 60 * 24` */
  const MillisPerDay: int := 1000 * 60 * 60 * 24

  /** `Math.floor((now - then) / MillisPerDay)`: whole days elapsed, rounded down, so a
      future date gives a negative number. */
  function ElapsedDays(nowMillis: int, thenMillis: int): (d: int)
    ensures d * MillisPerDay <= nowMillis - thenMillis < (d + 1) * MillisPerDay
  {
    (nowMillis - thenMillis) / MillisPerDay
  }

  /** Which wording a date gets. */
  datatype Bucket = Blank | Today | Yesterday | DaysAgo(days: int) | WeeksAgo(weeks: int) | Absolute

  /** The branch `formatRelativeDate` takes. An invalid date makes every comparison with
      `NaN` false and ends in the absolute form. */
  function Classify(date: Option<string>, nowMillis: int, parse: string -> Option<int>): (b: Bucket)
    ensures b == Blank <==> !Truthy(date)
    ensures Truthy(date) && parse(date.value).None? ==> b == Absolute
    ensures Truthy(date) && parse(date.value).Some? ==>
      var e := nowMillis - parse(date.value).value;
      && (b == Today <==> 0 <= e < MillisPerDay)
      && (b == Yesterday <==> MillisPerDay <= e < 2 * MillisPerDay)
      && (b.DaysAgo? <==> e < 0 || 2 * MillisPerDay <= e < 7 * MillisPerDay)
      && (b.DaysAgo? ==> b.days * MillisPerDay <= e < (b.days + 1) * MillisPerDay)
      && (b.WeeksAgo? <==> 7 * MillisPerDay <= e < 30 * MillisPerDay)
      && (b.WeeksAgo? ==> 1 <= b.weeks <= 4 && 7 * b.weeks * MillisPerDay <= e < 7 * (b.weeks + 1) * MillisPerDay)
      && (b == Absolute <==> 30 * MillisPerDay <= e)
  {
    if !Truthy(date) then Blank
    else match parse(date.value)
      case None => Absolute
      case Some(t) =>
        var d := ElapsedDays(nowMillis, t);
        DayBuckets(nowMillis - t, d);
        if d == 0 then Today
        else if d == 1 then Yesterday
        else if d < 7 then DaysAgo(d)
        else if d < 30 then WeeksAgo(d / 7)
        else Absolute
  }

  /** Where a day count `d` with `d * MillisPerDay <= e < (d + 1) * MillisPerDay` puts
      the elapsed milliseconds `e`. */
  lemma DayBuckets(e: int, d: int)
    requires d * MillisPerDay <= e < (d + 1) * MillisPerDay
    ensures d == 0 <==> 0 <= e < MillisPerDay
    ensures d == 1 <==> MillisPerDay <= e < 2 * MillisPerDay
    ensures d < 0 <==> e < 0
    ensures 2 <= d < 7 <==> 2 * MillisPerDay <= e < 7 * MillisPerDay
    ensures 7 <= d < 30 <==> 7 * MillisPerDay <= e < 30 * MillisPerDay
    ensures 30 <= d <==> 30 * MillisPerDay <= e
    ensures 7 <= d < 30 ==> 1 <= d / 7 <= 4 && 7 * (d / 7) * MillisPerDay <= e < 7 * (d / 7 + 1) * MillisPerDay
  {
    var w := d / 7;
    assert 7 * w <= d < 7 * w + 7;
    if d < 0 { assert (d + 1) * MillisPerDay <= 0; }
    if 0 <= d {
      assert 0 <= d * MillisPerDay;
    }
    assert 7 * w * MillisPerDay <= d * MillisPerDay;
    assert (d + 1) * MillisPerDay <= (7 * w + 7) * MillisPerDay;
  }

  /** The French wording of a bucket. */
  function Wording(b: Bucket, date: Option<string>, formatDate: string -> string): string {
    match b
    case Blank => ""
    case Today => "Aujourd'hui"
    case Yesterday => "Hier"
    case DaysAgo(n) => "Il y a " + IntToDecimal(n) + " jours"
    case WeeksAgo(n) => "Il y a " + IntToDecimal(n) + " semaines"
    case Absolute => formatDate(date.GetOr(""))
  }

  /** `formatRelativeDate(date)` at clock reading `nowMillis`. */
  function FormatRelativeDate(date: Option<string>, nowMillis: int, parse: string -> Option<int>,
                              formatDate: string -> string): (r: string)
    ensures !Truthy(date) ==> r == ""
    ensures Truthy(date) && parse(date.value).None? ==> r == formatDate(date.value)
    ensures Truthy(date) && parse(date.value).Some? ==>
      var e := nowMillis - parse(date.value).value;
      var d := ElapsedDays(nowMillis, parse(date.value).value);
      && (0 <= e < MillisPerDay ==> r == "Aujourd'hui")
      && (MillisPerDay <= e < 2 * MillisPerDay ==> r == "Hier")
      && (2 * MillisPerDay <= e < 7 * MillisPerDay ==> 2 <= d <= 6 && r == "Il y a " + [DigitChar(d)] + " jours")
      && (7 * MillisPerDay <= e < 30 * MillisPerDay ==> 1 <= d / 7 <= 4 && r == "Il y a " + [DigitChar(d / 7)] + " semaines")
      && (30 * MillisPerDay <= e ==> r == formatDate(date.value))
      && (e < 0 ==> d < 0 && r == "Il y a " + IntToDecimal(d) + " jours")
  {
    var r := Wording(Classify(date, nowMillis, parse), date, formatDate);
    if Truthy(date) && parse(date.value).Some? then
      CountedWordings(date.value, nowMillis, parse, formatDate);
      r
    else
      r
  }

  /** The wordings that show a number: days from 2 to 6, whole weeks from 1 to 4, and the
      negative day count of a future date. */
  lemma CountedWordings(date: string, nowMillis: int, parse: string -> Option<int>, formatDate: string -> string)
    requires date != "" && parse(date).Some?
    ensures var e := nowMillis - parse(date).value;
      var d := ElapsedDays(nowMillis, parse(date).value);
      var r := Wording(Classify(Some(date), nowMillis, parse), Some(date), formatDate);
      && (2 * MillisPerDay <= e < 7 * MillisPerDay ==> 2 <= d <= 6 && r == "Il y a " + [DigitChar(d)] + " jours")
      && (7 * MillisPerDay <= e < 30 * MillisPerDay ==> 1 <= d / 7 <= 4 && r == "Il y a " + [DigitChar(d / 7)] + " semaines")
      && (e < 0 ==> d < 0 && r == "Il y a " + IntToDecimal(d) + " jours")
  {
    ClassifyCounts(Some(date), nowMillis, parse);
  }

  /** The numbers in the day and week buckets are the elapsed day count and its
      whole weeks. */
  lemma ClassifyCounts(date: Option<string>, nowMillis: int, parse: string -> Option<int>)
    ensures var b := Classify(date, nowMillis, parse);
      && (b.DaysAgo? ==> b.days == ElapsedDays(nowMillis, parse(date.value).value) && (b.days < 0 || 2 <= b.days <= 6))
      && (b.WeeksAgo? ==> b.weeks == ElapsedDays(nowMillis, parse(date.value).value) / 7)
  {
  }

  /** A date three days in the future reads "Il y a -3 jours": the day count is negative
      and nothing guards against it. */
  lemma FutureDateReadsAsNegativeDays(date: string, nowMillis: int, parse: string -> Option<int>,
                                      formatDate: string -> string)
    requires date != "" && parse(date) == Some(nowMillis + 3 * MillisPerDay)
    ensures FormatRelativeDate(Some(date), nowMillis, parse, formatDate) == "Il y a -3 jours"
  {
    assert ElapsedDays(nowMillis, nowMillis + 3 * MillisPerDay) == -3;
    assert IntToDecimal(-3) == "-" + NatToDecimal(3);
  }

  /** Two to six days ago reads "Il y a N jours" with N from 2 to 6, and the number can
      be read back from the text. */
  lemma DaysAgoWording(date: string, nowMillis: int, parse: string -> Option<int>, formatDate: string -> string)
    requires date != "" && parse(date).Some?
    requires 2 * MillisPerDay <= nowMillis - parse(date).value < 7 * MillisPerDay
    ensures var r := FormatRelativeDate(Some(date), nowMillis, parse, formatDate);
      var n := ElapsedDays(nowMillis, parse(date).value);
      2 <= n <= 6 && r == "Il y a " + [DigitChar(n)] + " jours"
  {
    var n := ElapsedDays(nowMillis, parse(date).value);
    assert 2 <= n <= 6;
  }
}
