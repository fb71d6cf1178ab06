/** The balance-history chart: which points it plots for the selected period,
    the caption naming the period, and how the date axis is laid out. */
module BalanceHistoryChart {
  import opened Wrappers
  import opened JsSemantics

  datatype BalancePoint = BalancePoint(date: string, balance: int)

  /** How the X axis is drawn: tick angle in degrees, text anchor, and the
      minimum gap between ticks. */
  datatype XAxisLayout = XAxisLayout(angle: int, textAnchor: string, minTickGap: nat)

  const DefaultAccountName := "Selected Account"
  const DefaultPeriod := "1y"

  const MockFullYear: seq<BalancePoint> := [
    BalancePoint("Jan '23", 5000), BalancePoint("Feb '23", 5200), BalancePoint("Mar '23", 4800),
    BalancePoint("Apr '23", 5500), BalancePoint("May '23", 5300), BalancePoint("Jun '23", 5700),
    BalancePoint("Jul '23", 6000), BalancePoint("Aug '23", 5800), BalancePoint("Sep '23", 6200),
    BalancePoint("Oct '23", 6500), BalancePoint("Nov '23", 6300), BalancePoint("Dec '23", 6700)
  ]

  const Mock90Days: seq<BalancePoint> := [
    BalancePoint("Day 1", 6250), BalancePoint("Day 5", 6200), BalancePoint("Day 10", 6300),
    BalancePoint("Day 15", 6150), BalancePoint("Day 20", 6400), BalancePoint("Day 25", 6350),
    BalancePoint("Day 30", 6500), BalancePoint("Day 35", 6450), BalancePoint("Day 40", 6600),
    BalancePoint("Day 45", 6550), BalancePoint("Day 50", 6700), BalancePoint("Day 55", 6650),
    BalancePoint("Day 60", 6800), BalancePoint("Day 65", 6750), BalancePoint("Day 70", 6900),
    BalancePoint("Day 75", 6850), BalancePoint("Day 80", 7000), BalancePoint("Day 85", 6950),
    BalancePoint("Day 90", 7100)
  ]

  const Mock30Days: seq<BalancePoint> := [
    BalancePoint("W1 Mon", 6650), BalancePoint("W1 Wed", 6680), BalancePoint("W1 Fri", 6700),
    BalancePoint("W2 Mon", 6720), BalancePoint("W2 Wed", 6750), BalancePoint("W2 Fri", 6730),
    BalancePoint("W3 Mon", 6780), BalancePoint("W3 Wed", 6800), BalancePoint("W3 Fri", 6820),
    BalancePoint("W4 Mon", 6850), BalancePoint("W4 Wed", 6830), BalancePoint("W4 Fri", 6870)
  ]

  /** The period the chart starts with: the one passed in, or "1y" when none is. */
  function InitialPeriod(defaultPeriod: Option<string>): (p: string)
    ensures defaultPeriod.None? ==> p == "1y"
    ensures defaultPeriod.Some? ==> p == defaultPeriod.value
  {
    defaultPeriod.GetOr(DefaultPeriod)
  }

  /** The chart's title names the account passed in, or "Selected Account". */
  function AccountNameOrDefault(accountName: Option<string>): (n: string)
    ensures accountName.None? ==> n == "Selected Account"
    ensures accountName.Some? ==> n == accountName.value
  {
    accountName.GetOr(DefaultAccountName)
  }

  /** The points plotted. Supplied data, even an empty list, is used as is:
      its last 30 or 90 points for "30d" or "90d", all of it otherwise.
      Without data, the mock table of the period is plotted. */
  function ChartData(period: string, initialData: Option<seq<BalancePoint>>): (r: seq<BalancePoint>)
    ensures initialData.Some? ==> |r| <= |initialData.value| && r == initialData.value[|initialData.value| - |r|..]
    ensures initialData.Some? && period == "30d" ==> |r| == Min(30, |initialData.value|)
    ensures initialData.Some? && period == "90d" ==> |r| == Min(90, |initialData.value|)
    ensures initialData.Some? && period != "30d" && period != "90d" ==> r == initialData.value
    ensures initialData.None? && period == "30d" ==> r == Mock30Days && |r| == 12
    ensures initialData.None? && period == "90d" ==> r == Mock90Days && |r| == 19
    ensures initialData.None? && period != "30d" && period != "90d" ==> r == MockFullYear && |r| == 12
  {
    match initialData
    case Some(data) =>
      if period == "30d" then Slice(data, -30, None)
      else if period == "90d" then Slice(data, -90, None)
      else data
    case None =>
      if period == "30d" then Mock30Days
      else if period == "90d" then Mock90Days
      else MockFullYear
  }

  /** Supplied data is never replaced by mock data: an empty list plots nothing. */
  lemma EmptyDataPlotsNothing(period: string)
    ensures ChartData(period, Some([])) == []
  {
  }

  /** The plotted points for a period are the last points of the plotted
      points for a longer one: narrowing the period only drops older points. */
  lemma NarrowerPeriodIsSuffix(data: seq<BalancePoint>)
    ensures var year := ChartData("1y", Some(data));
            var quarter := ChartData("90d", Some(data));
            var month := ChartData("30d", Some(data));
            && quarter == year[|year| - |quarter|..]
            && month == quarter[|quarter| - |month|..]
  {
  }

  /** The caption's words for a period. */
  function PeriodLabel(period: string): (caption: string)
    ensures period == "30d" ==> caption == "last 30 days"
    ensures period == "90d" ==> caption == "last 90 days"
    ensures period != "30d" && period != "90d" ==> caption == "last year"
  {
    if period == "30d" then "last 30 days"
    else if period == "90d" then "last 90 days"
    else "last year"
  }

  /** A tick shows at most the first six characters of a date. */
  function XTickLabel(date: string): (tick: string)
    ensures tick == date[..Min(6, |date|)]
    ensures |date| <= 6 ==> tick == date
  {
    Slice(date, 0, Some(6))
  }

  /** Ticks are angled and anchored at their end exactly when more than ten
      points are plotted, and spaced apart when more than fifteen are. */
  function XAxisFor(points: nat): (a: XAxisLayout)
    ensures a.angle != 0 <==> points > 10
    ensures a.angle == -30 || a.angle == 0
    ensures a.textAnchor == (if points > 10 then "end" else "middle")
    ensures a.minTickGap == (if points > 15 then 15 else 0)
  {
    XAxisLayout(
      if points > 10 then -30 else 0,
      if points > 10 then "end" else "middle",
      if points > 15 then 15 else 0)
  }

  /** Every mock table has more than ten points, so its ticks are angled;
      only the 90-day table is long enough for spaced ticks. */
  lemma MockTableLayouts(period: string)
    ensures XAxisFor(|ChartData(period, None)|).angle == -30
    ensures XAxisFor(|ChartData(period, None)|).minTickGap > 0 <==> period == "90d"
  {
  }
}
