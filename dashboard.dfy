/**
  * The dashboard's chart series (`DashboardDataProvider`): the liquidity and
  * net-worth trends, replayed backwards day by day from today's value over the
  * completed transactions of the window, and the monthly savings series.
  */
module Dashboard {
  import opened Wrappers
  import opened Text
  import opened Dates
  import opened Tables
  import opened Models
  import opened Store

  /** One point of a trend chart; the `"day"` display label is left out. */
  datatype Point = Point(date: string, value: int)

  function PointDate(p: Point): string { p.date }

  /** One entry of the savings series; the month number stands for its `"%b"` label. */
  datatype MonthPoint = MonthPoint(month: int, value: int)

  datatype YearMonth = YearMonth(year: int, month: int)

  // ----- The window of a trend -----

  /** `today - timedelta(days=i)`, for a day of a window that reaches `days` days back. */
  function DayBack(today: Date, i: nat, days: nat): (d: Date)
    requires i <= days && IsDate(DaysBefore(today, days))
    ensures d == DaysBefore(today, i)
  {
    DaysBeforeInRange(today, i, days);
    DaysBefore(today, i)
  }

  /** The further back the day, the smaller its ISO text. */
  lemma {:induction false} DayBackOrder(today: Date, i: nat, j: nat, days: nat)
    requires i < j <= days && IsDate(DaysBefore(today, days))
    ensures StrLt(IsoFormat(DayBack(today, j, days)), IsoFormat(DayBack(today, i, days)))
  {
    DaysBeforeMonotone(today, i, j);
    IsoOrder(DayBack(today, j, days), DayBack(today, i, days));
  }

  /** `get_all_transactions(status="completed", start_date=today - timedelta(days=days), end_date=today)`. */
  function TrendQuery(today: Date, days: nat): TransactionQuery
    requires IsDate(DaysBefore(today, days))
  {
    TransactionQuery(Some(Completed), None, None, Some(IsoFormat(DayBack(today, days, days))), Some(IsoFormat(today)))
  }

  /** The transactions a trend replays. */
  ghost function Window(transactions: map<string, TransactionRow>, today: Date, days: nat): map<string, TransactionRow>
    requires IsDate(DaysBefore(today, days))
  {
    Where(transactions, TransactionFilter(TrendQuery(today, days)))
  }

  /** A stored transaction is in the window exactly when it is completed and dated from `today - days` to `today`, both included. */
  lemma {:induction false} WindowIsTheDays(transactions: map<string, TransactionRow>, today: Date, days: nat, k: string)
    requires IsDate(DaysBefore(today, days)) && k in transactions && CanonicalTransaction(transactions[k])
    ensures k in Window(transactions, today, days) <==>
      && transactions[k].status == Completed
      && OnOrBefore(DaysBefore(today, days), DateOf(transactions[k]))
      && OnOrBefore(DateOf(transactions[k]), today)
  {
    DateFilterIsChronological(transactions[k], DayBack(today, days, days), today);
  }

  // ----- Replaying the window backwards -----

  /** What a transaction dated `day` adds to that day: its `Impact`, income raising the value and spending lowering it. */
  function ImpactOn(day: string): TransactionRow -> int
  {
    (r: TransactionRow) => if r.date == day then Impact(r) else 0
  }

  /** The net impact of the transactions of `window` dated `day`. */
  ghost function DayImpact(window: map<string, TransactionRow>, day: string): int
  {
    SumMap(window, ImpactOn(day))
  }

  /** A read of a `defaultdict(float)`: a day without an entry holds 0. */
  function BucketValue(buckets: map<string, int>, day: string): int
  {
    if day in buckets then buckets[day] else 0
  }

  /** The ISO texts of the days `0` to `n - 1` before today: the `past_date_str` of each step. */
  function DayLabels(today: Date, days: nat, n: nat): (labels: seq<string>)
    requires n <= days + 1 && IsDate(DaysBefore(today, days))
    ensures |labels| == n
    decreases n
  {
    if n == 0 then [] else DayLabels(today, days, n - 1) + [IsoFormat(DayBack(today, n - 1, days))]
  }

  lemma {:induction false} DayLabelsAt(today: Date, days: nat, n: nat, k: nat)
    requires k < n <= days + 1 && IsDate(DaysBefore(today, days))
    ensures DayLabels(today, days, n)[k] == IsoFormat(DayBack(today, k, days))
    decreases n
  {
    if k < n - 1 {
      DayLabelsAt(today, days, n - 1, k);
    }
  }

  /** Each label is smaller, as text, than every label before it. */
  predicate Descending(labels: seq<string>)
  {
    forall i, j | 0 <= i < j < |labels| :: StrLt(labels[j], labels[i])
  }

  /** The further back the day, the smaller its ISO text. */
  lemma {:induction false} DayLabelsDescending(today: Date, days: nat, n: nat)
    requires n <= days + 1 && IsDate(DaysBefore(today, days))
    ensures Descending(DayLabels(today, days, n))
  {
    forall i, j | 0 <= i < j < n
      ensures StrLt(DayLabels(today, days, n)[j], DayLabels(today, days, n)[i])
    {
      DayLabelsAt(today, days, n, i);
      DayLabelsAt(today, days, n, j);
      DayBackOrder(today, i, j, days);
    }
  }

  /** The running value once the days `labels[1]` to `labels[i]` have been undone. */
  ghost function Replayed(window: map<string, TransactionRow>, labels: seq<string>, current: int, i: nat): int
    requires i < |labels|
    decreases i
  {
    if i == 0 then current
    else Replayed(window, labels, current, i - 1) - DayImpact(window, labels[i])
  }

  /** The day `d` is among those undone by the first `i` steps. */
  predicate Undone(labels: seq<string>, i: nat, d: string)
    requires i < |labels|
  {
    exists j | 1 <= j <= i :: labels[j] == d
  }

  /** The shifted pattern `(i % 5 - 2) * 10` added to each liquidity point. */
  function Variation(i: nat): int
  {
    (i % 5 - 2) * 10
  }

  /** Python's `max(a, b)`. */
  function MaxOf(a: int, b: int): int
  {
    if b > a then b else a
  }

  /** The liquidity point `i` days back. */
  ghost function LiquidityPoint(window: map<string, TransactionRow>, labels: seq<string>, current: int, i: nat): Point
    requires i < |labels|
  {
    Point(labels[i], if i == 0 then current else MaxOf(0, Replayed(window, labels, current, i) + Variation(i)))
  }

  /** The net-worth point `i` days back: the replayed value for the last three days, 0 before them. */
  ghost function NetWorthPoint(window: map<string, TransactionRow>, labels: seq<string>, current: int, i: nat): Point
    requires i < |labels|
  {
    Point(labels[i], if i <= 3 then Replayed(window, labels, current, i) else 0)
  }

  /** The liquidity points of the days `0` to `n - 1` back, newest first. */
  ghost function LiquidityDays(window: map<string, TransactionRow>, labels: seq<string>, current: int, n: nat): (ps: seq<Point>)
    requires n <= |labels|
    ensures |ps| == n
    decreases n
  {
    if n == 0 then []
    else LiquidityDays(window, labels, current, n - 1) + [LiquidityPoint(window, labels, current, n - 1)]
  }

  /** The net-worth points of the days `0` to `n - 1` back, newest first. */
  ghost function NetWorthDays(window: map<string, TransactionRow>, labels: seq<string>, current: int, n: nat): (ps: seq<Point>)
    requires n <= |labels|
    ensures |ps| == n
    decreases n
  {
    if n == 0 then []
    else NetWorthDays(window, labels, current, n - 1) + [NetWorthPoint(window, labels, current, n - 1)]
  }

  /** With fewer than five transactions: today's value and a 0 on the oldest day, as the stable sort orders them. */
  function FallbackTrend(labels: seq<string>, current: int): seq<Point>
    requires 1 <= |labels|
  {
    var now := Point(labels[0], current);
    var start := Point(labels[|labels| - 1], 0);
    if |labels| == 1 then [now, start] else [start, now]
  }

  /** A trend over the window `window` and the days `labels`, from today's value `current`. */
  ghost function LiquiditySeries(window: map<string, TransactionRow>, labels: seq<string>, current: int): seq<Point>
    requires 1 <= |labels|
  {
    if |window| < 5 then FallbackTrend(labels, current)
    else Reverse(LiquidityDays(window, labels, current, |labels|))
  }

  ghost function NetWorthSeries(window: map<string, TransactionRow>, labels: seq<string>, current: int): seq<Point>
    requires 1 <= |labels|
  {
    if |window| < 5 then FallbackTrend(labels, current)
    else Reverse(NetWorthDays(window, labels, current, |labels|))
  }

  /** What `get_liquidity_trend(days)` returns: the fallback, or one point a day, oldest first. */
  ghost function LiquidityTrend(accounts: map<string, AccountRow>, transactions: map<string, TransactionRow>,
                                today: Date, days: nat): seq<Point>
    requires 1 <= days && IsDate(DaysBefore(today, days))
  {
    LiquiditySeries(Window(transactions, today, days), DayLabels(today, days, days), Liquidity(accounts))
  }

  /** What `get_net_worth_trend(days)` returns when no debt has a payment history. */
  ghost function NetWorthTrend(accounts: map<string, AccountRow>, transactions: map<string, TransactionRow>,
                               debts: map<string, DebtRow>, subscriptions: map<string, SubscriptionRow>,
                               today: Date, days: nat): seq<Point>
    requires 1 <= days && IsDate(DaysBefore(today, days)) && IsDate(AddDays(today, 30))
  {
    NetWorthSeries(Window(transactions, today, days), DayLabels(today, days, days),
                   NetWorthOf(accounts, debts, subscriptions, IsoFormat(AddDays(today, 30))))
  }

  // ----- What the trends promise -----

  lemma {:induction false} LiquidityDaysAt(window: map<string, TransactionRow>, labels: seq<string>, current: int, n: nat, k: nat)
    requires k < n <= |labels|
    ensures LiquidityDays(window, labels, current, n)[k] == LiquidityPoint(window, labels, current, k)
    decreases n
  {
    if k < n - 1 {
      LiquidityDaysAt(window, labels, current, n - 1, k);
    }
  }

  lemma {:induction false} NetWorthDaysAt(window: map<string, TransactionRow>, labels: seq<string>, current: int, n: nat, k: nat)
    requires k < n <= |labels|
    ensures NetWorthDays(window, labels, current, n)[k] == NetWorthPoint(window, labels, current, k)
    decreases n
  {
    if k < n - 1 {
      NetWorthDaysAt(window, labels, current, n - 1, k);
    }
  }

  /** `ps[k]` is dated with the `k`-th label. */
  predicate DatedBack(ps: seq<Point>, labels: seq<string>)
  {
    |ps| <= |labels| && forall k | 0 <= k < |ps| :: ps[k].date == labels[k]
  }

  lemma {:induction false} LiquidityDaysDated(window: map<string, TransactionRow>, labels: seq<string>, current: int, n: nat)
    requires n <= |labels|
    ensures DatedBack(LiquidityDays(window, labels, current, n), labels)
  {
    forall k | 0 <= k < n
      ensures LiquidityDays(window, labels, current, n)[k].date == labels[k]
    {
      LiquidityDaysAt(window, labels, current, n, k);
    }
  }

  lemma {:induction false} NetWorthDaysDated(window: map<string, TransactionRow>, labels: seq<string>, current: int, n: nat)
    requires n <= |labels|
    ensures DatedBack(NetWorthDays(window, labels, current, n), labels)
  {
    forall k | 0 <= k < n
      ensures NetWorthDays(window, labels, current, n)[k].date == labels[k]
    {
      NetWorthDaysAt(window, labels, current, n, k);
    }
  }

  /** Points dated with descending labels have strictly decreasing dates. */
  lemma {:induction false} DatedBackDecreasing(ps: seq<Point>, labels: seq<string>)
    requires Descending(labels) && DatedBack(ps, labels)
    ensures StrictlyDecreasing(ps, PointDate)
  {
    forall i, j | 0 <= i < j < |ps|
      ensures StrLt(PointDate(ps[j]), PointDate(ps[i]))
    {
      assert ps[j].date == labels[j] && ps[i].date == labels[i];
    }
  }

  /** Python's stable `sort` of points built newest first, one a day back from today, reverses them. */
  lemma {:induction false} DatedBackSorts(ps: seq<Point>, labels: seq<string>)
    requires Descending(labels) && DatedBack(ps, labels)
    ensures SortStable(ps, PointDate) == Reverse(ps)
  {
    DatedBackDecreasing(ps, labels);
    SortStableOfDecreasing(ps, PointDate);
  }

  /** Python's stable `sort` on the two fallback points gives `FallbackTrend`. */
  lemma {:induction false} FallbackSorted(labels: seq<string>, now: string, start: string, current: int)
    requires 1 <= |labels| && Descending(labels) && now == labels[0] && start == labels[|labels| - 1]
    ensures SortStable([Point(now, current), Point(start, 0)], PointDate) == FallbackTrend(labels, current)
  {
    SortStableTwo(Point(now, current), Point(start, 0), PointDate);
    if |labels| == 1 {
      StrLeReflexive(now);
    } else {
      assert StrLt(labels[|labels| - 1], labels[0]);
    }
  }

  /** Reversed, points dated with descending labels have strictly ascending dates. */
  lemma {:induction false} DatedBackReversed(ps: seq<Point>, labels: seq<string>)
    requires Descending(labels) && DatedBack(ps, labels)
    ensures StrictlyIncreasing(Reverse(ps), PointDate)
  {
    DatedBackDecreasing(ps, labels);
    ReverseOfDecreasing(ps, PointDate);
  }

  /** The `k`-th point of the reversed liquidity series is the one `|labels| - 1 - k` days back. */
  lemma {:induction false} LiquidityReversedAt(window: map<string, TransactionRow>, labels: seq<string>, current: int, k: nat)
    requires k < |labels|
    ensures Reverse(LiquidityDays(window, labels, current, |labels|))[k]
         == LiquidityPoint(window, labels, current, |labels| - 1 - k)
  {
    ReverseAt(LiquidityDays(window, labels, current, |labels|), k);
    LiquidityDaysAt(window, labels, current, |labels|, |labels| - 1 - k);
  }

  /** The `k`-th point of the reversed net-worth series is the one `|labels| - 1 - k` days back. */
  lemma {:induction false} NetWorthReversedAt(window: map<string, TransactionRow>, labels: seq<string>, current: int, k: nat)
    requires k < |labels|
    ensures Reverse(NetWorthDays(window, labels, current, |labels|))[k]
         == NetWorthPoint(window, labels, current, |labels| - 1 - k)
  {
    ReverseAt(NetWorthDays(window, labels, current, |labels|), k);
    NetWorthDaysAt(window, labels, current, |labels|, |labels| - 1 - k);
  }

  /**
    * Fewer than five transactions give the two fallback points. Otherwise
    * there is one point per label, oldest first with strictly ascending dates,
    * ending with today's value; the point `i` days back is
    * `max(0, replayed + (i % 5 - 2) * 10)`, never negative.
    */
  lemma {:induction false} LiquiditySeriesShape(window: map<string, TransactionRow>, labels: seq<string>, current: int)
    requires 1 <= |labels| && Descending(labels)
    ensures var n := |labels|;
      var points := LiquiditySeries(window, labels, current);
      && (|window| < 5 ==> points == FallbackTrend(labels, current))
      && (|window| >= 5 ==>
            && |points| == n
            && StrictlyIncreasing(points, PointDate)
            && points[n - 1] == Point(labels[0], current)
            && (forall k | 0 <= k < n :: points[k].date == labels[n - 1 - k])
            && (forall k | 0 <= k < n - 1 ::
                  points[k].value == MaxOf(0, Replayed(window, labels, current, n - 1 - k) + Variation(n - 1 - k))
                  && points[k].value >= 0))
  {
    if |window| >= 5 {
      LiquidityDaysOrder(window, labels, current);
      LiquidityDaysDates(window, labels, current);
      LiquidityDaysValues(window, labels, current);
    }
  }

  lemma {:induction false} LiquidityDaysOrder(window: map<string, TransactionRow>, labels: seq<string>, current: int)
    requires 1 <= |labels| && Descending(labels)
    ensures var n := |labels|;
      var points := Reverse(LiquidityDays(window, labels, current, n));
      && StrictlyIncreasing(points, PointDate)
      && points[0].date == labels[n - 1]
      && points[n - 1] == Point(labels[0], current)
  {
    var n := |labels|;
    LiquidityDaysDated(window, labels, current, n);
    DatedBackReversed(LiquidityDays(window, labels, current, n), labels);
    LiquidityReversedAt(window, labels, current, 0);
    LiquidityReversedAt(window, labels, current, n - 1);
  }

  lemma {:induction false} LiquidityDaysDates(window: map<string, TransactionRow>, labels: seq<string>, current: int)
    requires 1 <= |labels|
    ensures var n := |labels|;
      var points := Reverse(LiquidityDays(window, labels, current, n));
      forall k | 0 <= k < n :: points[k].date == labels[n - 1 - k]
  {
    var n := |labels|;
    forall k | 0 <= k < n
      ensures Reverse(LiquidityDays(window, labels, current, n))[k] == LiquidityPoint(window, labels, current, n - 1 - k)
    {
      LiquidityReversedAt(window, labels, current, k);
    }
  }

  lemma {:induction false} LiquidityDaysValues(window: map<string, TransactionRow>, labels: seq<string>, current: int)
    requires 1 <= |labels|
    ensures var n := |labels|;
      var points := Reverse(LiquidityDays(window, labels, current, n));
      forall k | 0 <= k < n - 1 ::
        points[k].value == MaxOf(0, Replayed(window, labels, current, n - 1 - k) + Variation(n - 1 - k))
        && points[k].value >= 0
  {
    var n := |labels|;
    forall k | 0 <= k < n - 1
      ensures Reverse(LiquidityDays(window, labels, current, n))[k] == LiquidityPoint(window, labels, current, n - 1 - k)
    {
      LiquidityReversedAt(window, labels, current, k);
    }
  }

  /**
    * The same shape for net worth, whose points keep the replayed value for
    * the last three days only: every point older than that is 0.
    */
  lemma {:induction false} NetWorthSeriesShape(window: map<string, TransactionRow>, labels: seq<string>, current: int)
    requires 1 <= |labels| && Descending(labels)
    ensures var n := |labels|;
      var points := NetWorthSeries(window, labels, current);
      && (|window| < 5 ==> points == FallbackTrend(labels, current))
      && (|window| >= 5 ==>
            && |points| == n
            && StrictlyIncreasing(points, PointDate)
            && points[n - 1] == Point(labels[0], current)
            && (forall k | 0 <= k < n ::
                  points[k].date == labels[n - 1 - k]
                  && points[k].value == if n - 1 - k <= 3 then Replayed(window, labels, current, n - 1 - k) else 0))
  {
    if |window| >= 5 {
      var n := |labels|;
      var ds := NetWorthDays(window, labels, current, n);
      NetWorthDaysDated(window, labels, current, n);
      DatedBackReversed(ds, labels);
      forall k | 0 <= k < n
        ensures Reverse(ds)[k] == NetWorthPoint(window, labels, current, n - 1 - k)
      {
        NetWorthReversedAt(window, labels, current, k);
      }
    }
  }

  /** The first and the last label of a trend: the oldest day of the chart and today. */
  lemma {:induction false} TrendEnds(today: Date, days: nat)
    requires 1 <= days && IsDate(DaysBefore(today, days))
    ensures var labels := DayLabels(today, days, days);
      && Descending(labels)
      && labels[0] == IsoFormat(today)
      && labels[days - 1] == IsoFormat(DaysBefore(today, days - 1))
  {
    DayLabelsDescending(today, days, days);
    DayLabelsAt(today, days, days, 0);
    DayLabelsAt(today, days, days, days - 1);
  }

  /** Points dated by the labels in reverse are dated one per day, from `days - 1` days back to today. */
  lemma {:induction false} OneDayEach(points: seq<Point>, today: Date, days: nat)
    requires 1 <= days && IsDate(DaysBefore(today, days)) && |points| == days
    requires forall k | 0 <= k < days :: points[k].date == DayLabels(today, days, days)[days - 1 - k]
    ensures forall k | 0 <= k < days :: points[k].date == IsoFormat(DayBack(today, days - 1 - k, days))
  {
    forall k | 0 <= k < days
      ensures points[k].date == IsoFormat(DayBack(today, days - 1 - k, days))
    {
      DayLabelsAt(today, days, days, days - 1 - k);
    }
  }

  /**
    * In calendar terms: with fewer than five transactions in the window, the
    * trend is today's point and a 0 on the day `days - 1` back, in date order;
    * otherwise it has `days` points, one per day from that day to today, ending with today's value.
    */
  lemma {:induction false} LiquidityTrendShape(accounts: map<string, AccountRow>, transactions: map<string, TransactionRow>,
                                               today: Date, days: nat)
    requires 1 <= days && IsDate(DaysBefore(today, days))
    ensures var now := Point(IsoFormat(today), Liquidity(accounts));
      var first := IsoFormat(DaysBefore(today, days - 1));
      var points := LiquidityTrend(accounts, transactions, today, days);
      && (|Window(transactions, today, days)| < 5 ==>
            points == if days == 1 then [now, Point(first, 0)] else [Point(first, 0), now])
      && (|Window(transactions, today, days)| >= 5 ==>
            && |points| == days && points[days - 1] == now
            && forall k | 0 <= k < days :: points[k].date == IsoFormat(DayBack(today, days - 1 - k, days)))
  {
    TrendEnds(today, days);
    var points := LiquidityTrend(accounts, transactions, today, days);
    LiquiditySeriesShape(Window(transactions, today, days), DayLabels(today, days, days), Liquidity(accounts));
    if |Window(transactions, today, days)| >= 5 {
      OneDayEach(points, today, days);
    }
  }

  lemma {:induction false} NetWorthTrendShape(accounts: map<string, AccountRow>, transactions: map<string, TransactionRow>,
                                              debts: map<string, DebtRow>, subscriptions: map<string, SubscriptionRow>,
                                              today: Date, days: nat)
    requires 1 <= days && IsDate(DaysBefore(today, days)) && IsDate(AddDays(today, 30))
    ensures var now := Point(IsoFormat(today), NetWorthOf(accounts, debts, subscriptions, IsoFormat(AddDays(today, 30))));
      var first := IsoFormat(DaysBefore(today, days - 1));
      var points := NetWorthTrend(accounts, transactions, debts, subscriptions, today, days);
      && (|Window(transactions, today, days)| < 5 ==>
            points == if days == 1 then [now, Point(first, 0)] else [Point(first, 0), now])
      && (|Window(transactions, today, days)| >= 5 ==>
            && |points| == days && points[days - 1] == now
            && forall k | 0 <= k < days :: points[k].date == IsoFormat(DayBack(today, days - 1 - k, days)))
  {
    TrendEnds(today, days);
    var points := NetWorthTrend(accounts, transactions, debts, subscriptions, today, days);
    NetWorthSeriesShape(Window(transactions, today, days), DayLabels(today, days, days),
                        NetWorthOf(accounts, debts, subscriptions, IsoFormat(AddDays(today, 30))));
    if |Window(transactions, today, days)| >= 5 {
      OneDayEach(points, today, days);
    }
  }

  /** Undoing one more day: the loop subtracts that day's bucket, which holds the day's impact. */
  lemma {:induction false} ReplayStep(window: map<string, TransactionRow>, labels: seq<string>, current: int,
                                      buckets: map<string, int>, i: nat, h: int)
    requires 1 <= i < |labels|
    requires forall day :: BucketValue(buckets, day) == DayImpact(window, day)
    requires h == Replayed(window, labels, current, i - 1)
    ensures (if labels[i] in buckets then h - buckets[labels[i]] else h) == Replayed(window, labels, current, i)
  {
    assert BucketValue(buckets, labels[i]) == DayImpact(window, labels[i]);
  }

  /**
    * The replayed value `i` days back is today's value less the impact of
    * exactly the transactions dated on the days undone so far: any other
    * transaction leaves it unchanged.
    */
  lemma {:induction false} ReplayedOnlyUndoesPastDays(window: map<string, TransactionRow>, labels: seq<string>,
                                                      current: int, i: nat, k: string, r: TransactionRow)
    requires i < |labels| && k !in window && !Undone(labels, i, r.date)
    ensures Replayed(window[k := r], labels, current, i) == Replayed(window, labels, current, i)
    decreases i
  {
    if i > 0 {
      assert !Undone(labels, i - 1, r.date);
      ReplayedOnlyUndoesPastDays(window, labels, current, i - 1, k, r);
      assert r.date != labels[i];
      SumMapUpdate(window, ImpactOn(labels[i]), k, r);
    }
  }

  /** Today is never among the undone days, so today's own transactions never change a trend. */
  lemma {:induction false} TodayIsNeverUndone(today: Date, days: nat, i: nat)
    requires 1 <= days && i < days && IsDate(DaysBefore(today, days))
    ensures !Undone(DayLabels(today, days, days), i, IsoFormat(today))
  {
    TrendEnds(today, days);
  }

  // ----- The monthly savings series -----

  /** The month `i` months before today's, as `get_monthly_savings` computes it. */
  function MonthsBack(today: Date, i: int): YearMonth
  {
    if today.month - i > 0 then YearMonth(today.year, today.month - i)
    else YearMonth(today.year - 1, today.month - i + 12)
  }

  /** A month `date(year, month, 1)` accepts; outside it Python raises `ValueError`. */
  predicate IsMonth(ym: YearMonth)
  {
    1 <= ym.year <= 9999 && 1 <= ym.month <= 12
  }

  /** The first day of the month `ym`. */
  function FirstOf(ym: YearMonth): Ymd
  {
    Ymd(ym.year, ym.month, 1)
  }

  /** The entry of the series for one month: `get_savings_stats(month, year)["month_contribution"]`. */
  ghost function SavingsPoint(accounts: map<string, AccountRow>, transactions: map<string, TransactionRow>,
                              ym: YearMonth): MonthPoint
  {
    MonthPoint(ym.month, MonthContribution(accounts, transactions, MonthStart(ym.year, ym.month), MonthEnd(ym.year, ym.month)))
  }

  /** What `get_monthly_savings(months)` returns, oldest month first; `None` where it raises. */
  ghost function MonthlySavings(accounts: map<string, AccountRow>, transactions: map<string, TransactionRow>,
                                today: Date, months: int): Option<seq<MonthPoint>>
  {
    if exists i | 0 <= i < months :: !IsMonth(MonthsBack(today, i)) then None
    else Some(seq(if months > 0 then months else 0,
                  k requires 0 <= k < months => SavingsPoint(accounts, transactions, MonthsBack(today, months - 1 - k))))
  }

  /** The entries the loop of `get_monthly_savings` collects, once every month is valid, are its result. */
  lemma MonthlySavingsOfEntries(accounts: map<string, AccountRow>, transactions: map<string, TransactionRow>,
                                today: Date, months: int, entries: seq<MonthPoint>)
    requires |entries| == if months > 0 then months else 0
    requires forall j | 0 <= j < months :: IsMonth(MonthsBack(today, j))
    requires forall k | 0 <= k < |entries| :: entries[k] == SavingsPoint(accounts, transactions, MonthsBack(today, months - 1 - k))
    ensures MonthlySavings(accounts, transactions, today, months) == Some(entries)
  {
    var expected := MonthlySavings(accounts, transactions, today, months).value;
    assert |entries| == |expected|;
    assert forall k | 0 <= k < |entries| :: entries[k] == expected[k];
    assert entries == expected;
  }

  /** Up to a year and eleven months back, the wrap lands on a month of the calendar. */
  lemma {:induction false} MonthsBackInRange(today: Date, i: int)
    requires 0 <= i < today.month + 12
    ensures 1 <= MonthsBack(today, i).month <= 12
  {
  }

  /** Whenever the wrap gives a valid month, it is exactly `i` calendar months before today's. */
  lemma {:induction false} MonthsBackIsMonthsAgo(today: Date, i: int)
    requires 0 <= i && IsMonth(MonthsBack(today, i))
    ensures MonthIndex(FirstOf(MonthsBack(today, i))) == MonthIndex(today) - i
  {
  }

  /** From year 2 on, a series of at most twelve months never raises. */
  lemma {:induction false} MonthlySavingsDefined(accounts: map<string, AccountRow>, transactions: map<string, TransactionRow>,
                                                 today: Date, months: int)
    requires months <= 12 && today.year >= 2
    ensures MonthlySavings(accounts, transactions, today, months).Some?
  {
    forall i | 0 <= i < months
      ensures IsMonth(MonthsBack(today, i))
    {
      MonthsBackInRange(today, i);
    }
  }

  /** A series that does not raise has one entry per month, consecutive calendar months ending with today's. */
  lemma {:induction false} MonthlySavingsShape(accounts: map<string, AccountRow>, transactions: map<string, TransactionRow>,
                                               today: Date, months: int)
    requires MonthlySavings(accounts, transactions, today, months).Some?
    ensures var r := MonthlySavings(accounts, transactions, today, months).value;
      && |r| == (if months > 0 then months else 0)
      && (forall k | 0 <= k < |r| ::
            && r[k] == SavingsPoint(accounts, transactions, MonthsBack(today, months - 1 - k))
            && MonthIndex(FirstOf(MonthsBack(today, months - 1 - k))) == MonthIndex(today) - (months - 1 - k))
  {
    forall i | 0 <= i < months
      ensures MonthIndex(FirstOf(MonthsBack(today, i))) == MonthIndex(today) - i
    {
      MonthsBackIsMonthsAgo(today, i);
    }
  }

  // ----- The loops -----

  /** One pass of the first loop: income adds to its day, spending subtracts, anything else leaves the buckets. */
  function AddToBucket(buckets: map<string, int>, r: TransactionRow): map<string, int>
  {
    if r.transactionType == Income then buckets[r.date := BucketValue(buckets, r.date) + r.amount]
    else if r.transactionType == Spending then buckets[r.date := BucketValue(buckets, r.date) - r.amount]
    else buckets
  }

  /** The buckets after the first loop has seen `rows`. */
  function Buckets(rows: seq<TransactionRow>): map<string, int>
    decreases |rows|
  {
    if |rows| == 0 then map[] else AddToBucket(Buckets(rows[..|rows| - 1]), rows[|rows| - 1])
  }

  /** Each day's bucket holds the net impact of that day's rows. */
  lemma {:induction false} BucketsHoldImpacts(rows: seq<TransactionRow>)
    ensures forall day :: BucketValue(Buckets(rows), day) == SumSeq(rows, ImpactOn(day))
    decreases |rows|
  {
    if |rows| > 0 {
      var n := |rows| - 1;
      BucketsHoldImpacts(rows[..n]);
      forall day
        ensures BucketValue(Buckets(rows), day) == SumSeq(rows, ImpactOn(day))
      {
        SumSeqPrefix(rows, n, ImpactOn(day));
        assert rows[..n + 1] == rows;
      }
    }
  }

  /** One pass of the first loop, on the transaction object itself. */
  method AddTransaction(buckets: map<string, int>, tx: Transaction) returns (next: map<string, int>)
    ensures next == AddToBucket(buckets, tx.ToDict())
  {
    var txDate := IsoFormat(tx.date);
    next := buckets;
    if tx.transactionType == Income {
      next := buckets[txDate := BucketValue(buckets, txDate) + tx.amount];
    } else if tx.transactionType == Spending {
      next := buckets[txDate := BucketValue(buckets, txDate) - tx.amount];
    }
  }

  /** The first loop of both trends: `daily_transactions`, each day's income less its spending. */
  method BucketByDay(txs: seq<Transaction>) returns (buckets: map<string, int>)
    ensures buckets == Buckets(TransactionRows(txs))
  {
    ghost var rows := TransactionRows(txs);
    buckets := map[];
    for i := 0 to |txs|
      invariant buckets == Buckets(rows[..i])
    {
      BucketsSnoc(rows, i);
      assert rows[i] == txs[i].ToDict();
      buckets := AddTransaction(buckets, txs[i]);
    }
    assert rows[..|txs|] == rows;
  }

  lemma BucketsSnoc(rows: seq<TransactionRow>, i: nat)
    requires i < |rows|
    ensures Buckets(rows[..i + 1]) == AddToBucket(Buckets(rows[..i]), rows[i])
  {
    assert rows[..i + 1][..i] == rows[..i] && rows[..i + 1][i] == rows[i];
  }

  /** The liquidity point `i` days back, given the value replayed that far. */
  lemma LiquidityDaysSnoc(window: map<string, TransactionRow>, labels: seq<string>, current: int, i: nat, h: int)
    requires 1 <= i < |labels| && h == Replayed(window, labels, current, i)
    ensures LiquidityDays(window, labels, current, i + 1)
         == LiquidityDays(window, labels, current, i) + [Point(labels[i], MaxOf(0, h + Variation(i)))]
  {
  }

  /** The net-worth point `i` days back, given the value replayed that far. */
  lemma NetWorthDaysSnoc(window: map<string, TransactionRow>, labels: seq<string>, current: int, i: nat, h: int)
    requires 1 <= i < |labels| && h == Replayed(window, labels, current, i)
    ensures NetWorthDays(window, labels, current, i + 1)
         == NetWorthDays(window, labels, current, i) + [Point(labels[i], if i <= 3 then h else 0)]
  {
  }

  /** The step both replays begin with: the day `i` back, and the running value less that day's bucket. */
  method UndoDay(today: Date, days: nat, i: nat, buckets: map<string, int>, running: int)
    returns (pastDateStr: string, undone: int)
    requires i < days && IsDate(DaysBefore(today, days))
    ensures pastDateStr == DayLabels(today, days, days)[i]
    ensures undone == if pastDateStr in buckets then running - buckets[pastDateStr] else running
  {
    var pastDate := DayBack(today, i, days);
    pastDateStr := IsoFormat(pastDate);
    DayLabelsAt(today, days, days, i);
    undone := running;
    if pastDateStr in buckets {
      undone := running - buckets[pastDateStr];
    }
  }

  /** The second loop of `get_liquidity_trend`: a point for each day from `today - 1` back to `today - (days - 1)`. */
  method ReplayLiquidity(data0: seq<Point>, today: Date, days: nat, current: int, buckets: map<string, int>,
                         ghost window: map<string, TransactionRow>)
    returns (data: seq<Point>)
    requires 1 <= days && IsDate(DaysBefore(today, days))
    requires data0 == [Point(IsoFormat(today), current)]
    requires forall day :: BucketValue(buckets, day) == DayImpact(window, day)
    ensures data == LiquidityDays(window, DayLabels(today, days, days), current, days)
  {
    ghost var labels := DayLabels(today, days, days);
    data := data0;
    var historicalLiquidity := current;
    DayLabelsAt(today, days, days, 0);
    assert data == LiquidityDays(window, labels, current, 1);
    for i := 1 to days
      invariant data == LiquidityDays(window, labels, current, i)
      invariant historicalLiquidity == Replayed(window, labels, current, i - 1)
    {
      ReplayStep(window, labels, current, buckets, i, historicalLiquidity);
      var pastDateStr;
      pastDateStr, historicalLiquidity := UndoDay(today, days, i, buckets, historicalLiquidity);
      var randomVariation := Variation(i);
      LiquidityDaysSnoc(window, labels, current, i, historicalLiquidity);
      data := data + [Point(pastDateStr, MaxOf(0, historicalLiquidity + randomVariation))];
    }
  }

  /** The second loop of `get_net_worth_trend`, with no debt changes to undo. */
  method ReplayNetWorth(data0: seq<Point>, today: Date, days: nat, current: int, buckets: map<string, int>,
                        ghost window: map<string, TransactionRow>)
    returns (data: seq<Point>)
    requires 1 <= days && IsDate(DaysBefore(today, days))
    requires data0 == [Point(IsoFormat(today), current)]
    requires forall day :: BucketValue(buckets, day) == DayImpact(window, day)
    ensures data == NetWorthDays(window, DayLabels(today, days, days), current, days)
  {
    ghost var labels := DayLabels(today, days, days);
    data := data0;
    var historicalNetWorth := current;
    DayLabelsAt(today, days, days, 0);
    assert data == NetWorthDays(window, labels, current, 1);
    for i := 1 to days
      invariant data == NetWorthDays(window, labels, current, i)
      invariant historicalNetWorth == Replayed(window, labels, current, i - 1)
    {
      ReplayStep(window, labels, current, buckets, i, historicalNetWorth);
      var pastDateStr;
      pastDateStr, historicalNetWorth := UndoDay(today, days, i, buckets, historicalNetWorth);
      NetWorthDaysSnoc(window, labels, current, i, historicalNetWorth);
      if i <= 3 {
        data := data + [Point(pastDateStr, historicalNetWorth)];
      } else {
        data := data + [Point(pastDateStr, 0)];
      }
    }
  }

  /** `get_all_debts()` with no filter lists every stored debt, so it is empty exactly when the table is. */
  lemma AllDebtsAreListed(debts: map<string, DebtRow>, rows: seq<DebtRow>)
    requires KeyedBy(debts, DebtKey) && Lists(rows, Where(debts, DebtFilter(DebtQuery(None, None))), DebtKey)
    ensures |rows| == 0 <==> debts == map[]
  {
    assert forall k | k in debts :: DebtFilter(DebtQuery(None, None))(debts[k]);
    WhereAll(debts, DebtFilter(DebtQuery(None, None)));
    ListingLength(rows, debts, DebtKey);
  }

  /** `daily_transactions` over the window's transactions `txs`: each day holds its day's impact. */
  method DailyImpacts(txs: seq<Transaction>, ghost window: map<string, TransactionRow>) returns (buckets: map<string, int>)
    requires KeyedBy(window, TransactionKey) && Lists(TransactionRows(txs), window, TransactionKey)
    ensures forall day :: BucketValue(buckets, day) == DayImpact(window, day)
  {
    buckets := BucketByDay(txs);
    BucketsHoldImpacts(TransactionRows(txs));
    forall day
      ensures SumSeq(TransactionRows(txs), ImpactOn(day)) == DayImpact(window, day)
    {
      SumOfListing(TransactionRows(txs), window, TransactionKey, ImpactOn(day));
    }
  }

  /** With fewer than five transactions: today's point and a 0 on the oldest day, sorted by date. */
  method FallbackPoints(today: Date, days: nat, current: int) returns (points: seq<Point>)
    requires 1 <= days && IsDate(DaysBefore(today, days))
    ensures points == FallbackTrend(DayLabels(today, days, days), current)
  {
    var data := [Point(IsoFormat(today), current)];
    var pastDate := DayBack(today, days - 1, days);
    data := data + [Point(IsoFormat(pastDate), 0)];
    assert data == [Point(IsoFormat(today), current), Point(IsoFormat(pastDate), 0)];
    TrendEnds(today, days);
    FallbackSorted(DayLabels(today, days, days), IsoFormat(today), IsoFormat(pastDate), current);
    points := SortStable(data, PointDate);
  }

  /** Past the fallback of `get_liquidity_trend`: bucket the window by day, replay it backwards, sort by date. */
  method LiquidityReplay(today: Date, days: nat, current: int, txs: seq<Transaction>, ghost window: map<string, TransactionRow>)
    returns (points: seq<Point>)
    requires 1 <= days && IsDate(DaysBefore(today, days))
    requires KeyedBy(window, TransactionKey) && Lists(TransactionRows(txs), window, TransactionKey)
    ensures points == Reverse(LiquidityDays(window, DayLabels(today, days, days), current, days))
  {
    var data := [Point(IsoFormat(today), current)];
    var dailyTransactions := DailyImpacts(txs, window);
    data := ReplayLiquidity(data, today, days, current, dailyTransactions, window);
    ghost var labels := DayLabels(today, days, days);
    LiquidityDaysDated(window, labels, current, days);
    TrendEnds(today, days);
    DatedBackSorts(data, labels);
    points := SortStable(data, PointDate);
  }

  /** Past the fallback of `get_net_worth_trend`, with no debt changes to undo. */
  method NetWorthReplay(today: Date, days: nat, current: int, txs: seq<Transaction>, ghost window: map<string, TransactionRow>)
    returns (points: seq<Point>)
    requires 1 <= days && IsDate(DaysBefore(today, days))
    requires KeyedBy(window, TransactionKey) && Lists(TransactionRows(txs), window, TransactionKey)
    ensures points == Reverse(NetWorthDays(window, DayLabels(today, days, days), current, days))
  {
    var data := [Point(IsoFormat(today), current)];
    var dailyTransactions := DailyImpacts(txs, window);
    data := ReplayNetWorth(data, today, days, current, dailyTransactions, window);
    ghost var labels := DayLabels(today, days, days);
    NetWorthDaysDated(window, labels, current, days);
    TrendEnds(today, days);
    DatedBackSorts(data, labels);
    points := SortStable(data, PointDate);
  }

  class DashboardDataProvider {
    const db: Database

    constructor (db: Database)
      ensures this.db == db
    {
      this.db := db;
    }

    /** The completed transactions of the window, each once; their number decides between the fallback and the replay. */
    method WindowTransactions(today: Date, days: nat) returns (txs: seq<Transaction>)
      requires db.Valid() && IsDate(DaysBefore(today, days))
      ensures Lists(TransactionRows(txs), Window(db.transactions, today, days), TransactionKey)
      ensures |txs| == |Window(db.transactions, today, days)|
    {
      var startDate := DayBack(today, days, days);
      txs := db.GetAllTransactions(TransactionQuery(Some(Completed), None, None, Some(IsoFormat(startDate)), Some(IsoFormat(today))));
      ListingLength(TransactionRows(txs), Window(db.transactions, today, days), TransactionKey);
    }

    /** `get_liquidity_trend(days)`. */
    method GetLiquidityTrend(today: Date, days: nat) returns (points: seq<Point>)
      requires db.Valid() && 1 <= days && IsDate(DaysBefore(today, days))
      ensures points == LiquidityTrend(db.accounts, db.transactions, today, days)
    {
      var currentLiquidity := db.GetLiquidity();
      var transactions := WindowTransactions(today, days);
      if |transactions| < 5 {
        points := FallbackPoints(today, days, currentLiquidity);
        return;
      }
      points := LiquidityReplay(today, days, currentLiquidity, transactions, Window(db.transactions, today, days));
    }

    /** `get_net_worth_trend(days)` with the payment histories taken as empty. */
    method GetNetWorthTrend(today: Date, days: nat) returns (points: seq<Point>)
      requires db.Valid() && 1 <= days && IsDate(DaysBefore(today, days)) && IsDate(AddDays(today, 30))
      ensures points == NetWorthTrend(db.accounts, db.transactions, db.debts, db.subscriptions, today, days)
    {
      var w := db.GetNetWorth(today);
      var currentNetWorth := w.netWorth;
      var transactions := WindowTransactions(today, days);
      if |transactions| < 5 {
        points := FallbackPoints(today, days, currentNetWorth);
        return;
      }
      points := NetWorthReplay(today, days, currentNetWorth, transactions, Window(db.transactions, today, days));
    }

    /** Reading `payment_history` from the first debt of `get_all_debts()` raises; with no debts the loop does nothing. */
    method ReadsPaymentHistory() returns (raises: bool)
      requires db.Valid()
      ensures raises <==> db.debts != map[]
    {
      var debts := db.GetAllDebts(DebtQuery(None, None));
      AllDebtsAreListed(db.debts, DebtRows(debts));
      raises := |debts| > 0;
    }

    /**
      * `get_net_worth_trend(days)` as written: past the fallback it reads
      * `debt.payment_history`, an attribute `Debt` does not have, so any
      * stored debt makes it raise `AttributeError` (`None` here).
      */
    method GetNetWorthTrendAsWritten(today: Date, days: nat) returns (r: Option<seq<Point>>)
      requires db.Valid() && 1 <= days && IsDate(DaysBefore(today, days)) && IsDate(AddDays(today, 30))
      ensures r.None? <==> |Window(db.transactions, today, days)| >= 5 && db.debts != map[]
      ensures r.Some? ==> r.value == NetWorthTrend(db.accounts, db.transactions, db.debts, db.subscriptions, today, days)
    {
      var w := db.GetNetWorth(today);
      var currentNetWorth := w.netWorth;
      var raises := ReadsPaymentHistory();
      var transactions := WindowTransactions(today, days);
      if |transactions| < 5 {
        var points := FallbackPoints(today, days, currentNetWorth);
        return Some(points);
      }
      if raises {
        return None;
      }
      var points := NetWorthReplay(today, days, currentNetWorth, transactions, Window(db.transactions, today, days));
      return Some(points);
    }

    /** One pass of the loop of `get_monthly_savings`: the entry for the month `i` months back, `None` where `date(year, month, 1)` raises. */
    method SavingsEntry(today: Date, i: int) returns (e: Option<MonthPoint>)
      requires db.Valid()
      ensures e.None? <==> !IsMonth(MonthsBack(today, i))
      ensures e.Some? ==> e.value == SavingsPoint(db.accounts, db.transactions, MonthsBack(today, i))
    {
      var month, year;
      if today.month - i > 0 {
        month := today.month - i;
        year := today.year;
      } else {
        month := today.month - i + 12;
        year := today.year - 1;
      }
      var savingsStats := db.GetSavingsStats(Some(month), Some(year), today);
      if !(1 <= year <= 9999 && 1 <= month <= 12) {
        return None;
      }
      assert OrElse(Some(month), today.month) == month && OrElse(Some(year), today.year) == year;
      e := Some(MonthPoint(month, savingsStats.monthContribution));
    }

    /** `get_monthly_savings(months)`: `None` where `date(year, month, 1)` raises. */
    method GetMonthlySavings(today: Date, months: int) returns (r: Option<seq<MonthPoint>>)
      requires db.Valid()
      ensures r == MonthlySavings(db.accounts, db.transactions, today, months)
    {
      var savingsData: seq<MonthPoint> := [];
      var i := months - 1;
      while i >= 0
        invariant -1 <= i <= months - 1 || (months <= 0 && i == months - 1)
        invariant |savingsData| == months - 1 - i
        invariant forall j | i < j < months :: IsMonth(MonthsBack(today, j))
        invariant forall k | 0 <= k < |savingsData| ::
          savingsData[k] == SavingsPoint(db.accounts, db.transactions, MonthsBack(today, months - 1 - k))
        decreases i
      {
        var entry := SavingsEntry(today, i);
        if entry.None? {
          return None;
        }
        savingsData := savingsData + [entry.value];
        i := i - 1;
      }
      MonthlySavingsOfEntries(db.accounts, db.transactions, today, months, savingsData);
      r := Some(savingsData);
    }
  }
}
