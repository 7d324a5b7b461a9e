/**
 * The analytics page: totals over the completed trades, profits grouped by month, prediction
 * accuracy, performance grouped by sector and by timeframe, and the best-sector and
 * best-timeframe picks. Rates and averages are exact rationals.
 */
module Analytics {
  import opened Wrappers
  import Lists
  import Sorting
  import opened Records

  const Success: string := "成功"
  const OtherSector: string := "その他"
  const NoTimeframe: string := "未設定"
  const PredictionTypes: seq<string> := ["上昇", "下降", "横ばい"]

  /** A trade with a result and a recorded profit. */
  predicate Completed(r: InvestmentRecord)
  {
    r.result != "" && r.actualProfit.Some?
  }

  predicate IsSuccess(r: InvestmentRecord)
  {
    r.result == Success
  }

  /** `record.actualProfit || 0` */
  function Profit(r: InvestmentRecord): int
  {
    r.actualProfit.GetOr(0)
  }

  function One(r: InvestmentRecord): int { 1 }

  function SuccessWeight(r: InvestmentRecord): int
  {
    if IsSuccess(r) then 1 else 0
  }

  /** `record.date.substring(0, 7)`: the year and month of an ISO date. */
  function MonthKey(r: InvestmentRecord): string
  {
    if |r.date| <= 7 then r.date else r.date[..7]
  }

  function SectorKey(r: InvestmentRecord): string
  {
    if r.sector == "" then OtherSector else r.sector
  }

  function TimeframeKey(r: InvestmentRecord): string
  {
    if r.timeframe == "" then NoTimeframe else r.timeframe
  }

  // ---------------------------------------------------------------- grouping specification

  /** The keys of `s` in the order they first occur, each once. */
  function KeysInOrder(s: seq<InvestmentRecord>, key: InvestmentRecord -> string): seq<string>
  {
    if s == [] then []
    else
      var ks := KeysInOrder(s[..|s| - 1], key);
      if key(s[|s| - 1]) in ks then ks else ks + [key(s[|s| - 1])]
  }

  /** The sum of `w` over the records of `s` whose key is `k`. */
  function KeyedSum(s: seq<InvestmentRecord>, key: InvestmentRecord -> string, k: string, w: InvestmentRecord -> int): int
  {
    if s == [] then 0
    else KeyedSum(s[..|s| - 1], key, k, w) + (if key(s[|s| - 1]) == k then w(s[|s| - 1]) else 0)
  }

  predicate Distinct(ks: seq<string>)
  {
    forall i, j :: 0 <= i < j < |ks| ==> ks[i] != ks[j]
  }

  /** Some record of `s` has key `k`. */
  predicate HasKey(s: seq<InvestmentRecord>, key: InvestmentRecord -> string, k: string)
  {
    exists i :: 0 <= i < |s| && key(s[i]) == k
  }

  /** Each key of `s` is listed exactly once, and only keys of `s` are listed. */
  lemma {:induction false} KeysInOrderExact(s: seq<InvestmentRecord>, key: InvestmentRecord -> string)
    ensures Distinct(KeysInOrder(s, key))
    ensures forall k :: k in KeysInOrder(s, key) <==> HasKey(s, key, k)
  {
    if s != [] {
      var front := s[..|s| - 1];
      KeysInOrderExact(front, key);
      forall k ensures HasKey(s, key, k) <==> (k == key(s[|s| - 1]) || HasKey(front, key, k)) {
        if HasKey(front, key, k) {
          var i :| 0 <= i < |front| && key(front[i]) == k;
          assert key(s[i]) == k;
        }
        if HasKey(s, key, k) {
          var i :| 0 <= i < |s| && key(s[i]) == k;
          if i < |front| { assert key(front[i]) == k; }
        }
      }
    }
  }

  /** A key that does not occur sums to nothing. */
  lemma {:induction false} KeyedSumAbsent(s: seq<InvestmentRecord>, key: InvestmentRecord -> string, k: string, w: InvestmentRecord -> int)
    requires k !in KeysInOrder(s, key)
    ensures KeyedSum(s, key, k, w) == 0
  {
    if s != [] {
      KeyedSumAbsent(s[..|s| - 1], key, k, w);
    }
  }

  /** A key that occurs has at least one trade. */
  lemma {:induction false} KeyedCountPositive(s: seq<InvestmentRecord>, key: InvestmentRecord -> string, k: string)
    requires k in KeysInOrder(s, key)
    ensures KeyedSum(s, key, k, One) >= 1
  {
    var front := s[..|s| - 1];
    if k in KeysInOrder(front, key) {
      KeyedCountPositive(front, key, k);
    }
    KeyedNonNegative(front, key, k, One);
  }

  lemma {:induction false} KeyedNonNegative(s: seq<InvestmentRecord>, key: InvestmentRecord -> string, k: string, w: InvestmentRecord -> int)
    requires forall r :: w(r) >= 0
    ensures KeyedSum(s, key, k, w) >= 0
  {
    if s != [] { KeyedNonNegative(s[..|s| - 1], key, k, w); }
  }

  /** A pointwise smaller weight gives a smaller keyed sum. */
  lemma {:induction false} KeyedSumMonotone(s: seq<InvestmentRecord>, key: InvestmentRecord -> string, k: string,
                                            v: InvestmentRecord -> int, w: InvestmentRecord -> int)
    requires forall r :: v(r) <= w(r)
    ensures KeyedSum(s, key, k, v) <= KeyedSum(s, key, k, w)
  {
    if s != [] { KeyedSumMonotone(s[..|s| - 1], key, k, v, w); }
  }

  /** The per-key sums over a list of keys. */
  function SumOverKeys(ks: seq<string>, s: seq<InvestmentRecord>, key: InvestmentRecord -> string, w: InvestmentRecord -> int): int
  {
    if ks == [] then 0 else KeyedSum(s, key, ks[0], w) + SumOverKeys(ks[1..], s, key, w)
  }

  lemma {:induction false} SumOverKeysEmpty(ks: seq<string>, key: InvestmentRecord -> string, w: InvestmentRecord -> int)
    ensures SumOverKeys(ks, [], key, w) == 0
  {
    if ks != [] { SumOverKeysEmpty(ks[1..], key, w); }
  }

  lemma {:induction false} SumOverKeysSnoc(ks: seq<string>, s: seq<InvestmentRecord>, x: InvestmentRecord,
                                           key: InvestmentRecord -> string, w: InvestmentRecord -> int)
    requires Distinct(ks)
    ensures SumOverKeys(ks, s + [x], key, w) == SumOverKeys(ks, s, key, w) + (if key(x) in ks then w(x) else 0)
  {
    if ks != [] {
      assert (s + [x])[..|s + [x]| - 1] == s;
      assert Distinct(ks[1..]) by {
        forall i, j | 0 <= i < j < |ks[1..]| ensures ks[1..][i] != ks[1..][j] { assert ks[1..][i] == ks[i + 1]; }
      }
      SumOverKeysSnoc(ks[1..], s, x, key, w);
      if key(x) == ks[0] {
        assert key(x) !in ks[1..] by {
          forall i | 0 <= i < |ks[1..]| ensures ks[1..][i] != ks[0] { assert ks[1..][i] == ks[i + 1]; }
        }
      } else {
        assert key(x) in ks <==> key(x) in ks[1..] by { assert ks == [ks[0]] + ks[1..]; }
      }
    }
  }

  /** Summing the per-key sums over any list that names every key once gives the plain sum: the
      groups split the trades without loss or overlap. */
  lemma {:induction false} SumOverKeysCovers(ks: seq<string>, s: seq<InvestmentRecord>, key: InvestmentRecord -> string, w: InvestmentRecord -> int)
    requires Distinct(ks)
    requires forall i :: 0 <= i < |s| ==> key(s[i]) in ks
    ensures SumOverKeys(ks, s, key, w) == Lists.Sum(s, w)
  {
    if s == [] {
      SumOverKeysEmpty(ks, key, w);
    } else {
      var front, x := s[..|s| - 1], s[|s| - 1];
      assert s == front + [x];
      SumOverKeysCovers(ks, front, key, w);
      SumOverKeysSnoc(ks, front, x, key, w);
      Lists.SumAppend(front, [x], w);
    }
  }

  // ---------------------------------------------------------------- grouping loop

  /** One group of trades: its key, profit sum, trade count and success count. */
  datatype Group = Group(key: string, profit: int, trades: int, successful: int)

  function GroupFor(s: seq<InvestmentRecord>, key: InvestmentRecord -> string, k: string): Group
  {
    Group(k, KeyedSum(s, key, k, Profit), KeyedSum(s, key, k, One), KeyedSum(s, key, k, SuccessWeight))
  }

  function GroupsFor(ks: seq<string>, s: seq<InvestmentRecord>, key: InvestmentRecord -> string): (gs: seq<Group>)
    ensures |gs| == |ks|
    ensures forall i :: 0 <= i < |ks| ==> gs[i] == GroupFor(s, key, ks[i])
  {
    if ks == [] then [] else [GroupFor(s, key, ks[0])] + GroupsFor(ks[1..], s, key)
  }

  /** The groups of `s` by `key`, in first-occurrence order of their keys: what the
      accumulator object holds once every trade is added, read back with `Object.entries`. */
  function GroupsOf(s: seq<InvestmentRecord>, key: InvestmentRecord -> string): seq<Group>
  {
    GroupsFor(KeysInOrder(s, key), s, key)
  }

  function GroupProfit(g: Group): int { g.profit }
  function GroupTrades(g: Group): int { g.trades }

  lemma {:induction false} SumGroupsFor(ks: seq<string>, s: seq<InvestmentRecord>, key: InvestmentRecord -> string)
    ensures Lists.Sum(GroupsFor(ks, s, key), GroupProfit) == SumOverKeys(ks, s, key, Profit)
    ensures Lists.Sum(GroupsFor(ks, s, key), GroupTrades) == SumOverKeys(ks, s, key, One)
  {
    if ks != [] {
      SumGroupsFor(ks[1..], s, key);
      assert GroupsFor(ks, s, key)[1..] == GroupsFor(ks[1..], s, key);
    }
  }

  /** The groups have distinct keys. */
  lemma GroupKeysDistinct(s: seq<InvestmentRecord>, key: InvestmentRecord -> string)
    ensures forall i, j :: 0 <= i < j < |GroupsOf(s, key)| ==> GroupsOf(s, key)[i].key != GroupsOf(s, key)[j].key
  {
    KeysInOrderExact(s, key);
  }

  /** Every group holds at least one trade, and no more successes than trades. */
  lemma GroupsNonEmpty(s: seq<InvestmentRecord>, key: InvestmentRecord -> string)
    ensures forall g :: g in GroupsOf(s, key) ==> g.trades >= 1 && 0 <= g.successful <= g.trades
  {
    var ks := KeysInOrder(s, key);
    forall g | g in GroupsOf(s, key) ensures g.trades >= 1 && 0 <= g.successful <= g.trades {
      var i :| 0 <= i < |ks| && GroupsOf(s, key)[i] == g;
      KeyedCountPositive(s, key, ks[i]);
      KeyedSumMonotone(s, key, ks[i], SuccessWeight, One);
      KeyedNonNegative(s, key, ks[i], SuccessWeight);
    }
  }

  /** The trade counts of the groups add up to the number of trades and their profits to the
      total profit. */
  lemma GroupsPartition(s: seq<InvestmentRecord>, key: InvestmentRecord -> string)
    ensures Lists.Sum(GroupsOf(s, key), GroupTrades) == |s|
    ensures Lists.Sum(GroupsOf(s, key), GroupProfit) == Lists.Sum(s, Profit)
  {
    var ks := KeysInOrder(s, key);
    KeysInOrderExact(s, key);
    forall i | 0 <= i < |s| ensures key(s[i]) in ks { assert HasKey(s, key, key(s[i])); }
    SumGroupsFor(ks, s, key);
    SumOverKeysCovers(ks, s, key, Profit);
    SumOverKeysCovers(ks, s, key, One);
    SumOfOnes(s);
  }

  lemma {:induction false} SumOfOnes(s: seq<InvestmentRecord>)
    ensures Lists.Sum(s, One) == |s|
  {
    if s != [] { SumOfOnes(s[1..]); }
  }

  /** The running totals of one key. */
  datatype Totals = Totals(profit: int, trades: int, successful: int)

  /** The totals of key `k` over `s`. */
  function TotalsOf(s: seq<InvestmentRecord>, key: InvestmentRecord -> string, k: string): Totals
  {
    Totals(KeyedSum(s, key, k, Profit), KeyedSum(s, key, k, One), KeyedSum(s, key, k, SuccessWeight))
  }

  /** The accumulator after the trades `s`: the keys in first-occurrence order, each with its
      totals. */
  ghost predicate Accumulated(data: map<string, Totals>, order: seq<string>, s: seq<InvestmentRecord>, key: InvestmentRecord -> string)
  {
    && order == KeysInOrder(s, key)
    && (forall k :: k in data <==> k in order)
    && (forall k :: k in data ==> data[k] == TotalsOf(s, key, k))
  }

  /** Counting one more trade into the accumulator, as the loop body does. */
  lemma AccumulateStep(data: map<string, Totals>, order: seq<string>, s: seq<InvestmentRecord>, r: InvestmentRecord,
                       key: InvestmentRecord -> string)
    requires Accumulated(data, order, s, key)
    ensures var k := key(r);
      var seeded := if k !in data then data[k := Totals(0, 0, 0)] else data;
      var t := seeded[k];
      Accumulated(seeded[k := Totals(t.profit + Profit(r), t.trades + 1, t.successful + (if IsSuccess(r) then 1 else 0))],
                  if k !in data then order + [k] else order, s + [r], key)
  {
    var k := key(r);
    var s' := s + [r];
    assert s'[..|s'| - 1] == s && s'[|s'| - 1] == r;
    if k !in data {
      KeyedSumAbsent(s, key, k, Profit);
      KeyedSumAbsent(s, key, k, One);
      KeyedSumAbsent(s, key, k, SuccessWeight);
    }
  }

  /** The `forEach` that fills an accumulator object: a key seen for the first time is added
      with zero totals, then the trade is counted into it. */
  method AccumulateGroups(trades: seq<InvestmentRecord>, key: InvestmentRecord -> string) returns (groups: seq<Group>)
    ensures groups == GroupsOf(trades, key)
  {
    var data: map<string, Totals> := map[];
    var order: seq<string> := [];
    var i := 0;
    while i < |trades|
      invariant 0 <= i <= |trades|
      invariant Accumulated(data, order, trades[..i], key)
    {
      var r := trades[i];
      var k := key(r);
      AccumulateStep(data, order, trades[..i], r, key);
      assert trades[..i] + [r] == trades[..i + 1];
      if k !in data {
        data := data[k := Totals(0, 0, 0)];
        order := order + [k];
      }
      var t := data[k];
      data := data[k := Totals(t.profit + Profit(r), t.trades + 1, t.successful + (if IsSuccess(r) then 1 else 0))];
      i := i + 1;
    }
    assert trades[..i] == trades;
    groups := [];
    var j := 0;
    while j < |order|
      invariant 0 <= j <= |order|
      invariant groups == GroupsFor(order[..j], trades, key)
    {
      assert order[..j + 1][..j] == order[..j];
      GroupsForSnoc(order[..j], order[j], trades, key);
      assert order[..j + 1] == order[..j] + [order[j]];
      groups := groups + [Group(order[j], data[order[j]].profit, data[order[j]].trades, data[order[j]].successful)];
      j := j + 1;
    }
    assert order[..j] == order;
  }

  lemma GroupsForSnoc(ks: seq<string>, k: string, s: seq<InvestmentRecord>, key: InvestmentRecord -> string)
    ensures GroupsFor(ks + [k], s, key) == GroupsFor(ks, s, key) + [GroupFor(s, key, k)]
  {
  }

  // ---------------------------------------------------------------- the report

  /** `{month, profit}`; the formatted month label is not modelled. */
  datatype MonthProfit = MonthProfit(month: string, profit: int)

  /** `{prediction, accuracy, total, successful}` */
  datatype Accuracy = Accuracy(prediction: string, accuracy: real, total: nat, successful: nat)

  /** `{sector | timeframe, profit, trades, winRate, averageProfit}` */
  datatype Performance = Performance(key: string, profit: int, trades: int, winRate: real, averageProfit: real)

  datatype Report = Report(
    totalTrades: nat,
    winRate: real,
    totalProfit: int,
    averageProfit: real,
    bestTrade: int,
    worstTrade: int,
    profitByMonth: seq<MonthProfit>,
    predictionAccuracy: seq<Accuracy>,
    sectorPerformance: seq<Performance>,
    timeframeAnalysis: seq<Performance>)

  /** The state the page starts with, kept when there is no completed trade. */
  const EmptyReport: Report := Report(0, 0.0, 0, 0.0, 0, 0, [], [], [], [])

  function CompletedTrades(records: seq<InvestmentRecord>): (c: seq<InvestmentRecord>)
    ensures forall r :: r in c <==> r in records && Completed(r)
    ensures Lists.IsSubsequence(c, records)
  {
    Lists.FilterIsSubsequence(records, Completed);
    Lists.Filter(records, Completed)
  }

  /** `Math.max(...profits)` */
  function BestProfit(c: seq<InvestmentRecord>): (m: int)
    requires |c| > 0
    ensures forall i :: 0 <= i < |c| ==> Profit(c[i]) <= m
    ensures exists i :: 0 <= i < |c| && Profit(c[i]) == m
  {
    if |c| == 1 then Profit(c[0])
    else
      var m := BestProfit(c[1..]);
      assert forall i :: 1 <= i < |c| ==> c[i] == c[1..][i - 1];
      if Profit(c[0]) >= m then Profit(c[0]) else m
  }

  /** `Math.min(...profits)` */
  function WorstProfit(c: seq<InvestmentRecord>): (m: int)
    requires |c| > 0
    ensures forall i :: 0 <= i < |c| ==> m <= Profit(c[i])
    ensures exists i :: 0 <= i < |c| && Profit(c[i]) == m
  {
    if |c| == 1 then Profit(c[0])
    else
      var m := WorstProfit(c[1..]);
      assert forall i :: 1 <= i < |c| ==> c[i] == c[1..][i - 1];
      if Profit(c[0]) <= m then Profit(c[0]) else m
  }

  /** `successful / total * 100`, or 0 for an empty group. */
  function Rate(successful: int, total: int): (rate: real)
    ensures total > 0 && 0 <= successful <= total ==> 0.0 <= rate <= 100.0
    ensures total <= 0 ==> rate == 0.0
  {
    if total > 0 then (successful as real / total as real) * 100.0 else 0.0
  }

  /** `sum / n` as an exact rational. */
  function Mean(sum: int, n: int): (m: real)
    requires n >= 1
    ensures m * n as real == sum as real
  {
    sum as real / n as real
  }

  function PredictsFn(p: string): InvestmentRecord -> bool
  {
    (r: InvestmentRecord) => r.prediction == p
  }

  /** The accuracy entry of one prediction. */
  function AccuracyOf(c: seq<InvestmentRecord>, p: string): (a: Accuracy)
    ensures a.prediction == p
    ensures a.total == Lists.Count(c, PredictsFn(p))
    ensures a.successful == Lists.Count(Lists.Filter(c, PredictsFn(p)), IsSuccess) <= a.total
    ensures a.total == 0 ==> a.accuracy == 0.0
    ensures a.total > 0 ==> a.accuracy == (a.successful as real / a.total as real) * 100.0 && 0.0 <= a.accuracy <= 100.0
  {
    var trades := Lists.Filter(c, PredictsFn(p));
    var ok := Lists.Count(trades, IsSuccess);
    Accuracy(p, Rate(ok, |trades|), |trades|, ok)
  }

  /** A performance entry from a group with at least one trade. */
  function PerformanceOf(g: Group): (p: Performance)
    requires g.trades >= 1
    ensures p.key == g.key && p.profit == g.profit && p.trades == g.trades
    ensures 0 <= g.successful <= g.trades ==> 0.0 <= p.winRate <= 100.0
    ensures p.averageProfit * g.trades as real == g.profit as real
  {
    Performance(g.key, g.profit, g.trades, Rate(g.successful, g.trades), Mean(g.profit, g.trades))
  }

  function MonthOf(m: MonthProfit): string { m.month }

  function MonthProfitOf(m: MonthProfit): int { m.profit }

  function MonthsOf(gs: seq<Group>): (ms: seq<MonthProfit>)
    ensures |ms| == |gs|
    ensures forall i :: 0 <= i < |gs| ==> ms[i] == MonthProfit(gs[i].key, gs[i].profit)
  {
    if gs == [] then [] else [MonthProfit(gs[0].key, gs[0].profit)] + MonthsOf(gs[1..])
  }

  lemma {:induction false} SumMonthsOf(gs: seq<Group>)
    ensures Lists.Sum(MonthsOf(gs), MonthProfitOf) == Lists.Sum(gs, GroupProfit)
  {
    if gs != [] {
      SumMonthsOf(gs[1..]);
      assert MonthsOf(gs)[1..] == MonthsOf(gs[1..]);
    }
  }

  /** What the totals of a non-empty list of completed trades state. */
  ghost predicate DescribesTotals(a: Report, c: seq<InvestmentRecord>)
    requires |c| > 0
  {
    && a.totalTrades == |c|
    && a.winRate == Rate(Lists.Count(c, IsSuccess), |c|)
    && a.totalProfit == Lists.Sum(c, Profit)
    && a.averageProfit == Mean(a.totalProfit, |c|)
    && a.bestTrade == BestProfit(c)
    && a.worstTrade == WorstProfit(c)
  }

  /** The months are sorted ascending, one entry per month, their profits adding up to the total. */
  ghost predicate DescribesMonths(months: seq<MonthProfit>, c: seq<InvestmentRecord>)
  {
    && Sorting.SortedBy(months, Sorting.ByStringKey(MonthOf))
    && multiset(months) == multiset(MonthsOf(GroupsOf(c, MonthKey)))
    && Lists.Sum(months, MonthProfitOf) == Lists.Sum(c, Profit)
  }

  /** One accuracy entry per prediction type, in that order. */
  ghost predicate DescribesAccuracy(a: Report, c: seq<InvestmentRecord>)
  {
    && |a.predictionAccuracy| == |PredictionTypes|
    && (forall i :: 0 <= i < |PredictionTypes| ==> a.predictionAccuracy[i] == AccuracyOf(c, PredictionTypes[i]))
  }

  /** One performance entry per group, in first-occurrence order of the keys. */
  ghost predicate DescribesGroups(ps: seq<Performance>, c: seq<InvestmentRecord>, key: InvestmentRecord -> string)
  {
    && |ps| == |GroupsOf(c, key)|
    && (forall i :: 0 <= i < |ps| ==> GroupsOf(c, key)[i].trades >= 1 && ps[i] == PerformanceOf(GroupsOf(c, key)[i]))
  }

  /** What the analytics of a non-empty list of completed trades state. */
  ghost predicate Describes(a: Report, c: seq<InvestmentRecord>)
    requires |c| > 0
  {
    && DescribesTotals(a, c)
    && DescribesMonths(a.profitByMonth, c)
    && DescribesAccuracy(a, c)
    && DescribesGroups(a.sectorPerformance, c, SectorKey)
    && DescribesGroups(a.timeframeAnalysis, c, TimeframeKey)
  }

  /** The month list: the month groups, sorted ascending by month. */
  method MonthlyProfits(c: seq<InvestmentRecord>) returns (months: seq<MonthProfit>)
    ensures DescribesMonths(months, c)
  {
    var groups := AccumulateGroups(c, MonthKey);
    var unsorted := MonthsOf(groups);
    Sorting.ByStringKeyPreorder(MonthOf);
    months := Sorting.SortBy(unsorted, Sorting.ByStringKey(MonthOf));
    GroupsPartition(c, MonthKey);
    SumMonthsOf(groups);
    Lists.SumPermutation(months, unsorted, MonthProfitOf);
  }

  /** The sector or timeframe list: one performance entry per group. */
  method Performances(c: seq<InvestmentRecord>, key: InvestmentRecord -> string) returns (ps: seq<Performance>)
    ensures DescribesGroups(ps, c, key)
  {
    var groups := AccumulateGroups(c, key);
    GroupsNonEmpty(c, key);
    forall i | 0 <= i < |groups| ensures groups[i].trades >= 1 { assert groups[i] in groups; }
    ps := seq(|groups|, i requires 0 <= i < |groups| => PerformanceOf(groups[i]));
  }

  /** The basic statistics of a non-empty list of completed trades, with empty lists. */
  function TotalsReport(c: seq<InvestmentRecord>): (a: Report)
    requires |c| > 0
    ensures DescribesTotals(a, c)
  {
    Report(|c|, Rate(Lists.Count(c, IsSuccess), |c|), Lists.Sum(c, Profit), Mean(Lists.Sum(c, Profit), |c|),
           BestProfit(c), WorstProfit(c), [], [], [], [])
  }

  function AccuracyList(c: seq<InvestmentRecord>): (ps: seq<Accuracy>)
    ensures |ps| == |PredictionTypes|
    ensures forall i :: 0 <= i < |PredictionTypes| ==> ps[i] == AccuracyOf(c, PredictionTypes[i])
  {
    seq(|PredictionTypes|, i requires 0 <= i < |PredictionTypes| => AccuracyOf(c, PredictionTypes[i]))
  }

  /** calculateAnalytics: nothing when no trade is completed; otherwise the full report. */
  method CalculateAnalytics(records: seq<InvestmentRecord>) returns (r: Option<Report>)
    ensures r.None? <==> CompletedTrades(records) == []
    ensures r.Some? ==> |CompletedTrades(records)| > 0 && Describes(r.value, CompletedTrades(records))
  {
    var c := CompletedTrades(records);
    if |c| == 0 {
      return None;
    }
    var totals := TotalsReport(c);
    var months := MonthlyProfits(c);
    var sectors := Performances(c, SectorKey);
    var timeframes := Performances(c, TimeframeKey);
    var report := totals.(profitByMonth := months, predictionAccuracy := AccuracyList(c),
                          sectorPerformance := sectors, timeframeAnalysis := timeframes);
    r := Some(report);
  }

  /** The totals describe the trades: successes never exceed trades, the win rate lies between 0
      and 100, and every profit lies between the worst and the best trade. */
  lemma ReportBounds(a: Report, c: seq<InvestmentRecord>)
    requires |c| > 0 && Describes(a, c)
    ensures 0.0 <= a.winRate <= 100.0
    ensures forall t :: t in c ==> a.worstTrade <= Profit(t) <= a.bestTrade
    ensures forall p :: p in a.predictionAccuracy ==> p.successful <= p.total
  {
    forall t | t in c ensures a.worstTrade <= Profit(t) <= a.bestTrade {
      var i :| 0 <= i < |c| && c[i] == t;
    }
  }

  function PerformanceTrades(p: Performance): int { p.trades }
  function PerformanceProfit(p: Performance): int { p.profit }

  lemma {:induction false} SumPerformances(ps: seq<Performance>, gs: seq<Group>)
    requires |ps| == |gs|
    requires forall i :: 0 <= i < |ps| ==> ps[i].trades == gs[i].trades && ps[i].profit == gs[i].profit
    ensures Lists.Sum(ps, PerformanceTrades) == Lists.Sum(gs, GroupTrades)
    ensures Lists.Sum(ps, PerformanceProfit) == Lists.Sum(gs, GroupProfit)
  {
    if ps != [] {
      SumPerformances(ps[1..], gs[1..]);
    }
  }

  /** The groupings lose nothing: month profits, sector and timeframe profits add up to the
      total profit, and sector and timeframe trade counts add up to the number of trades. */
  lemma ReportPartitions(a: Report, c: seq<InvestmentRecord>)
    requires |c| > 0 && Describes(a, c)
    ensures Lists.Sum(a.profitByMonth, MonthProfitOf) == a.totalProfit
    ensures Lists.Sum(a.sectorPerformance, PerformanceTrades) == a.totalTrades
    ensures Lists.Sum(a.sectorPerformance, PerformanceProfit) == a.totalProfit
    ensures Lists.Sum(a.timeframeAnalysis, PerformanceTrades) == a.totalTrades
    ensures Lists.Sum(a.timeframeAnalysis, PerformanceProfit) == a.totalProfit
  {
    GroupsPartition(c, SectorKey);
    GroupsPartition(c, TimeframeKey);
    SumPerformances(a.sectorPerformance, GroupsOf(c, SectorKey));
    SumPerformances(a.timeframeAnalysis, GroupsOf(c, TimeframeKey));
  }

  // ---------------------------------------------------------------- the insights

  function WinRateOf(p: Performance): real { p.winRate }

  function AverageProfitOf(p: Performance): real { p.averageProfit }

  /** `ps.reduce((best, current) => f(current) > f(best) ? current : best)` carried on from
      position `k` with `best` the pick so far. */
  function ReduceBest(ps: seq<Performance>, f: Performance -> real, best: nat, k: nat): (i: nat)
    requires best < k <= |ps|
    requires forall j :: 0 <= j < k ==> f(ps[j]) <= f(ps[best])
    requires forall j :: 0 <= j < best ==> f(ps[j]) < f(ps[best])
    ensures i < |ps|
    ensures forall j :: 0 <= j < |ps| ==> f(ps[j]) <= f(ps[i])
    ensures forall j :: 0 <= j < i ==> f(ps[j]) < f(ps[i])
    decreases |ps| - k
  {
    if k == |ps| then best
    else ReduceBest(ps, f, if f(ps[k]) > f(ps[best]) then k else best, k + 1)
  }

  /** The reduction over a non-empty list picks a maximum, the earliest one on ties. */
  function BestIndex(ps: seq<Performance>, f: Performance -> real): (i: nat)
    requires |ps| > 0
    ensures i < |ps|
    ensures forall j :: 0 <= j < |ps| ==> f(ps[j]) <= f(ps[i])
    ensures forall j :: 0 <= j < i ==> f(ps[j]) < f(ps[i])
  {
    ReduceBest(ps, f, 0, 1)
  }

  /** No entry scores higher than the one at `i`. */
  predicate Tops(ps: seq<Performance>, i: nat, f: Performance -> real)
    requires i < |ps|
  {
    forall j :: 0 <= j < |ps| ==> f(ps[j]) <= f(ps[i])
  }

  /** The most successful sector by win rate, shown only when there is a sector. */
  function BestSector(a: Report): (s: Option<string>)
    ensures s.None? <==> a.sectorPerformance == []
    ensures s.Some? ==> exists i :: 0 <= i < |a.sectorPerformance| && a.sectorPerformance[i].key == s.value && Tops(a.sectorPerformance, i, WinRateOf)
  {
    if |a.sectorPerformance| > 0 then Some(a.sectorPerformance[BestIndex(a.sectorPerformance, WinRateOf)].key) else None
  }

  /** The timeframe with the highest average profit, shown only when there is one. */
  function BestTimeframe(a: Report): (s: Option<string>)
    ensures s.None? <==> a.timeframeAnalysis == []
    ensures s.Some? ==> exists i :: 0 <= i < |a.timeframeAnalysis| && a.timeframeAnalysis[i].key == s.value && Tops(a.timeframeAnalysis, i, AverageProfitOf)
  {
    if |a.timeframeAnalysis| > 0 then Some(a.timeframeAnalysis[BestIndex(a.timeframeAnalysis, AverageProfitOf)].key) else None
  }

  /** The analytics page: the loaded records and the report shown. */
  class AnalyticsView {
    var records: seq<InvestmentRecord>
    var analytics: Report

    /** The page loads the stored records, or `sample` when nothing is stored, and computes the
        report; without a completed trade the empty report stays. */
    constructor(storage: LocalStorage, sample: seq<InvestmentRecord>)
      ensures records == if RecordsKey in storage.items then StoredRecords(storage.items) else sample
      ensures CompletedTrades(records) == [] ==> analytics == EmptyReport
      ensures |CompletedTrades(records)| > 0 ==> Describes(analytics, CompletedTrades(records))
    {
      var loaded := if RecordsKey in storage.items then StoredRecords(storage.items) else sample;
      var r := CalculateAnalytics(loaded);
      records := loaded;
      analytics := if r.Some? then r.value else EmptyReport;
    }
  }
}
