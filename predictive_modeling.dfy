/**
 * `generateForecast` of the predictive-modelling screen. Historical rows are grouped by
 * (pdv, produto). Each group contributes one record for every week 1..5 of the horizon:
 *   - the trend line is extended;
 *   - a recent seasonal factor, clamped into [0.1, 2], scales it;
 *   - a 15% markdown is applied and the value is floored at 1;
 *   - a small random jitter proportional to the group's volatility is added, and the
 *     result is floored at 0.
 * The output is sorted by week, pdv and product.
 *
 * `Math.random()` is the parameter `rand`, read at the number of records pushed so far.
 * `Math.sqrt` is the parameter `sqrt`.
 */
module PredictiveModeling {
  import opened Records
  import opened Grouping
  import opened SeriesStats
  import opened ForecastOrder
  import opened ForecastSlots

  /** One `historicalAgg` entry: the group's ids, its quantities and their running total. */
  datatype Aggregate = Aggregate(pdv: int, produto: int, weeklyQuantities: seq<real>, totalQuantity: real)

  /** What the model relies on about `Math.sqrt`: it maps 0 to 0 and non-negatives to non-negatives. */
  ghost predicate IsSquareRoot(sqrt: real -> real)
  {
    sqrt(0.0) == 0.0 && forall x :: x >= 0.0 ==> sqrt(x) >= 0.0
  }

  /** What the model relies on about `Math.random()`: every draw lies in [0, 1). */
  ghost predicate IsUniformDraw(rand: nat -> real)
  {
    forall i :: 0.0 <= rand(i) < 1.0
  }

  /** `seasonalFactors[(week - 1) % length] || 1`: the factors are used cyclically, and a zero factor reads as 1. */
  function FactorForWeek(factors: seq<real>, week: int): (f: real)
    requires |factors| > 0
    ensures f != 0.0
    ensures f == 1.0 || f in factors
  {
    var f := factors[(week - 1) % |factors|];
    if f == 0.0 then 1.0 else f
  }

  /**
   * Over the five forecast weeks the (at most four) factors are reused cyclically: week
   * w + |factors| uses the same factor as week w.
   */
  lemma {:induction false} FactorForWeekCycle(factors: seq<real>, week: int)
    requires 1 <= |factors| <= 4 && week >= 1 && week + |factors| <= 5
    ensures FactorForWeek(factors, week + |factors|) == FactorForWeek(factors, week)
  {
    var n := |factors|;
    if n == 1 {
      assert (week + 1 - 1) % 1 == 0 == (week - 1) % 1;
    } else if n == 2 {
      assert (week + 2 - 1) % 2 == (week - 1) % 2;
    } else if n == 3 {
      assert (week + 3 - 1) % 3 == (week - 1) % 3;
    } else {
      assert (week + 4 - 1) % 4 == (week - 1) % 4;
    }
  }

  /** `Math.max(0.1, Math.min(2.0, f))`: the factor clamped into [0.1, 2]. */
  function Dampen(f: real): (d: real)
    ensures 0.1 <= d <= 2.0
    ensures 0.1 <= f <= 2.0 ==> d == f
    ensures f < 0.1 ==> d == 0.1
    ensures f > 2.0 ==> d == 2.0
  {
    MaxReal(0.1, MinReal(2.0, f))
  }

  /** `avgQuantity + trend * (n + week)`: the trend line read `week` steps past the last of n observations. */
  function BaseForecast(avg: real, trend: real, n: nat, week: int): real
  {
    avg + trend * (n + week) as real
  }

  /**
   * `Math.max(1, Math.round(base * dampening * 0.85))`: the value marked down by 15% and
   * rounded to the nearest integer, but never below 1.
   */
  function MarkedDown(base: real, dampening: real): (q: int)
    ensures q >= 1
    ensures q == 1 || base * dampening * 0.85 - 0.5 < q as real <= base * dampening * 0.85 + 0.5
    ensures base * dampening * 0.85 >= 0.5 ==> base * dampening * 0.85 - 0.5 < q as real <= base * dampening * 0.85 + 0.5
  {
    MaxInt(1, Round(base * dampening * 0.85))
  }

  /** The pre-jitter quantity of a group's series for `week`. */
  function PreJitterQuantity(s: seq<real>, week: int): (q: int)
    requires |s| > 0
    ensures q >= 1
  {
    MarkedDown(BaseForecast(Mean(s), Slope(s), |s|, week), Dampen(FactorForWeek(SeasonalFactors(s), week)))
  }

  /** The population standard deviation of a series with more than one value, else 0. */
  function Volatility(s: seq<real>, sqrt: real -> real): real
    requires |s| > 0
  {
    if |s| > 1 then sqrt(PopVariance(s)) else 0.0
  }

  /** Volatility is non-negative, and zero for a single value or a constant series. */
  lemma {:induction false} VolatilitySpec(s: seq<real>, sqrt: real -> real)
    requires |s| > 0 && IsSquareRoot(sqrt)
    ensures Volatility(s, sqrt) >= 0.0
    ensures |s| == 1 ==> Volatility(s, sqrt) == 0.0
    ensures (forall i :: 0 <= i < |s| ==> s[i] == s[0]) ==> Volatility(s, sqrt) == 0.0
  {
    if forall i :: 0 <= i < |s| ==> s[i] == s[0] {
      ConstantSeries(s, s[0]);
    }
  }

  /** `volatility * 0.1 * (Math.random() - 0.5)`. */
  function Jitter(volatility: real, u: real): real
  {
    volatility * 0.1 * (u - 0.5)
  }

  /** For a draw in [0, 1) the jitter is at most 5% of the volatility either way. */
  lemma {:induction false} JitterBound(volatility: real, u: real)
    requires volatility >= 0.0 && 0.0 <= u < 1.0
    ensures -0.05 * volatility <= Jitter(volatility, u) <= 0.05 * volatility
    ensures volatility > 0.0 ==> Jitter(volatility, u) < 0.05 * volatility
  {
    var a := volatility * 0.1;
    MulBetween(a, u - 0.5, -0.5, 0.5);
    if volatility > 0.0 {
      MulStrictBelow(a, u - 0.5, 0.5);
    }
  }

  lemma {:induction false} MulBetween(a: real, x: real, lo: real, hi: real)
    requires a >= 0.0 && lo <= x <= hi
    ensures a * lo <= a * x <= a * hi
  {
  }

  lemma {:induction false} MulStrictBelow(a: real, x: real, hi: real)
    requires a > 0.0 && x < hi
    ensures a * x < a * hi
  {
  }

  /** `Math.max(0, Math.round(pre + variance))`: the jittered value rounded, but never below 0. */
  function Jittered(pre: int, variance: real): (q: int)
    ensures q >= 0
    ensures pre as real + variance - 0.5 < q as real
    ensures pre as real + variance >= -0.5 ==> q as real <= pre as real + variance + 0.5
    ensures pre as real + variance < 0.5 <==> q == 0
  {
    MaxInt(0, Round(pre as real + variance))
  }

  /** The published quantity of one week. */
  function WeekQuantity(s: seq<real>, week: int, volatility: real, u: real): (q: int)
    requires |s| > 0
    ensures q >= 0
  {
    Jittered(PreJitterQuantity(s, week), Jitter(volatility, u))
  }

  /** Rounding an integer moved by less than half a unit gives back the integer. */
  lemma {:induction false} JitteredStable(p: int, j: real)
    requires p >= 0 && -0.5 <= j < 0.5
    ensures Jittered(p, j) == p
  {
    var r := Round(p as real + j);
    assert p as real - 1.0 < r as real < p as real + 1.0;
  }

  /**
   * Jitter below half a unit cannot move an integer after rounding: a group whose
   * volatility is below 10 is forecast deterministically.
   */
  lemma {:induction false} WeekQuantityStable(s: seq<real>, week: int, volatility: real, u: real)
    requires |s| > 0
    requires 0.0 <= volatility < 10.0 && 0.0 <= u < 1.0
    ensures WeekQuantity(s, week, volatility, u) == PreJitterQuantity(s, week)
  {
    JitterBound(volatility, u);
    JitteredStable(PreJitterQuantity(s, week), Jitter(volatility, u));
  }

  /** A jittered quantity stays within 5% of the volatility (plus rounding) of the pre-jitter quantity. */
  lemma {:induction false} WeekQuantityNearPreJitter(s: seq<real>, week: int, volatility: real, u: real)
    requires |s| > 0
    requires volatility >= 0.0 && 0.0 <= u < 1.0
    ensures var q := WeekQuantity(s, week, volatility, u) as real;
            var p := PreJitterQuantity(s, week) as real;
            p - 0.05 * volatility - 0.5 < q <= p + 0.05 * volatility + 0.5
  {
    JitterBound(volatility, u);
  }

  /** A constant series has neutral seasonal factors, whatever the sign of its value. */
  lemma {:induction false} ConstantSeasonalFactors(s: seq<real>, c: real)
    requires |s| > 0 && forall i :: 0 <= i < |s| ==> s[i] == c
    ensures forall i :: 0 <= i < |SeasonalFactors(s)| ==> SeasonalFactors(s)[i] == 1.0
  {
    var recent := RecentWeeks(s);
    assert forall i :: 0 <= i < |recent| ==> recent[i] == s[|s| - |recent| + i];
    SumConstant(recent, c);
    var k := |recent| as real;
    DivCancel(c, k);
    assert Div(Sum(recent), k) == c;
    if c > 0.0 {
      FactorsOfConstant(recent, c);
    } else {
      FactorsNeutral(recent, c);
    }
  }

  lemma {:induction false} FactorsOfConstant(recent: seq<real>, c: real)
    requires c > 0.0 && forall i :: 0 <= i < |recent| ==> recent[i] == c
    ensures forall i :: 0 <= i < |recent| ==> Factors(recent, c)[i] == 1.0
  {
    if recent != [] {
      var init := recent[..|recent| - 1];
      FactorsOfConstant(init, c);
      DivCancel(1.0, c);
      assert Div(1.0 * c, c) == 1.0;
      forall i | 0 <= i < |recent| ensures Factors(recent, c)[i] == 1.0 {
        if i < |init| {
          assert Factors(recent, c)[i] == Factors(init, c)[i];
        }
      }
    }
  }

  /** The pre-jitter quantity of a constant series c is max(1, round(0.85 c)) for every week. */
  lemma {:induction false} ConstantPreJitter(s: seq<real>, c: real, week: int)
    requires |s| > 0 && forall i :: 0 <= i < |s| ==> s[i] == c
    ensures PreJitterQuantity(s, week) == MaxInt(1, Round(c * 0.85))
  {
    ConstantSeries(s, c);
    SlopeOfConstant(s, c);
    ConstantSeasonalFactors(s, c);
    var factors := SeasonalFactors(s);
    assert factors[(week - 1) % |factors|] == 1.0;
    assert FactorForWeek(factors, week) == 1.0;
    assert BaseForecast(Mean(s), Slope(s), |s|, week) == c;
    assert c * Dampen(1.0) * 0.85 == c * 0.85;
  }

  /**
   * A group whose quantities are all equal to c is forecast max(1, round(0.85 c)) every
   * week: its slope and volatility vanish and its seasonal factors are neutral.
   */
  lemma {:induction false} ConstantGroupForecast(s: seq<real>, c: real, week: int, u: real, sqrt: real -> real)
    requires |s| > 0 && IsSquareRoot(sqrt)
    requires forall i :: 0 <= i < |s| ==> s[i] == c
    ensures WeekQuantity(s, week, Volatility(s, sqrt), u) == MaxInt(1, Round(c * 0.85))
  {
    ConstantPreJitter(s, c, week);
    VolatilitySpec(s, sqrt);
    assert s[0] == c;
    assert Volatility(s, sqrt) == 0.0;
    assert Jitter(0.0, u) == 0.0;
    JitteredStable(PreJitterQuantity(s, week), 0.0);
  }

  /**
   * The quantity of the slot of group `k` for `week` when `draw` records were pushed before
   * it. Every grouped key has a non-empty series (`SeriesOfLength`), so the empty case is
   * never taken for the keys the generator visits.
   */
  function WeekQuantityOf(rows: seq<HistoricalRow>, rand: nat -> real, sqrt: real -> real): (Key, int, nat) -> int
  {
    (k: Key, week: int, draw: nat) =>
      var s := SeriesOf(rows, k);
      if |s| == 0 then 0 else WeekQuantity(s, week, Volatility(s, sqrt), rand(draw))
  }

  /** The rows a possibly absent `data` prop holds. */
  function RowsOf(data: Option<seq<HistoricalRow>>): seq<HistoricalRow>
  {
    if data.None? then [] else data.value
  }

  /** The result of `generateForecast`. */
  function Forecast(data: Option<seq<HistoricalRow>>, rand: nat -> real, sqrt: real -> real): seq<ForecastRecord>
  {
    if data.None? || |data.value| == 0 then []
    else SortedSlots(GroupKeys(data.value), WeekQuantityOf(data.value, rand, sqrt))
  }

  /** The `historicalAgg` entry of key `k` once `rows` have been read. */
  function EntryOf(rows: seq<HistoricalRow>, k: Key): Aggregate
  {
    Aggregate(k.pdv, k.produto, SeriesOf(rows, k), Sum(SeriesOf(rows, k)))
  }

  /** `agg` holds exactly the keys `keys`, each with its entry over `rows`. */
  ghost predicate AggregatesOf(agg: map<Key, Aggregate>, keys: seq<Key>, rows: seq<HistoricalRow>)
  {
    (forall k :: k in agg <==> k in keys) && forall k :: k in agg ==> agg[k] == EntryOf(rows, k)
  }

  /** Reading row `i` appends its quantity to its own group's entry and adds it to the total; other entries stay. */
  lemma {:induction false} EntryStep(rows: seq<HistoricalRow>, i: int, k: Key)
    requires 0 <= i < |rows|
    ensures var e := EntryOf(rows[..i], k);
            var q := QuantityOf(rows[i]);
            EntryOf(rows[..i + 1], k)
            == if KeyOf(rows[i]) == k
               then e.(weeklyQuantities := e.weeklyQuantities + [q], totalQuantity := e.totalQuantity + q)
               else e
  {
    SeriesOfStep(rows, i, k);
    if KeyOf(rows[i]) == k {
      SumSnoc(SeriesOf(rows[..i], k), QuantityOf(rows[i]));
    } else {
      assert SeriesOf(rows[..i], k) + [] == SeriesOf(rows[..i], k);
    }
  }

  /** One turn of the grouping loop: create the entry of a new key, then push the quantity and add it to the total. */
  function AggregateRow(agg: map<Key, Aggregate>, row: HistoricalRow): map<Key, Aggregate>
  {
    var key := KeyOf(row);
    var agg1 := if key !in agg then agg[key := Aggregate(row.pdv, row.produto, [], 0.0)] else agg;
    var entry := agg1[key];
    var q := QuantityOf(row);
    agg1[key := entry.(weeklyQuantities := entry.weeklyQuantities + [q], totalQuantity := entry.totalQuantity + q)]
  }

  /** `historicalAgg` once `rows` have been read. */
  function AggregateRows(rows: seq<HistoricalRow>): map<Key, Aggregate>
  {
    if rows == [] then map[] else AggregateRow(AggregateRows(rows[..|rows| - 1]), rows[|rows| - 1])
  }

  lemma {:induction false} AggregateRowsStep(rows: seq<HistoricalRow>, i: int)
    requires 0 <= i < |rows|
    ensures AggregateRows(rows[..i + 1]) == AggregateRow(AggregateRows(rows[..i]), rows[i])
  {
    assert rows[..i + 1][..i] == rows[..i];
  }

  /** The grouping loop's map is keyed by the grouped keys. */
  lemma {:induction false} AggregateRowsDomain(rows: seq<HistoricalRow>, k: Key)
    ensures k in AggregateRows(rows) <==> k in GroupKeys(rows)
  {
    if rows != [] {
      AggregateRowsDomain(rows[..|rows| - 1], k);
    }
  }

  /** The grouping loop's map has one entry per grouped key, each with its group's series and their sum. */
  lemma {:induction false} AggregateRowsSpec(rows: seq<HistoricalRow>)
    ensures AggregatesOf(AggregateRows(rows), GroupKeys(rows), rows)
  {
    if rows != [] {
      var i := |rows| - 1;
      var init := rows[..i];
      assert rows[..i + 1] == rows;
      AggregateRowsSpec(init);
      GroupKeysStep(rows, i);
      var agg := AggregateRows(init);
      var key := KeyOf(rows[i]);
      if key !in agg {
        SeriesOfLength(init, key);
      }
      forall k | k in AggregateRows(rows) ensures AggregateRows(rows)[k] == EntryOf(rows, k) {
        EntryStep(rows, i, k);
      }
    }
  }

  /**
   * The `historicalAgg` loop: one entry per distinct key, in order of first appearance, each
   * holding its group's quantities in input order and their sum.
   */
  method AggregateHistory(rows: seq<HistoricalRow>) returns (keys: seq<Key>, agg: map<Key, Aggregate>)
    ensures keys == GroupKeys(rows)
    ensures AggregatesOf(agg, keys, rows)
  {
    keys := [];
    agg := map[];
    var i := 0;
    while i < |rows|
      invariant 0 <= i <= |rows|
      invariant keys == GroupKeys(rows[..i])
      invariant agg == AggregateRows(rows[..i])
    {
      ghost var agg0 := agg;
      var row := rows[i];
      var key := KeyOf(row);
      if key !in agg {
        agg := agg[key := Aggregate(row.pdv, row.produto, [], 0.0)];
        keys := keys + [key];
      }
      var entry := agg[key];
      var q := QuantityOf(row);
      agg := agg[key := entry.(weeklyQuantities := entry.weeklyQuantities + [q],
                               totalQuantity := entry.totalQuantity + q)];
      assert agg == AggregateRows(rows[..i + 1]) by {
        assert agg == AggregateRow(agg0, row);
        AggregateRowsStep(rows, i);
      }
      assert keys == GroupKeys(rows[..i + 1]) by {
        AggregateRowsDomain(rows[..i], key);
        GroupKeysStep(rows, i);
      }
      i := i + 1;
    }
    assert rows[..|rows|] == rows;
    AggregateRowsSpec(rows);
  }

  /** `generateForecast`. */
  method GenerateForecast(data: Option<seq<HistoricalRow>>, rand: nat -> real, sqrt: real -> real)
    returns (forecast: seq<ForecastRecord>)
    ensures forecast == Forecast(data, rand, sqrt)
  {
    if data.None? || |data.value| == 0 {
      return [];
    }
    var rows := data.value;
    var keys, historicalAgg := AggregateHistory(rows);
    ghost var quantity := WeekQuantityOf(rows, rand, sqrt);
    forecast := [];
    var g := 0;
    while g < |keys|
      invariant 0 <= g <= |keys|
      invariant |forecast| == 5 * g
      invariant PushedPrefix(forecast, keys, quantity)
    {
      assert historicalAgg[keys[g]] == EntryOf(rows, keys[g]);
      var stats := historicalAgg[keys[g]];
      var quantities := stats.weeklyQuantities;
      var n := |quantities|;
      SeriesOfLength(rows, keys[g]);
      var avgQuantity := Div(stats.totalQuantity, n as real);
      // For n > 1 the denominator is positive, so the `|| 0` fallback never applies.
      var trend := 0.0;
      if n > 1 {
        var xSum := XSum(n);
        var ySum := stats.totalQuantity;
        var xySum := WeightedSum(quantities);
        var x2Sum := X2Sum(n);
        SlopeDenominatorPositive(n);
        trend := LeastSquaresSlope(n as real, xSum, ySum, xySum, x2Sum);
      }
      assert avgQuantity == Mean(quantities) && trend == Slope(quantities);
      var recentWeeks := RecentWeeks(quantities);
      var recentAvg := Div(Sum(recentWeeks), |recentWeeks| as real);
      var seasonalFactors := Factors(recentWeeks, recentAvg);
      assert seasonalFactors == SeasonalFactors(quantities);
      var week := 1;
      while week <= 5
        invariant 1 <= week <= 6
        invariant |forecast| == 5 * g + week - 1
        invariant PushedPrefix(forecast, keys, quantity)
      {
        var baseForecast := BaseForecast(avgQuantity, trend, n, week);
        var dampening := Dampen(FactorForWeek(seasonalFactors, week));
        var finalForecast := MarkedDown(baseForecast, dampening);
        var volatility := if n > 1 then sqrt(PopVariance(quantities)) else 0.0;
        var variance := Jitter(volatility, rand(|forecast|));
        finalForecast := Jittered(finalForecast, variance);
        assert volatility == Volatility(quantities, sqrt);
        assert finalForecast == WeekQuantity(quantities, week, volatility, rand(|forecast|));
        assert finalForecast == quantity(keys[g], week, |forecast|);
        PushNext(forecast, keys, quantity, g, week);
        forecast := forecast + [ForecastRecord(week, stats.pdv, stats.produto, finalForecast)];
        week := week + 1;
      }
      g := g + 1;
    }
    PushedAll(forecast, keys, quantity);
    forecast := SortRecords(forecast);
  }

  /** Empty or absent data gives no records; otherwise there are exactly five per distinct (pdv, produto). */
  lemma {:induction false} ForecastSize(data: Option<seq<HistoricalRow>>, rand: nat -> real, sqrt: real -> real)
    ensures |Forecast(data, rand, sqrt)| == 5 * |GroupKeys(RowsOf(data))|
    ensures (data.None? || data == Some([])) ==> Forecast(data, rand, sqrt) == []
  {
    var rows := RowsOf(data);
    GroupKeysSpec(rows);
    if rows != [] {
      SortedSlotsSpec(GroupKeys(rows), WeekQuantityOf(rows, rand, sqrt));
    }
  }

  /** The forecast ascends strictly in (semana, pdv, produto) and is a permutation of the pushed records. */
  lemma {:induction false} ForecastSorted(data: Option<seq<HistoricalRow>>, rand: nat -> real, sqrt: real -> real)
    ensures StrictlySorted(Forecast(data, rand, sqrt))
    ensures multiset(Forecast(data, rand, sqrt))
            == multiset(PushOrder(GroupKeys(RowsOf(data)), WeekQuantityOf(RowsOf(data), rand, sqrt)))
  {
    var rows := RowsOf(data);
    GroupKeysSpec(rows);
    if rows != [] {
      SortedSlotsSpec(GroupKeys(rows), WeekQuantityOf(rows, rand, sqrt));
    }
  }

  /**
   * Every record is for a week in 1..5 and a grouped key, and its quantity is that group's
   * `WeekQuantity` for that week under one of the draws.
   */
  lemma {:induction false} ForecastRecordsWellFormed(data: Option<seq<HistoricalRow>>, rand: nat -> real,
                                                     sqrt: real -> real, r: ForecastRecord)
    requires r in Forecast(data, rand, sqrt)
    ensures 1 <= r.semana <= 5 && RecordKey(r) in GroupKeys(RowsOf(data)) && r.quantidade >= 0
    ensures var s := SeriesOf(RowsOf(data), RecordKey(r));
            |s| > 0 && exists draw: nat :: r.quantidade == WeekQuantity(s, r.semana, Volatility(s, sqrt), rand(draw))
  {
    var rows := RowsOf(data);
    var keys := GroupKeys(rows);
    var quantity := WeekQuantityOf(rows, rand, sqrt);
    assert r in SortedSlots(keys, quantity);
    SortedSlotsWellFormed(keys, quantity, r);
    var k := RecordKey(r);
    SeriesOfLength(rows, k);
    var i: nat :| i < 5 * |keys| && r.quantidade == quantity(k, r.semana, i);
    var s := SeriesOf(rows, k);
    assert r.quantidade == WeekQuantity(s, r.semana, Volatility(s, sqrt), rand(i));
  }

  /** Every grouped key gets its record for each week 1..5, with the draw numbered by its push position. */
  lemma {:induction false} ForecastCoversSlot(data: Option<seq<HistoricalRow>>, rand: nat -> real,
                                              sqrt: real -> real, g: int, week: int)
    requires 0 <= g < |GroupKeys(RowsOf(data))| && 1 <= week <= 5
    ensures var k := GroupKeys(RowsOf(data))[g];
            var s := SeriesOf(RowsOf(data), k);
            |s| > 0
            && ForecastRecord(week, k.pdv, k.produto, WeekQuantity(s, week, Volatility(s, sqrt), rand(5 * g + week - 1)))
               in Forecast(data, rand, sqrt)
  {
    var rows := RowsOf(data);
    var keys := GroupKeys(rows);
    SeriesOfLength(rows, keys[g]);
    SortedSlotsCover(keys, WeekQuantityOf(rows, rand, sqrt), g, week);
  }
}
