/**
 * The testing screen, in three parts:
 *   - `generateOptimizedForecast`, the deterministic generator. It uses the same grouping,
 *     trend and seasonal factors as `generateForecast`, without the clamp and without jitter.
 *     It scales each value by a volatility adjustment in [0.7, 1] and marks it down by 25%,
 *     with a floor of 1.
 *   - the heuristic WMAPE estimate `calculateEstimatedWmape`;
 *   - the download text.
 *
 * `Math.sqrt` is the parameter `sqrt`. None of this uses randomness.
 */
module PythonTesting {
  import opened Records
  import opened Grouping
  import opened SeriesStats
  import opened ForecastOrder
  import opened ForecastSlots
  import opened PredictiveModeling
  import opened Csv

  /** One `groupedData` entry: the group's ids and its quantities in input order. */
  datatype Group = Group(pdv: int, produto: int, quantities: seq<real>)

  /** What the exact-root lemmas rely on about `Math.sqrt`: it is the non-negative square root. */
  ghost predicate IsExactSquareRoot(sqrt: real -> real)
  {
    IsSquareRoot(sqrt) && forall x :: x >= 0.0 ==> sqrt(x) * sqrt(x) == x
  }

  // ---------------------------------------------------------------------------------------
  // Grouping

  /** One turn of the grouping `forEach`: create the entry of a new key, then push the quantity. */
  function GroupRow(groups: map<Key, Group>, row: HistoricalRow): map<Key, Group>
  {
    var key := KeyOf(row);
    var groups1 := if key !in groups then groups[key := Group(row.pdv, row.produto, [])] else groups;
    groups1[key := groups1[key].(quantities := groups1[key].quantities + [QuantityOf(row)])]
  }

  /** `groupedData` once `rows` have been read. */
  function GroupRows(rows: seq<HistoricalRow>): map<Key, Group>
  {
    if rows == [] then map[] else GroupRow(GroupRows(rows[..|rows| - 1]), rows[|rows| - 1])
  }

  /** `groups` holds exactly the keys `keys`, each with its group's series over `rows`. */
  ghost predicate GroupsOf(groups: map<Key, Group>, keys: seq<Key>, rows: seq<HistoricalRow>)
  {
    (forall k :: k in groups <==> k in keys)
    && forall k :: k in groups ==> groups[k] == Group(k.pdv, k.produto, SeriesOf(rows, k))
  }

  lemma {:induction false} GroupRowsStep(rows: seq<HistoricalRow>, i: int)
    requires 0 <= i < |rows|
    ensures GroupRows(rows[..i + 1]) == GroupRow(GroupRows(rows[..i]), rows[i])
  {
    assert rows[..i + 1][..i] == rows[..i];
  }

  /** The grouping map is keyed by the grouped keys. */
  lemma {:induction false} GroupRowsDomain(rows: seq<HistoricalRow>, k: Key)
    ensures k in GroupRows(rows) <==> k in GroupKeys(rows)
  {
    if rows != [] {
      GroupRowsDomain(rows[..|rows| - 1], k);
    }
  }

  /** The grouping map has one entry per grouped key, holding that key's quantities in input order. */
  lemma {:induction false} GroupRowsSpec(rows: seq<HistoricalRow>)
    ensures GroupsOf(GroupRows(rows), GroupKeys(rows), rows)
  {
    if rows != [] {
      var i := |rows| - 1;
      var init := rows[..i];
      assert rows[..i + 1] == rows;
      GroupRowsSpec(init);
      GroupKeysStep(rows, i);
      var key := KeyOf(rows[i]);
      if key !in GroupRows(init) {
        SeriesOfLength(init, key);
      }
      forall k | k in GroupRows(rows) ensures GroupRows(rows)[k] == Group(k.pdv, k.produto, SeriesOf(rows, k)) {
        SeriesOfStep(rows, i, k);
        if KeyOf(rows[i]) != k {
          assert SeriesOf(rows[..i], k) + [] == SeriesOf(rows[..i], k);
        }
      }
    }
  }

  /**
   * The `groupedData` loop: one entry per distinct key, in order of first appearance, each
   * holding its group's quantities in input order (an absent quantity as 0).
   */
  method GroupHistory(rows: seq<HistoricalRow>) returns (keys: seq<Key>, groups: map<Key, Group>)
    ensures keys == GroupKeys(rows)
    ensures GroupsOf(groups, keys, rows)
  {
    keys := [];
    groups := map[];
    var i := 0;
    while i < |rows|
      invariant 0 <= i <= |rows|
      invariant keys == GroupKeys(rows[..i])
      invariant groups == GroupRows(rows[..i])
    {
      ghost var groups0 := groups;
      var row := rows[i];
      var key := KeyOf(row);
      if key !in groups {
        groups := groups[key := Group(row.pdv, row.produto, [])];
        keys := keys + [key];
      }
      groups := groups[key := groups[key].(quantities := groups[key].quantities + [QuantityOf(row)])];
      assert groups == GroupRows(rows[..i + 1]) by {
        assert groups == GroupRow(groups0, row);
        GroupRowsStep(rows, i);
      }
      assert keys == GroupKeys(rows[..i + 1]) by {
        GroupRowsDomain(rows[..i], key);
        GroupKeysStep(rows, i);
      }
      i := i + 1;
    }
    assert rows[..|rows|] == rows;
    GroupRowsSpec(rows);
  }

  // ---------------------------------------------------------------------------------------
  // Per-group arithmetic

  /**
   * `(n * xySum - xSum * ySum) / (n * x2Sum - xSum * xSum) || 0`. The denominator is 0 only
   * for a single observation. The numerator is then 0 too, the quotient is NaN, and `|| 0`
   * reads it as 0. A quotient of exactly 0 is 0 either way.
   */
  function OptimizedTrend(s: seq<real>): real
    requires |s| > 0
  {
    var n := |s|;
    if SlopeDenominatorOf(n as real, XSum(n), X2Sum(n)) == 0.0 then 0.0
    else LeastSquaresSlope(n as real, XSum(n), Sum(s), WeightedSum(s), X2Sum(n))
  }

  /**
   * The trend with the `|| 0` fallback is the least-squares slope. For a single observation
   * both the numerator and the denominator are 0, and the trend is 0.
   */
  lemma {:induction false} OptimizedTrendIsSlope(s: seq<real>)
    requires |s| > 0
    ensures OptimizedTrend(s) == Slope(s)
    ensures |s| == 1 ==> SlopeDenominatorOf(1.0, XSum(1), X2Sum(1)) == 0.0
                         && SlopeNumeratorOf(1.0, XSum(1), Sum(s), WeightedSum(s)) == 0.0
                         && OptimizedTrend(s) == 0.0
  {
    var n := |s|;
    if n == 1 {
      assert XSum(1) == 0.0 && X2Sum(1) == 0.0;
      assert s[..0] == [];
      assert WeightedSum(s) == 0.0;
    } else {
      SlopeDenominatorPositive(n);
    }
  }

  /**
   * `1 - Math.min(0.3, Math.sqrt(variance) / mean)`, where `sd` is the square root. The
   * result is None where the source's value is not a finite number:
   *   - a zero mean with a zero deviation divides 0 by 0 and gives NaN;
   *   - a zero mean with a negative "deviation" gives -Infinity, then +Infinity. A square
   *     root never returns a negative, so this case does not arise.
   * A zero mean with a positive deviation gives +Infinity, capped at 0.3, so 0.7.
   */
  function VolatilityAdjustment(sd: real, mean: real): (r: Option<real>)
    ensures r.None? <==> mean == 0.0 && sd <= 0.0
    ensures mean > 0.0 && sd >= 0.0 ==> r.Some? && 0.7 <= r.value <= 1.0
    ensures mean == 0.0 && sd > 0.0 ==> r == Some(0.7)
    ensures sd == 0.0 && mean != 0.0 ==> r == Some(1.0)
  {
    if mean != 0.0 then Some(1.0 - MinReal(0.3, Div(sd, mean)))
    else if sd > 0.0 then Some(0.7)
    else None
  }

  /**
   * The evidently intended adjustment: a group without volatility is not adjusted. Where
   * the source computes NaN (zero mean, zero deviation), the ratio is read as 0, the way
   * the trend's `|| 0` reads its NaN. Everywhere else it is the source's value.
   */
  function CorrectedAdjustment(sd: real, mean: real): (r: real)
    ensures VolatilityAdjustment(sd, mean).Some? ==> r == VolatilityAdjustment(sd, mean).value
    ensures VolatilityAdjustment(sd, mean).None? ==> r == 1.0
  {
    match VolatilityAdjustment(sd, mean)
    case Some(a) => a
    case None => 1.0
  }

  /** `Math.max(1, Math.round(base * factor * adjustment * 0.75))`. */
  function ConservativeQuantity(base: real, factor: real, adjustment: real): (q: int)
    ensures q >= 1
    ensures base * factor * adjustment * 0.75 >= 0.5 ==>
              base * factor * adjustment * 0.75 - 0.5 < q as real <= base * factor * adjustment * 0.75 + 0.5
    ensures base * factor * adjustment * 0.75 < 0.5 ==> q == 1
  {
    MaxInt(1, Round(base * factor * adjustment * 0.75))
  }

  /**
   * The quantity of a group's series for `week`, as the source computes it. The result is
   * None where the source's value is NaN.
   */
  function OptimizedWeekQuantityAsWritten(s: seq<real>, week: int, sqrt: real -> real): Option<int>
    requires |s| > 0
  {
    var adjustment := VolatilityAdjustment(sqrt(PopVariance(s)), Mean(s));
    if adjustment.None? then None
    else
      Some(ConservativeQuantity(BaseForecast(Mean(s), OptimizedTrend(s), |s|, week),
                                FactorForWeek(SeasonalFactors(s), week), adjustment.value))
  }

  /** The quantity of a group's series for `week`, with the corrected volatility adjustment. */
  function OptimizedWeekQuantity(s: seq<real>, week: int, sqrt: real -> real): (q: int)
    requires |s| > 0
    ensures q >= 1
  {
    ConservativeQuantity(BaseForecast(Mean(s), OptimizedTrend(s), |s|, week),
                         FactorForWeek(SeasonalFactors(s), week), CorrectedAdjustment(sqrt(PopVariance(s)), Mean(s)))
  }

  /**
   * The source's quantity is NaN exactly when the group's mean and its standard deviation
   * are both 0. Otherwise it is the corrected quantity.
   */
  lemma {:induction false} AsWrittenAgrees(s: seq<real>, week: int, sqrt: real -> real)
    requires |s| > 0 && IsSquareRoot(sqrt)
    ensures OptimizedWeekQuantityAsWritten(s, week, sqrt).None? <==> Mean(s) == 0.0 && sqrt(PopVariance(s)) == 0.0
    ensures OptimizedWeekQuantityAsWritten(s, week, sqrt).Some? ==>
              OptimizedWeekQuantityAsWritten(s, week, sqrt).value == OptimizedWeekQuantity(s, week, sqrt)
  {
    assert sqrt(PopVariance(s)) >= 0.0;
  }

  /**
   * The defect: a group whose quantities are all 0 gets NaN for every week, where the floor
   * of 1 evidently means the group to get 1.
   */
  lemma {:induction false} AllZeroGroupIsNaN(s: seq<real>, week: int, sqrt: real -> real)
    requires |s| > 0 && IsSquareRoot(sqrt)
    requires forall i :: 0 <= i < |s| ==> s[i] == 0.0
    ensures OptimizedWeekQuantityAsWritten(s, week, sqrt) == None
    ensures OptimizedWeekQuantity(s, week, sqrt) == 1
  {
    ConstantSeries(s, 0.0);
    SlopeOfConstant(s, 0.0);
    OptimizedTrendIsSlope(s);
    var base := BaseForecast(Mean(s), OptimizedTrend(s), |s|, week);
    assert base == 0.0;
    var f := FactorForWeek(SeasonalFactors(s), week);
    var a := CorrectedAdjustment(sqrt(PopVariance(s)), Mean(s));
    assert base * f * a * 0.75 == 0.0;
  }

  /** With an exact square root, the source's quantity is NaN exactly for a group of zeros. */
  lemma {:induction false} AsWrittenNaNIffAllZero(s: seq<real>, week: int, sqrt: real -> real)
    requires |s| > 0 && IsExactSquareRoot(sqrt)
    ensures OptimizedWeekQuantityAsWritten(s, week, sqrt).None? <==> forall i :: 0 <= i < |s| ==> s[i] == 0.0
  {
    AsWrittenAgrees(s, week, sqrt);
    if forall i :: 0 <= i < |s| ==> s[i] == 0.0 {
      AllZeroGroupIsNaN(s, week, sqrt);
    }
    if OptimizedWeekQuantityAsWritten(s, week, sqrt).None? {
      RootOfZero(sqrt, PopVariance(s));
      ZeroVarianceIsConstant(s);
    }
  }

  lemma {:induction false} RootOfZero(sqrt: real -> real, v: real)
    requires IsExactSquareRoot(sqrt) && v >= 0.0 && sqrt(v) == 0.0
    ensures v == 0.0
  {
    var r := sqrt(v);
    assert r * r == v;
  }

  /** For a group with a positive mean the adjustment lies in [0.7, 1], and the quantity is defined. */
  lemma {:induction false} PositiveMeanAdjustment(s: seq<real>, week: int, sqrt: real -> real)
    requires |s| > 0 && IsSquareRoot(sqrt) && Mean(s) > 0.0
    ensures var a := CorrectedAdjustment(sqrt(PopVariance(s)), Mean(s)); 0.7 <= a <= 1.0
    ensures OptimizedWeekQuantityAsWritten(s, week, sqrt) == Some(OptimizedWeekQuantity(s, week, sqrt))
  {
    assert sqrt(PopVariance(s)) >= 0.0;
  }

  /**
   * A constant series c > 0 has trend 0, factors 1 and adjustment 1, so every week gets
   * max(1, round(0.75 c)).
   */
  lemma {:induction false} ConstantGroupOptimized(s: seq<real>, c: real, week: int, sqrt: real -> real)
    requires |s| > 0 && c > 0.0 && IsSquareRoot(sqrt)
    requires forall i :: 0 <= i < |s| ==> s[i] == c
    ensures OptimizedWeekQuantity(s, week, sqrt) == MaxInt(1, Round(c * 0.75))
  {
    ConstantSeries(s, c);
    SlopeOfConstant(s, c);
    OptimizedTrendIsSlope(s);
    ConstantSeasonalFactors(s, c);
    var f := FactorForWeek(SeasonalFactors(s), week);
    assert f == 1.0;
    assert BaseForecast(Mean(s), OptimizedTrend(s), |s|, week) == c;
    assert CorrectedAdjustment(sqrt(PopVariance(s)), Mean(s)) == 1.0;
    assert c * f * 1.0 * 0.75 == c * 0.75;
  }

  // ---------------------------------------------------------------------------------------
  // The generator

  /** The quantity of the slot of group `k` for `week`; the push position plays no part. */
  function OptimizedQuantityOf(rows: seq<HistoricalRow>, sqrt: real -> real): (Key, int, nat) -> int
  {
    (k: Key, week: int, draw: nat) =>
      var s := SeriesOf(rows, k);
      if |s| == 0 then 0 else OptimizedWeekQuantity(s, week, sqrt)
  }

  /** The result of `generateOptimizedForecast`, with the corrected adjustment. */
  function OptimizedForecast(data: Option<seq<HistoricalRow>>, sqrt: real -> real): seq<ForecastRecord>
  {
    if data.None? || |data.value| == 0 then []
    else SortedSlots(GroupKeys(data.value), OptimizedQuantityOf(data.value, sqrt))
  }

  /** `generateOptimizedForecast`. */
  method GenerateOptimizedForecast(data: Option<seq<HistoricalRow>>, sqrt: real -> real)
    returns (forecast: seq<ForecastRecord>)
    ensures forecast == OptimizedForecast(data, sqrt)
  {
    if data.None? || |data.value| == 0 {
      return [];
    }
    var rows := data.value;
    var keys, groupedData := GroupHistory(rows);
    ghost var quantity := OptimizedQuantityOf(rows, sqrt);
    forecast := [];
    var g := 0;
    while g < |keys|
      invariant 0 <= g <= |keys|
      invariant |forecast| == 5 * g
      invariant PushedPrefix(forecast, keys, quantity)
    {
      assert groupedData[keys[g]] == Group(keys[g].pdv, keys[g].produto, SeriesOf(rows, keys[g]));
      var stats := groupedData[keys[g]];
      var quantities := stats.quantities;
      var n := |quantities|;
      SeriesOfLength(rows, keys[g]);
      var mean := Div(Sum(quantities), n as real);
      var variance := Div(SquaredDeviations(quantities, mean), n as real);
      var sd := sqrt(variance);
      var xSum := XSum(n);
      var ySum := Sum(quantities);
      var xySum := WeightedSum(quantities);
      var x2Sum := X2Sum(n);
      var trend := 0.0;
      if SlopeDenominatorOf(n as real, xSum, x2Sum) != 0.0 {
        trend := LeastSquaresSlope(n as real, xSum, ySum, xySum, x2Sum);
      }
      assert mean == Mean(quantities) && variance == PopVariance(quantities) && trend == OptimizedTrend(quantities);
      var recentWeeks := RecentWeeks(quantities);
      var recentMean := Div(Sum(recentWeeks), |recentWeeks| as real);
      var seasonalFactors := Factors(recentWeeks, recentMean);
      assert seasonalFactors == SeasonalFactors(quantities);
      var week := 1;
      while week <= 5
        invariant 1 <= week <= 6
        invariant |forecast| == 5 * g + week - 1
        invariant PushedPrefix(forecast, keys, quantity)
      {
        var baseForecast := BaseForecast(mean, trend, n, week);
        var seasonalFactor := FactorForWeek(seasonalFactors, week);
        var volatilityAdjustment := CorrectedAdjustment(sd, mean);
        var finalForecast := ConservativeQuantity(baseForecast, seasonalFactor, volatilityAdjustment);
        assert finalForecast == OptimizedWeekQuantity(quantities, week, sqrt);
        assert finalForecast == quantity(keys[g], week, |forecast|);
        PushNext(forecast, keys, quantity, g, week);
        forecast := forecast + [ForecastRecord(week, stats.pdv, stats.produto, finalForecast)];
        week := week + 1;
      }
      g := g + 1;
    }
    PushedAll(forecast, keys, quantity);
    forecast := SortRecords(forecast);
  }

  /** Empty or absent data gives no records; otherwise there are exactly five per distinct (pdv, produto). */
  lemma {:induction false} OptimizedForecastSize(data: Option<seq<HistoricalRow>>, sqrt: real -> real)
    ensures |OptimizedForecast(data, sqrt)| == 5 * |GroupKeys(RowsOf(data))|
    ensures (data.None? || data == Some([])) ==> OptimizedForecast(data, sqrt) == []
  {
    var rows := RowsOf(data);
    GroupKeysSpec(rows);
    if rows != [] {
      SortedSlotsSpec(GroupKeys(rows), OptimizedQuantityOf(rows, sqrt));
    }
  }

  /** The forecast ascends strictly in (semana, pdv, produto) and is a permutation of the pushed records. */
  lemma {:induction false} OptimizedForecastSorted(data: Option<seq<HistoricalRow>>, sqrt: real -> real)
    ensures StrictlySorted(OptimizedForecast(data, sqrt))
    ensures multiset(OptimizedForecast(data, sqrt))
            == multiset(PushOrder(GroupKeys(RowsOf(data)), OptimizedQuantityOf(RowsOf(data), sqrt)))
  {
    var rows := RowsOf(data);
    GroupKeysSpec(rows);
    if rows != [] {
      SortedSlotsSpec(GroupKeys(rows), OptimizedQuantityOf(rows, sqrt));
    }
  }

  /**
   * Every record is for a week in 1..5 and a grouped key, and its quantity is at least 1:
   * the group's own quantity for that week, whatever position it was pushed at.
   */
  lemma {:induction false} OptimizedRecordsWellFormed(data: Option<seq<HistoricalRow>>, sqrt: real -> real,
                                                      r: ForecastRecord)
    requires r in OptimizedForecast(data, sqrt)
    ensures 1 <= r.semana <= 5 && RecordKey(r) in GroupKeys(RowsOf(data)) && r.quantidade >= 1
    ensures var s := SeriesOf(RowsOf(data), RecordKey(r));
            |s| > 0 && r.quantidade == OptimizedWeekQuantity(s, r.semana, sqrt)
  {
    var rows := RowsOf(data);
    var keys := GroupKeys(rows);
    var quantity := OptimizedQuantityOf(rows, sqrt);
    assert r in SortedSlots(keys, quantity);
    SortedSlotsWellFormed(keys, quantity, r);
    var k := RecordKey(r);
    SeriesOfLength(rows, k);
    var i: nat :| i < 5 * |keys| && r.quantidade == quantity(k, r.semana, i);
  }

  /** Every grouped key gets its record for each week 1..5. */
  lemma {:induction false} OptimizedCoversSlot(data: Option<seq<HistoricalRow>>, sqrt: real -> real, g: int, week: int)
    requires 0 <= g < |GroupKeys(RowsOf(data))| && 1 <= week <= 5
    ensures var k := GroupKeys(RowsOf(data))[g];
            var s := SeriesOf(RowsOf(data), k);
            |s| > 0 && ForecastRecord(week, k.pdv, k.produto, OptimizedWeekQuantity(s, week, sqrt))
                       in OptimizedForecast(data, sqrt)
  {
    var rows := RowsOf(data);
    var keys := GroupKeys(rows);
    SeriesOfLength(rows, keys[g]);
    SortedSlotsCover(keys, OptimizedQuantityOf(rows, sqrt), g, week);
  }

  // ---------------------------------------------------------------------------------------
  // The generator as written

  /** A record as the source's generator builds it: the quantity is None where it is NaN. */
  datatype WrittenRecord = WrittenRecord(semana: int, pdv: int, produto: int, quantidade: Option<int>)

  /** The record the source pushes in the slot of `r`, with the source's own quantity. */
  function AsWrittenRecord(rows: seq<HistoricalRow>, r: ForecastRecord, sqrt: real -> real): WrittenRecord
  {
    var s := SeriesOf(rows, RecordKey(r));
    WrittenRecord(r.semana, r.pdv, r.produto, if |s| == 0 then None else OptimizedWeekQuantityAsWritten(s, r.semana, sqrt))
  }

  /** The slot of a written record: its week and ids, which are all the comparator reads. */
  function SlotOfWritten(w: WrittenRecord): ForecastRecord
  {
    ForecastRecord(w.semana, w.pdv, w.produto, 0)
  }

  /** The stable insertion of the sort, on written records: the comparator sees only slots. */
  function InsertWritten(t: seq<WrittenRecord>, x: WrittenRecord): (r: seq<WrittenRecord>)
    ensures |r| == |t| + 1
  {
    if t == [] then [x]
    else if Compare(SlotOfWritten(t[|t| - 1]), SlotOfWritten(x)) <= 0 then t + [x]
    else InsertWritten(t[..|t| - 1], x) + [t[|t| - 1]]
  }

  /** `forecast.sort(comparator)` on the records as the source pushes them. */
  function SortWritten(s: seq<WrittenRecord>): (r: seq<WrittenRecord>)
    ensures |r| == |s|
  {
    if s == [] then [] else InsertWritten(SortWritten(s[..|s| - 1]), s[|s| - 1])
  }

  /** The i-th record the source's loops push: group i / 5, week i % 5 + 1, the source's quantity. */
  function WrittenSlot(rows: seq<HistoricalRow>, i: nat, sqrt: real -> real): WrittenRecord
    requires i < Horizon * |GroupKeys(rows)|
  {
    var k := GroupKeys(rows)[i / Horizon];
    var week := i % Horizon + 1;
    var s := SeriesOf(rows, k);
    WrittenRecord(week, k.pdv, k.produto, if |s| == 0 then None else OptimizedWeekQuantityAsWritten(s, week, sqrt))
  }

  /** The records in the order the source's loops push them. */
  function WrittenPushOrder(rows: seq<HistoricalRow>, sqrt: real -> real): (u: seq<WrittenRecord>)
    ensures |u| == Horizon * |GroupKeys(rows)|
  {
    seq(Horizon * |GroupKeys(rows)|, i requires 0 <= i < Horizon * |GroupKeys(rows)| => WrittenSlot(rows, i, sqrt))
  }

  /** The result of `generateOptimizedForecast` exactly as written: the pushed records, sorted. */
  function OptimizedForecastAsWritten(data: Option<seq<HistoricalRow>>, sqrt: real -> real): seq<WrittenRecord>
  {
    if data.None? || |data.value| == 0 then []
    else SortWritten(WrittenPushOrder(data.value, sqrt))
  }

  /** Every record of `s`, each given the source's quantity for its slot. */
  function MapWritten(rows: seq<HistoricalRow>, s: seq<ForecastRecord>, sqrt: real -> real): (w: seq<WrittenRecord>)
    ensures |w| == |s|
  {
    if s == [] then [] else MapWritten(rows, s[..|s| - 1], sqrt) + [AsWrittenRecord(rows, s[|s| - 1], sqrt)]
  }

  lemma {:induction false} MapWrittenAt(rows: seq<HistoricalRow>, s: seq<ForecastRecord>, sqrt: real -> real, i: int)
    requires 0 <= i < |s|
    ensures MapWritten(rows, s, sqrt)[i] == AsWrittenRecord(rows, s[i], sqrt)
  {
    if i < |s| - 1 {
      MapWrittenAt(rows, s[..|s| - 1], sqrt, i);
    }
  }

  lemma {:induction false} MapWrittenSnoc(rows: seq<HistoricalRow>, s: seq<ForecastRecord>, x: ForecastRecord,
                                          sqrt: real -> real)
    ensures MapWritten(rows, s + [x], sqrt) == MapWritten(rows, s, sqrt) + [AsWrittenRecord(rows, x, sqrt)]
  {
    assert (s + [x])[..|s|] == s;
  }

  /** Inserting commutes with giving every record the source's quantity. */
  lemma {:induction false} InsertWrittenCommutes(rows: seq<HistoricalRow>, t: seq<ForecastRecord>, x: ForecastRecord,
                                                 sqrt: real -> real)
    ensures InsertWritten(MapWritten(rows, t, sqrt), AsWrittenRecord(rows, x, sqrt))
            == MapWritten(rows, Insert(t, x), sqrt)
  {
    if t != [] {
      var init, last := t[..|t| - 1], t[|t| - 1];
      var u := MapWritten(rows, t, sqrt);
      assert u[..|u| - 1] == MapWritten(rows, init, sqrt);
      assert u[|u| - 1] == AsWrittenRecord(rows, last, sqrt);
      if Compare(last, x) <= 0 {
        MapWrittenSnoc(rows, t, x, sqrt);
      } else {
        InsertWrittenCommutes(rows, init, x, sqrt);
        MapWrittenSnoc(rows, Insert(init, x), last, sqrt);
      }
    }
  }

  /** Sorting commutes with giving every record the source's quantity. */
  lemma {:induction false} SortWrittenCommutes(rows: seq<HistoricalRow>, s: seq<ForecastRecord>, sqrt: real -> real)
    ensures SortWritten(MapWritten(rows, s, sqrt)) == MapWritten(rows, SortRecords(s), sqrt)
  {
    if s != [] {
      var init := s[..|s| - 1];
      var u := MapWritten(rows, s, sqrt);
      assert u[..|u| - 1] == MapWritten(rows, init, sqrt);
      SortWrittenCommutes(rows, init, sqrt);
      InsertWrittenCommutes(rows, SortRecords(init), s[|s| - 1], sqrt);
    }
  }

  /** The source's push order is the corrected push order, each record with the source's quantity. */
  lemma {:induction false} WrittenPushOrderIsMapped(rows: seq<HistoricalRow>, sqrt: real -> real)
    ensures WrittenPushOrder(rows, sqrt)
            == MapWritten(rows, PushOrder(GroupKeys(rows), OptimizedQuantityOf(rows, sqrt)), sqrt)
  {
    var u := PushOrder(GroupKeys(rows), OptimizedQuantityOf(rows, sqrt));
    forall i | 0 <= i < |u| ensures WrittenPushOrder(rows, sqrt)[i] == MapWritten(rows, u, sqrt)[i] {
      MapWrittenAt(rows, u, sqrt, i);
    }
  }

  /**
   * The source's sort of its own records puts them in the corrected forecast's order, with
   * the source's quantity in place of the corrected one: the comparator never looks at a
   * quantity.
   */
  lemma {:induction false} AsWrittenIsMapped(data: Option<seq<HistoricalRow>>, sqrt: real -> real)
    ensures OptimizedForecastAsWritten(data, sqrt) == MapWritten(RowsOf(data), OptimizedForecast(data, sqrt), sqrt)
  {
    if data.Some? && |data.value| > 0 {
      var rows := data.value;
      WrittenPushOrderIsMapped(rows, sqrt);
      SortWrittenCommutes(rows, PushOrder(GroupKeys(rows), OptimizedQuantityOf(rows, sqrt)), sqrt);
    }
  }

  lemma {:induction false} AsWrittenLength(data: Option<seq<HistoricalRow>>, sqrt: real -> real)
    ensures |OptimizedForecastAsWritten(data, sqrt)| == |OptimizedForecast(data, sqrt)|
  {
    AsWrittenIsMapped(data, sqrt);
  }

  /**
   * The written forecast has as many records as the corrected one, and each position holds
   * the corrected record's slot with the source's quantity.
   */
  lemma {:induction false} AsWrittenAt(data: Option<seq<HistoricalRow>>, sqrt: real -> real, i: int)
    requires 0 <= i < |OptimizedForecast(data, sqrt)|
    ensures |OptimizedForecastAsWritten(data, sqrt)| == |OptimizedForecast(data, sqrt)|
    ensures OptimizedForecastAsWritten(data, sqrt)[i]
            == AsWrittenRecord(RowsOf(data), OptimizedForecast(data, sqrt)[i], sqrt)
  {
    AsWrittenIsMapped(data, sqrt);
    MapWrittenAt(RowsOf(data), OptimizedForecast(data, sqrt), sqrt, i);
  }

  /**
   * The written forecast ascends strictly in (semana, pdv, produto), and holds one record per
   * distinct key and week.
   */
  lemma {:induction false} AsWrittenSorted(data: Option<seq<HistoricalRow>>, sqrt: real -> real)
    ensures |OptimizedForecastAsWritten(data, sqrt)| == 5 * |GroupKeys(RowsOf(data))|
    ensures var w := OptimizedForecastAsWritten(data, sqrt);
            forall i, j :: 0 <= i < j < |w| ==> Before(SlotOfWritten(w[i]), SlotOfWritten(w[j]))
  {
    var f := OptimizedForecast(data, sqrt);
    var w := OptimizedForecastAsWritten(data, sqrt);
    OptimizedForecastSize(data, sqrt);
    OptimizedForecastSorted(data, sqrt);
    AsWrittenIsMapped(data, sqrt);
    forall i, j | 0 <= i < j < |w| ensures Before(SlotOfWritten(w[i]), SlotOfWritten(w[j])) {
      MapWrittenAt(RowsOf(data), f, sqrt, i);
      MapWrittenAt(RowsOf(data), f, sqrt, j);
      assert Before(f[i], f[j]);
    }
  }

  /** One written record against the corrected record of the same slot. */
  lemma {:induction false} AsWrittenRecordAgrees(rows: seq<HistoricalRow>, r: ForecastRecord, sqrt: real -> real)
    requires IsSquareRoot(sqrt)
    requires var s := SeriesOf(rows, RecordKey(r)); |s| > 0 && r.quantidade == OptimizedWeekQuantity(s, r.semana, sqrt)
    ensures var w := AsWrittenRecord(rows, r, sqrt);
            var s := SeriesOf(rows, RecordKey(r));
            w.semana == r.semana && w.pdv == r.pdv && w.produto == r.produto
            && (w.quantidade.None? <==> Mean(s) == 0.0 && sqrt(PopVariance(s)) == 0.0)
            && (w.quantidade.Some? ==> w.quantidade.value == r.quantidade)
  {
    AsWrittenAgrees(SeriesOf(rows, RecordKey(r)), r.semana, sqrt);
  }

  /**
   * Each record of the written generator has the slot of the corrected one at the same
   * position. Its quantity is NaN exactly when the group's mean and deviation are both 0, and
   * is otherwise the corrected quantity.
   */
  lemma {:induction false} AsWrittenForecastAgrees(data: Option<seq<HistoricalRow>>, sqrt: real -> real, i: int)
    requires IsSquareRoot(sqrt) && 0 <= i < |OptimizedForecast(data, sqrt)|
    ensures var f := OptimizedForecast(data, sqrt);
            var w := OptimizedForecastAsWritten(data, sqrt);
            var s := SeriesOf(RowsOf(data), RecordKey(f[i]));
            |w| == |f| && |s| > 0 && w[i].semana == f[i].semana && w[i].pdv == f[i].pdv && w[i].produto == f[i].produto
            && (w[i].quantidade.None? <==> Mean(s) == 0.0 && sqrt(PopVariance(s)) == 0.0)
            && (w[i].quantidade.Some? ==> w[i].quantidade.value == f[i].quantidade)
  {
    var f := OptimizedForecast(data, sqrt);
    OptimizedRecordsWellFormed(data, sqrt, f[i]);
    AsWrittenAt(data, sqrt, i);
    AsWrittenRecordAgrees(RowsOf(data), f[i], sqrt);
  }

  /** The defect in the output: a group whose quantities are all 0 gets a NaN record for every week. */
  lemma {:induction false} AllZeroGroupForecastIsNaN(data: Option<seq<HistoricalRow>>, sqrt: real -> real,
                                                     g: int, week: int)
    requires IsSquareRoot(sqrt) && 0 <= g < |GroupKeys(RowsOf(data))| && 1 <= week <= 5
    requires var s := SeriesOf(RowsOf(data), GroupKeys(RowsOf(data))[g]);
             forall j :: 0 <= j < |s| ==> s[j] == 0.0
    ensures var k := GroupKeys(RowsOf(data))[g];
            WrittenRecord(week, k.pdv, k.produto, None) in OptimizedForecastAsWritten(data, sqrt)
  {
    var rows := RowsOf(data);
    var k := GroupKeys(rows)[g];
    var s := SeriesOf(rows, k);
    OptimizedCoversSlot(data, sqrt, g, week);
    var f := OptimizedForecast(data, sqrt);
    var r := ForecastRecord(week, k.pdv, k.produto, OptimizedWeekQuantity(s, week, sqrt));
    var i :| 0 <= i < |f| && f[i] == r;
    AllZeroGroupIsNaN(s, week, sqrt);
    AsWrittenAt(data, sqrt, i);
    assert OptimizedForecastAsWritten(data, sqrt)[i] == WrittenRecord(week, k.pdv, k.produto, None);
  }

  lemma {:induction false} PositiveMeanRecord(data: Option<seq<HistoricalRow>>, sqrt: real -> real, i: int)
    requires IsSquareRoot(sqrt) && 0 <= i < |OptimizedForecast(data, sqrt)|
    requires forall k :: k in GroupKeys(RowsOf(data)) ==>
               var s := SeriesOf(RowsOf(data), k); |s| > 0 && Mean(s) > 0.0
    ensures var f := OptimizedForecast(data, sqrt);
            var w := OptimizedForecastAsWritten(data, sqrt);
            |w| == |f| && w[i] == WrittenRecord(f[i].semana, f[i].pdv, f[i].produto, Some(f[i].quantidade))
  {
    var rows := RowsOf(data);
    var r := OptimizedForecast(data, sqrt)[i];
    OptimizedRecordsWellFormed(data, sqrt, r);
    var s := SeriesOf(rows, RecordKey(r));
    assert Mean(s) > 0.0;
    AsWrittenRecordAgrees(rows, r, sqrt);
    var a := AsWrittenRecord(rows, r, sqrt);
    assert a == WrittenRecord(r.semana, r.pdv, r.produto, Some(r.quantidade));
    AsWrittenAt(data, sqrt, i);
  }

  /** When every group has a positive mean, the written generator gives the corrected records. */
  lemma {:induction false} AsWrittenWithPositiveMeans(data: Option<seq<HistoricalRow>>, sqrt: real -> real)
    requires IsSquareRoot(sqrt)
    requires forall k :: k in GroupKeys(RowsOf(data)) ==>
               var s := SeriesOf(RowsOf(data), k); |s| > 0 && Mean(s) > 0.0
    ensures Defined(OptimizedForecastAsWritten(data, sqrt)) == Some(OptimizedForecast(data, sqrt))
  {
    var f := OptimizedForecast(data, sqrt);
    var w := OptimizedForecastAsWritten(data, sqrt);
    AsWrittenLength(data, sqrt);
    forall i | 0 <= i < |f| ensures w[i] == WrittenRecord(f[i].semana, f[i].pdv, f[i].produto, Some(f[i].quantidade)) {
      PositiveMeanRecord(data, sqrt, i);
    }
    DefinedOf(w, f);
  }

  /** The records, once every quantity is a number; None as soon as one is NaN. */
  function Defined(w: seq<WrittenRecord>): (r: Option<seq<ForecastRecord>>)
    ensures r.None? <==> exists i :: 0 <= i < |w| && w[i].quantidade.None?
    ensures r.Some? ==> |r.value| == |w| && forall i :: 0 <= i < |w| ==>
              r.value[i] == ForecastRecord(w[i].semana, w[i].pdv, w[i].produto, w[i].quantidade.value)
  {
    if w == [] then Some([])
    else
      var last := w[|w| - 1];
      match Defined(w[..|w| - 1])
      case None => None
      case Some(init) =>
        if last.quantidade.None? then None
        else Some(init + [ForecastRecord(last.semana, last.pdv, last.produto, last.quantidade.value)])
  }

  lemma {:induction false} DefinedOf(w: seq<WrittenRecord>, f: seq<ForecastRecord>)
    requires |w| == |f|
    requires forall i :: 0 <= i < |f| ==> w[i] == WrittenRecord(f[i].semana, f[i].pdv, f[i].produto, Some(f[i].quantidade))
    ensures Defined(w) == Some(f)
  {
    assert !exists i :: 0 <= i < |w| && w[i].quantidade.None?;
    assert Defined(w).value == f;
  }

  // ---------------------------------------------------------------------------------------
  // The WMAPE estimate

  /** `row.quantidade || 0` for every historical row. */
  function HistoricalQuantities(rows: seq<HistoricalRow>): (q: seq<real>)
    ensures |q| == |rows|
  {
    seq(|rows|, i requires 0 <= i < |rows| => QuantityOf(rows[i]))
  }

  /** The forecast quantities. */
  function ForecastQuantities(forecast: seq<ForecastRecord>): (q: seq<real>)
    ensures |q| == |forecast|
  {
    seq(|forecast|, i requires 0 <= i < |forecast| => forecast[i].quantidade as real)
  }

  function AbsReal(x: real): (r: real)
    ensures r >= 0.0 && (r == x || r == -x)
  {
    if x < 0.0 then -x else x
  }

  /**
   * `calculateEstimatedWmape`: 1.0 for absent or empty data or an empty forecast.
   * Otherwise it is min(0.9, 0.3 + 0.4 |hm - fm| / hm), where hm is the historical mean and
   * fm the forecast mean. A zero hm divides by zero:
   *   - if fm is not 0, the ratio is Infinity and the result is 0.9;
   *   - if fm is 0 too, the result is NaN, which is None here.
   */
  function EstimatedWmape(data: Option<seq<HistoricalRow>>, forecast: seq<ForecastRecord>): (r: Option<real>)
    ensures data.None? || data == Some([]) || forecast == [] ==> r == Some(1.0)
  {
    if data.None? || |data.value| == 0 || |forecast| == 0 then Some(1.0)
    else
      var historicalMean := Mean(HistoricalQuantities(data.value));
      var forecastMean := Mean(ForecastQuantities(forecast));
      if historicalMean != 0.0 then
        Some(MinReal(0.9, 0.3 + Div(AbsReal(historicalMean - forecastMean), historicalMean) * 0.4))
      else if forecastMean != 0.0 then Some(0.9)
      else None
  }

  lemma {:induction false} DivNonNegative(x: real, d: real)
    requires x >= 0.0 && d > 0.0
    ensures Div(x, d) >= 0.0
  {
  }

  /** With a positive historical mean the estimate is defined and lies in [0.3, 0.9]. */
  lemma {:induction false} WmapeBounds(data: Option<seq<HistoricalRow>>, forecast: seq<ForecastRecord>)
    requires data.Some? && |data.value| > 0 && |forecast| > 0
    requires Mean(HistoricalQuantities(data.value)) > 0.0
    ensures EstimatedWmape(data, forecast).Some?
    ensures 0.3 <= EstimatedWmape(data, forecast).value <= 0.9
  {
    var hm := Mean(HistoricalQuantities(data.value));
    var fm := Mean(ForecastQuantities(forecast));
    DivNonNegative(AbsReal(hm - fm), hm);
  }

  /** A forecast whose mean equals the historical mean scores the floor 0.3. */
  lemma {:induction false} WmapeOfMatchingMeans(data: Option<seq<HistoricalRow>>, forecast: seq<ForecastRecord>)
    requires data.Some? && |data.value| > 0 && |forecast| > 0
    requires Mean(HistoricalQuantities(data.value)) > 0.0
    requires Mean(ForecastQuantities(forecast)) == Mean(HistoricalQuantities(data.value))
    ensures EstimatedWmape(data, forecast) == Some(0.3)
  {
    var hm := Mean(HistoricalQuantities(data.value));
    assert Div(AbsReal(hm - hm), hm) == 0.0;
  }

  lemma {:induction false} SumAtLeast(s: seq<real>, lo: real)
    requires forall i :: 0 <= i < |s| ==> s[i] >= lo
    ensures Sum(s) >= |s| as real * lo
  {
    if s != [] {
      SumAtLeast(s[..|s| - 1], lo);
    }
  }

  /** A forecast whose quantities are all at least 1 always gets a defined estimate, never above 1. */
  lemma {:induction false} WmapeDefined(data: Option<seq<HistoricalRow>>, forecast: seq<ForecastRecord>)
    requires forall i :: 0 <= i < |forecast| ==> forecast[i].quantidade >= 1
    ensures EstimatedWmape(data, forecast).Some? && EstimatedWmape(data, forecast).value <= 1.0
  {
    if forecast != [] {
      var q := ForecastQuantities(forecast);
      SumAtLeast(q, 1.0);
      var n := |q| as real;
      assert Sum(q) >= n;
      assert Div(Sum(q), n) >= 1.0;
    }
  }

  /** In particular the estimate of the generator's own forecast is always defined. */
  lemma {:induction false} WmapeOfOptimizedForecast(data: Option<seq<HistoricalRow>>, sqrt: real -> real)
    ensures EstimatedWmape(data, OptimizedForecast(data, sqrt)).Some?
  {
    var f := OptimizedForecast(data, sqrt);
    forall i | 0 <= i < |f| ensures f[i].quantidade >= 1 {
      OptimizedRecordsWellFormed(data, sqrt, f[i]);
    }
    WmapeDefined(data, f);
  }

  /**
   * `calculateEstimatedWmape` on the written generator's records. A NaN quantity makes the
   * forecast mean NaN, and NaN passes through `Math.abs`, the division and `Math.min`.
   */
  function EstimatedWmapeAsWritten(data: Option<seq<HistoricalRow>>, forecast: seq<WrittenRecord>): (r: Option<real>)
    ensures data.None? || data == Some([]) || forecast == [] ==> r == Some(1.0)
    ensures data.Some? && |data.value| > 0 && (exists i :: 0 <= i < |forecast| && forecast[i].quantidade.None?) ==> r.None?
  {
    if data.None? || |data.value| == 0 || |forecast| == 0 then Some(1.0)
    else
      match Defined(forecast)
      case None => None
      case Some(f) => EstimatedWmape(data, f)
  }

  /** The defect in the estimate: one all-zero group makes the source's WMAPE NaN. */
  lemma {:induction false} AllZeroGroupWmapeIsNaN(data: Option<seq<HistoricalRow>>, sqrt: real -> real, g: int)
    requires IsSquareRoot(sqrt) && 0 <= g < |GroupKeys(RowsOf(data))|
    requires var s := SeriesOf(RowsOf(data), GroupKeys(RowsOf(data))[g]);
             forall j :: 0 <= j < |s| ==> s[j] == 0.0
    ensures EstimatedWmapeAsWritten(data, OptimizedForecastAsWritten(data, sqrt)) == None
  {
    var rows := RowsOf(data);
    var k := GroupKeys(rows)[g];
    AllZeroGroupForecastIsNaN(data, sqrt, g, 1);
    var w := OptimizedForecastAsWritten(data, sqrt);
    var i :| 0 <= i < |w| && w[i] == WrittenRecord(1, k.pdv, k.produto, None);
    assert w[i].quantidade.None?;
    GroupKeysSpec(rows);
    assert rows != [];
  }

  /** A one-row history selling nothing: its five records and its estimate are all NaN as written. */
  lemma {:induction false} SingleZeroRowIsNaN(sqrt: real -> real)
    requires IsSquareRoot(sqrt)
    ensures var data := Some([HistoricalRow(1, 1, Some(0.0))]);
            (forall week :: 1 <= week <= 5 ==> WrittenRecord(week, 1, 1, None) in OptimizedForecastAsWritten(data, sqrt))
            && EstimatedWmapeAsWritten(data, OptimizedForecastAsWritten(data, sqrt)) == None
  {
    var rows := [HistoricalRow(1, 1, Some(0.0))];
    var data := Some(rows);
    assert rows[..0] == [];
    assert GroupKeys(rows) == [Key(1, 1)];
    assert SeriesOf(rows, Key(1, 1)) == [0.0];
    forall week | 1 <= week <= 5 ensures WrittenRecord(week, 1, 1, None) in OptimizedForecastAsWritten(data, sqrt) {
      AllZeroGroupForecastIsNaN(data, sqrt, 0, week);
    }
    AllZeroGroupWmapeIsNaN(data, sqrt, 0);
  }

  /** Where every group has a positive mean, the source's estimate is the corrected one's. */
  lemma {:induction false} WmapeAsWrittenWithPositiveMeans(data: Option<seq<HistoricalRow>>, sqrt: real -> real)
    requires IsSquareRoot(sqrt)
    requires forall k :: k in GroupKeys(RowsOf(data)) ==>
               var s := SeriesOf(RowsOf(data), k); |s| > 0 && Mean(s) > 0.0
    ensures EstimatedWmapeAsWritten(data, OptimizedForecastAsWritten(data, sqrt))
            == EstimatedWmape(data, OptimizedForecast(data, sqrt))
  {
    AsWrittenWithPositiveMeans(data, sqrt);
  }

  // ---------------------------------------------------------------------------------------
  // The download

  /**
   * `downloadForecast`'s text: nothing for no results, otherwise the header, a newline and
   * one line per record, in order. The text is the results screen's export of the same
   * records and reads back to them.
   */
  lemma {:induction false} DownloadRoundTrip(results: seq<ForecastRecord>)
    ensures DownloadCsv(results).None? <==> results == []
    ensures DownloadCsv(results).Some? ==>
              ParseCsv(DownloadCsv(results).value) == Some(results)
              && |Split(DownloadCsv(results).value, '\n')| == 1 + |results|
  {
    if results != [] {
      DownloadIsExport(results);
      ExportCsvRoundTrip(results);
      ExportCsvLines(results);
    }
  }
}
