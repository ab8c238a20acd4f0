/**
 * The results screen's derived views of a forecast:
 *   - the five weekly totals;
 *   - the top-10 rankings of points of sale and of products;
 *   - the overall total and the distinct counts;
 *   - the search and week filter, the week toggle, and the 100-row table window.
 * Its CSV export is `Csv.ExportCsv`.
 */
module ForecastResults {
  import opened Records
  import opened Csv

  /** `forecastData || []`. */
  function ProcessedData(forecastData: Option<seq<ForecastRecord>>): seq<ForecastRecord>
  {
    if forecastData.None? then [] else forecastData.value
  }

  /** `reduce((sum, item) => sum + item.quantidade, 0)`. */
  function SumQuantities(items: seq<ForecastRecord>): int
  {
    if items == [] then 0 else SumQuantities(items[..|items| - 1]) + items[|items| - 1].quantidade
  }

  lemma {:induction false} SumQuantitiesAppend(a: seq<ForecastRecord>, b: seq<ForecastRecord>)
    ensures SumQuantities(a + b) == SumQuantities(a) + SumQuantities(b)
  {
    if b == [] {
      assert a + b == a;
    } else {
      assert (a + b)[..|a + b| - 1] == a + b[..|b| - 1];
      SumQuantitiesAppend(a, b[..|b| - 1]);
    }
  }

  // ---------------------------------------------------------------------------------------
  // Weekly totals

  /** `filter(item => item.semana === week)`. */
  function ItemsOfWeek(items: seq<ForecastRecord>, week: int): (r: seq<ForecastRecord>)
    ensures |r| <= |items|
    ensures forall i :: 0 <= i < |r| ==> r[i].semana == week
  {
    if items == [] then []
    else
      var init := ItemsOfWeek(items[..|items| - 1], week);
      if items[|items| - 1].semana == week then init + [items[|items| - 1]] else init
  }

  /** A point of sale or a product: the two fields the screen counts and ranks by. */
  datatype Field = PdvField | ProductField

  function FieldOf(f: Field, r: ForecastRecord): int
  {
    match f
    case PdvField => r.pdv
    case ProductField => r.produto
  }

  /** `new Set(items.map(item => item.pdv))` (or `.produto`). */
  function FieldSet(items: seq<ForecastRecord>, f: Field): set<int>
  {
    if items == [] then {} else FieldSet(items[..|items| - 1], f) + {FieldOf(f, items[|items| - 1])}
  }

  /** The set holds exactly the values the items carry. */
  lemma {:induction false} FieldSetMembers(items: seq<ForecastRecord>, f: Field, v: int)
    ensures v in FieldSet(items, f) <==> exists i :: 0 <= i < |items| && FieldOf(f, items[i]) == v
  {
    if items != [] {
      var init := items[..|items| - 1];
      FieldSetMembers(init, f, v);
      if exists i :: 0 <= i < |init| && FieldOf(f, init[i]) == v {
        var i :| 0 <= i < |init| && FieldOf(f, init[i]) == v;
        assert items[i] == init[i];
      }
      if exists i :: 0 <= i < |items| && FieldOf(f, items[i]) == v {
        var i :| 0 <= i < |items| && FieldOf(f, items[i]) == v;
        if i < |init| {
          assert init[i] == items[i];
        }
      }
    }
  }

  lemma {:induction false} FieldSetSize(items: seq<ForecastRecord>, f: Field)
    ensures |FieldSet(items, f)| <= |items|
  {
    if items != [] {
      FieldSetSize(items[..|items| - 1], f);
    }
  }

  lemma {:induction false} FieldSetEmpty(items: seq<ForecastRecord>, f: Field)
    ensures FieldSet(items, f) == {} <==> items == []
  {
    if items != [] {
      assert FieldOf(f, items[|items| - 1]) in FieldSet(items, f);
    }
  }

  /** One `weeklyTotals` entry. */
  datatype WeekTotal = WeekTotal(week: string, quantidade: int, pdvs: nat, skus: nat)

  function WeekTotalOf(items: seq<ForecastRecord>, week: int): WeekTotal
  {
    var ofWeek := ItemsOfWeek(items, week);
    WeekTotal("Semana " + IntToString(week), SumQuantities(ofWeek), |FieldSet(ofWeek, PdvField)|,
              |FieldSet(ofWeek, ProductField)|)
  }

  /** `[1, 2, 3, 4, 5].map(week => ...)`. */
  function WeeklyTotals(items: seq<ForecastRecord>): (r: seq<WeekTotal>)
    ensures |r| == 5
    ensures forall i :: 0 <= i < 5 ==> r[i] == WeekTotalOf(items, i + 1)
  {
    seq(5, i requires 0 <= i < 5 => WeekTotalOf(items, i + 1))
  }

  /** An item is kept by the week filter exactly when it is one of the items of that week, in order. */
  lemma {:induction false} ItemsOfWeekMembers(items: seq<ForecastRecord>, week: int, x: ForecastRecord)
    ensures x in ItemsOfWeek(items, week) <==> x in items && x.semana == week
  {
    if items != [] {
      var init := items[..|items| - 1];
      ItemsOfWeekMembers(init, week, x);
      assert items == init + [items[|items| - 1]];
    }
  }

  /**
   * The distinct point-of-sale count of a week is the number of distinct pdvs among that
   * week's items (and likewise for products).
   */
  lemma {:induction false} WeekCountsSpec(items: seq<ForecastRecord>, week: int, f: Field, v: int)
    ensures v in FieldSet(ItemsOfWeek(items, week), f) <==>
            exists i :: 0 <= i < |items| && items[i].semana == week && FieldOf(f, items[i]) == v
  {
    var ofWeek := ItemsOfWeek(items, week);
    FieldSetMembers(ofWeek, f, v);
    if exists j :: 0 <= j < |ofWeek| && FieldOf(f, ofWeek[j]) == v {
      var j :| 0 <= j < |ofWeek| && FieldOf(f, ofWeek[j]) == v;
      ItemsOfWeekMembers(items, week, ofWeek[j]);
    }
    if exists i :: 0 <= i < |items| && items[i].semana == week && FieldOf(f, items[i]) == v {
      var i :| 0 <= i < |items| && items[i].semana == week && FieldOf(f, items[i]) == v;
      ItemsOfWeekMembers(items, week, items[i]);
    }
  }

  /** The sum of the five weekly totals. */
  function WeeklySum(items: seq<ForecastRecord>): int
  {
    SumQuantities(ItemsOfWeek(items, 1)) + SumQuantities(ItemsOfWeek(items, 2))
    + SumQuantities(ItemsOfWeek(items, 3)) + SumQuantities(ItemsOfWeek(items, 4))
    + SumQuantities(ItemsOfWeek(items, 5))
  }

  /** The week's total after one more item: the item counts towards its own week only. */
  lemma {:induction false} ItemsOfWeekLast(items: seq<ForecastRecord>, week: int)
    requires items != []
    ensures SumQuantities(ItemsOfWeek(items, week))
            == SumQuantities(ItemsOfWeek(items[..|items| - 1], week))
               + (if items[|items| - 1].semana == week then items[|items| - 1].quantidade else 0)
  {
    var init := ItemsOfWeek(items[..|items| - 1], week);
    var x := items[|items| - 1];
    if x.semana == week {
      assert (init + [x])[..|init|] == init;
    }
  }

  /** When every item is for a week in 1..5, the total quantity is the sum of the five weekly totals. */
  lemma {:induction false} TotalIsSumOfWeeks(items: seq<ForecastRecord>)
    requires forall i :: 0 <= i < |items| ==> 1 <= items[i].semana <= 5
    ensures SumQuantities(items) == WeeklySum(items)
  {
    if items != [] {
      var init := items[..|items| - 1];
      assert forall i :: 0 <= i < |init| ==> init[i] == items[i];
      TotalIsSumOfWeeks(init);
      assert 1 <= items[|items| - 1].semana <= 5;
      ItemsOfWeekLast(items, 1);
      ItemsOfWeekLast(items, 2);
      ItemsOfWeekLast(items, 3);
      ItemsOfWeekLast(items, 4);
      ItemsOfWeekLast(items, 5);
    }
  }

  /** The same, read off the `weeklyTotals` entries the screen shows. */
  lemma {:induction false} TotalIsSumOfWeeklyTotals(items: seq<ForecastRecord>)
    requires forall i :: 0 <= i < |items| ==> 1 <= items[i].semana <= 5
    ensures var w := WeeklyTotals(items);
            TotalQuantity(items) == w[0].quantidade + w[1].quantidade + w[2].quantidade + w[3].quantidade
                                    + w[4].quantidade
  {
    TotalIsSumOfWeeks(items);
  }

  // ---------------------------------------------------------------------------------------
  // Totals and distinct counts

  /** `totalQuantity`. */
  function TotalQuantity(items: seq<ForecastRecord>): int
  {
    SumQuantities(items)
  }

  /** `uniquePdvs` / `uniqueProducts`. */
  function UniqueCount(items: seq<ForecastRecord>, f: Field): (n: nat)
    ensures n <= |items|
    ensures n == 0 <==> items == []
  {
    FieldSetSize(items, f);
    FieldSetEmpty(items, f);
    |FieldSet(items, f)|
  }

  // ---------------------------------------------------------------------------------------
  // Rankings

  /** The values of `f`, distinct, in order of first appearance: the insertion order of the accumulator's keys. */
  function DistinctValues(items: seq<ForecastRecord>, f: Field): seq<int>
  {
    if items == [] then []
    else
      var vs := DistinctValues(items[..|items| - 1], f);
      var v := FieldOf(f, items[|items| - 1]);
      if v in vs then vs else vs + [v]
  }

  predicate Distinct(s: seq<int>)
  {
    forall i, j :: 0 <= i < j < |s| ==> s[i] != s[j]
  }

  lemma {:induction false} DistinctValuesSpec(items: seq<ForecastRecord>, f: Field)
    ensures Distinct(DistinctValues(items, f))
    ensures forall v :: v in DistinctValues(items, f) <==> v in FieldSet(items, f)
  {
    if items != [] {
      DistinctValuesSpec(items[..|items| - 1], f);
    }
  }

  /** The sum of the quantities of the items whose `f` is `v`. */
  function TotalFor(items: seq<ForecastRecord>, f: Field, v: int): int
  {
    if items == [] then 0
    else
      TotalFor(items[..|items| - 1], f, v)
      + (if FieldOf(f, items[|items| - 1]) == v then items[|items| - 1].quantidade else 0)
  }

  /**
   * The `reduce` into `acc`: `if (!acc[v]) acc[v] = 0; acc[v] += item.quantidade`. The reset
   * of a falsy entry only ever resets a 0, so it changes nothing.
   */
  function Accumulate(items: seq<ForecastRecord>, f: Field): map<int, int>
  {
    if items == [] then map[]
    else
      var acc := Accumulate(items[..|items| - 1], f);
      var x := items[|items| - 1];
      var v := FieldOf(f, x);
      var start := if v !in acc || acc[v] == 0 then 0 else acc[v];
      acc[v := start + x.quantidade]
  }

  /** The accumulator has an entry for each value present, holding that value's total. */
  lemma {:induction false} AccumulateSpec(items: seq<ForecastRecord>, f: Field)
    ensures forall v :: v in Accumulate(items, f) <==> v in FieldSet(items, f)
    ensures forall v :: v in Accumulate(items, f) ==> Accumulate(items, f)[v] == TotalFor(items, f, v)
  {
    if items != [] {
      var init := items[..|items| - 1];
      AccumulateSpec(init, f);
      var v := FieldOf(f, items[|items| - 1]);
      if v !in FieldSet(init, f) {
        TotalForAbsent(init, f, v);
      }
    }
  }

  /** A value no item carries has total 0. */
  lemma {:induction false} TotalForAbsent(items: seq<ForecastRecord>, f: Field, v: int)
    requires v !in FieldSet(items, f)
    ensures TotalFor(items, f, v) == 0
  {
    if items != [] {
      TotalForAbsent(items[..|items| - 1], f, v);
    }
  }

  /** Object keys that are array indices: `Object.entries` lists them first, in ascending order. */
  predicate IsArrayIndex(v: int)
  {
    0 <= v < 0x1_0000_0000 - 1
  }

  function IndexKeys(vs: seq<int>): (r: seq<int>)
    ensures forall v :: v in r <==> v in vs && IsArrayIndex(v)
    ensures |r| <= |vs|
  {
    if vs == [] then []
    else
      var init := IndexKeys(vs[..|vs| - 1]);
      if IsArrayIndex(vs[|vs| - 1]) then init + [vs[|vs| - 1]] else init
  }

  function OtherKeys(vs: seq<int>): (r: seq<int>)
    ensures forall v :: v in r <==> v in vs && !IsArrayIndex(v)
    ensures |r| <= |vs|
  {
    if vs == [] then []
    else
      var init := OtherKeys(vs[..|vs| - 1]);
      if !IsArrayIndex(vs[|vs| - 1]) then init + [vs[|vs| - 1]] else init
  }

  lemma {:induction false} KeysSplit(vs: seq<int>)
    ensures |IndexKeys(vs)| + |OtherKeys(vs)| == |vs|
    ensures Distinct(vs) ==> Distinct(IndexKeys(vs)) && Distinct(OtherKeys(vs))
  {
    if vs != [] {
      var init := vs[..|vs| - 1];
      KeysSplit(init);
      if Distinct(vs) {
        assert Distinct(init) by {
          forall i, j | 0 <= i < j < |init| ensures init[i] != init[j] {
            assert init[i] == vs[i] && init[j] == vs[j];
          }
        }
        assert vs[|vs| - 1] !in init by {
          forall i | 0 <= i < |init| ensures init[i] != vs[|vs| - 1] {
            assert init[i] == vs[i];
          }
        }
      }
    }
  }

  /** Inserts `x` into an ascending sequence. */
  function InsertAscending(t: seq<int>, x: int): (r: seq<int>)
    ensures |r| == |t| + 1
    ensures forall v :: v in r <==> v == x || v in t
  {
    if t == [] then [x]
    else if t[|t| - 1] <= x then t + [x]
    else InsertAscending(t[..|t| - 1], x) + [t[|t| - 1]]
  }

  predicate Ascending(s: seq<int>)
  {
    forall i, j :: 0 <= i < j < |s| ==> s[i] < s[j]
  }

  lemma {:induction false} InsertAscendingSorted(t: seq<int>, x: int)
    requires Ascending(t) && x !in t
    ensures Ascending(InsertAscending(t, x))
  {
    if t != [] && t[|t| - 1] > x {
      var init := t[..|t| - 1];
      assert Ascending(init) by {
        forall i, j | 0 <= i < j < |init| ensures init[i] < init[j] {
          assert init[i] == t[i] && init[j] == t[j];
        }
      }
      assert x !in init by {
        forall i | 0 <= i < |init| ensures init[i] != x {
          assert init[i] == t[i];
        }
      }
      InsertAscendingSorted(init, x);
      var u := InsertAscending(init, x);
      forall i | 0 <= i < |u| ensures u[i] < t[|t| - 1] {
        assert u[i] in u;
        if u[i] != x {
          var k :| 0 <= k < |init| && init[k] == u[i];
          assert t[k] == init[k];
        }
      }
    }
  }

  /** The array-index keys in ascending order. */
  function SortAscending(s: seq<int>): (r: seq<int>)
    ensures |r| == |s|
    ensures forall v :: v in r <==> v in s
  {
    if s == [] then [] else InsertAscending(SortAscending(s[..|s| - 1]), s[|s| - 1])
  }

  lemma {:induction false} SortAscendingSorted(s: seq<int>)
    requires Distinct(s)
    ensures Ascending(SortAscending(s))
  {
    if s != [] {
      var init := s[..|s| - 1];
      assert Distinct(init) by {
        forall i, j | 0 <= i < j < |init| ensures init[i] != init[j] {
          assert init[i] == s[i] && init[j] == s[j];
        }
      }
      assert s[|s| - 1] !in init by {
        forall i | 0 <= i < |init| ensures init[i] != s[|s| - 1] {
          assert init[i] == s[i];
        }
      }
      SortAscendingSorted(init);
      InsertAscendingSorted(SortAscending(init), s[|s| - 1]);
    }
  }

  /** `Object.entries` key order: array-index keys ascending, then the other keys in insertion order. */
  function EnumerationOrder(vs: seq<int>): seq<int>
  {
    SortAscending(IndexKeys(vs)) + OtherKeys(vs)
  }

  lemma {:induction false} DistinctJoin(a: seq<int>, b: seq<int>)
    requires Distinct(a) && Distinct(b) && forall v :: v in a ==> v !in b
    ensures Distinct(a + b)
  {
    var c := a + b;
    forall i, j | 0 <= i < j < |c| ensures c[i] != c[j] {
      if j < |a| {
        assert c[i] == a[i] && c[j] == a[j];
      } else if i >= |a| {
        assert c[i] == b[i - |a|] && c[j] == b[j - |a|];
      } else {
        assert c[i] == a[i] && c[j] == b[j - |a|];
        assert c[i] in a;
      }
    }
  }

  /** The enumeration lists each key once, and only the keys. */
  lemma {:induction false} EnumerationOrderSpec(vs: seq<int>)
    requires Distinct(vs)
    ensures |EnumerationOrder(vs)| == |vs| && Distinct(EnumerationOrder(vs))
    ensures forall v :: v in EnumerationOrder(vs) <==> v in vs
    ensures forall i, j :: (0 <= i < j < |EnumerationOrder(vs)| && IsArrayIndex(EnumerationOrder(vs)[j]))
                           ==> IsArrayIndex(EnumerationOrder(vs)[i]) && EnumerationOrder(vs)[i] < EnumerationOrder(vs)[j]
  {
    KeysSplit(vs);
    var a := SortAscending(IndexKeys(vs));
    var b := OtherKeys(vs);
    SortAscendingSorted(IndexKeys(vs));
    DistinctJoin(a, b);
    var e := a + b;
    forall k | |a| <= k < |e| ensures !IsArrayIndex(e[k]) {
      assert e[k] == b[k - |a|] && b[k - |a|] in b;
    }
    forall i, j | 0 <= i < j < |e| && IsArrayIndex(e[j]) ensures IsArrayIndex(e[i]) && e[i] < e[j] {
      assert e[i] == a[i] && e[j] == a[j] && e[i] in a;
    }
  }

  /** One ranking entry: the pdv (or product) and its total. */
  datatype Ranked = Ranked(id: int, quantidade: int)

  /** `Object.entries(acc)`. */
  function Entries(items: seq<ForecastRecord>, f: Field): (r: seq<Ranked>)
    ensures |r| == |EnumerationOrder(DistinctValues(items, f))|
  {
    var acc := Accumulate(items, f);
    var keys := EnumerationOrder(DistinctValues(items, f));
    seq(|keys|, i requires 0 <= i < |keys| => Ranked(keys[i], if keys[i] in acc then acc[keys[i]] else 0))
  }

  /** Inserting into a sequence sorted by decreasing total, after every entry with at least the same total. */
  function InsertByTotal(t: seq<Ranked>, x: Ranked): (r: seq<Ranked>)
    ensures |r| == |t| + 1
    ensures multiset(r) == multiset(t) + multiset{x}
  {
    if t == [] then [x]
    else if t[|t| - 1].quantidade >= x.quantidade then t + [x]
    else
      var init := t[..|t| - 1];
      assert t == init + [t[|t| - 1]];
      InsertByTotal(init, x) + [t[|t| - 1]]
  }

  /** `sort((a, b) => b[1] - a[1])`, a stable sort by decreasing total. */
  function SortByTotal(s: seq<Ranked>): (r: seq<Ranked>)
    ensures |r| == |s|
    ensures multiset(r) == multiset(s)
  {
    if s == [] then []
    else
      assert s == s[..|s| - 1] + [s[|s| - 1]];
      InsertByTotal(SortByTotal(s[..|s| - 1]), s[|s| - 1])
  }

  predicate NonIncreasing(s: seq<Ranked>)
  {
    forall i, j :: 0 <= i < j < |s| ==> s[i].quantidade >= s[j].quantidade
  }

  lemma {:induction false} InsertByTotalSorted(t: seq<Ranked>, x: Ranked)
    requires NonIncreasing(t)
    ensures NonIncreasing(InsertByTotal(t, x))
  {
    if t != [] && t[|t| - 1].quantidade < x.quantidade {
      var init := t[..|t| - 1];
      var last := t[|t| - 1];
      assert NonIncreasing(init) by {
        forall i, j | 0 <= i < j < |init| ensures init[i].quantidade >= init[j].quantidade {
          assert init[i] == t[i] && init[j] == t[j];
        }
      }
      InsertByTotalSorted(init, x);
      var u := InsertByTotal(init, x);
      forall i | 0 <= i < |u| ensures u[i].quantidade >= last.quantidade {
        assert u[i] in multiset(u);
        if u[i] != x {
          var k :| 0 <= k < |init| && init[k] == u[i];
          assert t[k] == init[k];
        }
      }
    }
  }

  lemma {:induction false} SortByTotalSorted(s: seq<Ranked>)
    ensures NonIncreasing(SortByTotal(s))
  {
    if s != [] {
      SortByTotalSorted(s[..|s| - 1]);
      InsertByTotalSorted(SortByTotal(s[..|s| - 1]), s[|s| - 1]);
    }
  }

  /** The ranking size. */
  const TopCount: nat := 10

  /** `.slice(0, 10)`. */
  function TakeTop(s: seq<Ranked>): (r: seq<Ranked>)
    ensures |r| == if |s| <= TopCount then |s| else TopCount
    ensures r == s[..|r|]
  {
    if |s| <= TopCount then s else s[..TopCount]
  }

  /** The ranking of a list of entries: sorted by decreasing total, then cut to ten. */
  function Ranking(es: seq<Ranked>): seq<Ranked>
  {
    TakeTop(SortByTotal(es))
  }

  /** `topPdvs` (`PdvField`) and `topProducts` (`ProductField`). */
  function Top(items: seq<ForecastRecord>, f: Field): seq<Ranked>
  {
    Ranking(Entries(items, f))
  }

  predicate DistinctIds(s: seq<Ranked>)
  {
    forall i, j :: 0 <= i < j < |s| ==> s[i].id != s[j].id
  }

  /**
   * A ranking lists min(10, |es|) of the entries, by non-increasing total, no id twice when
   * the entries have none twice, and an entry it leaves out has no larger total than any
   * entry it lists.
   */
  lemma {:induction false} RankingSpec(es: seq<Ranked>)
    ensures |Ranking(es)| == if |es| <= TopCount then |es| else TopCount
    ensures NonIncreasing(Ranking(es))
    ensures forall e :: e in Ranking(es) ==> e in es
    ensures DistinctIds(es) ==> DistinctIds(Ranking(es))
    ensures forall x, e :: x in es && e in Ranking(es) && x !in Ranking(es) ==> x.quantidade <= e.quantidade
  {
    var sorted := SortByTotal(es);
    var top := Ranking(es);
    SortByTotalSorted(es);
    forall x | x in sorted ensures x in es {
      assert x in multiset(sorted);
    }
    forall e | e in top ensures e in es {
      var i :| 0 <= i < |top| && top[i] == e;
      assert sorted[i] == e;
    }
    if DistinctIds(es) {
      forall i, j | 0 <= i < j < |top| ensures top[i].id != top[j].id {
        DistinctIdsSurvive(es, sorted, i, j);
      }
    }
    forall x, e | x in es && e in top && x !in top ensures x.quantidade <= e.quantidade {
      assert x in multiset(es);
      RankingLeavesOutSmaller(sorted, top, x, e);
    }
  }

  /** In a sorted list cut to a prefix, an element past the cut is no larger than one before it. */
  lemma {:induction false} RankingLeavesOutSmaller(sorted: seq<Ranked>, top: seq<Ranked>, x: Ranked, e: Ranked)
    requires NonIncreasing(sorted) && |top| <= |sorted| && top == sorted[..|top|]
    requires x in sorted && e in top && x !in top
    ensures x.quantidade <= e.quantidade
  {
    var k :| 0 <= k < |sorted| && sorted[k] == x;
    var i :| 0 <= i < |top| && top[i] == e;
    forall m | 0 <= m < |top| ensures sorted[m] != x {
      assert sorted[m] == top[m] && top[m] in top;
    }
    assert sorted[i] == e;
  }

  /** The keys behind the entries, with their accumulated totals. */
  lemma {:induction false} EntriesKeys(items: seq<ForecastRecord>, f: Field)
    ensures var keys := EnumerationOrder(DistinctValues(items, f));
            forall i :: 0 <= i < |keys| ==> Entries(items, f)[i] == Ranked(keys[i], TotalFor(items, f, keys[i]))
    ensures var keys := EnumerationOrder(DistinctValues(items, f));
            Distinct(keys) && forall v :: v in keys <==> v in FieldSet(items, f)
    ensures |Entries(items, f)| == |DistinctValues(items, f)|
  {
    var vs := DistinctValues(items, f);
    DistinctValuesSpec(items, f);
    EnumerationOrderSpec(vs);
    AccumulateSpec(items, f);
    var keys := EnumerationOrder(vs);
    forall i | 0 <= i < |keys| ensures keys[i] in Accumulate(items, f) {
      assert keys[i] in keys;
    }
  }

  /** The entries: one per distinct value, with the value's total. */
  lemma {:induction false} EntriesSpec(items: seq<ForecastRecord>, f: Field)
    ensures |Entries(items, f)| == UniqueCount(items, f)
    ensures DistinctIds(Entries(items, f))
    ensures forall e :: e in Entries(items, f) ==> e.id in FieldSet(items, f) && e.quantidade == TotalFor(items, f, e.id)
    ensures forall v :: v in FieldSet(items, f) ==> Ranked(v, TotalFor(items, f, v)) in Entries(items, f)
  {
    var vs := DistinctValues(items, f);
    var keys := EnumerationOrder(vs);
    var e := Entries(items, f);
    EntriesKeys(items, f);
    DistinctValuesCount(items, f);
    forall i, j | 0 <= i < j < |e| ensures e[i].id != e[j].id {
      assert e[i].id == keys[i] && e[j].id == keys[j];
    }
    forall x | x in e ensures x.id in FieldSet(items, f) && x.quantidade == TotalFor(items, f, x.id) {
      var i :| 0 <= i < |e| && e[i] == x;
      assert keys[i] in keys;
    }
    forall v | v in FieldSet(items, f) ensures Ranked(v, TotalFor(items, f, v)) in e {
      var i :| 0 <= i < |keys| && keys[i] == v;
      assert e[i] == Ranked(v, TotalFor(items, f, v));
    }
  }

  /** There are as many distinct values in first-appearance order as in the set. */
  lemma {:induction false} DistinctValuesCount(items: seq<ForecastRecord>, f: Field)
    ensures |DistinctValues(items, f)| == |FieldSet(items, f)|
  {
    if items != [] {
      var init := items[..|items| - 1];
      var v := FieldOf(f, items[|items| - 1]);
      var set0 := FieldSet(init, f);
      DistinctValuesCount(init, f);
      DistinctValuesSpec(init, f);
      assert FieldSet(items, f) == set0 + {v};
      if v in DistinctValues(init, f) {
        assert FieldSet(items, f) == set0;
      } else {
        assert v !in set0;
        assert |set0 + {v}| == |set0| + 1;
      }
    }
  }

  /**
   * The ranking has min(10, distinct count) entries, ordered by non-increasing total, each
   * a distinct present value with its own total. No value left out has a larger total than
   * any value listed.
   */
  lemma {:induction false} TopSpec(items: seq<ForecastRecord>, f: Field)
    ensures |Top(items, f)| == if UniqueCount(items, f) <= TopCount then UniqueCount(items, f) else TopCount
    ensures NonIncreasing(Top(items, f))
    ensures DistinctIds(Top(items, f))
    ensures forall e :: e in Top(items, f) ==> e.id in FieldSet(items, f) && e.quantidade == TotalFor(items, f, e.id)
    ensures forall v, e :: v in FieldSet(items, f) && e in Top(items, f)
                           && (forall e' :: e' in Top(items, f) ==> e'.id != v)
                           ==> TotalFor(items, f, v) <= e.quantidade
  {
    var es := Entries(items, f);
    EntriesSpec(items, f);
    RankingSpec(es);
    var top := Top(items, f);
    forall v, e | v in FieldSet(items, f) && e in top && (forall e' :: e' in top ==> e'.id != v)
      ensures TotalFor(items, f, v) <= e.quantidade
    {
      var x := Ranked(v, TotalFor(items, f, v));
      assert x in es;
      assert x !in top;
    }
  }

  /** Sorting does not create two entries with the same id. */
  lemma {:induction false} DistinctIdsSurvive(es: seq<Ranked>, sorted: seq<Ranked>, i: int, j: int)
    requires multiset(sorted) == multiset(es)
    requires forall a, b :: 0 <= a < b < |es| ==> es[a].id != es[b].id
    requires 0 <= i < j < |sorted|
    ensures sorted[i].id != sorted[j].id
  {
    if sorted[i].id == sorted[j].id {
      assert sorted[i] in multiset(es) && sorted[j] in multiset(es);
      var a :| 0 <= a < |es| && es[a] == sorted[i];
      var b :| 0 <= b < |es| && es[b] == sorted[j];
      if a == b {
        var m := multiset(sorted);
        assert sorted == sorted[..j] + [sorted[j]] + sorted[j + 1..];
        assert sorted[..j] == sorted[..i] + [sorted[i]] + sorted[i + 1..j];
        assert m[sorted[i]] >= 2;
        CountOfDistinct(es, a);
        assert false;
      }
    }
  }

  /** In a sequence with distinct ids, each entry occurs once. */
  lemma {:induction false} CountOfDistinct(es: seq<Ranked>, a: int)
    requires forall x, y :: 0 <= x < y < |es| ==> es[x].id != es[y].id
    requires 0 <= a < |es|
    ensures multiset(es)[es[a]] == 1
  {
    var init := es[..|es| - 1];
    var last := es[|es| - 1];
    assert es == init + [last];
    assert forall x, y :: 0 <= x < y < |init| ==> init[x].id != init[y].id by {
      forall x, y | 0 <= x < y < |init| ensures init[x].id != init[y].id {
        assert init[x] == es[x] && init[y] == es[y];
      }
    }
    if a == |es| - 1 {
      assert last !in init by {
        forall x | 0 <= x < |init| ensures init[x] != last {
          assert init[x] == es[x];
        }
      }
      assert multiset(init)[last] == 0;
    } else {
      CountOfDistinct(init, a);
      assert init[a] == es[a];
      assert es[a] != last;
    }
  }

  // ---------------------------------------------------------------------------------------
  // Filter, toggle and table window

  /** `s.includes(t)` for a non-empty `t`. */
  predicate Contains(s: string, t: string)
  {
    exists i :: 0 <= i <= |s| - |t| && OccursAt(s, t, i)
  }

  predicate OccursAt(s: string, t: string, i: int)
  {
    0 <= i && i + |t| <= |s| && s[i..i + |t|] == t
  }

  /** `!searchTerm || item.pdv.toString().includes(searchTerm) || item.produto.toString().includes(searchTerm)`. */
  predicate MatchesSearch(item: ForecastRecord, searchTerm: string)
  {
    searchTerm == [] || Contains(IntToString(item.pdv), searchTerm) || Contains(IntToString(item.produto), searchTerm)
  }

  /** `!selectedWeek || item.semana === selectedWeek`; a selected 0 is falsy and filters nothing. */
  predicate MatchesWeek(item: ForecastRecord, selectedWeek: Option<int>)
  {
    selectedWeek.None? || selectedWeek.value == 0 || item.semana == selectedWeek.value
  }

  predicate Matches(item: ForecastRecord, searchTerm: string, selectedWeek: Option<int>)
  {
    MatchesSearch(item, searchTerm) && MatchesWeek(item, selectedWeek)
  }

  /** `filteredData`. */
  function FilteredData(items: seq<ForecastRecord>, searchTerm: string, selectedWeek: Option<int>): seq<ForecastRecord>
  {
    if items == [] then []
    else
      var init := FilteredData(items[..|items| - 1], searchTerm, selectedWeek);
      var x := items[|items| - 1];
      if Matches(x, searchTerm, selectedWeek) then init + [x] else init
  }

  /** `s` is `t` with some elements removed, the rest in their order. */
  predicate IsSubsequence(s: seq<ForecastRecord>, t: seq<ForecastRecord>)
    decreases |t|
  {
    if s == [] then true
    else if t == [] then false
    else if s[|s| - 1] == t[|t| - 1] then IsSubsequence(s[..|s| - 1], t[..|t| - 1])
    else IsSubsequence(s, t[..|t| - 1])
  }

  /** The filter keeps the items in their order, dropping some. */
  lemma {:induction false} FilteredDataIsSubsequence(items: seq<ForecastRecord>, searchTerm: string,
                                                     selectedWeek: Option<int>)
    ensures IsSubsequence(FilteredData(items, searchTerm, selectedWeek), items)
  {
    if items != [] {
      var init := items[..|items| - 1];
      var x := items[|items| - 1];
      FilteredDataIsSubsequence(init, searchTerm, selectedWeek);
      var r := FilteredData(items, searchTerm, selectedWeek);
      var r0 := FilteredData(init, searchTerm, selectedWeek);
      assert init + [x] == items;
      if Matches(x, searchTerm, selectedWeek) {
        SubsequenceSnoc(r0, init, x);
      } else {
        SubsequenceExtend(r0, init, x);
      }
    }
  }

  /** The filter keeps exactly the items that match both the search and the week. */
  lemma {:induction false} FilteredDataMembers(items: seq<ForecastRecord>, searchTerm: string,
                                               selectedWeek: Option<int>, x: ForecastRecord)
    ensures x in FilteredData(items, searchTerm, selectedWeek) <==> x in items && Matches(x, searchTerm, selectedWeek)
  {
    if items != [] {
      var init := items[..|items| - 1];
      FilteredDataMembers(init, searchTerm, selectedWeek, x);
      assert items == init + [items[|items| - 1]];
    }
  }

  /** With an empty search and no selected week nothing is filtered out. */
  lemma {:induction false} FilteredDataUnfiltered(items: seq<ForecastRecord>)
    ensures FilteredData(items, [], None) == items
  {
    if items != [] {
      FilteredDataUnfiltered(items[..|items| - 1]);
    }
  }

  /** With a week selected, every item shown is of that week. */
  lemma {:induction false} FilteredDataOfWeek(items: seq<ForecastRecord>, searchTerm: string, week: int)
    requires week != 0
    ensures forall x :: x in FilteredData(items, searchTerm, Some(week)) ==> x.semana == week
  {
    forall x | x in FilteredData(items, searchTerm, Some(week)) ensures x.semana == week {
      FilteredDataMembers(items, searchTerm, Some(week), x);
    }
  }

  lemma {:induction false} SubsequenceSnoc(s: seq<ForecastRecord>, t: seq<ForecastRecord>, x: ForecastRecord)
    requires IsSubsequence(s, t)
    ensures IsSubsequence(s + [x], t + [x])
  {
    assert (s + [x])[..|s|] == s;
    assert (t + [x])[..|t|] == t;
  }

  /** A subsequence of `t` is one of `t` extended. */
  lemma {:induction false} SubsequenceExtend(s: seq<ForecastRecord>, t: seq<ForecastRecord>, x: ForecastRecord)
    requires IsSubsequence(s, t)
    ensures IsSubsequence(s, t + [x])
    decreases |t|, 1
  {
    var u := t + [x];
    assert u[..|u| - 1] == t;
    if s != [] && s[|s| - 1] == x {
      SubsequenceOfPrefix(s, t);
    }
  }

  /** A subsequence stays one when its last element is dropped. */
  lemma {:induction false} SubsequenceOfPrefix(s: seq<ForecastRecord>, t: seq<ForecastRecord>)
    requires s != [] && IsSubsequence(s, t)
    ensures IsSubsequence(s[..|s| - 1], t)
    decreases |t|, 0
  {
    var ti := t[..|t| - 1];
    assert t == ti + [t[|t| - 1]];
    if s[|s| - 1] == t[|t| - 1] {
      SubsequenceExtend(s[..|s| - 1], ti, t[|t| - 1]);
    } else {
      SubsequenceOfPrefix(s, ti);
      SubsequenceExtend(s[..|s| - 1], ti, t[|t| - 1]);
    }
  }

  /** The week buttons: clicking the selected week clears the selection, any other week selects it. */
  function ToggleWeek(selectedWeek: Option<int>, week: int): (r: Option<int>)
    ensures r.None? <==> selectedWeek == Some(week)
    ensures r.Some? ==> r.value == week
  {
    if selectedWeek == Some(week) then None else Some(week)
  }

  /** The table rows: `filteredData.slice(0, 100)`. */
  const TableLimit: nat := 100

  function VisibleRows(filtered: seq<ForecastRecord>): (r: seq<ForecastRecord>)
    ensures |r| == if |filtered| <= TableLimit then |filtered| else TableLimit
    ensures r == filtered[..|r|]
  {
    if |filtered| <= TableLimit then filtered else filtered[..TableLimit]
  }

  /** The "showing the first 100 of n" note. */
  predicate ShowsTruncationNote(filtered: seq<ForecastRecord>)
  {
    |filtered| > TableLimit
  }

  /** The note is shown exactly when the table does not show every filtered row. */
  lemma {:induction false} TableWindowSpec(filtered: seq<ForecastRecord>)
    ensures ShowsTruncationNote(filtered) <==> VisibleRows(filtered) != filtered
  {
    if ShowsTruncationNote(filtered) {
      assert |VisibleRows(filtered)| < |filtered|;
    }
  }

  /** The results screen's CSV export: the header is written even for an empty forecast. */
  function ExportToCsv(forecastData: Option<seq<ForecastRecord>>): string
  {
    ExportCsv(ProcessedData(forecastData))
  }

  lemma {:induction false} ExportToCsvSpec(forecastData: Option<seq<ForecastRecord>>)
    ensures ParseCsv(ExportToCsv(forecastData)) == Some(ProcessedData(forecastData))
    ensures |Split(ExportToCsv(forecastData), '\n')| == 1 + |ProcessedData(forecastData)|
    ensures ProcessedData(forecastData) == [] ==> ExportToCsv(forecastData) == Header
  {
    ExportCsvRoundTrip(ProcessedData(forecastData));
    ExportCsvLines(ProcessedData(forecastData));
    ExportCsvEmpty();
  }
}
