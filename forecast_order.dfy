/**
 * The order both forecast generators put their output in: `Array.prototype.sort` with a
 * comparator that subtracts week numbers, then pdv ids, then product ids. The library
 * sort is stable; it is modelled here as a stable insertion sort on sequences.
 */
module ForecastOrder {
  import opened Records

  /** The comparator: the first non-zero difference of week, pdv and product. */
  function Compare(a: ForecastRecord, b: ForecastRecord): int
  {
    if a.semana != b.semana then a.semana - b.semana
    else if a.pdv != b.pdv then a.pdv - b.pdv
    else a.produto - b.produto
  }

  /** Strictly before in the lexicographic order on (semana, pdv, produto). */
  predicate Before(a: ForecastRecord, b: ForecastRecord)
  {
    a.semana < b.semana
    || (a.semana == b.semana && a.pdv < b.pdv)
    || (a.semana == b.semana && a.pdv == b.pdv && a.produto < b.produto)
  }

  predicate SameSlot(a: ForecastRecord, b: ForecastRecord)
  {
    a.semana == b.semana && a.pdv == b.pdv && a.produto == b.produto
  }

  /** The comparator's sign is the lexicographic order, and it is zero exactly on equal slots. */
  lemma CompareIsLexicographic(a: ForecastRecord, b: ForecastRecord)
    ensures Compare(a, b) < 0 <==> Before(a, b)
    ensures Compare(a, b) == 0 <==> SameSlot(a, b)
    ensures Compare(a, b) > 0 <==> Before(b, a)
  {
  }

  predicate Sorted(s: seq<ForecastRecord>)
  {
    forall i, j :: 0 <= i < j < |s| ==> !Before(s[j], s[i])
  }

  predicate StrictlySorted(s: seq<ForecastRecord>)
  {
    forall i, j :: 0 <= i < j < |s| ==> Before(s[i], s[j])
  }

  /** No two records of `s` share a (semana, pdv, produto) slot. */
  predicate DistinctSlots(s: seq<ForecastRecord>)
  {
    forall i, j :: 0 <= i < j < |s| ==> !SameSlot(s[i], s[j])
  }

  /**
   * Inserts `x` into a sorted sequence after every element the comparator does not put
   * after it, which keeps equal elements in their original order.
   */
  function Insert(t: seq<ForecastRecord>, x: ForecastRecord): (r: seq<ForecastRecord>)
    ensures |r| == |t| + 1
  {
    if t == [] then [x]
    else if Compare(t[|t| - 1], x) <= 0 then t + [x]
    else Insert(t[..|t| - 1], x) + [t[|t| - 1]]
  }

  /** `forecast.sort(comparator)`. */
  function SortRecords(s: seq<ForecastRecord>): (r: seq<ForecastRecord>)
    ensures |r| == |s|
  {
    if s == [] then [] else Insert(SortRecords(s[..|s| - 1]), s[|s| - 1])
  }

  lemma {:induction false} InsertPermutes(t: seq<ForecastRecord>, x: ForecastRecord)
    ensures multiset(Insert(t, x)) == multiset(t) + multiset{x}
  {
    if t != [] && Compare(t[|t| - 1], x) > 0 {
      var init := t[..|t| - 1];
      InsertPermutes(init, x);
      assert t == init + [t[|t| - 1]];
    }
  }

  /** Appending an element that nothing before it follows keeps a sequence sorted. */
  lemma {:induction false} SortedSnoc(u: seq<ForecastRecord>, y: ForecastRecord)
    requires Sorted(u)
    requires forall i :: 0 <= i < |u| ==> !Before(y, u[i])
    ensures Sorted(u + [y])
  {
    var v := u + [y];
    forall i, j | 0 <= i < j < |v| ensures !Before(v[j], v[i]) {
      assert v[i] == u[i];
      if j < |u| {
        assert v[j] == u[j];
      }
    }
  }

  /** The elements of `Insert(t, x)` are `x` and those of `t`. */
  lemma {:induction false} InsertMembers(t: seq<ForecastRecord>, x: ForecastRecord, y: ForecastRecord)
    ensures y in Insert(t, x) <==> y == x || y in t
  {
    InsertPermutes(t, x);
    assert y in Insert(t, x) <==> y in multiset(Insert(t, x));
  }

  lemma {:induction false} InsertSorted(t: seq<ForecastRecord>, x: ForecastRecord)
    requires Sorted(t)
    ensures Sorted(Insert(t, x))
  {
    if t == [] {
      assert Insert(t, x) == [x];
    } else {
      var last := t[|t| - 1];
      var init := t[..|t| - 1];
      if Compare(last, x) <= 0 {
        forall i | 0 <= i < |t| ensures !Before(x, t[i]) {
          if i < |t| - 1 {
            assert !Before(last, t[i]);
          }
        }
        SortedSnoc(t, x);
      } else {
        assert Sorted(init) by {
          forall i, j | 0 <= i < j < |init| ensures !Before(init[j], init[i]) {
            assert init[i] == t[i] && init[j] == t[j];
          }
        }
        InsertSorted(init, x);
        var u := Insert(init, x);
        forall i | 0 <= i < |u| ensures !Before(last, u[i]) {
          InsertMembers(init, x, u[i]);
          if u[i] != x {
            var k :| 0 <= k < |init| && init[k] == u[i];
            assert t[k] == init[k];
          }
        }
        SortedSnoc(u, last);
      }
    }
  }

  lemma {:induction false} InsertStrictlySorted(t: seq<ForecastRecord>, x: ForecastRecord)
    requires StrictlySorted(t)
    requires forall i :: 0 <= i < |t| ==> !SameSlot(t[i], x)
    ensures StrictlySorted(Insert(t, x))
  {
    if t != [] {
      var last := t[|t| - 1];
      var init := t[..|t| - 1];
      if Compare(last, x) > 0 {
        assert forall i :: 0 <= i < |init| ==> init[i] == t[i];
        InsertStrictlySorted(init, x);
        InsertPermutes(init, x);
        var u := Insert(init, x);
        forall i | 0 <= i < |u| ensures Before(u[i], last) {
          assert u[i] in multiset(u);
          if u[i] != x {
            var k :| 0 <= k < |init| && init[k] == u[i];
            assert t[k] == init[k];
          }
        }
      } else {
        assert !SameSlot(last, x);
      }
    }
  }

  /** The sort returns a sorted permutation of its input. */
  lemma {:induction false} SortRecordsSpec(s: seq<ForecastRecord>)
    ensures Sorted(SortRecords(s))
    ensures multiset(SortRecords(s)) == multiset(s)
  {
    if s != [] {
      var init := s[..|s| - 1];
      SortRecordsSpec(init);
      InsertSorted(SortRecords(init), s[|s| - 1]);
      InsertPermutes(SortRecords(init), s[|s| - 1]);
      assert s == init + [s[|s| - 1]];
    }
  }

  /** When no two records share a slot, the comparator never ties and the result ascends strictly. */
  lemma {:induction false} SortRecordsStrict(s: seq<ForecastRecord>)
    requires DistinctSlots(s)
    ensures StrictlySorted(SortRecords(s))
  {
    if s != [] {
      var init := s[..|s| - 1];
      var x := s[|s| - 1];
      assert DistinctSlots(init) by {
        assert forall i :: 0 <= i < |init| ==> init[i] == s[i];
      }
      SortRecordsStrict(init);
      SortRecordsSpec(init);
      var t := SortRecords(init);
      forall i | 0 <= i < |t| ensures !SameSlot(t[i], x) {
        assert t[i] in multiset(t);
        var k :| 0 <= k < |init| && init[k] == t[i];
        assert s[k] == init[k];
      }
      InsertStrictlySorted(t, x);
    }
  }

  /** Membership is preserved by the sort. */
  lemma SortRecordsMembers(s: seq<ForecastRecord>, r: ForecastRecord)
    ensures r in SortRecords(s) <==> r in s
  {
    SortRecordsSpec(s);
    assert r in SortRecords(s) <==> r in multiset(SortRecords(s));
  }
}
