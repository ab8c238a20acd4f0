/**
 * The aggregation step shared by both forecast generators: rows are grouped by
 * (pdv, produto) into a `Map` whose iteration order is the order in which each key
 * was first seen, and each group keeps its quantities in input order.
 */
module Grouping {
  import opened Records

  /** The distinct keys of `rows`, in order of first appearance. */
  function GroupKeys(rows: seq<HistoricalRow>): seq<Key>
  {
    if rows == [] then []
    else
      var ks := GroupKeys(rows[..|rows| - 1]);
      var k := KeyOf(rows[|rows| - 1]);
      if k in ks then ks else ks + [k]
  }

  /** The quantities of group `k`, in input order, with an absent quantity read as 0. */
  function SeriesOf(rows: seq<HistoricalRow>, k: Key): seq<real>
  {
    if rows == [] then []
    else
      SeriesOf(rows[..|rows| - 1], k)
      + (if KeyOf(rows[|rows| - 1]) == k then [QuantityOf(rows[|rows| - 1])] else [])
  }

  predicate NoDuplicates<T(==)>(s: seq<T>)
  {
    forall i, j :: 0 <= i < j < |s| ==> s[i] != s[j]
  }

  /** A key is grouped exactly when some row carries it, and no key is grouped twice. */
  lemma {:induction false} GroupKeysSpec(rows: seq<HistoricalRow>)
    ensures NoDuplicates(GroupKeys(rows))
    ensures forall k :: k in GroupKeys(rows) <==> exists i :: 0 <= i < |rows| && KeyOf(rows[i]) == k
  {
    if rows != [] {
      var init := rows[..|rows| - 1];
      GroupKeysSpec(init);
      forall k ensures k in GroupKeys(rows) <==> exists i :: 0 <= i < |rows| && KeyOf(rows[i]) == k {
        if k in GroupKeys(init) {
          var i :| 0 <= i < |init| && KeyOf(init[i]) == k;
          assert rows[i] == init[i];
        }
        if exists i :: 0 <= i < |rows| && KeyOf(rows[i]) == k {
          var i :| 0 <= i < |rows| && KeyOf(rows[i]) == k;
          if i < |init| {
            assert init[i] == rows[i];
          }
        }
      }
    }
  }

  /** Appending rows appends to every group's series: the series is a homomorphism of concatenation. */
  lemma {:induction false} SeriesOfAppend(a: seq<HistoricalRow>, b: seq<HistoricalRow>, k: Key)
    ensures SeriesOf(a + b, k) == SeriesOf(a, k) + SeriesOf(b, k)
  {
    if b == [] {
      assert a + b == a;
    } else {
      assert (a + b)[..|a + b| - 1] == a + b[..|b| - 1];
      SeriesOfAppend(a, b[..|b| - 1], k);
    }
  }

  /** The number of rows carrying key `k`. */
  function CountKey(rows: seq<HistoricalRow>, k: Key): nat
  {
    if rows == [] then 0
    else CountKey(rows[..|rows| - 1], k) + (if KeyOf(rows[|rows| - 1]) == k then 1 else 0)
  }

  /**
   * Every row of a group contributes one value to its series (none is dropped,
   * absent quantities included), so a grouped key has a non-empty series.
   */
  lemma {:induction false} SeriesOfLength(rows: seq<HistoricalRow>, k: Key)
    ensures |SeriesOf(rows, k)| == CountKey(rows, k)
    ensures k in GroupKeys(rows) ==> |SeriesOf(rows, k)| > 0
    ensures k !in GroupKeys(rows) ==> SeriesOf(rows, k) == []
  {
    if rows != [] {
      SeriesOfLength(rows[..|rows| - 1], k);
    }
  }

  /** The keys after the grouping loop takes row `i`: its key is appended when it is new. */
  lemma {:induction false} GroupKeysStep(rows: seq<HistoricalRow>, i: int)
    requires 0 <= i < |rows|
    ensures var k := KeyOf(rows[i]);
            GroupKeys(rows[..i + 1])
            == if k in GroupKeys(rows[..i]) then GroupKeys(rows[..i]) else GroupKeys(rows[..i]) + [k]
  {
    assert rows[..i + 1][..i] == rows[..i];
  }

  /** A group's series after the grouping loop takes row `i`: the row's quantity is appended to its own group. */
  lemma {:induction false} SeriesOfStep(rows: seq<HistoricalRow>, i: int, k: Key)
    requires 0 <= i < |rows|
    ensures SeriesOf(rows[..i + 1], k)
            == SeriesOf(rows[..i], k) + (if KeyOf(rows[i]) == k then [QuantityOf(rows[i])] else [])
  {
    assert rows[..i + 1][..i] == rows[..i];
  }

  /** Wherever it occurs, a row whose quantity is absent appends a 0 to its own group's series. */
  lemma {:induction false} MissingQuantityAppendsZero(rows: seq<HistoricalRow>, i: int)
    requires 0 <= i < |rows| && rows[i].quantidade.None?
    ensures SeriesOf(rows[..i + 1], KeyOf(rows[i])) == SeriesOf(rows[..i], KeyOf(rows[i])) + [0.0]
  {
    SeriesOfStep(rows, i, KeyOf(rows[i]));
  }
}
