/** Value types shared by the two forecast generators, the results screen and the wizard. */
module Records {

  datatype Option<T> = None | Some(value: T)

  /** One historical sales row. The quantity may be absent (`undefined` in the source). */
  datatype HistoricalRow = HistoricalRow(pdv: int, produto: int, quantidade: Option<real>)

  /** One forecast row: week of the horizon, point of sale, product and forecast units. */
  datatype ForecastRecord = ForecastRecord(semana: int, pdv: int, produto: int, quantidade: int)

  /** The grouping key `${pdv}-${produto}`, kept as the pair it encodes. */
  datatype Key = Key(pdv: int, produto: int)

  function KeyOf(row: HistoricalRow): Key
  {
    Key(row.pdv, row.produto)
  }

  function RecordKey(r: ForecastRecord): Key
  {
    Key(r.pdv, r.produto)
  }

  /** `row.quantidade || 0`: an absent quantity reads as 0. */
  function QuantityOf(row: HistoricalRow): real
  {
    match row.quantidade
    case None => 0.0
    case Some(q) => q
  }

  /** `Math.round`: the nearest integer, halves rounded up. */
  function Round(x: real): (r: int)
    ensures x - 0.5 < r as real <= x + 0.5
  {
    (x + 0.5).Floor
  }

  function MaxInt(a: int, b: int): (m: int)
    ensures m >= a && m >= b && (m == a || m == b)
  {
    if a >= b then a else b
  }

  function MinReal(a: real, b: real): (m: real)
    ensures m <= a && m <= b && (m == a || m == b)
  {
    if a <= b then a else b
  }

  /** `Math.max` on numbers, as the mirror image of `Math.min`. */
  function MaxReal(a: real, b: real): (m: real)
    ensures m >= a && m >= b && (m == a || m == b)
  {
    -MinReal(-a, -b)
  }

  /**
   * Real division (`/` on numbers). It is a function so that the verifier identifies equal
   * quotients of equal operands by congruence alone.
   */
  function Div(a: real, b: real): real
    requires b != 0.0
  {
    a / b
  }

  /** `reduce((a, b) => a + b, 0)` over a sequence of reals. */
  function Sum(s: seq<real>): real
  {
    if s == [] then 0.0 else Sum(s[..|s| - 1]) + s[|s| - 1]
  }

  lemma {:induction false} SumAppend(s: seq<real>, t: seq<real>)
    ensures Sum(s + t) == Sum(s) + Sum(t)
  {
    if t == [] {
      assert s + t == s;
    } else {
      assert (s + t)[..|s + t| - 1] == s + t[..|t| - 1];
      SumAppend(s, t[..|t| - 1]);
    }
  }

  lemma SumSnoc(s: seq<real>, x: real)
    ensures Sum(s + [x]) == Sum(s) + x
  {
    assert (s + [x])[..|s|] == s;
  }

  /** The sum of a constant sequence. */
  lemma {:induction false} SumConstant(s: seq<real>, c: real)
    requires forall i :: 0 <= i < |s| ==> s[i] == c
    ensures Sum(s) == |s| as real * c
  {
    if s != [] {
      SumConstant(s[..|s| - 1], c);
    }
  }
}
