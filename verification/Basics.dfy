/** Vocabulary shared by every component of the model. */
module Basics {

  datatype Option<+T> = None | Some(value: T)

  type Symbol = string

  /** A uuid4. Drawing one is an input of the model: callers supply a value not used before. */
  type Id = nat

  datatype Side = Buy | Sell {
    function Opposite(): Side {
      if this == Buy then Sell else Buy
    }
  }

  function Min(a: real, b: real): real { if a <= b then a else b }

  function Max(a: real, b: real): real { if a >= b then a else b }

  function Abs(a: real): real { if a < 0.0 then -a else a }

  /** A product, such as the notional of a fill: quantity times price. */
  function Times(a: real, b: real): real {
    a * b
  }

  /** The sum of all values of a symbol-keyed dictionary. */
  ghost function Total(m: map<Symbol, real>): real
    decreases |m|
  {
    if m == map[] then 0.0
    else
      var k :| k in m;
      m[k] + Total(m - {k})
  }

  /** The order in which the values are summed does not matter. */
  lemma {:induction false} TotalRemove(m: map<Symbol, real>, k: Symbol)
    requires k in m
    ensures Total(m) == m[k] + Total(m - {k})
    decreases |m|
  {
    var j :| j in m && Total(m) == m[j] + Total(m - {j});
    if j != k {
      TotalRemove(m - {j}, k);
      TotalRemove(m - {k}, j);
      assert m - {j} - {k} == m - {k} - {j};
    }
  }

  lemma TotalInsert(m: map<Symbol, real>, k: Symbol, v: real)
    ensures Total(m[k := v]) == Total(m) + v - (if k in m then m[k] else 0.0)
  {
    var m' := m[k := v];
    TotalRemove(m', k);
    if k in m {
      TotalRemove(m, k);
      assert m' - {k} == m - {k};
    } else {
      assert m' - {k} == m;
    }
  }

  lemma TotalDelete(m: map<Symbol, real>, k: Symbol)
    ensures Total(m - {k}) == Total(m) - (if k in m then m[k] else 0.0)
  {
    if k in m {
      TotalRemove(m, k);
    } else {
      assert m - {k} == m;
    }
  }
}
