/**
 * The cart's table of lines, keyed by sku, and the three aggregates read
 * from it: the number of items, the subtotal and the largest installment
 * count. Each aggregate is a fold over the table's values, and the lemmas
 * here show that a fold does not depend on the order of the lines and
 * changes in a known way when one line is put or removed.
 */
module Cart {
  import opened Dtos

  /** One entry of the table: the product as it was when added, and how many. */
  datatype Line = Line(product: ProductDto, amount: int)

  type Products = map<Sku, Line>

  /** The counterpart of `Math.min` on two numbers. */
  function Min(a: int, b: int): int {
    if a <= b then a else b
  }

  /** The intended line invariant: no line holds zero or fewer items. */
  predicate AllPositive(m: Products) {
    forall k :: k in m ==> m[k].amount >= 1
  }

  // ---------------------------------------------------------------------------
  // The values of the table, in ascending sku order
  // ---------------------------------------------------------------------------

  /** `k` is the smallest element of `ks`. */
  predicate IsMin(k: Sku, ks: set<Sku>) {
    k in ks && forall j :: j in ks ==> k <= j
  }

  lemma {:induction false} HasMinimum(ks: set<Sku>)
    requires ks != {}
    ensures exists k :: IsMin(k, ks)
  {
    var x :| x in ks;
    if ks == {x} {
      assert IsMin(x, ks);
    } else {
      var rest := ks - {x};
      HasMinimum(rest);
      var m :| IsMin(m, rest);
      var k := if x < m then x else m;
      forall j | j in ks
        ensures k <= j
      {
        if j != x {
          assert j in rest;
        }
      }
      assert IsMin(k, ks);
    }
  }

  /** The smallest sku of a non-empty key set. */
  function MinKey(ks: set<Sku>): (k: Sku)
    requires ks != {}
    ensures IsMin(k, ks)
  {
    HasMinimum(ks);
    var k :| IsMin(k, ks);
    k
  }

  /**
   * The lines of the table in ascending sku order. JavaScript lists the
   * values in that order only for skus below 2^32 - 1, and in insertion order
   * otherwise; `SumOverRemove` shows the folds come out the same either way.
   */
  function Values(m: Products): (vs: seq<Line>)
    ensures |vs| == |m|
    decreases |m|
  {
    if m == map[] then []
    else
      var k := MinKey(m.Keys);
      var rest := m - {k};
      assert |rest| == |m| - 1 by {
        assert rest.Keys == m.Keys - {k};
      }
      [m[k]] + Values(rest)
  }

  /** Every line of the table is listed, and nothing else is. */
  lemma {:induction false} ValuesListsLines(m: Products)
    ensures forall k :: k in m ==> m[k] in Values(m)
    ensures forall l :: l in Values(m) ==> exists k :: k in m && m[k] == l
    decreases |m|
  {
    if m != map[] {
      var k0 := MinKey(m.Keys);
      var rest := m - {k0};
      assert |rest| == |m| - 1 by {
        assert rest.Keys == m.Keys - {k0};
      }
      ValuesListsLines(rest);
      assert Values(m) == [m[k0]] + Values(rest);
      forall k | k in m
        ensures m[k] in Values(m)
      {
        if k != k0 {
          assert k in rest && rest[k] == m[k];
        }
      }
      forall l | l in Values(m)
        ensures exists k :: k in m && m[k] == l
      {
        if l != m[k0] {
          assert l in Values(rest);
          var k :| k in rest && rest[k] == l;
          assert k in m && m[k] == l;
        }
      }
    }
  }

  // ---------------------------------------------------------------------------
  // Folds
  // ---------------------------------------------------------------------------

  /** Adds up `f` over the lines from the first to the last, starting from 0. */
  function SumBy(ls: seq<Line>, f: Line -> int): int {
    if ls == [] then 0 else SumBy(ls[..|ls| - 1], f) + f(ls[|ls| - 1])
  }

  lemma {:induction false} SumByCons(l: Line, ls: seq<Line>, f: Line -> int)
    ensures SumBy([l] + ls, f) == f(l) + SumBy(ls, f)
    decreases |ls|
  {
    if ls != [] {
      assert ([l] + ls)[..|ls|] == [l] + ls[..|ls| - 1];
      SumByCons(l, ls[..|ls| - 1], f);
    }
  }

  /** The fold over the values of a table. */
  function SumOver(m: Products, f: Line -> int): int {
    SumBy(Values(m), f)
  }

  /** Any line may be taken out first: the fold does not depend on the order of the lines. */
  lemma {:induction false} SumOverRemove(m: Products, k: Sku, f: Line -> int)
    requires k in m
    ensures SumOver(m, f) == f(m[k]) + SumOver(m - {k}, f)
    decreases |m|
  {
    var k0 := MinKey(m.Keys);
    SumByCons(m[k0], Values(m - {k0}), f);
    if k != k0 {
      var m' := m - {k0};
      assert (m - {k}).Keys == m.Keys - {k};
      assert |m'| == |m| - 1 by {
        assert m'.Keys == m.Keys - {k0};
      }
      SumOverRemove(m', k, f);
      var mk := m - {k};
      var k1 := MinKey(mk.Keys);
      assert k0 in mk.Keys && k1 in m.Keys;
      assert k1 == k0;
      assert mk - {k0} == m' - {k};
      SumByCons(m[k0], Values(mk - {k0}), f);
    }
  }

  /** Putting line `l` under sku `k` replaces whatever `k` held before. */
  lemma SumOverPut(m: Products, k: Sku, l: Line, f: Line -> int)
    ensures SumOver(m[k := l], f) == SumOver(m - {k}, f) + f(l)
  {
    SumOverRemove(m[k := l], k, f);
    assert m[k := l] - {k} == m - {k};
  }

  // ---------------------------------------------------------------------------
  // The three aggregates
  // ---------------------------------------------------------------------------

  function LineAmount(l: Line): int {
    l.amount
  }

  function LineValue(l: Line): int {
    l.product.price * l.amount
  }

  /** A missing installment count counts as 0. */
  function InstallmentsOf(l: Line): int {
    l.product.installments.GetOr(0)
  }

  /** The badge count: the amounts of all lines added up. */
  function TotalProducts(m: Products): (r: int)
    ensures m == map[] ==> r == 0
  {
    SumOver(m, LineAmount)
  }

  /** Price times amount, added up over all lines (in cents). */
  function Subtotal(m: Products): (r: int)
    ensures m == map[] ==> r == 0
  {
    SumOver(m, LineValue)
  }

  /** The largest element of a list of numbers; `None` for the empty list, where `Math.max` yields minus infinity. */
  function MaxOf(xs: seq<int>): (r: Option<int>)
    ensures xs == [] <==> r == None
    ensures r.Some? ==> r.value in xs
    ensures r.Some? ==> forall i :: 0 <= i < |xs| ==> xs[i] <= r.value
  {
    if xs == [] then None
    else
      match MaxOf(xs[1..])
      case None => Some(xs[0])
      case Some(v) => Some(if xs[0] >= v then xs[0] else v)
  }

  /** The installment count of each line, in the same order. */
  function InstallmentsList(ls: seq<Line>): (xs: seq<int>)
    ensures |xs| == |ls|
    ensures forall i :: 0 <= i < |ls| ==> xs[i] == InstallmentsOf(ls[i])
  {
    if ls == [] then [] else [InstallmentsOf(ls[0])] + InstallmentsList(ls[1..])
  }

  /** The largest installment count over the lines; `None` on an empty cart. */
  function MaxInstallments(m: Products): (r: Option<int>)
    ensures m == map[] <==> r == None
    ensures r.Some? ==> forall k :: k in m ==> InstallmentsOf(m[k]) <= r.value
    ensures r.Some? ==> exists k :: k in m && InstallmentsOf(m[k]) == r.value
  {
    MaxOverLines(m);
    MaxOf(InstallmentsList(Values(m)))
  }

  lemma MaxOverLines(m: Products)
    ensures var r := MaxOf(InstallmentsList(Values(m)));
            && (m == map[] <==> r == None)
            && (r.Some? ==> forall k :: k in m ==> InstallmentsOf(m[k]) <= r.value)
            && (r.Some? ==> exists k :: k in m && InstallmentsOf(m[k]) == r.value)
  {
    var vs := Values(m);
    var xs := InstallmentsList(vs);
    var r := MaxOf(xs);
    ValuesListsLines(m);
    if r.Some? {
      forall k | k in m
        ensures InstallmentsOf(m[k]) <= r.value
      {
        assert m[k] in vs;
        var i :| 0 <= i < |vs| && vs[i] == m[k];
        assert xs[i] == InstallmentsOf(m[k]);
      }
      var i :| 0 <= i < |xs| && xs[i] == r.value;
      assert vs[i] in vs;
      var k :| k in m && m[k] == vs[i];
      assert InstallmentsOf(m[k]) == r.value;
    }
  }

  // ---------------------------------------------------------------------------
  // How the aggregates move when one line changes
  // ---------------------------------------------------------------------------

  /** Both sums over an empty cart are 0 and the maximum is absent. */
  lemma EmptyCart()
    ensures TotalProducts(map[]) == 0 && Subtotal(map[]) == 0 && MaxInstallments(map[]) == None
  {
  }

  /** Putting line `l` under `k` adds its amount and value and takes off those of the line it replaces. */
  lemma PutLine(m: Products, k: Sku, l: Line)
    ensures TotalProducts(m[k := l]) == TotalProducts(m) - (if k in m then m[k].amount else 0) + l.amount
    ensures Subtotal(m[k := l]) == Subtotal(m) - (if k in m then LineValue(m[k]) else 0) + LineValue(l)
  {
    SumOverPut(m, k, l, LineAmount);
    SumOverPut(m, k, l, LineValue);
    if k in m {
      SumOverRemove(m, k, LineAmount);
      SumOverRemove(m, k, LineValue);
    } else {
      assert m - {k} == m;
    }
  }

  /** Raising a line's amount by `delta` raises the total by `delta` and the subtotal by `delta` times its price. */
  lemma ChangeAmount(m: Products, k: Sku, delta: int)
    requires k in m
    ensures var l := Line(m[k].product, m[k].amount + delta);
            TotalProducts(m[k := l]) == TotalProducts(m) + delta
            && Subtotal(m[k := l]) == Subtotal(m) + m[k].product.price * delta
  {
    var l := Line(m[k].product, m[k].amount + delta);
    PutLine(m, k, l);
    assert LineValue(l) == LineValue(m[k]) + m[k].product.price * delta by {
      assert m[k].product.price * (m[k].amount + delta)
          == m[k].product.price * m[k].amount + m[k].product.price * delta;
    }
  }

  /** Removing sku `k` takes its line's amount and value off the sums. */
  lemma RemoveLine(m: Products, k: Sku)
    ensures TotalProducts(m - {k}) == TotalProducts(m) - (if k in m then m[k].amount else 0)
    ensures Subtotal(m - {k}) == Subtotal(m) - (if k in m then LineValue(m[k]) else 0)
  {
    if k in m {
      SumOverRemove(m, k, LineAmount);
      SumOverRemove(m, k, LineValue);
    } else {
      assert m - {k} == m;
    }
  }

  /** With every amount at least 1, the badge count is at least the number of lines, so it is 0 only on an empty cart. */
  lemma {:induction false} TotalOfPositiveCart(m: Products)
    requires AllPositive(m)
    ensures TotalProducts(m) >= |m|
    ensures TotalProducts(m) == 0 <==> m == map[]
    decreases |m|
  {
    if m != map[] {
      var k := MinKey(m.Keys);
      assert |m - {k}| == |m| - 1 by {
        assert (m - {k}).Keys == m.Keys - {k};
      }
      SumOverRemove(m, k, LineAmount);
      TotalOfPositiveCart(m - {k});
    }
  }
}
