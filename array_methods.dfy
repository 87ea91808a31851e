/** The order aggregator `processOrders`: keep completed orders with a finite
    total, add 10% tax, drop taxed totals below 10, sort by taxed total
    (largest first, without touching the input) and add the taxed totals up.

    Numbers are exact reals here, so 1 + 0.1 is exactly 1.1. */
module ArrayMethods {
  import opened Wrappers

  /** An order's `total` as `Number.isFinite` sees it: a finite number, or
      anything else (NaN, an infinity, a numeric string, a missing field). */
  datatype Total = Finite(amount: real) | NonFinite

  datatype Order = Order(id: int, status: string, total: Total)

  /** A derived order: the original record, untouched, plus `totalWithTax`. */
  datatype Derived = Derived(order: Order, totalWithTax: real)

  /** An array element: an order record, or `null`/`undefined`, which the
      filter callback cannot destructure. */
  datatype Element = Rec(order: Order) | Nullish

  /** The argument of `processOrders`: left out (so it defaults to `[]`),
      an array, or some other value (null, a plain object, ...). */
  datatype OrdersArg = Missing | Array(elements: seq<Element>) | NotAnArray

  // Stands for the TypeError the engine throws; its wording is not modelled.
  const NULLISH_ORDER: string := "TypeError: cannot destructure 'status' of a null or undefined order"

  const TAX_RATE: real := 0.1
  const MIN_TAXED_TOTAL: real := 10.0
  const COMPLETED: string := "completed"

  /** The filter guard: status exactly "completed" and a finite total. */
  predicate Qualifies(o: Order) {
    o.status == COMPLETED && o.total.Finite?
  }

  function TaxedTotal(o: Order): real
    requires o.total.Finite?
  {
    o.total.amount * (1.0 + TAX_RATE)
  }

  /** Step 1 (`filter`): the qualifying orders, in their original order. */
  function KeepQualifying(orders: seq<Order>): (kept: seq<Order>)
    ensures |kept| <= |orders|
    ensures forall o :: o in kept ==> o.total.Finite?
  {
    if orders == [] then []
    else if Qualifies(orders[0]) then [orders[0]] + KeepQualifying(orders[1..])
      else KeepQualifying(orders[1..])
  }

  /** Steps 2 and 3 (`flatMap`): a derived record per order whose taxed
      total reaches the threshold; the others produce nothing. */
  function ApplyTax(orders: seq<Order>): (derived: seq<Derived>)
    requires forall o :: o in orders ==> o.total.Finite?
    ensures |derived| <= |orders|
  {
    if orders == [] then []
    else
      var t := TaxedTotal(orders[0]);
      var head := if t < MIN_TAXED_TOTAL then [] else [Derived(orders[0], t)];
      head + ApplyTax(orders[1..])
  }

  /** Sorted by taxed total, largest first: no record is followed by a
      larger one. */
  ghost predicate NonIncreasing(ds: seq<Derived>) {
    forall i :: 0 < i < |ds| ==> ds[i - 1].totalWithTax >= ds[i].totalWithTax
  }

  /** Places `d` in front of the first element whose taxed total it reaches,
      so that among equal totals the earlier element stays first. */
  function Insert(d: Derived, sorted: seq<Derived>): (r: seq<Derived>)
    requires NonIncreasing(sorted)
    ensures NonIncreasing(r)
    ensures |r| == |sorted| + 1
    ensures r[0] == d || (|sorted| > 0 && r[0] == sorted[0])
  {
    if sorted == [] || d.totalWithTax >= sorted[0].totalWithTax then [d] + sorted
    else
      var top, tail := sorted[0], sorted[1..];
      var rest := Insert(d, tail);
      assert top.totalWithTax >= rest[0].totalWithTax;
      [top] + rest
  }

  /** Inserting adds exactly the one record. */
  lemma {:induction false} InsertPermutes(d: Derived, sorted: seq<Derived>)
    requires NonIncreasing(sorted)
    ensures multiset(Insert(d, sorted)) == multiset(sorted) + multiset{d}
  {
    if sorted != [] && d.totalWithTax < sorted[0].totalWithTax {
      assert sorted == [sorted[0]] + sorted[1..];
      InsertPermutes(d, sorted[1..]);
    }
  }

  /** Sorted neighbour by neighbour means sorted across any two positions. */
  lemma {:induction false} NonIncreasingPairwise(ds: seq<Derived>, i: int, j: int)
    requires NonIncreasing(ds) && 0 <= i < j < |ds|
    ensures ds[i].totalWithTax >= ds[j].totalWithTax
    decreases j - i
  {
    if i + 1 < j {
      NonIncreasingPairwise(ds, i + 1, j);
    }
  }

  /** Step 4 (`toSorted`): a new, sorted permutation of its argument. */
  function SortByTaxDesc(ds: seq<Derived>): (sorted: seq<Derived>)
    ensures NonIncreasing(sorted)
    ensures multiset(sorted) == multiset(ds)
  {
    if ds == [] then []
    else
      assert ds == [ds[0]] + ds[1..];
      InsertPermutes(ds[0], SortByTaxDesc(ds[1..]));
      Insert(ds[0], SortByTaxDesc(ds[1..]))
  }

  /** Step 5 (`reduce`): the left-to-right sum of taxed totals from 0. */
  function SumWithTax(ds: seq<Derived>): real {
    if ds == [] then 0.0 else SumWithTax(ds[..|ds| - 1]) + ds[|ds| - 1].totalWithTax
  }

  /** The whole pipeline on an array argument. */
  function ProcessArray(orders: seq<Order>): real {
    SumWithTax(SortByTaxDesc(ApplyTax(KeepQualifying(orders))))
  }

  /** Independent statement of the result: the taxed totals of the
      qualifying orders that reach the threshold, added up. */
  function ExpectedTotal(orders: seq<Order>): real {
    if orders == [] then 0.0
    else
      var o := orders[0];
      (if Qualifies(o) && TaxedTotal(o) >= MIN_TAXED_TOTAL then TaxedTotal(o) else 0.0)
        + ExpectedTotal(orders[1..])
  }

  /** The orders of an array with no nullish element. */
  function Records(elements: seq<Element>): (orders: seq<Order>)
    requires Nullish !in elements
    ensures |orders| == |elements|
    ensures forall i :: 0 <= i < |elements| ==> elements[i] == Rec(orders[i])
  {
    if elements == [] then [] else [elements[0].order] + Records(elements[1..])
  }

  /** `processOrders(orders)`: the filter callback destructures every
      element, so a `null` or `undefined` element anywhere throws. */
  function ProcessOrders(arg: OrdersArg): (result: Result<real, string>)
    ensures result.Err? <==> arg.Array? && Nullish in arg.elements
    ensures result.Err? ==> result.error == NULLISH_ORDER
    ensures arg.Array? && result.Ok? ==> result.value == ExpectedTotal(Records(arg.elements))
    ensures !arg.Array? ==> result == Ok(0.0)
  {
    match arg
    case Missing => Ok(ProcessArray([]))
    case NotAnArray => Ok(0.0)
    case Array(elements) =>
      if Nullish in elements then Err(NULLISH_ORDER)
      else
        var orders := Records(elements);
        PipelineMatchesExpected(orders);
        Ok(ProcessArray(orders))
  }

  lemma {:induction false} SumAppend(a: seq<Derived>, b: seq<Derived>)
    ensures SumWithTax(a + b) == SumWithTax(a) + SumWithTax(b)
  {
    if b != [] {
      assert (a + b)[..|a + b| - 1] == a + b[..|b| - 1];
      SumAppend(a, b[..|b| - 1]);
    } else {
      assert a + b == a;
    }
  }

  /** The sum does not depend on the order of the derived records, so the
      sort in step 4 does not change the result. */
  lemma {:induction false} SumOfPermutation(a: seq<Derived>, b: seq<Derived>)
    requires multiset(a) == multiset(b)
    ensures SumWithTax(a) == SumWithTax(b)
  {
    if a != [] {
      var x := a[|a| - 1];
      var a' := a[..|a| - 1];
      assert a == a' + [x];
      assert x in multiset(b);
      var k :| 0 <= k < |b| && b[k] == x;
      var b' := b[..k] + b[k + 1..];
      assert b == b[..k] + [x] + b[k + 1..];
      assert multiset(a) == multiset(a') + multiset{x};
      assert multiset(b) == multiset(b[..k]) + multiset{x} + multiset(b[k + 1..]);
      assert multiset(b') == multiset(b[..k]) + multiset(b[k + 1..]);
      assert multiset(a') == multiset(a) - multiset{x};
      assert multiset(b') == multiset(b) - multiset{x};
      SumOfPermutation(a', b');
      SumAppend(b[..k] + [x], b[k + 1..]);
      SumAppend(b[..k], [x]);
      SumAppend(b[..k], b[k + 1..]);
      assert SumWithTax([x]) == x.totalWithTax by {
        assert [x][..0] == [];
      }
    } else {
      assert b == [];
    }
  }

  lemma {:induction false} SumPrepend(d: Derived, ds: seq<Derived>)
    ensures SumWithTax([d] + ds) == d.totalWithTax + SumWithTax(ds)
  {
    SumAppend([d], ds);
    assert [d][..0] == [];
  }

  lemma ApplyTaxCons(o: Order, rest: seq<Order>)
    requires o.total.Finite? && forall x :: x in rest ==> x.total.Finite?
    ensures ApplyTax([o] + rest) ==
      (if TaxedTotal(o) < MIN_TAXED_TOTAL then [] else [Derived(o, TaxedTotal(o))]) + ApplyTax(rest)
  {
  }

  /** What the filter step keeps: each qualifying order as often as it
      occurs in the input, and nothing else. */
  lemma {:induction false} KeepQualifyingRecords(orders: seq<Order>)
    ensures forall o :: o in KeepQualifying(orders) <==> o in orders && Qualifies(o)
    ensures forall o :: multiset(KeepQualifying(orders))[o] == if Qualifies(o) then multiset(orders)[o] else 0
  {
    if orders != [] {
      assert orders == [orders[0]] + orders[1..];
      KeepQualifyingRecords(orders[1..]);
    }
  }

  /** What the flatMap step yields: every derived record carries its
      untouched original order and a taxed total of at least 10, and each
      order whose taxed total reaches 10 yields exactly as many records as
      it occurs in the input. */
  lemma {:induction false} ApplyTaxRecords(orders: seq<Order>)
    requires forall o :: o in orders ==> o.total.Finite?
    ensures forall d :: d in ApplyTax(orders) ==>
      d.order in orders && d.totalWithTax == TaxedTotal(d.order) && d.totalWithTax >= MIN_TAXED_TOTAL
    ensures forall o :: o in orders ==>
      multiset(ApplyTax(orders))[Derived(o, TaxedTotal(o))] ==
        if TaxedTotal(o) >= MIN_TAXED_TOTAL then multiset(orders)[o] else 0
  {
    if orders != [] {
      var o, rest := orders[0], orders[1..];
      assert orders == [o] + rest;
      assert forall x :: x in rest ==> x in orders;
      ApplyTaxRecords(rest);
      ApplyTaxCons(o, rest);
    }
  }

  lemma {:induction false} TaxedSumMatchesExpected(orders: seq<Order>)
    ensures SumWithTax(ApplyTax(KeepQualifying(orders))) == ExpectedTotal(orders)
  {
    if orders != [] {
      var o := orders[0];
      var kept := KeepQualifying(orders[1..]);
      TaxedSumMatchesExpected(orders[1..]);
      if Qualifies(o) {
        assert KeepQualifying(orders) == [o] + kept;
        ApplyTaxCons(o, kept);
        if TaxedTotal(o) >= MIN_TAXED_TOTAL {
          SumPrepend(Derived(o, TaxedTotal(o)), ApplyTax(kept));
        } else {
          assert [] + ApplyTax(kept) == ApplyTax(kept);
        }
      } else {
        assert KeepQualifying(orders) == kept;
      }
    }
  }

  /** The pipeline computes exactly the independent statement. */
  lemma PipelineMatchesExpected(orders: seq<Order>)
    ensures ProcessArray(orders) == ExpectedTotal(orders)
  {
    var derived := ApplyTax(KeepQualifying(orders));
    SumOfPermutation(SortByTaxDesc(derived), derived);
    TaxedSumMatchesExpected(orders);
  }

  /** Every kept record is at least 10, so the result is either 0 or at
      least 10. */
  lemma {:induction false} ExpectedTotalBound(orders: seq<Order>)
    ensures ExpectedTotal(orders) == 0.0 || ExpectedTotal(orders) >= MIN_TAXED_TOTAL
  {
    if orders != [] {
      ExpectedTotalBound(orders[1..]);
    }
  }

  /** Orders that do not qualify contribute nothing, wherever they stand. */
  lemma {:induction false} NonQualifyingIgnored(before: seq<Order>, o: Order, after: seq<Order>)
    requires !Qualifies(o)
    ensures ExpectedTotal(before + [o] + after) == ExpectedTotal(before + after)
  {
    if before == [] {
      assert before + [o] + after == [o] + after;
      assert before + after == after;
      assert ([o] + after)[1..] == after;
    } else {
      assert (before + [o] + after)[1..] == before[1..] + [o] + after;
      assert (before + after)[1..] == before[1..] + after;
      NonQualifyingIgnored(before[1..], o, after);
    }
  }

  /** Completed 100, pending 200 and completed 50 give 165. */
  lemma WorkedExample()
    ensures ProcessOrders(Array([
      Rec(Order(1, "completed", Finite(100.0))),
      Rec(Order(2, "pending", Finite(200.0))),
      Rec(Order(3, "completed", Finite(50.0)))])) == Ok(165.0)
  {
    var o1, o2, o3 := Order(1, "completed", Finite(100.0)), Order(2, "pending", Finite(200.0)),
                      Order(3, "completed", Finite(50.0));
    assert Records([Rec(o1), Rec(o2), Rec(o3)]) == [o1, o2, o3];
    assert ExpectedTotal([o3]) == 55.0 by { assert [o3][1..] == []; }
    assert ExpectedTotal([o2, o3]) == 55.0 by { assert [o2, o3][1..] == [o3]; }
    assert ExpectedTotal([o1, o2, o3]) == 165.0 by { assert [o1, o2, o3][1..] == [o2, o3]; }
  }

  /** A NaN total and a string total are skipped: only 100 * 1.1 remains. */
  lemma InvalidTotalsSkipped()
    ensures ProcessOrders(Array([
      Rec(Order(1, "completed", Finite(100.0))),
      Rec(Order(2, "completed", NonFinite)),
      Rec(Order(3, "completed", NonFinite))])) == Ok(110.0)
  {
    var o1, o2, o3 := Order(1, "completed", Finite(100.0)), Order(2, "completed", NonFinite),
                      Order(3, "completed", NonFinite);
    assert Records([Rec(o1), Rec(o2), Rec(o3)]) == [o1, o2, o3];
    assert ExpectedTotal([o3]) == 0.0 by { assert [o3][1..] == []; }
    assert ExpectedTotal([o2, o3]) == 0.0 by { assert [o2, o3][1..] == [o3]; }
    assert ExpectedTotal([o1, o2, o3]) == 110.0 by { assert [o1, o2, o3][1..] == [o2, o3]; }
  }

  /** 5 * 1.1 = 5.5 falls below the threshold and is dropped; 22 is kept. */
  lemma ThresholdExample()
    ensures ProcessOrders(Array([
      Rec(Order(1, "completed", Finite(5.0))),
      Rec(Order(2, "completed", Finite(20.0)))])) == Ok(22.0)
  {
    var o1, o2 := Order(1, "completed", Finite(5.0)), Order(2, "completed", Finite(20.0));
    assert Records([Rec(o1), Rec(o2)]) == [o1, o2];
    assert ExpectedTotal([o2]) == 22.0 by { assert [o2][1..] == []; }
    assert ExpectedTotal([o1, o2]) == 22.0 by { assert [o1, o2][1..] == [o2]; }
  }

  /** A `null` among valid orders makes the whole call throw. */
  lemma NullishElementThrows(o: Order)
    ensures ProcessOrders(Array([Rec(o), Nullish])) == Err(NULLISH_ORDER)
  {
    assert [Rec(o), Nullish][1] == Nullish;
  }

  /** The filter step distributes over concatenation, so the kept orders
      appear in their input order. */
  lemma {:induction false} KeepQualifyingAppend(a: seq<Order>, b: seq<Order>)
    ensures KeepQualifying(a + b) == KeepQualifying(a) + KeepQualifying(b)
  {
    if a == [] {
      assert a + b == b;
    } else {
      var o, rest := a[0], a[1..];
      assert a + b == [o] + (rest + b);
      KeepQualifyingAppend(rest, b);
      var head := if Qualifies(o) then [o] else [];
      assert KeepQualifying(a) == head + KeepQualifying(rest);
      assert KeepQualifying(a + b) == head + KeepQualifying(rest + b);
      assert head + (KeepQualifying(rest) + KeepQualifying(b)) == (head + KeepQualifying(rest)) + KeepQualifying(b);
    }
  }


  /** The flatMap step distributes over concatenation, so the derived
      records appear in the order of their orders. */
  lemma {:induction false} ApplyTaxAppend(a: seq<Order>, b: seq<Order>)
    requires forall o :: o in a ==> o.total.Finite?
    requires forall o :: o in b ==> o.total.Finite?
    ensures ApplyTax(a + b) == ApplyTax(a) + ApplyTax(b)
  {
    if a == [] {
      assert a + b == b;
    } else {
      var o, rest := a[0], a[1..];
      assert a == [o] + rest;
      assert a + b == [o] + (rest + b);
      ApplyTaxAppend(rest, b);
      var head := if TaxedTotal(o) < MIN_TAXED_TOTAL then [] else [Derived(o, TaxedTotal(o))];
      assert ApplyTax(a) == head + ApplyTax(rest);
      assert ApplyTax(a + b) == head + ApplyTax(rest + b);
      assert head + (ApplyTax(rest) + ApplyTax(b)) == (head + ApplyTax(rest)) + ApplyTax(b);
    }
  }

}
