/**
 * Receiving quantity stock at cost: receiveQuantityAtCost of src/inventory/stock-cost.ts, one insert-or-update
 * that re-averages the branch's unit cost. Costs are exact; the column's rounding is not modelled.
 */
module StockCost {
  import opened Prelude

  datatype Key = Key(product: nat, branch: nat)

  datatype Row = Row(quantity: int, cost: real, price: Option<real>, reserved: int)

  type Rows = map<Key, Row>

  datatype Receipt = Receipt(key: Key, received: real, unitCost: real, priceIfNew: Option<real>)

  predicate Accepted(r: Receipt) {
    r.received == r.received.Floor as real && r.received > 0.0
  }

  /** ON DUPLICATE KEY UPDATE: the average first, against the quantity still unraised. */
  function Averaged(row: Row, received: real, unitCost: real): Row
    requires row.quantity >= 0 && received > 0.0
  {
    row.(cost := (row.quantity as real * row.cost + received * unitCost) / (row.quantity as real + received),
         quantity := row.quantity + received.Floor)
  }

  function ApplyReceive(rows: Rows, r: Receipt): (Rows, Outcome)
    requires NotNegative(rows)
  {
    if !Accepted(r) then (rows, Refused(BadRequest))
    else if r.key in rows then (rows[r.key := Averaged(rows[r.key], r.received, r.unitCost)], Done)
    else (rows[r.key := Row(r.received.Floor, r.unitCost, r.priceIfNew, 0)], Done)
  }

  /** The table's check constraint. */
  predicate NotNegative(rows: Rows) {
    forall k :: k in rows ==> rows[k].quantity >= 0
  }

  function Run(rows: Rows, rs: seq<Receipt>): (after: Rows)
    requires NotNegative(rows)
    ensures NotNegative(after)
  {
    if rs == [] then rows else ApplyReceive(Run(rows, rs[..|rs| - 1]), rs[|rs| - 1]).0
  }

  // ---------------------------------------------------------------- what is held and what it cost

  function Held(rows: Rows, k: Key): real {
    if k in rows then rows[k].quantity as real else 0.0
  }

  function Worth(rows: Rows, k: Key): real {
    if k in rows then rows[k].quantity as real * rows[k].cost else 0.0
  }

  function Pieces(k: Key, r: Receipt): real {
    if Accepted(r) && r.key == k then r.received else 0.0
  }

  function Paid(k: Key, r: Receipt): real {
    if Accepted(r) && r.key == k then r.received * r.unitCost else 0.0
  }

  function PiecesOf(k: Key): Receipt -> real {
    (r: Receipt) => Pieces(k, r)
  }

  function PaidFor(k: Key): Receipt -> real {
    (r: Receipt) => Paid(k, r)
  }

  function SumOf(rs: seq<Receipt>, f: Receipt -> real): real {
    if rs == [] then 0.0 else SumOf(rs[..|rs| - 1], f) + f(rs[|rs| - 1])
  }

  lemma Divided(x: real, y: real)
    requires y > 0.0
    ensures y * (x / y) == x
  {
  }

  lemma AveragedWorth(row: Row, received: real, unitCost: real)
    requires row.quantity >= 0 && received > 0.0 && received == received.Floor as real
    ensures var after := Averaged(row, received, unitCost);
            && after.quantity as real == row.quantity as real + received
            && after.quantity as real * after.cost == row.quantity as real * row.cost + received * unitCost
            && after.price == row.price && after.reserved == row.reserved
  {
    Divided(row.quantity as real * row.cost + received * unitCost, row.quantity as real + received);
  }

  lemma ReceiveConserves(rows: Rows, r: Receipt, k: Key)
    requires NotNegative(rows)
    ensures var after := ApplyReceive(rows, r).0;
            && Held(after, k) == Held(rows, k) + Pieces(k, r)
            && Worth(after, k) == Worth(rows, k) + Paid(k, r)
            && (k in rows ==> k in after && after[k].price == rows[k].price && after[k].reserved == rows[k].reserved)
            && (r.key != k ==> (k in after <==> k in rows) && (k in rows ==> after[k] == rows[k]))
  {
    if Accepted(r) && r.key == k && k in rows {
      AveragedWorth(rows[k], r.received, r.unitCost);
    }
  }

  /**
   * Over any receipts: what a branch holds of a product rises by what arrived, quantity times cost rises by what
   * was paid, and a row that existed keeps its price and its reservations.
   */
  lemma {:induction false} ValueIsConserved(rows: Rows, rs: seq<Receipt>, k: Key)
    requires NotNegative(rows)
    ensures var after := Run(rows, rs);
            && Held(after, k) == Held(rows, k) + SumOf(rs, PiecesOf(k))
            && Worth(after, k) == Worth(rows, k) + SumOf(rs, PaidFor(k))
            && (k in rows ==> k in after && after[k].price == rows[k].price && after[k].reserved == rows[k].reserved)
  {
    if rs != [] {
      ValueIsConserved(rows, rs[..|rs| - 1], k);
      ReceiveConserves(Run(rows, rs[..|rs| - 1]), rs[|rs| - 1], k);
    }
  }

  predicate IsCount(received: real, n: nat) {
    n > 0 && received == n as real
  }

  /** Goods are received exactly in a positive whole number. */
  lemma ReceivedIff(rows: Rows, r: Receipt)
    requires NotNegative(rows)
    ensures ApplyReceive(rows, r).1 == Done <==> exists n :: IsCount(r.received, n)
    ensures ApplyReceive(rows, r).1 != Done ==> ApplyReceive(rows, r).0 == rows
    ensures ApplyReceive(rows, r).1 == Done && r.key !in rows ==>
              ApplyReceive(rows, r).0 == rows[r.key := Row(r.received.Floor, r.unitCost, r.priceIfNew, 0)]
  {
    if Accepted(r) {
      assert IsCount(r.received, r.received.Floor);
    }
    if n :| IsCount(r.received, n) {
      assert r.received.Floor == n;
    }
  }

  // ---------------------------------------------------------------- order

  lemma {:induction false} SumTakesOut(rs: seq<Receipt>, i: nat, f: Receipt -> real)
    requires i < |rs|
    ensures SumOf(rs, f) == SumOf(rs[..i] + rs[i + 1..], f) + f(rs[i])
  {
    var last := |rs| - 1;
    if i == last {
      assert rs[..i] + rs[i + 1..] == rs[..last];
    } else {
      SumTakesOut(rs[..last], i, f);
      var out := rs[..i] + rs[i + 1..];
      assert out[..|out| - 1] == rs[..last][..i] + rs[..last][i + 1..] && out[|out| - 1] == rs[last];
    }
  }

  lemma {:induction false} SumIgnoresOrder(a: seq<Receipt>, b: seq<Receipt>, f: Receipt -> real)
    requires multiset(a) == multiset(b)
    ensures SumOf(a, f) == SumOf(b, f)
    decreases |a|
  {
    if a == [] {
      assert |multiset(b)| == 0;
    } else {
      var last := |a| - 1;
      assert a[last] in multiset(b);
      var i :| 0 <= i < |b| && b[i] == a[last];
      MultisetWithout(a, last);
      MultisetWithout(b, i);
      assert a[..last] + a[last + 1..] == a[..last];
      SumTakesOut(b, i, f);
      SumIgnoresOrder(a[..last], b[..i] + b[i + 1..], f);
    }
  }

  lemma {:induction false} KeysArrived(rows: Rows, rs: seq<Receipt>, k: Key)
    requires NotNegative(rows)
    ensures k in Run(rows, rs) <==> k in rows || exists i :: 0 <= i < |rs| && Accepted(rs[i]) && rs[i].key == k
  {
    if rs != [] {
      KeysArrived(rows, rs[..|rs| - 1], k);
    }
  }

  lemma SameKeys(rows: Rows, a: seq<Receipt>, b: seq<Receipt>, k: Key)
    requires NotNegative(rows) && multiset(a) == multiset(b) && k in Run(rows, a)
    ensures k in Run(rows, b)
  {
    KeysArrived(rows, a, k);
    KeysArrived(rows, b, k);
    if i :| 0 <= i < |a| && Accepted(a[i]) && a[i].key == k {
      assert a[i] in multiset(b);
    }
  }

  lemma SameCost(q: real, c: real, d: real)
    requires q > 0.0 && q * c == q * d
    ensures c == d
  {
    Divided(q * c, q);
    Divided(q * d, q);
  }

  /** A row some receipt reached holds something. */
  lemma {:induction false} ReachedHolds(rows: Rows, rs: seq<Receipt>, k: Key)
    requires NotNegative(rows) && k in Run(rows, rs)
    ensures Run(rows, rs)[k].quantity > 0 || (k in rows && Run(rows, rs)[k] == rows[k])
  {
    if rs != [] {
      var before, r := Run(rows, rs[..|rs| - 1]), rs[|rs| - 1];
      if k in before {
        ReachedHolds(rows, rs[..|rs| - 1], k);
      }
    }
  }

  /** Every ordering of the receipts leaves every row with the same quantity and the same cost. */
  lemma OrderDoesNotMatter(rows: Rows, a: seq<Receipt>, b: seq<Receipt>, k: Key)
    requires NotNegative(rows) && multiset(a) == multiset(b) && k in Run(rows, a)
    ensures k in Run(rows, b)
    ensures Run(rows, a)[k].quantity == Run(rows, b)[k].quantity && Run(rows, a)[k].cost == Run(rows, b)[k].cost
  {
    SameKeys(rows, a, b, k);
    ValueIsConserved(rows, a, k);
    ValueIsConserved(rows, b, k);
    SumIgnoresOrder(a, b, PiecesOf(k));
    SumIgnoresOrder(a, b, PaidFor(k));
    ReachedHolds(rows, a, k);
    ReachedHolds(rows, b, k);
    SameRow(Run(rows, a), Run(rows, b), k);
  }

  lemma SameRow(x: Rows, y: Rows, k: Key)
    requires k in x && k in y && Held(x, k) == Held(y, k) && Worth(x, k) == Worth(y, k)
    requires x[k].quantity > 0 || x[k] == y[k] || y[k].quantity > 0
    ensures x[k].quantity == y[k].quantity && x[k].cost == y[k].cost
  {
    if x[k].quantity > 0 {
      SameCost(x[k].quantity as real, x[k].cost, y[k].cost);
    }
  }

  // ---------------------------------------------------------------- bounds

  /** The average lies on the side of x on which both costs lie. */
  lemma AverageAbove(q: real, c: real, n: real, u: real, avg: real, x: real)
    requires q >= 0.0 && n > 0.0 && x <= u && (q > 0.0 ==> x <= c) && (q + n) * avg == q * c + n * u
    ensures x <= avg
  {
    Shifted(q, c, n, u, avg, x);
    Product(q, c - x);
    Product(n, u - x);
    Factor(q + n, avg - x, q * (c - x) + n * (u - x));
  }

  lemma AverageBelow(q: real, c: real, n: real, u: real, avg: real, x: real)
    requires q >= 0.0 && n > 0.0 && u <= x && (q > 0.0 ==> c <= x) && (q + n) * avg == q * c + n * u
    ensures avg <= x
  {
    Shifted(q, c, n, u, avg, x);
    Opposite(q, c - x);
    Opposite(n, u - x);
    Opposite(q + n, avg - x);
    Product(q, x - c);
    Product(n, x - u);
    Factor(q + n, x - avg, q * (x - c) + n * (x - u));
  }

  lemma Shifted(q: real, c: real, n: real, u: real, avg: real, x: real)
    requires (q + n) * avg == q * c + n * u
    ensures (q + n) * (avg - x) == q * (c - x) + n * (u - x)
  {
  }

  lemma Opposite(a: real, b: real)
    ensures a * -b == -(a * b)
  {
  }

  lemma Product(a: real, b: real)
    requires a >= 0.0 && (a > 0.0 ==> b >= 0.0)
    ensures a * b >= 0.0
  {
    if a == 0.0 {
      assert 0.0 * b == 0.0;
    }
  }

  lemma Factor(a: real, b: real, ab: real)
    requires a > 0.0 && ab >= 0.0 && a * b == ab
    ensures b >= 0.0
  {
  }

  lemma AveragedBetween(row: Row, received: real, unitCost: real, lo: real, hi: real)
    requires row.quantity >= 0 && received > 0.0 && received == received.Floor as real
    requires lo <= unitCost <= hi && (row.quantity > 0 ==> lo <= row.cost <= hi)
    ensures lo <= Averaged(row, received, unitCost).cost <= hi
  {
    var q, after := row.quantity as real, Averaged(row, received, unitCost);
    AveragedWorth(row, received, unitCost);
    AverageAbove(q, row.cost, received, unitCost, after.cost, lo);
    AverageBelow(q, row.cost, received, unitCost, after.cost, hi);
  }

  /**
   * The average stays between the least and the greatest unit cost that went into it: those received, and the
   * opening cost where something was held at it.
   */
  lemma {:induction false} CostIsBetween(rows: Rows, rs: seq<Receipt>, k: Key, lo: real, hi: real)
    requires NotNegative(rows) && k in Run(rows, rs) && Run(rows, rs)[k].quantity > 0
    requires k in rows && rows[k].quantity > 0 ==> lo <= rows[k].cost <= hi
    requires forall i :: 0 <= i < |rs| && Accepted(rs[i]) && rs[i].key == k ==> lo <= rs[i].unitCost <= hi
    ensures lo <= Run(rows, rs)[k].cost <= hi
  {
    if rs != [] {
      var before, r := Run(rows, rs[..|rs| - 1]), rs[|rs| - 1];
      if k in before && before[k].quantity > 0 {
        CostIsBetween(rows, rs[..|rs| - 1], k, lo, hi);
      }
      ReceiveBetween(before, r, k, lo, hi);
    }
  }

  lemma ReceiveBetween(rows: Rows, r: Receipt, k: Key, lo: real, hi: real)
    requires NotNegative(rows)
    requires k in rows && rows[k].quantity > 0 ==> lo <= rows[k].cost <= hi
    requires Accepted(r) && r.key == k ==> lo <= r.unitCost <= hi
    ensures var after := ApplyReceive(rows, r).0;
            k in after && after[k].quantity > 0 ==> lo <= after[k].cost <= hi
  {
    if Accepted(r) && r.key == k && k in rows {
      AveragedBetween(rows[k], r.received, r.unitCost, lo, hi);
    }
  }

  // ---------------------------------------------------------------- the statement

  class StockItems {
    var rows: Rows

    method ReceiveQuantityAtCost(r: Receipt) returns (out: Outcome)
      requires NotNegative(rows)
      modifies this
      ensures NotNegative(rows) && (rows, out) == ApplyReceive(old(rows), r)
    {
      if !Accepted(r) {
        return Refused(BadRequest);
      }
      if r.key in rows {
        var row := rows[r.key];
        var q := row.quantity as real;
        row := row.(cost := (q * row.cost + r.received * r.unitCost) / (q + r.received));
        row := row.(quantity := row.quantity + r.received.Floor);
        assert row == Averaged(rows[r.key], r.received, r.unitCost);
        rows := rows[r.key := row];
      } else {
        rows := rows[r.key := Row(r.received.Floor, r.unitCost, r.priceIfNew, 0)];
      }
      return Done;
    }
  }
}
