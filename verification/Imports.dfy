/**
 * Bringing a sheet in: preview and commit of src/imports/imports.service.ts. A commit reads the batch,
 * then writes under a guard on its version and status; any number of people may be committing at once.
 */
module Imports {
  import opened Prelude
  import opened Strings
  import opened ImportRows

  // ---------------------------------------------------------------- the shop

  datatype Key = Key(brand: string, model: string, variant: Option<string>)

  datatype Product = Product(key: Key, tracking: Kind)

  datatype Stock = Stock(product: nat, branch: nat, quantity: int, cost: real)

  /**
   * One company: products and units and stock rows are known by their position. Units of other companies are out of
   * its sight but share the database's identifier rules.
   */
  datatype Shop = Shop(products: seq<Product>, units: seq<Unit>, stock: seq<Stock>, elsewhere: seq<Unit>)

  function NonEmpty(s: string): Option<string> {
    if s == "" then None else Some(s)
  }

  /** What findOrCreateProduct matches on. */
  function KeyOf(p: Parsed): Key {
    var brand := Trim(OrEmpty(p.brand));
    Key(if brand == "" then "Unbranded" else brand, Trim(OrEmpty(p.model)), NonEmpty(Trim(OrEmpty(p.variant))))
  }

  function FindProduct(products: seq<Product>, key: Key): (r: Option<nat>)
    ensures r.Some? ==> r.value < |products| && products[r.value].key == key
    ensures r.None? ==> forall i :: 0 <= i < |products| ==> products[i].key != key
  {
    if products == [] then None
    else
      var last := |products| - 1;
      match FindProduct(products[..last], key)
      case Some(i) => Some(i)
      case None => if products[last].key == key then Some(last) else None
  }

  function FindStock(stock: seq<Stock>, product: nat, branch: nat): (r: Option<nat>)
    ensures r.Some? ==> r.value < |stock| && stock[r.value].product == product && stock[r.value].branch == branch
    ensures r.None? ==> forall i :: 0 <= i < |stock| ==> stock[i].product != product || stock[i].branch != branch
  {
    if stock == [] then None
    else
      var last := |stock| - 1;
      match FindStock(stock[..last], product, branch)
      case Some(i) => Some(i)
      case None => if stock[last].product == product && stock[last].branch == branch then Some(last) else None
  }

  /** The product list with the key in it, and where. */
  function WithProduct(products: seq<Product>, key: Key, kind: Kind): (r: (seq<Product>, nat))
    ensures products <= r.0 && r.1 < |r.0| && r.0[r.1].key == key
  {
    match FindProduct(products, key)
    case Some(i) => (products, i)
    case None => (products + [Product(key, kind)], |products|)
  }

  function Qty(p: Parsed): int {
    if p.quantity.Some? then p.quantity.value else 0
  }

  function CostOf(p: Parsed): real {
    if p.cost.Some? then p.cost.value else 0.0
  }

  /** Quantity stock merges into the branch's row of that product. */
  function Receive(stock: seq<Stock>, product: nat, branch: nat, p: Parsed): seq<Stock> {
    match FindStock(stock, product, branch)
    case Some(i) => stock[i := stock[i].(quantity := stock[i].quantity + Qty(p))]
    case None => stock + [Stock(product, branch, Qty(p), CostOf(p))]
  }

  function NewUnit(product: nat, branch: nat, kind: Kind, p: Parsed): Unit {
    Unit(product, branch, if kind.ByImei? then p.imei else None, None, if kind.BySerial? then p.serialNo else None, CostOf(p))
  }

  /** What one imported row does to the shop. */
  function AddRow(shop: Shop, branch: nat, kind: Kind, p: Parsed): Shop {
    var (products, product) := WithProduct(shop.products, KeyOf(p), kind);
    if kind.ByQuantity? then shop.(products := products, stock := Receive(shop.stock, product, branch, p))
    else shop.(products := products, units := shop.units + [NewUnit(product, branch, kind, p)])
  }

  function AddRows(shop: Shop, branch: nat, kind: Kind, rows: seq<Parsed>): Shop {
    if rows == [] then shop
    else AddRow(AddRows(shop, branch, kind, rows[..|rows| - 1]), branch, kind, rows[|rows| - 1])
  }

  lemma AddRowsNext(shop: Shop, branch: nat, kind: Kind, rows: seq<Parsed>, k: nat)
    requires k < |rows|
    ensures AddRows(shop, branch, kind, rows[..k + 1]) == AddRow(AddRows(shop, branch, kind, rows[..k]), branch, kind, rows[k])
  {
    assert rows[..k + 1][..k] == rows[..k];
  }

  // ---------------------------------------------------------------- quantity sheets

  /** One product per brand, model and variant; one stock row per product and branch. */
  ghost predicate WellFormed(shop: Shop) {
    && (forall i, j :: 0 <= i < j < |shop.products| ==> shop.products[i].key != shop.products[j].key)
    && (forall i, j :: 0 <= i < j < |shop.stock| ==>
          shop.stock[i].product != shop.stock[j].product || shop.stock[i].branch != shop.stock[j].branch)
    && (forall i :: 0 <= i < |shop.stock| ==> shop.stock[i].product < |shop.products|)
  }

  predicate Counts(products: seq<Product>, s: Stock, branch: nat, keys: iset<Key>) {
    s.branch == branch && s.product < |products| && products[s.product].key in keys
  }

  /** The pieces a branch holds of the products with these keys. */
  ghost function Pieces(products: seq<Product>, stock: seq<Stock>, branch: nat, keys: iset<Key>): int {
    if stock == [] then 0
    else
      var s := stock[|stock| - 1];
      Pieces(products, stock[..|stock| - 1], branch, keys) + if Counts(products, s, branch, keys) then s.quantity else 0
  }

  /** The pieces the rows bring for the products with these keys. */
  ghost function Brought(rows: seq<Parsed>, keys: iset<Key>): int {
    if rows == [] then 0
    else
      var p := rows[|rows| - 1];
      Brought(rows[..|rows| - 1], keys) + if KeyOf(p) in keys then Qty(p) else 0
  }

  lemma {:induction false} PiecesUpdate(products: seq<Product>, stock: seq<Stock>, i: nat, more: int, branch: nat, keys: iset<Key>)
    requires i < |stock|
    ensures Pieces(products, stock[i := stock[i].(quantity := stock[i].quantity + more)], branch, keys)
         == Pieces(products, stock, branch, keys) + if Counts(products, stock[i], branch, keys) then more else 0
  {
    var last := |stock| - 1;
    var stock' := stock[i := stock[i].(quantity := stock[i].quantity + more)];
    if i == last {
      assert stock'[..last] == stock[..last];
    } else {
      PiecesUpdate(products, stock[..last], i, more, branch, keys);
      assert stock'[..last] == stock[..last][i := stock[i].(quantity := stock[i].quantity + more)];
    }
  }

  lemma {:induction false} PiecesProductsGrow(products: seq<Product>, products': seq<Product>, stock: seq<Stock>, branch: nat, keys: iset<Key>)
    requires products <= products' && forall i :: 0 <= i < |stock| ==> stock[i].product < |products|
    ensures Pieces(products', stock, branch, keys) == Pieces(products, stock, branch, keys)
  {
    if stock != [] {
      PiecesProductsGrow(products, products', stock[..|stock| - 1], branch, keys);
    }
  }

  /** Existing stock rows keep their product, branch and cost; only the amount may rise. */
  ghost predicate SameRows(before: seq<Stock>, after: seq<Stock>) {
    |before| <= |after| && forall i :: 0 <= i < |before| ==> before[i] == after[i].(quantity := before[i].quantity)
  }

  lemma ReceiveAdds(products: seq<Product>, stock: seq<Stock>, product: nat, branch: nat, p: Parsed, b: nat, keys: iset<Key>)
    requires product < |products|
    ensures Pieces(products, Receive(stock, product, branch, p), b, keys)
         == Pieces(products, stock, b, keys) + if b == branch && products[product].key in keys then Qty(p) else 0
    ensures SameRows(stock, Receive(stock, product, branch, p))
  {
    match FindStock(stock, product, branch)
    case Some(i) => PiecesUpdate(products, stock, i, Qty(p), b, keys);
    case None =>
      var stock' := stock + [Stock(product, branch, Qty(p), CostOf(p))];
      assert stock'[..|stock|] == stock;
  }

  lemma ReceiveKeepsShape(products: seq<Product>, shop: Shop, product: nat, branch: nat, p: Parsed)
    requires WellFormed(shop) && shop.products <= products && product < |products|
    requires forall i, j :: 0 <= i < j < |products| ==> products[i].key != products[j].key
    ensures WellFormed(shop.(products := products, stock := Receive(shop.stock, product, branch, p)))
  {
  }

  lemma WithProductKeepsKeys(products: seq<Product>, key: Key, kind: Kind)
    requires forall i, j :: 0 <= i < j < |products| ==> products[i].key != products[j].key
    ensures var products' := WithProduct(products, key, kind).0;
            forall i, j :: 0 <= i < j < |products'| ==> products'[i].key != products'[j].key
  {
  }

  lemma AddRowAdds(shop: Shop, branch: nat, kind: Kind, p: Parsed, b: nat, keys: iset<Key>)
    requires WellFormed(shop)
    ensures var shop' := AddRow(shop, branch, kind, p);
            && WellFormed(shop') && SameRows(shop.stock, shop'.stock) && shop.products <= shop'.products
            && Pieces(shop'.products, shop'.stock, b, keys)
            == Pieces(shop.products, shop.stock, b, keys) + if kind.ByQuantity? && b == branch && KeyOf(p) in keys then Qty(p) else 0
  {
    var key := KeyOf(p);
    var (products, product) := WithProduct(shop.products, key, kind);
    WithProductKeepsKeys(shop.products, key, kind);
    ReceiveKeepsShape(products, shop, product, branch, p);
    PiecesProductsGrow(shop.products, products, shop.stock, b, keys);
    ReceiveAdds(products, shop.stock, product, branch, p, b, keys);
  }

  /**
   * A committed sheet raises a branch's stock, product by product and in total, by exactly what its imported
   * rows bring; nothing moves in another branch, no existing row changes cost, and no product or stock row
   * is doubled.
   */
  lemma {:induction false} CommitAddsExactly(shop: Shop, branch: nat, kind: Kind, rows: seq<Parsed>, b: nat, keys: iset<Key>)
    requires WellFormed(shop)
    ensures var shop' := AddRows(shop, branch, kind, rows);
            && WellFormed(shop') && SameRows(shop.stock, shop'.stock) && shop.products <= shop'.products
            && Pieces(shop'.products, shop'.stock, b, keys)
            == Pieces(shop.products, shop.stock, b, keys) + if kind.ByQuantity? && b == branch then Brought(rows, keys) else 0
  {
    if rows != [] {
      var last := |rows| - 1;
      var middle := AddRows(shop, branch, kind, rows[..last]);
      CommitAddsExactly(shop, branch, kind, rows[..last], b, keys);
      AddRowAdds(middle, branch, kind, rows[last], b, keys);
      SameRowsChain(shop.stock, middle.stock, AddRow(middle, branch, kind, rows[last]).stock);
    }
  }

  lemma SameRowsChain(a: seq<Stock>, b: seq<Stock>, c: seq<Stock>)
    requires SameRows(a, b) && SameRows(b, c)
    ensures SameRows(a, c)
  {
  }

  // ---------------------------------------------------------------- what imported stock is worth

  /** Quantity times cost over the stock rows. */
  ghost function Value(stock: seq<Stock>): real {
    if stock == [] then 0.0 else Value(stock[..|stock| - 1]) + Worth(stock[|stock| - 1])
  }

  ghost function Worth(s: Stock): real {
    s.quantity as real * s.cost
  }

  lemma {:induction false} ValueUpdate(stock: seq<Stock>, i: nat, s: Stock)
    requires i < |stock|
    ensures Value(stock[i := s]) == Value(stock) - Worth(stock[i]) + Worth(s)
  {
    var last := |stock| - 1;
    if i == last {
      assert stock[i := s][..last] == stock[..last];
    } else {
      ValueUpdate(stock[..last], i, s);
      assert stock[i := s][..last] == stock[..last][i := s];
    }
  }

  lemma WorthGrows(s: Stock, more: int)
    ensures Worth(s.(quantity := s.quantity + more)) == Worth(s) + more as real * s.cost
  {
    assert (s.quantity + more) as real == s.quantity as real + more as real;
  }

  lemma SameProduct(n: real, c: real, d: real)
    requires n > 0.0
    ensures n * c == n * d <==> c == d
  {
    assert n * (c - d) == n * c - n * d;
  }

  lemma MergedValue(stock: seq<Stock>, i: nat, more: int)
    requires i < |stock|
    ensures Value(stock[i := stock[i].(quantity := stock[i].quantity + more)]) == Value(stock) + Paid(more, stock[i].cost)
  {
    WorthGrows(stock[i], more);
    ValueUpdate(stock, i, stock[i].(quantity := stock[i].quantity + more));
  }

  lemma AppendedValue(stock: seq<Stock>, s: Stock)
    ensures Value(stock + [s]) == Value(stock) + Paid(s.quantity, s.cost)
  {
    assert (stock + [s])[..|stock|] == stock;
  }

  /** So many pieces at a unit cost. */
  ghost function Paid(pieces: int, cost: real): real {
    pieces as real * cost
  }

  /** The cost the pieces of a row come in at: that of the row they join, or their own. */
  ghost function JoinedCost(stock: seq<Stock>, product: nat, branch: nat, p: Parsed): real {
    var at := FindStock(stock, product, branch);
    if at.Some? then stock[at.value].cost else CostOf(p)
  }

  lemma ReceiveIs(stock: seq<Stock>, product: nat, branch: nat, p: Parsed)
    ensures var at, after := FindStock(stock, product, branch), Receive(stock, product, branch, p);
            if at.Some? then after == stock[at.value := stock[at.value].(quantity := stock[at.value].quantity + Qty(p))]
            else after == stock + [Stock(product, branch, Qty(p), CostOf(p))]
  {
  }

  /** What the merge does to the value: the pieces come in at the cost of the row they join. */
  lemma ReceiveValue(stock: seq<Stock>, product: nat, branch: nat, p: Parsed)
    ensures Value(Receive(stock, product, branch, p)) == Value(stock) + Paid(Qty(p), JoinedCost(stock, product, branch, p))
  {
    ReceiveIs(stock, product, branch, p);
    var at := FindStock(stock, product, branch);
    if at.Some? {
      MergedValue(stock, at.value, Qty(p));
    } else {
      AppendedValue(stock, Stock(product, branch, Qty(p), CostOf(p)));
    }
  }

  /**
   * Every other inflow raises quantity times cost by what was paid. An imported row does so exactly when the
   * branch has no stock of the product yet, or has it at the very cost on the sheet.
   */
  lemma ImportAddsWhatWasPaidIff(stock: seq<Stock>, product: nat, branch: nat, p: Parsed)
    requires Qty(p) > 0
    ensures var at := FindStock(stock, product, branch);
            Value(Receive(stock, product, branch, p)) == Value(stock) + Paid(Qty(p), CostOf(p))
            <==> (at.Some? ==> stock[at.value].cost == CostOf(p))
  {
    ReceiveValue(stock, product, branch, p);
    SameProduct(Qty(p) as real, JoinedCost(stock, product, branch, p), CostOf(p));
  }

  /** What a row's pieces come in at. */
  ghost function ComesInAt(shop: Shop, branch: nat, p: Parsed): real {
    Paid(Qty(p), JoinedCost(shop.stock, WithProduct(shop.products, KeyOf(p), ByQuantity).1, branch, p))
  }

  /** The shops a commit goes through, row by row. */
  ghost predicate IsTrail(trail: seq<Shop>, branch: nat, rows: seq<Parsed>) {
    && |trail| == |rows| + 1
    && forall k :: 0 <= k < |rows| ==> trail[k + 1] == AddRow(trail[k], branch, ByQuantity, rows[k])
  }

  /** What each row comes in at, joining the stock as the rows before it left it. */
  ghost function Gains(trail: seq<Shop>, branch: nat, rows: seq<Parsed>): seq<real>
    requires |trail| == |rows| + 1
  {
    seq(|rows|, k requires 0 <= k < |rows| => ComesInAt(trail[k], branch, rows[k]))
  }

  ghost function Sum(xs: seq<real>, n: nat): real
    requires n <= |xs|
  {
    if n == 0 then 0.0 else Sum(xs, n - 1) + xs[n - 1]
  }

  lemma {:induction false} Telescopes(values: seq<real>, gains: seq<real>, n: nat)
    requires n <= |gains| && |values| == |gains| + 1
    requires forall k :: 0 <= k < |gains| ==> values[k + 1] == values[k] + gains[k]
    ensures values[n] == values[0] + Sum(gains, n)
  {
    if n > 0 {
      Telescopes(values, gains, n - 1);
      assert values[n - 1 + 1] == values[n - 1] + gains[n - 1];
    }
  }

  lemma AddRowValue(shop: Shop, branch: nat, p: Parsed)
    ensures Value(AddRow(shop, branch, ByQuantity, p).stock) == Value(shop.stock) + ComesInAt(shop, branch, p)
  {
    ReceiveValue(shop.stock, WithProduct(shop.products, KeyOf(p), ByQuantity).1, branch, p);
  }

  ghost function Values(trail: seq<Shop>): seq<real> {
    seq(|trail|, k requires 0 <= k < |trail| => Value(trail[k].stock))
  }

  /** The value of a committed sheet: every quantity at the cost of the row it joined. */
  lemma SheetValue(trail: seq<Shop>, branch: nat, rows: seq<Parsed>)
    requires IsTrail(trail, branch, rows)
    ensures Value(trail[|rows|].stock) == Value(trail[0].stock) + Sum(Gains(trail, branch, rows), |rows|)
  {
    var values, gains := Values(trail), Gains(trail, branch, rows);
    forall k | 0 <= k < |gains|
      ensures values[k + 1] == values[k] + gains[k]
    {
      ValueStep(trail[k], trail[k + 1], branch, rows[k]);
    }
    Telescopes(values, gains, |rows|);
  }

  lemma ValueStep(before: Shop, after: Shop, branch: nat, p: Parsed)
    requires after == AddRow(before, branch, ByQuantity, p)
    ensures Value(after.stock) == Value(before.stock) + ComesInAt(before, branch, p)
  {
    AddRowValue(before, branch, p);
  }

  /** Every commit leaves such a trail, from the shop it found to the shop it leaves. */
  lemma {:induction false} CommitLeavesTrail(shop: Shop, branch: nat, rows: seq<Parsed>) returns (trail: seq<Shop>)
    ensures IsTrail(trail, branch, rows) && trail[0] == shop && trail[|rows|] == AddRows(shop, branch, ByQuantity, rows)
  {
    if rows == [] {
      trail := [shop];
    } else {
      var first, last := rows[..|rows| - 1], rows[|rows| - 1];
      var before := CommitLeavesTrail(shop, branch, first);
      AddRowsLast(shop, branch, ByQuantity, rows);
      trail := before + [AddRow(before[|first|], branch, ByQuantity, last)];
      TrailGrows(before, trail, branch, rows);
    }
  }

  /** So a commit raises the value of the stock by what its rows came in at, whatever was paid for them. */
  lemma CommitValue(shop: Shop, branch: nat, rows: seq<Parsed>) returns (trail: seq<Shop>)
    ensures IsTrail(trail, branch, rows) && trail[0] == shop
    ensures Value(AddRows(shop, branch, ByQuantity, rows).stock) == Value(shop.stock) + Sum(Gains(trail, branch, rows), |rows|)
  {
    trail := CommitLeavesTrail(shop, branch, rows);
    SheetValue(trail, branch, rows);
  }

  lemma TrailGrows(before: seq<Shop>, trail: seq<Shop>, branch: nat, rows: seq<Parsed>)
    requires rows != [] && IsTrail(before, branch, rows[..|rows| - 1])
    requires trail == before + [AddRow(before[|rows| - 1], branch, ByQuantity, rows[|rows| - 1])]
    ensures IsTrail(trail, branch, rows)
  {
    forall k | 0 <= k < |rows|
      ensures trail[k + 1] == AddRow(trail[k], branch, ByQuantity, rows[k])
    {
      assert k < |rows| - 1 ==> rows[..|rows| - 1][k] == rows[k];
    }
  }

  lemma AddRowsLast(shop: Shop, branch: nat, kind: Kind, rows: seq<Parsed>)
    requires rows != []
    ensures AddRows(shop, branch, kind, rows)
         == AddRow(AddRows(shop, branch, kind, rows[..|rows| - 1]), branch, kind, rows[|rows| - 1])
  {
  }

  function Cables(quantity: int, cost: real): Parsed {
    Parsed(None, None, None, None, Some("cable"), None, None, Some(cost), None, Some(quantity))
  }

  /** Such a sheet: twenty cables held at 1, fifty imported at 2; a hundred was paid, fifty is added. */
  lemma ImportUndervaluesCables()
    ensures var shop := Shop([Product(KeyOf(Cables(50, 2.0)), ByQuantity)], [], [Stock(0, 0, 20, 1.0)], []);
            var shop' := AddRows(shop, 0, ByQuantity, [Cables(50, 2.0)]);
            && shop'.stock == [Stock(0, 0, 70, 1.0)]
            && Value(shop.stock) == 20.0 && Value(shop'.stock) == 70.0
  {
    var p := Cables(50, 2.0);
    var shop := Shop([Product(KeyOf(p), ByQuantity)], [], [Stock(0, 0, 20, 1.0)], []);
    assert [p][..0] == [] && [p][0] == p;
    assert AddRows(shop, 0, ByQuantity, [p]) == AddRow(shop, 0, ByQuantity, p);
    assert FindProduct(shop.products, KeyOf(p)) == Some(0);
    assert FindStock(shop.stock, 0, 0) == Some(0);
    OneRowValue(Stock(0, 0, 20, 1.0));
    OneRowValue(Stock(0, 0, 70, 1.0));
  }

  /** And within one sheet: ten cables at 1 and ten at 3 in a new shop; forty was paid, twenty is held. */
  lemma SecondCostIsLost()
    ensures var shop' := AddRows(Shop([], [], [], []), 0, ByQuantity, [Cables(10, 1.0), Cables(10, 3.0)]);
            shop'.stock == [Stock(0, 0, 20, 1.0)] && Value(shop'.stock) == 20.0
  {
    var p, q := Cables(10, 1.0), Cables(10, 3.0);
    assert [p, q][..1] == [p] && [p, q][1] == q;
    AddRowsLast(Shop([], [], [], []), 0, ByQuantity, [p, q]);
    FirstCables();
    MoreCables();
    OneRowValue(Stock(0, 0, 20, 1.0));
  }

  function TenCables(): Shop {
    Shop([Product(KeyOf(Cables(10, 1.0)), ByQuantity)], [], [Stock(0, 0, 10, 1.0)], [])
  }

  lemma FirstCables()
    ensures AddRows(Shop([], [], [], []), 0, ByQuantity, [Cables(10, 1.0)]) == TenCables()
  {
    var p := Cables(10, 1.0);
    assert [p][..0] == [] && [p][0] == p;
    AddRowsLast(Shop([], [], [], []), 0, ByQuantity, [p]);
  }

  lemma MoreCables()
    ensures AddRow(TenCables(), 0, ByQuantity, Cables(10, 3.0)).stock == [Stock(0, 0, 20, 1.0)]
  {
    assert KeyOf(Cables(10, 1.0)) == KeyOf(Cables(10, 3.0));
    assert FindProduct(TenCables().products, KeyOf(Cables(10, 3.0))) == Some(0);
    assert FindStock(TenCables().stock, 0, 0) == Some(0);
  }

  lemma OneRowValue(s: Stock)
    ensures Value([s]) == Worth(s)
  {
    assert [s][..0] == [];
  }

  // ---------------------------------------------------------------- IMEI sheets

  /** No identifier stands on two units. */
  ghost predicate Unique(units: seq<Unit>) {
    forall i, j :: 0 <= i < j < |units| ==> Ids(units[i]) !! Ids(units[j])
  }

  /** What a row of this kind is known by. */
  function CodeOf(kind: Kind, p: Parsed): Option<string> {
    match kind case ByImei => p.imei case BySerial => p.serialNo case ByQuantity => None
  }

  predicate Carries(kind: Kind, p: Parsed) {
    CodeOf(kind, p).Some? && CodeOf(kind, p).value != ""
  }

  predicate DistinctCodes(kind: Kind, rows: seq<Parsed>) {
    && (forall k :: 0 <= k < |rows| ==> Carries(kind, rows[k]))
    && (forall k, l :: 0 <= k < l < |rows| ==> CodeOf(kind, rows[k]) != CodeOf(kind, rows[l]))
  }

  lemma AddRowUnit(shop: Shop, branch: nat, p: Parsed)
    requires Carries(ByImei, p)
    ensures var units := AddRow(shop, branch, ByImei, p).units;
            |units| == |shop.units| + 1 && units[..|shop.units|] == shop.units && Ids(units[|shop.units|]) == {p.imei.value}
  {
  }

  /** The new units stand after the old ones and carry the rows' identifiers in order. */
  ghost predicate Appends(before: seq<Unit>, after: seq<Unit>, rows: seq<Parsed>) {
    && |after| == |before| + |rows| && after[..|before|] == before
    && forall k :: 0 <= k < |rows| ==> Carries(ByImei, rows[k]) && Ids(after[|before| + k]) == {rows[k].imei.value}
  }

  lemma AppendsStep(before: seq<Unit>, middle: seq<Unit>, after: seq<Unit>, rows: seq<Parsed>)
    requires rows != [] && Appends(before, middle, rows[..|rows| - 1]) && Carries(ByImei, rows[|rows| - 1])
    requires |after| == |middle| + 1 && after[..|middle|] == middle && Ids(after[|middle|]) == {rows[|rows| - 1].imei.value}
    ensures Appends(before, after, rows)
  {
    assert after[..|before|] == after[..|middle|][..|before|];
    forall k | 0 <= k < |rows|
      ensures Carries(ByImei, rows[k]) && Ids(after[|before| + k]) == {rows[k].imei.value}
    {
      if k < |rows| - 1 {
        assert rows[..|rows| - 1][k] == rows[k] && after[|before| + k] == middle[|before| + k];
      }
    }
  }

  lemma {:induction false} NewUnitsCarryTheRows(shop: Shop, branch: nat, rows: seq<Parsed>)
    requires forall k :: 0 <= k < |rows| ==> Carries(ByImei, rows[k])
    ensures Appends(shop.units, AddRows(shop, branch, ByImei, rows).units, rows)
  {
    if rows != [] {
      var last := |rows| - 1;
      NewUnitsCarryTheRows(shop, branch, rows[..last]);
      var middle := AddRows(shop, branch, ByImei, rows[..last]);
      AddRowUnit(middle, branch, rows[last]);
      AppendsStep(shop.units, middle.units, AddRow(middle, branch, ByImei, rows[last]).units, rows);
    }
  }

  lemma AppendedUniqueIff(before: seq<Unit>, after: seq<Unit>, rows: seq<Parsed>)
    requires Unique(before) && DistinctCodes(ByImei, rows) && Appends(before, after, rows)
    ensures Unique(after) <==> forall k :: 0 <= k < |rows| ==> rows[k].imei.value !in AllIds(before)
  {
    var n := |before|;
    assert forall i :: 0 <= i < n ==> after[i] == before[i];
    if Unique(after) {
      forall k | 0 <= k < |rows|
        ensures rows[k].imei.value !in AllIds(before)
      {
        assert rows[k].imei.value in Ids(after[n + k]);
        assert forall i :: 0 <= i < n ==> Ids(after[i]) !! Ids(after[n + k]);
      }
    }
    if forall k :: 0 <= k < |rows| ==> rows[k].imei.value !in AllIds(before) {
      forall i, j | 0 <= i < j < |after|
        ensures Ids(after[i]) !! Ids(after[j])
      {
        if j >= n {
          assert Ids(after[n + (j - n)]) == {rows[j - n].imei.value};
          if i >= n {
            assert Ids(after[n + (i - n)]) == {rows[i - n].imei.value};
          }
        }
      }
    }
  }

  /** Bringing distinct IMEIs in keeps identifiers unique exactly when the shop holds none of them by then. */
  lemma CommitKeepsUniqueIff(shop: Shop, branch: nat, rows: seq<Parsed>)
    requires Unique(shop.units) && DistinctCodes(ByImei, rows)
    ensures Unique(AddRows(shop, branch, ByImei, rows).units)
       <==> forall k :: 0 <= k < |rows| ==> rows[k].imei.value !in AllIds(shop.units)
  {
    NewUnitsCarryTheRows(shop, branch, rows);
    AppendedUniqueIff(shop.units, AddRows(shop, branch, ByImei, rows).units, rows);
  }

  // ---------------------------------------------------------------- the database's identifier rules

  /** The generated column under the unique index. */
  function Code(u: Unit): Option<string> {
    if u.imeiPrimary.Some? then u.imeiPrimary else u.serialNo
  }

  predicate IsOn(id: Option<string>, u: Unit) {
    id.Some? && (u.imeiPrimary == id || u.imeiSecondary == id || u.serialNo == id)
  }

  /** The unique indexes and the insert trigger: may `u` join these units? */
  predicate Accepts(all: seq<Unit>, u: Unit) {
    && (Code(u).Some? ==> forall i :: 0 <= i < |all| ==> Code(all[i]) != Code(u))
    && (u.imeiPrimary.Some? ==>
          forall i :: 0 <= i < |all| ==> all[i].imeiSecondary != u.imeiPrimary && all[i].serialNo != u.imeiPrimary)
    && (u.imeiSecondary.Some? ==>
          u.imeiSecondary != u.imeiPrimary && forall i :: 0 <= i < |all| ==> !IsOn(u.imeiSecondary, all[i]))
  }

  /** Every insert of the commit loop is accepted; one that is not rolls the whole commit back. */
  predicate Fits(shop: Shop, branch: nat, kind: Kind, rows: seq<Parsed>) {
    rows == [] ||
    var first, last := rows[..|rows| - 1], rows[|rows| - 1];
    && Fits(shop, branch, kind, first)
    && (kind.ByQuantity? || Accepts(shop.elsewhere + AddRows(shop, branch, kind, first).units, NewUnit(0, branch, kind, last)))
  }

  lemma FitsNext(shop: Shop, branch: nat, kind: Kind, rows: seq<Parsed>, k: nat)
    requires k < |rows|
    ensures Fits(shop, branch, kind, rows[..k + 1])
       <==> && Fits(shop, branch, kind, rows[..k])
            && (kind.ByQuantity? || Accepts(shop.elsewhere + AddRows(shop, branch, kind, rows[..k]).units, NewUnit(0, branch, kind, rows[k])))
  {
    assert rows[..k + 1][..k] == rows[..k] && rows[..k + 1][k] == rows[k];
  }

  lemma {:induction false} FitsPrefix(shop: Shop, branch: nat, kind: Kind, rows: seq<Parsed>, k: nat)
    requires k <= |rows| && Fits(shop, branch, kind, rows)
    ensures Fits(shop, branch, kind, rows[..k])
  {
    if k == |rows| {
      assert rows[..k] == rows;
    } else {
      FitsPrefix(shop, branch, kind, rows[..|rows| - 1], k);
      assert rows[..|rows| - 1][..k] == rows[..k];
    }
  }

  lemma NoFit(shop: Shop, branch: nat, kind: Kind, rows: seq<Parsed>, k: nat)
    requires k <= |rows| && !Fits(shop, branch, kind, rows[..k])
    ensures !Fits(shop, branch, kind, rows)
  {
    if Fits(shop, branch, kind, rows) {
      FitsPrefix(shop, branch, kind, rows, k);
    }
  }

  /** The identifiers an import of this kind cannot reuse: for a serial number only those under the unique index. */
  function Taken(kind: Kind, all: seq<Unit>): set<string> {
    match kind
    case ByImei => AllIds(all)
    case BySerial => set i | 0 <= i < |all| && Code(all[i]).Some? :: Code(all[i]).value
    case ByQuantity => {}
  }

  lemma AcceptsIff(all: seq<Unit>, branch: nat, kind: Kind, p: Parsed)
    requires !kind.ByQuantity? && Carries(kind, p)
    ensures Accepts(all, NewUnit(0, branch, kind, p)) <==> CodeOf(kind, p).value !in Taken(kind, all)
  {
    if kind.ByImei? {
      ImeiAcceptsIff(all, branch, p);
    }
  }

  lemma ImeiAcceptsIff(all: seq<Unit>, branch: nat, p: Parsed)
    requires Carries(ByImei, p)
    ensures Accepts(all, NewUnit(0, branch, ByImei, p)) <==> p.imei.value !in AllIds(all)
  {
    forall i | 0 <= i < |all|
      ensures p.imei.value in Ids(all[i]) <==>
              Code(all[i]) == p.imei || all[i].imeiSecondary == p.imei || all[i].serialNo == p.imei
    {
    }
  }

  lemma TakenGrows(kind: Kind, all: seq<Unit>, product: nat, branch: nat, p: Parsed)
    requires !kind.ByQuantity? && Carries(kind, p)
    ensures Taken(kind, all + [NewUnit(product, branch, kind, p)]) == Taken(kind, all) + {CodeOf(kind, p).value}
  {
    var u := NewUnit(product, branch, kind, p);
    var more := all + [u];
    assert more[|all|] == u && forall i :: 0 <= i < |all| ==> more[i] == all[i];
    if kind.ByImei? {
      assert Ids(u) == {p.imei.value};
    } else {
      assert Code(u) == p.serialNo;
    }
  }

  /** The codes of some rows. */
  function Codes(kind: Kind, rows: seq<Parsed>): set<string> {
    set k | 0 <= k < |rows| && CodeOf(kind, rows[k]).Some? :: CodeOf(kind, rows[k]).value
  }

  lemma {:induction false} TakenAfter(shop: Shop, branch: nat, kind: Kind, rows: seq<Parsed>)
    requires !kind.ByQuantity? && forall k :: 0 <= k < |rows| ==> Carries(kind, rows[k])
    ensures Taken(kind, shop.elsewhere + AddRows(shop, branch, kind, rows).units)
         == Taken(kind, shop.elsewhere + shop.units) + Codes(kind, rows)
  {
    if rows != [] {
      var first, last := rows[..|rows| - 1], rows[|rows| - 1];
      var middle := AddRows(shop, branch, kind, first);
      TakenAfter(shop, branch, kind, first);
      var product := WithProduct(middle.products, KeyOf(last), kind).1;
      TakenGrows(kind, shop.elsewhere + middle.units, product, branch, last);
      assert shop.elsewhere + (middle.units + [NewUnit(product, branch, kind, last)])
          == shop.elsewhere + middle.units + [NewUnit(product, branch, kind, last)];
      CodesLast(kind, rows);
    } else {
      assert Codes(kind, rows) == {};
    }
  }

  lemma CodesLast(kind: Kind, rows: seq<Parsed>)
    requires rows != [] && Carries(kind, rows[|rows| - 1])
    ensures Codes(kind, rows) == Codes(kind, rows[..|rows| - 1]) + {CodeOf(kind, rows[|rows| - 1]).value}
  {
    assert forall k :: 0 <= k < |rows| - 1 ==> rows[..|rows| - 1][k] == rows[k];
  }

  predicate NoneIn(kind: Kind, rows: seq<Parsed>, taken: set<string>) {
    forall k :: 0 <= k < |rows| && CodeOf(kind, rows[k]).Some? ==> CodeOf(kind, rows[k]).value !in taken
  }

  lemma NoneInLast(kind: Kind, rows: seq<Parsed>, taken: set<string>)
    requires rows != [] && Carries(kind, rows[|rows| - 1])
    ensures NoneIn(kind, rows, taken) <==>
            NoneIn(kind, rows[..|rows| - 1], taken) && CodeOf(kind, rows[|rows| - 1]).value !in taken
  {
    var n := |rows| - 1;
    assert forall k :: 0 <= k < n ==> rows[..n][k] == rows[k];
    if NoneIn(kind, rows[..n], taken) && CodeOf(kind, rows[n]).value !in taken {
      forall k | 0 <= k < |rows| && CodeOf(kind, rows[k]).Some?
        ensures CodeOf(kind, rows[k]).value !in taken
      {
        assert k < n ==> rows[..n][k] == rows[k];
      }
    }
  }

  lemma DistinctFirst(kind: Kind, rows: seq<Parsed>)
    requires rows != [] && DistinctCodes(kind, rows)
    ensures DistinctCodes(kind, rows[..|rows| - 1])
  {
  }

  /** The database takes a sheet with distinct codes exactly when none of them is taken. */
  lemma {:induction false} FitsIff(shop: Shop, branch: nat, kind: Kind, rows: seq<Parsed>)
    requires !kind.ByQuantity? && DistinctCodes(kind, rows)
    ensures Fits(shop, branch, kind, rows) <==> NoneIn(kind, rows, Taken(kind, shop.elsewhere + shop.units))
  {
    if rows != [] {
      DistinctFirst(kind, rows);
      FitsIff(shop, branch, kind, rows[..|rows| - 1]);
      FitsLast(shop, branch, kind, rows);
      NoneInLast(kind, rows, Taken(kind, shop.elsewhere + shop.units));
    }
  }

  lemma FitsLast(shop: Shop, branch: nat, kind: Kind, rows: seq<Parsed>)
    requires !kind.ByQuantity? && DistinctCodes(kind, rows) && rows != []
    ensures Fits(shop, branch, kind, rows)
       <==> && Fits(shop, branch, kind, rows[..|rows| - 1])
            && CodeOf(kind, rows[|rows| - 1]).value !in Taken(kind, shop.elsewhere + shop.units)
  {
    var n := |rows| - 1;
    var first, last := rows[..n], rows[n];
    assert forall k :: 0 <= k < n ==> first[k] == rows[k];
    TakenAfter(shop, branch, kind, first);
    AcceptsIff(shop.elsewhere + AddRows(shop, branch, kind, first).units, branch, kind, last);
    assert CodeOf(kind, last).value !in Codes(kind, first);
  }

  lemma {:induction false} QuantityFits(shop: Shop, branch: nat, rows: seq<Parsed>)
    ensures Fits(shop, branch, ByQuantity, rows)
  {
    if rows != [] {
      QuantityFits(shop, branch, rows[..|rows| - 1]);
    }
  }

  // ---------------------------------------------------------------- batches

  datatype BatchStatus = Preview | Committed | Failed

  datatype Batch = Batch(branch: nat, kind: Kind, status: BatchStatus, rows: seq<Decided>, total: nat,
                         valid: nat, warning: nat, error: nat, imported: nat, version: nat, clientUuid: Option<nat>)

  datatype Db = Db(shop: Shop, batches: seq<Batch>)

  datatype Sheet = Sheet(branch: nat, mapping: Mapping, body: seq<seq<string>>, read: Reader, clientUuid: Option<nat>)

  function Count(rows: seq<Decided>, status: Status): nat {
    if rows == [] then 0
    else Count(rows[..|rows| - 1], status) + if rows[|rows| - 1].verdict.status == status then 1 else 0
  }

  /** The rows that are not errors, as parsed. */
  function Importable(rows: seq<Decided>): seq<Parsed> {
    if rows == [] then []
    else
      var row := rows[|rows| - 1];
      Importable(rows[..|rows| - 1]) + if row.verdict.status != Error then [row.verdict.parsed] else []
  }

  function PreviewOf(sheet: Sheet, units: seq<Unit>): Batch {
    var kind := KindOf(sheet.mapping);
    if MissingRequirements(sheet.mapping) != [] || kind.None? then
      Batch(sheet.branch, ByQuantity, Failed, [], |sheet.body|, 0, 0, 0, 0, 0, sheet.clientUuid)
    else
      var rows := Verdicts(sheet.body, sheet.mapping, kind.value, units, sheet.read);
      Batch(sheet.branch, kind.value, Preview, rows, |rows|, Count(rows, Valid), Count(rows, Warning), Count(rows, Error), 0, 0,
            sheet.clientUuid)
  }

  predicate WasUploaded(batches: seq<Batch>, uuid: Option<nat>) {
    uuid.Some? && exists i :: 0 <= i < |batches| && batches[i].clientUuid == uuid
  }

  /** An offline retry answers with the earlier batch. */
  function ApplyPreview(db: Db, sheet: Sheet): (Db, Outcome) {
    if WasUploaded(db.batches, sheet.clientUuid) then (db, Replayed)
    else if sheet.body == [] then (db, Refused(BadRequest))
    else (db.(batches := db.batches + [PreviewOf(sheet, db.shop.units)]), Done)
  }

  /** Everything commit decides from the batch it read. */
  function Prepare(read: Batch, branch: nat, expected: Option<nat>): Option<Refusal> {
    if read.branch != branch then Some(NotFound)
    else if read.status == Committed then Some(Conflict)
    else if read.status != Preview then Some(BadRequest)
    else if expected.Some? && expected.value != read.version then Some(Conflict)
    else if Importable(read.rows) == [] then Some(BadRequest)
    else None
  }

  /** The batch as its commit leaves it: the guard and the closing update each raise the version. */
  function Closed(b: Batch, imported: nat): Batch {
    b.(status := Committed, imported := imported, version := b.version + 2)
  }

  predicate Guarded(cur: Batch, read: Batch) {
    cur.version == read.version && cur.status == Preview
  }

  /** The transaction: the guard, the rows that were read, the closing update. */
  function Write(db: Db, id: nat, read: Batch): (Db, Outcome)
    requires id < |db.batches|
  {
    var cur := db.batches[id];
    if !Guarded(cur, read) then (db, Refused(Conflict))
    else
      var rows := Importable(read.rows);
      if !Fits(db.shop, read.branch, read.kind, rows) then (db, Refused(Conflict))
      else (Db(AddRows(db.shop, read.branch, read.kind, rows), db.batches[id := Closed(cur, |rows|)]), Done)
  }

  function ApplyCommit(db: Db, id: nat, branch: nat, expected: Option<nat>): (Db, Outcome) {
    if id >= |db.batches| then (db, Refused(NotFound))
    else
      match Prepare(db.batches[id], branch, expected)
      case Some(why) => (db, Refused(why))
      case None => Write(db, id, db.batches[id])
  }

  // ---------------------------------------------------------------- what a preview promises

  /** Imported rows: distinct identifiers, checked where they are IMEIs, or whole positive quantities. */
  predicate RowsOk(kind: Kind, rows: seq<Decided>) {
    && (!kind.ByQuantity? ==> DistinctCodes(kind, Importable(rows)))
    && (kind.ByImei? ==> forall k :: 0 <= k < |Importable(rows)| ==> IsImei(Importable(rows)[k].imei))
    && (kind.ByQuantity? ==> forall k :: 0 <= k < |Importable(rows)| ==> Qty(Importable(rows)[k]) > 0)
  }

  ghost predicate BatchOk(b: Batch) {
    && (b.status == Preview ==> b.version == 0 && b.imported == 0)
    && (b.status == Committed ==> b.version == 2 && b.imported == b.valid + b.warning)
    && (b.status != Failed ==> b.total == b.valid + b.warning + b.error && |Importable(b.rows)| == b.valid + b.warning
                               && RowsOk(b.kind, b.rows))
  }

  lemma {:induction false} CountsAddUp(rows: seq<Decided>)
    ensures |rows| == Count(rows, Valid) + Count(rows, Warning) + Count(rows, Error)
    ensures |Importable(rows)| == Count(rows, Valid) + Count(rows, Warning)
  {
    if rows != [] {
      CountsAddUp(rows[..|rows| - 1]);
    }
  }

  lemma {:induction false} ImportableFrom(rows: seq<Decided>, k: nat) returns (i: nat)
    requires k < |Importable(rows)|
    ensures i < |rows| && rows[i].verdict.status != Error && rows[i].verdict.parsed == Importable(rows)[k]
  {
    var last := |rows| - 1;
    if k < |Importable(rows[..last])| {
      i := ImportableFrom(rows[..last], k);
    } else {
      i := last;
    }
  }

  predicate FreshRows(kind: Kind, rows: seq<Decided>) {
    forall i :: 0 <= i < |rows| ==> FreshRow(kind, rows, i)
  }

  predicate FreshRow(kind: Kind, rows: seq<Decided>, i: nat)
    requires i < |rows|
  {
    && CodeOf(kind, rows[i].verdict.parsed) == rows[i].identifier
    && (rows[i].verdict.status != Error ==>
          && rows[i].identifier.Some? && rows[i].identifier.value != ""
          && (kind.ByImei? ==> IsImei(rows[i].identifier))
          && forall j :: 0 <= j < i ==> rows[j].identifier != rows[i].identifier)
  }

  lemma {:induction false} FreshRowsDistinct(kind: Kind, rows: seq<Decided>)
    requires FreshRows(kind, rows)
    ensures DistinctCodes(kind, Importable(rows))
    ensures kind.ByImei? ==> forall k :: 0 <= k < |Importable(rows)| ==> IsImei(Importable(rows)[k].imei)
  {
    if rows != [] {
      var last := |rows| - 1;
      var first := rows[..last];
      assert FreshRow(kind, rows, last);
      forall i | 0 <= i < last
        ensures FreshRow(kind, first, i)
      {
        assert FreshRow(kind, rows, i);
      }
      FreshRowsDistinct(kind, first);
      if rows[last].verdict.status != Error {
        forall k | 0 <= k < |Importable(first)|
          ensures CodeOf(kind, Importable(first)[k]) != CodeOf(kind, rows[last].verdict.parsed)
        {
          var i := ImportableFrom(first, k);
          assert FreshRow(kind, rows, i);
        }
      }
    }
  }

  lemma CompleteCarries(cells: Cells, kind: Kind, read: Reader)
    requires !kind.ByQuantity? && Complete(cells, kind, read)
    ensures Identifier(cells, kind).Some? && Identifier(cells, kind).value != ""
    ensures kind.ByImei? ==> IsImei(Identifier(cells, kind))
  {
  }

  lemma ParsedCode(cells: Cells, kind: Kind, read: Reader)
    requires !kind.ByQuantity?
    ensures CodeOf(kind, ParseRow(cells, kind, read)) == Identifier(cells, kind)
  {
  }

  lemma RowIsFresh(body: seq<seq<string>>, mapping: Mapping, kind: Kind, units: seq<Unit>, read: Reader, i: nat)
    requires i < |body| && !kind.ByQuantity?
    ensures |Verdicts(body, mapping, kind, units, read)| == |body|
    ensures FreshRow(kind, Verdicts(body, mapping, kind, units, read), i)
  {
    var cells := CellsOf(mapping, body[i]);
    RowIsNewIff(body, mapping, kind, units, read, i);
    ParsedAt(body, mapping, kind, units, read, i);
    ParsedCode(cells, kind, read);
    if Complete(cells, kind, read) {
      CompleteCarries(cells, kind, read);
    }
  }

  lemma ParsedAt(body: seq<seq<string>>, mapping: Mapping, kind: Kind, units: seq<Unit>, read: Reader, i: nat)
    requires i < |body|
    ensures var out := Verdicts(body, mapping, kind, units, read);
            |out| == |body| && out[i].verdict.parsed == ParseRow(CellsOf(mapping, body[i]), kind, read)
  {
    DecideAt(ReadAll(body, mapping, kind, read), Known(units, Claimed(body, mapping, kind)), |body|);
    ReadAllAt(body, mapping, kind, read, i);
  }

  lemma PreviewIsFresh(body: seq<seq<string>>, mapping: Mapping, kind: Kind, units: seq<Unit>, read: Reader)
    requires !kind.ByQuantity?
    ensures FreshRows(kind, Verdicts(body, mapping, kind, units, read))
  {
    DecideAt(ReadAll(body, mapping, kind, read), Known(units, Claimed(body, mapping, kind)), |body|);
    forall i | 0 <= i < |body|
      ensures FreshRow(kind, Verdicts(body, mapping, kind, units, read), i)
    {
      RowIsFresh(body, mapping, kind, units, read, i);
    }
  }

  lemma CompleteQuantity(cells: Cells, read: Reader)
    requires Complete(cells, ByQuantity, read)
    ensures Qty(ParseRow(cells, ByQuantity, read)) > 0
  {
  }

  lemma QuantityPreviewIsWhole(body: seq<seq<string>>, mapping: Mapping, units: seq<Unit>, read: Reader, i: nat)
    requires i < |body|
    ensures var out := Verdicts(body, mapping, ByQuantity, units, read);
            |out| == |body| && (out[i].verdict.status != Error ==> Qty(out[i].verdict.parsed) > 0)
  {
    var rows, shop := ReadAll(body, mapping, ByQuantity, read), Known(units, Claimed(body, mapping, ByQuantity));
    DecideAt(rows, shop, |body|);
    ReadAllAt(body, mapping, ByQuantity, read, i);
    var cells := CellsOf(mapping, body[i]);
    RowIsImportedIff(cells, ByQuantity, SeenBefore(rows, i), shop, read);
    if Complete(cells, ByQuantity, read) {
      CompleteQuantity(cells, read);
    }
  }

  lemma PreviewIsOk(sheet: Sheet, units: seq<Unit>)
    ensures BatchOk(PreviewOf(sheet, units))
  {
    var b := PreviewOf(sheet, units);
    if b.status == Preview {
      CountsAddUp(b.rows);
      if !b.kind.ByQuantity? {
        PreviewIsFresh(sheet.body, sheet.mapping, b.kind, units, sheet.read);
        FreshRowsDistinct(b.kind, b.rows);
      } else {
        forall k | 0 <= k < |Importable(b.rows)|
          ensures Qty(Importable(b.rows)[k]) > 0
        {
          DecideAt(ReadAll(sheet.body, sheet.mapping, ByQuantity, sheet.read),
                   Known(units, Claimed(sheet.body, sheet.mapping, ByQuantity)), |sheet.body|);
          var i := ImportableFrom(b.rows, k);
          QuantityPreviewIsWhole(sheet.body, sheet.mapping, units, sheet.read, i);
        }
      }
    }
  }

  /** No imported row of an IMEI preview was in the shop it was checked against. */
  lemma PreviewedAgainstShop(sheet: Sheet, units: seq<Unit>, k: nat)
    requires KindOf(sheet.mapping) == Some(ByImei) && k < |Importable(PreviewOf(sheet, units).rows)|
    ensures var p := Importable(PreviewOf(sheet, units).rows)[k]; IsImei(p.imei) && p.imei.value !in AllIds(units)
  {
    var rows := PreviewOf(sheet, units).rows;
    var i := ImportableFrom(rows, k);
    DecideAt(ReadAll(sheet.body, sheet.mapping, ByImei, sheet.read),
             Known(units, Claimed(sheet.body, sheet.mapping, ByImei)), |sheet.body|);
    ImeiRowIsFresh(sheet.body, sheet.mapping, units, sheet.read, i);
    RowIsFresh(sheet.body, sheet.mapping, ByImei, units, sheet.read, i);
  }

  /**
   * From a sheet to the shop: whatever else changed since the preview, committing it keeps identifiers unique
   * as long as the shop gained no identifier.
   */
  lemma ImportKeepsIdentifiersUnique(sheet: Sheet, units: seq<Unit>, shop: Shop)
    requires KindOf(sheet.mapping) == Some(ByImei) && PreviewOf(sheet, units).status == Preview
    requires Unique(shop.units) && AllIds(shop.units) <= AllIds(units)
    ensures Unique(AddRows(shop, sheet.branch, ByImei, Importable(PreviewOf(sheet, units).rows)).units)
  {
    var rows := Importable(PreviewOf(sheet, units).rows);
    PreviewIsOk(sheet, units);
    forall k | 0 <= k < |rows|
      ensures rows[k].imei.value !in AllIds(shop.units)
    {
      PreviewedAgainstShop(sheet, units, k);
    }
    CommitKeepsUniqueIff(shop, sheet.branch, rows);
  }

  /** The rows of a preview that the shop, or another company, already has by the time of the commit. */
  predicate Clashes(b: Batch, shop: Shop, k: nat)
    requires k < |Importable(b.rows)|
  {
    var code := CodeOf(b.kind, Importable(b.rows)[k]);
    code.Some? && code.value in Taken(b.kind, shop.elsewhere + shop.units)
  }

  /**
   * "A bad row fails alone" ends at the preview: a commit that is not refused for its batch goes through exactly
   * when not one of its rows clashes, and otherwise brings nothing in.
   */
  lemma CommitGoesThroughIff(db: Db, id: nat, branch: nat, expected: Option<nat>)
    requires id < |db.batches| && BatchOk(db.batches[id]) && Prepare(db.batches[id], branch, expected).None?
    ensures var b := db.batches[id];
            ApplyCommit(db, id, branch, expected).1 == Done
            <==> forall k :: 0 <= k < |Importable(b.rows)| ==> !Clashes(b, db.shop, k)
    ensures ApplyCommit(db, id, branch, expected).1 != Done ==> ApplyCommit(db, id, branch, expected) == (db, Refused(Conflict))
  {
    var b := db.batches[id];
    CommitWrites(db, id, branch, expected);
    BatchFitsIff(b, db.shop);
  }

  lemma CommitWrites(db: Db, id: nat, branch: nat, expected: Option<nat>)
    requires id < |db.batches| && Prepare(db.batches[id], branch, expected).None?
    ensures var b := db.batches[id];
            ApplyCommit(db, id, branch, expected)
            == if !Fits(db.shop, b.branch, b.kind, Importable(b.rows)) then (db, Refused(Conflict)) else Write(db, id, b)
    ensures Write(db, id, db.batches[id]).1 == Done <==>
            Fits(db.shop, db.batches[id].branch, db.batches[id].kind, Importable(db.batches[id].rows))
  {
  }

  lemma BatchFitsIff(b: Batch, shop: Shop)
    requires BatchOk(b) && b.status != Failed
    ensures Fits(shop, b.branch, b.kind, Importable(b.rows)) <==> forall k :: 0 <= k < |Importable(b.rows)| ==> !Clashes(b, shop, k)
  {
    if b.kind.ByQuantity? {
      QuantityFits(shop, b.branch, Importable(b.rows));
    } else {
      FitsIff(shop, b.branch, b.kind, Importable(b.rows));
      NoneClashes(b, shop);
    }
  }

  lemma NoneClashes(b: Batch, shop: Shop)
    ensures NoneIn(b.kind, Importable(b.rows), Taken(b.kind, shop.elsewhere + shop.units))
       <==> forall k :: 0 <= k < |Importable(b.rows)| ==> !Clashes(b, shop, k)
  {
    var rows := Importable(b.rows);
    forall k | 0 <= k < |rows|
      ensures Clashes(b, shop, k) <==>
              CodeOf(b.kind, rows[k]).Some? && CodeOf(b.kind, rows[k]).value in Taken(b.kind, shop.elsewhere + shop.units)
    {
    }
  }

  /** So whatever happened since the preview, an IMEI commit that goes through keeps identifiers unique. */
  lemma DoneCommitKeepsUnique(db: Db, id: nat, branch: nat, expected: Option<nat>)
    requires id < |db.batches| && BatchOk(db.batches[id]) && Prepare(db.batches[id], branch, expected).None?
    requires db.batches[id].kind.ByImei? && Unique(db.shop.units) && ApplyCommit(db, id, branch, expected).1 == Done
    ensures Unique(ApplyCommit(db, id, branch, expected).0.shop.units)
  {
    var b := db.batches[id];
    var rows := Importable(b.rows);
    FitsIff(db.shop, b.branch, ByImei, rows);
    AllIdsWithin(db.shop.elsewhere, db.shop.units);
    CommitKeepsUniqueIff(db.shop, b.branch, rows);
  }

  lemma AllIdsWithin(elsewhere: seq<Unit>, units: seq<Unit>)
    ensures AllIds(units) <= AllIds(elsewhere + units)
  {
    assert forall i :: 0 <= i < |units| ==> (elsewhere + units)[|elsewhere| + i] == units[i];
  }

  // ---------------------------------------------------------------- what one call does

  /** A sheet is previewed once per request id, if it has rows; it is read only with the columns it needs. */
  lemma UploadedIff(db: Db, sheet: Sheet)
    ensures var (after, r) := ApplyPreview(db, sheet);
            && (r == Replayed <==> sheet.clientUuid.Some? && exists i :: 0 <= i < |db.batches| && db.batches[i].clientUuid == sheet.clientUuid)
            && (r == Done <==> r != Replayed && sheet.body != [])
            && after.shop == db.shop
            && (r != Done ==> after == db)
            && (r == Done ==>
                  && |after.batches| == |db.batches| + 1 && after.batches[..|db.batches|] == db.batches
                  && var b := after.batches[|db.batches|];
                     && b.branch == sheet.branch && b.clientUuid == sheet.clientUuid && b.version == 0 && b.imported == 0
                     && b.total == |sheet.body|
                     && (b.status == Preview <==>
                           KindOf(sheet.mapping).Some? && Some(Model) in sheet.mapping && Some(Cost) in sheet.mapping)
                     && (b.status != Preview ==> b.status == Failed && b.rows == [])
                     && (b.status == Preview ==>
                           && Some(b.kind) == KindOf(sheet.mapping)
                           && b.rows == Verdicts(sheet.body, sheet.mapping, b.kind, db.shop.units, sheet.read)))
  {
    if KindOf(sheet.mapping).Some? {
      DecideAt(ReadAll(sheet.body, sheet.mapping, KindOf(sheet.mapping).value, sheet.read),
               Known(db.shop.units, Claimed(sheet.body, sheet.mapping, KindOf(sheet.mapping).value)), |sheet.body|);
    }
    assert MissingRequirements(sheet.mapping) == [] <==>
           KindOf(sheet.mapping).Some? && Some(Model) in sheet.mapping && Some(Cost) in sheet.mapping;
  }

  /** The same upload sent again is answered with the batch it made. */
  lemma UploadSentAgain(db: Db, sheet: Sheet)
    requires sheet.clientUuid.Some? && ApplyPreview(db, sheet).1 == Done
    ensures ApplyPreview(ApplyPreview(db, sheet).0, sheet) == (ApplyPreview(db, sheet).0, Replayed)
  {
    UploadedIff(db, sheet);
    UploadedIff(ApplyPreview(db, sheet).0, sheet);
  }

  lemma {:induction false} SomethingToBring(rows: seq<Decided>)
    ensures Importable(rows) != [] <==> exists i :: 0 <= i < |rows| && rows[i].verdict.status != Error
  {
    if rows != [] {
      SomethingToBring(rows[..|rows| - 1]);
    }
  }

  /** A batch is brought in exactly from its branch, unread since, while a preview, with a row to bring and none that clashes. */
  lemma CommittedIff(db: Db, id: nat, branch: nat, expected: Option<nat>)
    requires id < |db.batches| && BatchOk(db.batches[id])
    ensures var (after, r) := ApplyCommit(db, id, branch, expected);
            var b := db.batches[id];
            && (r == Done <==>
                  && b.branch == branch && b.status == Preview && (expected.Some? ==> expected.value == b.version)
                  && (exists i :: 0 <= i < |b.rows| && b.rows[i].verdict.status != Error)
                  && forall k :: 0 <= k < |Importable(b.rows)| ==> !Clashes(b, db.shop, k))
            && (r != Done ==> after == db)
            && (r == Done ==>
                  && after.shop == AddRows(db.shop, b.branch, b.kind, Importable(b.rows))
                  && after.batches == db.batches[id := b.(status := Committed, imported := |Importable(b.rows)|, version := b.version + 2)])
  {
    PreparedIff(db.batches[id], branch, expected);
    if Prepare(db.batches[id], branch, expected).None? {
      CommitGoesThroughIff(db, id, branch, expected);
      CommitWrites(db, id, branch, expected);
      if ApplyCommit(db, id, branch, expected).1 == Done {
        WriteIs(db, id);
      }
    } else {
      CommitRefuses(db, id, branch, expected);
    }
  }

  lemma PreparedIff(b: Batch, branch: nat, expected: Option<nat>)
    ensures Prepare(b, branch, expected).None? <==>
            && b.branch == branch && b.status == Preview && (expected.Some? ==> expected.value == b.version)
            && exists i :: 0 <= i < |b.rows| && b.rows[i].verdict.status != Error
  {
    SomethingToBring(b.rows);
  }

  lemma CommitRefuses(db: Db, id: nat, branch: nat, expected: Option<nat>)
    requires id < |db.batches| && Prepare(db.batches[id], branch, expected).Some?
    ensures ApplyCommit(db, id, branch, expected).0 == db && ApplyCommit(db, id, branch, expected).1.Refused?
  {
  }

  lemma WriteIs(db: Db, id: nat)
    requires id < |db.batches| && Guarded(db.batches[id], db.batches[id])
    requires Fits(db.shop, db.batches[id].branch, db.batches[id].kind, Importable(db.batches[id].rows))
    ensures var b := db.batches[id];
            var rows := Importable(b.rows);
            Write(db, id, b) == (Db(AddRows(db.shop, b.branch, b.kind, rows), db.batches[id := Closed(b, |rows|)]), Done)
  {
  }

  /** A product is known by its trimmed brand, or as unbranded, with its model and its variant if it has one. */
  lemma KeyOfStored(cells: Cells, kind: Kind, read: Reader)
    requires Complete(cells, kind, read)
    ensures var k := KeyOf(ParseRow(cells, kind, read));
            && k.model == Trim(cells[Model])
            && k.brand == (if Brand in cells && Trim(cells[Brand]) != "" then Trim(cells[Brand]) else "Unbranded")
            && k.variant == (if Variant in cells && Trim(cells[Variant]) != "" then Some(Trim(cells[Variant])) else None)
  {
    StoredRow(cells, kind, read);
    TrimTwice(cells[Model]);
    if Brand in cells {
      TrimTwice(cells[Brand]);
    }
    if Variant in cells {
      TrimTwice(cells[Variant]);
    }
    assert Trim("") == "";
  }

  /** Row k of a sheet stands in the shop as a unit of this branch, of its product, at its cost, under its identifier only. */
  ghost predicate StandsAs(shop: Shop, u: Unit, branch: nat, kind: Kind, p: Parsed) {
    && u.product < |shop.products| && shop.products[u.product].key == KeyOf(p)
    && u.branch == branch && u.cost == CostOf(p) && u.imeiSecondary.None?
    && u.imeiPrimary == (if kind.ByImei? then p.imei else None)
    && u.serialNo == (if kind.BySerial? then p.serialNo else None)
  }

  lemma StandsOn(shop: Shop, shop': Shop, u: Unit, branch: nat, kind: Kind, p: Parsed)
    requires StandsAs(shop, u, branch, kind, p) && shop.products <= shop'.products
    ensures StandsAs(shop', u, branch, kind, p)
  {
  }

  lemma AddRowStands(shop: Shop, branch: nat, kind: Kind, p: Parsed)
    requires !kind.ByQuantity?
    ensures var after := AddRow(shop, branch, kind, p);
            && |after.units| == |shop.units| + 1 && after.units[..|shop.units|] == shop.units
            && shop.products <= after.products && after.stock == shop.stock && after.elsewhere == shop.elsewhere
            && StandsAs(after, after.units[|shop.units|], branch, kind, p)
  {
  }

  /** After so many rows: the units of before, then one for each row. */
  ghost predicate AreTheRows(before: Shop, after: Shop, branch: nat, kind: Kind, rows: seq<Parsed>) {
    && |after.units| == |before.units| + |rows| && after.units[..|before.units|] == before.units
    && after.stock == before.stock && after.elsewhere == before.elsewhere && before.products <= after.products
    && forall k :: 0 <= k < |rows| ==> StandsAs(after, after.units[|before.units| + k], branch, kind, rows[k])
  }

  lemma AreTheRowsStep(before: Shop, middle: Shop, after: Shop, branch: nat, kind: Kind, rows: seq<Parsed>)
    requires rows != [] && AreTheRows(before, middle, branch, kind, rows[..|rows| - 1])
    requires |after.units| == |middle.units| + 1 && after.units[..|middle.units|] == middle.units
    requires after.stock == middle.stock && after.elsewhere == middle.elsewhere && middle.products <= after.products
    requires StandsAs(after, after.units[|middle.units|], branch, kind, rows[|rows| - 1])
    ensures AreTheRows(before, after, branch, kind, rows)
  {
    var n := |rows| - 1;
    assert after.units[..|before.units|] == after.units[..|middle.units|][..|before.units|];
    forall k | 0 <= k < |rows|
      ensures StandsAs(after, after.units[|before.units| + k], branch, kind, rows[k])
    {
      if k < n {
        assert after.units[|before.units| + k] == middle.units[|before.units| + k] && rows[..n][k] == rows[k];
        StandsOn(middle, after, middle.units[|before.units| + k], branch, kind, rows[k]);
      }
    }
  }

  /** The new units are the rows of the sheet, in their order, each as its row says; nothing else of the shop moves. */
  lemma {:induction false} NewUnitsAreTheRows(shop: Shop, branch: nat, kind: Kind, rows: seq<Parsed>)
    requires !kind.ByQuantity?
    ensures AreTheRows(shop, AddRows(shop, branch, kind, rows), branch, kind, rows)
  {
    if rows != [] {
      var n := |rows| - 1;
      var middle := AddRows(shop, branch, kind, rows[..n]);
      NewUnitsAreTheRows(shop, branch, kind, rows[..n]);
      AddRowsLast(shop, branch, kind, rows);
      AddRowStands(middle, branch, kind, rows[n]);
      AreTheRowsStep(shop, middle, AddRow(middle, branch, kind, rows[n]), branch, kind, rows);
    }
  }

  /** A product that was not there is made of the sheet's kind, and those that were stay as they were. */
  lemma NewProductsAreOfTheKind(shop: Shop, branch: nat, kind: Kind, p: Parsed)
    ensures var after := AddRow(shop, branch, kind, p);
            && shop.products <= after.products
            && (forall i :: |shop.products| <= i < |after.products| ==> after.products[i] == Product(KeyOf(p), kind))
            && ((exists i :: 0 <= i < |shop.products| && shop.products[i].key == KeyOf(p)) ==> after.products == shop.products)
  {
  }

  // ---------------------------------------------------------------- people committing at once

  datatype Pending = Pending(id: nat, branch: nat, expected: Option<nat>, read: Batch)

  datatype World = World(db: Db, clients: map<nat, Pending>)

  datatype Move =
    | Upload(batch: Batch) // a preview written, however long ago its sheet was checked against the shop
    | OtherUnits(units: seq<Unit>, elsewhere: seq<Unit>) // other modules and other companies: units bought, sold, corrected
    | Begin(client: nat, id: nat, branch: nat, expected: Option<nat>)
    | Finish(client: nat)

  predicate Wins(w: World, m: Move) {
    && m.Finish? && m.client in w.clients && w.clients[m.client].id < |w.db.batches|
    && Guarded(w.db.batches[w.clients[m.client].id], w.clients[m.client].read)
    && var read := w.clients[m.client].read; Fits(w.db.shop, read.branch, read.kind, Importable(read.rows))
  }

  ghost predicate Legal(m: Move) {
    m.Upload? ==> exists sheet, units :: m.batch == PreviewOf(sheet, units)
  }

  ghost predicate AllLegal(moves: seq<Move>) {
    forall i :: 0 <= i < |moves| ==> Legal(moves[i])
  }

  function Next(w: World, m: Move): World {
    match m
    case Upload(batch) => w.(db := w.db.(batches := w.db.batches + [batch]))
    case OtherUnits(units, elsewhere) => w.(db := w.db.(shop := w.db.shop.(units := units, elsewhere := elsewhere)))
    case Begin(client, id, branch, expected) =>
      if id < |w.db.batches| && Prepare(w.db.batches[id], branch, expected).None?
      then w.(clients := w.clients[client := Pending(id, branch, expected, w.db.batches[id])])
      else w
    case Finish(client) =>
      if client in w.clients && w.clients[client].id < |w.db.batches|
      then World(Write(w.db, w.clients[client].id, w.clients[client].read).0, w.clients - {client})
      else w
  }

  function Run(w: World, moves: seq<Move>): World {
    if moves == [] then w else Next(Run(w, moves[..|moves| - 1]), moves[|moves| - 1])
  }

  /** A pending commit read a batch that passed, and that still is as read while its version is. */
  predicate PendingOk(db: Db, p: Pending) {
    && p.id < |db.batches| && Prepare(p.read, p.branch, p.expected).None?
    && p.read.version <= db.batches[p.id].version
    && (p.read.version == db.batches[p.id].version ==> p.read == db.batches[p.id])
  }

  ghost predicate Inv(w: World) {
    && WellFormed(w.db.shop)
    && (forall i :: 0 <= i < |w.db.batches| ==> BatchOk(w.db.batches[i]))
    && (forall c :: c in w.clients ==> PendingOk(w.db, w.clients[c]))
  }

  /** The pieces of these products that a committed sheet brought into the branch. */
  ghost function Contribution(b: Batch, branch: nat, keys: iset<Key>): int {
    if b.status == Committed && b.kind.ByQuantity? && b.branch == branch then Brought(Importable(b.rows), keys) else 0
  }

  /** The same over all sheets, each once. */
  ghost function BroughtBy(batches: seq<Batch>, branch: nat, keys: iset<Key>): int {
    if batches == [] then 0
    else BroughtBy(batches[..|batches| - 1], branch, keys) + Contribution(batches[|batches| - 1], branch, keys)
  }

  lemma {:induction false} BroughtByUpdate(batches: seq<Batch>, i: nat, b: Batch, branch: nat, keys: iset<Key>)
    requires i < |batches| && batches[i].status != Committed
    ensures BroughtBy(batches[i := b], branch, keys) == BroughtBy(batches, branch, keys) + Contribution(b, branch, keys)
  {
    var last := |batches| - 1;
    if i == last {
      assert batches[i := b][..last] == batches[..last];
    } else {
      BroughtByUpdate(batches[..last], i, b, branch, keys);
      assert batches[i := b][..last] == batches[..last][i := b];
    }
  }

  lemma UploadKeepsInv(w: World, b: Batch)
    requires Inv(w) && BatchOk(b)
    ensures Inv(w.(db := w.db.(batches := w.db.batches + [b])))
  {
  }

  /** A guard that is won was won on the batch as it stands. */
  lemma WinnerActsOnCurrentBatch(w: World, client: nat)
    requires Inv(w) && Wins(w, Finish(client))
    ensures var p := w.clients[client];
            var cur := w.db.batches[p.id];
            && p.read == cur && cur.status == Preview && cur.branch == p.branch && Importable(cur.rows) != []
            && Next(w, Finish(client)) == World(Db(AddRows(w.db.shop, cur.branch, cur.kind, Importable(cur.rows)),
                                                   w.db.batches[p.id := Closed(cur, |Importable(cur.rows)|)]), w.clients - {client})
  {
    assert PendingOk(w.db, w.clients[client]);
  }

  lemma WinKeepsInv(w: World, shop: Shop, client: nat)
    requires Inv(w) && client in w.clients && WellFormed(shop) && w.db.batches[w.clients[client].id].status == Preview
    ensures var id := w.clients[client].id;
            var b := w.db.batches[id];
            Inv(World(Db(shop, w.db.batches[id := Closed(b, |Importable(b.rows)|)]), w.clients - {client}))
  {
  }

  lemma NextKeepsInv(w: World, m: Move)
    requires Inv(w) && Legal(m)
    ensures Inv(Next(w, m))
  {
    match m
    case Upload(batch) =>
      var sheet, units :| batch == PreviewOf(sheet, units);
      PreviewIsOk(sheet, units);
      UploadKeepsInv(w, batch);
    case OtherUnits(_, _) =>
    case Begin(_, _, _, _) =>
    case Finish(client) => FinishKeepsInv(w, client);
  }

  lemma FinishKeepsInv(w: World, client: nat)
    requires Inv(w)
    ensures Inv(Next(w, Finish(client)))
  {
    if Wins(w, Finish(client)) {
      WinnerActsOnCurrentBatch(w, client);
      var b := w.db.batches[w.clients[client].id];
      CommitAddsExactly(w.db.shop, b.branch, b.kind, Importable(b.rows), 0, iset{});
      WinKeepsInv(w, AddRows(w.db.shop, b.branch, b.kind, Importable(b.rows)), client);
    }
  }

  lemma {:induction false} RunKeepsInv(w: World, moves: seq<Move>)
    requires Inv(w) && AllLegal(moves)
    ensures Inv(Run(w, moves))
  {
    if moves != [] {
      RunKeepsInv(w, moves[..|moves| - 1]);
      NextKeepsInv(Run(w, moves[..|moves| - 1]), moves[|moves| - 1]);
    }
  }

  /** A commit that wins its guard does exactly what an uninterrupted commit would do now. */
  lemma WinnerIsWholeCommit(w: World, client: nat)
    requires Inv(w) && Wins(w, Finish(client))
    ensures var p := w.clients[client];
            (Next(w, Finish(client)).db, Done) == ApplyCommit(w.db, p.id, p.branch, p.expected)
  {
    WinnerActsOnCurrentBatch(w, client);
    assert PendingOk(w.db, w.clients[client]);
  }

  ghost function PiecesIn(db: Db, branch: nat, keys: iset<Key>): int {
    Pieces(db.shop.products, db.shop.stock, branch, keys)
  }

  lemma NextBrings(w: World, m: Move, branch: nat, keys: iset<Key>)
    requires Inv(w) && Legal(m)
    ensures PiecesIn(Next(w, m).db, branch, keys) - PiecesIn(w.db, branch, keys)
         == BroughtBy(Next(w, m).db.batches, branch, keys) - BroughtBy(w.db.batches, branch, keys)
  {
    match m
    case Upload(batch) => BroughtByAppend(w.db.batches, batch, branch, keys);
    case OtherUnits(_, _) =>
    case Begin(_, _, _, _) =>
    case Finish(client) => FinishBrings(w, client, branch, keys);
  }

  lemma BroughtByAppend(batches: seq<Batch>, b: Batch, branch: nat, keys: iset<Key>)
    requires b.status != Committed
    ensures BroughtBy(batches + [b], branch, keys) == BroughtBy(batches, branch, keys)
  {
    assert (batches + [b])[..|batches|] == batches;
  }

  lemma FinishBrings(w: World, client: nat, branch: nat, keys: iset<Key>)
    requires Inv(w)
    ensures var db' := Next(w, Finish(client)).db;
            PiecesIn(db', branch, keys) - PiecesIn(w.db, branch, keys)
            == BroughtBy(db'.batches, branch, keys) - BroughtBy(w.db.batches, branch, keys)
  {
    if Wins(w, Finish(client)) {
      WinnerActsOnCurrentBatch(w, client);
      var id := w.clients[client].id;
      var b := w.db.batches[id];
      CommitAddsExactly(w.db.shop, b.branch, b.kind, Importable(b.rows), branch, keys);
      BroughtByUpdate(w.db.batches, id, Closed(b, |Importable(b.rows)|), branch, keys);
    }
  }

  /**
   * Over every run: stock has risen by exactly what the committed sheets hold, each counted once however
   * many people tried to commit it.
   */
  lemma {:induction false} StockIsWhatSheetsBrought(w: World, moves: seq<Move>, branch: nat, keys: iset<Key>)
    requires Inv(w) && AllLegal(moves)
    ensures PiecesIn(Run(w, moves).db, branch, keys) - PiecesIn(w.db, branch, keys)
         == BroughtBy(Run(w, moves).db.batches, branch, keys) - BroughtBy(w.db.batches, branch, keys)
  {
    if moves != [] {
      var before := Run(w, moves[..|moves| - 1]);
      StockIsWhatSheetsBrought(w, moves[..|moves| - 1], branch, keys);
      RunKeepsInv(w, moves[..|moves| - 1]);
      NextBrings(before, moves[|moves| - 1], branch, keys);
    }
  }

  predicate CommitsAt(w: World, moves: seq<Move>, i: nat, id: nat) {
    && i < |moves|
    && Wins(Run(w, moves[..i]), moves[i])
    && Run(w, moves[..i]).clients[moves[i].client].id == id
  }

  /** One once the batch is committed, nothing before. */
  function Commits(w: World, id: nat): nat {
    if id < |w.db.batches| && w.db.batches[id].status == Committed then 1 else 0
  }

  lemma NextKeepsCommitted(w: World, m: Move, id: nat)
    ensures Commits(w, id) <= Commits(Next(w, m), id)
    ensures Wins(w, m) && w.clients[m.client].id == id ==> Commits(w, id) == 0 && Commits(Next(w, m), id) == 1
  {
  }

  lemma RunNext(w: World, moves: seq<Move>, n: nat)
    requires n < |moves|
    ensures Run(w, moves[..n + 1]) == Next(Run(w, moves[..n]), moves[n])
  {
    assert moves[..n + 1][..n] == moves[..n];
  }

  function CommitsAfter(w: World, moves: seq<Move>, id: nat, k: nat): nat {
    Commits(Run(w, if k <= |moves| then moves[..k] else moves), id)
  }

  lemma CommitsStep(w: World, moves: seq<Move>, id: nat, k: nat)
    requires k < |moves|
    ensures CommitsAfter(w, moves, id, k) <= CommitsAfter(w, moves, id, k + 1)
    ensures CommitsAt(w, moves, k, id) ==> CommitsAfter(w, moves, id, k) == 0 && CommitsAfter(w, moves, id, k + 1) == 1
  {
    RunNext(w, moves, k);
    NextKeepsCommitted(Run(w, moves[..k]), moves[k], id);
  }

  lemma CommittedStays(w: World, moves: seq<Move>, id: nat, i: nat, j: nat)
    requires i <= j <= |moves|
    ensures CommitsAfter(w, moves, id, i) <= CommitsAfter(w, moves, id, j)
  {
    var f := (k: nat) => CommitsAfter(w, moves, id, k) as int;
    forall k: nat | i <= k < j
      ensures f(k) <= f(k + 1)
    {
      CommitsStep(w, moves, id, k);
    }
    NeverFalls(f, i, j);
  }

  /** A batch is brought in at most once. */
  lemma CommittedAtMostOnce(w: World, moves: seq<Move>, i: nat, j: nat, id: nat)
    requires i < j && CommitsAt(w, moves, i, id)
    ensures !CommitsAt(w, moves, j, id)
  {
    CommitsStep(w, moves, id, i);
    if j < |moves| {
      CommitsStep(w, moves, id, j);
      CommittedStays(w, moves, id, i + 1, j);
    }
  }

  /** In every run from an empty import history, a committed batch imported its valid and its warned rows. */
  lemma ImportedIsValidPlusWarning(shop: Shop, moves: seq<Move>, id: nat)
    requires WellFormed(shop) && AllLegal(moves)
    requires var w := Run(World(Db(shop, []), map[]), moves); id < |w.db.batches| && w.db.batches[id].status == Committed
    ensures var b := Run(World(Db(shop, []), map[]), moves).db.batches[id];
            b.imported == b.valid + b.warning && b.total == b.imported + b.error
  {
    RunKeepsInv(World(Db(shop, []), map[]), moves);
  }

  // ---------------------------------------------------------------- the service

  class ImportsService {
    var products: seq<Product>
    var units: seq<Unit>
    var stock: seq<Stock>
    var elsewhere: seq<Unit>
    var batches: seq<Batch>

    ghost function Snapshot(): Db
      reads this
    {
      Db(Shop(products, units, stock, elsewhere), batches)
    }

    /** Guess the columns, decide every row, write only the batch. */
    method Upload(headers: seq<string>, body: seq<seq<string>>, names: Synonyms, read: Reader, branch: nat,
                  clientUuid: Option<nat>)
      returns (mapping: Mapping, r: Outcome)
      modifies this`batches
      ensures IsGuess(headers, names, mapping)
      ensures (Snapshot(), r) == ApplyPreview(old(Snapshot()), Sheet(branch, mapping, body, read, clientUuid))
    {
      mapping := GuessMapping(headers, names);
      if WasUploaded(batches, clientUuid) {
        return mapping, Replayed;
      }
      if body == [] {
        return mapping, Refused(BadRequest);
      }
      var kind := KindOf(mapping);
      if MissingRequirements(mapping) != [] || kind.None? {
        batches := batches + [Batch(branch, ByQuantity, Failed, [], |body|, 0, 0, 0, 0, 0, clientUuid)];
        return mapping, Done;
      }
      var rows := DecideRows(body, mapping, kind.value, units, read);
      batches := batches + [Batch(branch, kind.value, Preview, rows, |rows|, Count(rows, Valid), Count(rows, Warning),
                                  Count(rows, Error), 0, 0, clientUuid)];
      return mapping, Done;
    }

    method FindOrCreateProduct(p: Parsed, kind: Kind) returns (product: nat)
      modifies this`products
      ensures (products, product) == WithProduct(old(products), KeyOf(p), kind)
    {
      match FindProduct(products, KeyOf(p))
      case Some(i) => product := i;
      case None =>
        product := |products|;
        products := products + [Product(KeyOf(p), kind)];
    }

    /** One row of the commit loop; the database may refuse the insert. */
    method BringIn(branch: nat, kind: Kind, p: Parsed) returns (ok: bool)
      modifies this`products, this`units, this`stock
      ensures ok <==> kind.ByQuantity? || Accepts(elsewhere + old(units), NewUnit(0, branch, kind, p))
      ensures ok ==> Snapshot().shop == AddRow(old(Snapshot()).shop, branch, kind, p)
    {
      var product := FindOrCreateProduct(p, kind);
      ok := true;
      if kind == ByQuantity {
        match FindStock(stock, product, branch)
        case Some(i) => stock := stock[i := stock[i].(quantity := stock[i].quantity + Qty(p))];
        case None => stock := stock + [Stock(product, branch, Qty(p), CostOf(p))];
      } else if Accepts(elsewhere + units, NewUnit(product, branch, kind, p)) {
        units := units + [NewUnit(product, branch, kind, p)];
      } else {
        ok := false;
      }
    }

    /** The commit loop, up to the first refused insert. */
    method BringInAll(branch: nat, kind: Kind, importable: seq<Parsed>) returns (ok: bool, count: nat)
      modifies this`products, this`units, this`stock
      ensures ok <==> Fits(old(Snapshot()).shop, branch, kind, importable)
      ensures ok ==> Snapshot().shop == AddRows(old(Snapshot()).shop, branch, kind, importable) && count == |importable|
    {
      ok, count := true, 0;
      ghost var before := Snapshot().shop;
      while ok && count < |importable|
        invariant count <= |importable| && elsewhere == before.elsewhere
        invariant ok ==> BroughtIn(before, branch, kind, importable, count)
        invariant !ok ==> !Fits(before, branch, kind, importable)
        decreases |importable| - count, ok
      {
        ok := BringInNext(branch, kind, importable, count, before);
        if ok {
          count := count + 1;
        }
      }
      if ok {
        AllBroughtIn(before, branch, kind, importable);
      }
    }

    /** The first n rows are in, each accepted. */
    ghost predicate BroughtIn(before: Shop, branch: nat, kind: Kind, rows: seq<Parsed>, n: nat)
      requires n <= |rows|
      reads this
    {
      Fits(before, branch, kind, rows[..n]) && Snapshot().shop == AddRows(before, branch, kind, rows[..n])
    }

    lemma AllBroughtIn(before: Shop, branch: nat, kind: Kind, rows: seq<Parsed>)
      requires BroughtIn(before, branch, kind, rows, |rows|)
      ensures Fits(before, branch, kind, rows) && Snapshot().shop == AddRows(before, branch, kind, rows)
    {
      assert rows[..|rows|] == rows;
    }

    /** One turn of the loop. */
    method BringInNext(branch: nat, kind: Kind, importable: seq<Parsed>, count: nat, ghost before: Shop) returns (ok: bool)
      requires count < |importable| && elsewhere == before.elsewhere && BroughtIn(before, branch, kind, importable, count)
      modifies this`products, this`units, this`stock
      ensures ok ==> BroughtIn(before, branch, kind, importable, count + 1)
      ensures !ok ==> !Fits(before, branch, kind, importable)
    {
      FitsNext(before, branch, kind, importable, count);
      AddRowsNext(before, branch, kind, importable, count);
      ok := BringIn(branch, kind, importable[count]);
      if !ok {
        NoFit(before, branch, kind, importable, count + 1);
      }
    }

    method Commit(id: nat, branch: nat, expected: Option<nat>) returns (r: Outcome)
      modifies this
      ensures (Snapshot(), r) == ApplyCommit(old(Snapshot()), id, branch, expected)
    {
      if id >= |batches| {
        return Refused(NotFound);
      }
      var batch := batches[id];
      var why := Prepare(batch, branch, expected);
      if why.Some? {
        return Refused(why.value);
      }
      r := BringInBatch(id);
    }

    /** The transaction after its guard: all of it, or none. */
    method BringInBatch(id: nat) returns (r: Outcome)
      requires id < |batches| && batches[id].status == Preview
      modifies this
      ensures (Snapshot(), r) == Write(old(Snapshot()), id, old(batches[id]))
    {
      var batch := batches[id];
      var products0, units0, stock0 := products, units, stock;
      var ok, count := BringInAll(batch.branch, batch.kind, Importable(batch.rows));
      if !ok {
        products, units, stock := products0, units0, stock0;
        return Refused(Conflict);
      }
      batches := batches[id := Closed(batch, count)];
      return Done;
    }
  }
}
