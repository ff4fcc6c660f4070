/** The cart: the lines `addToCart` builds, the key under which it merges a new
    selection into an existing line, and the total that the cart screen shows. */
module Cart {
  import opened JsValues
  import opened Catalog

  /** One cart entry. `name` is always the dish's base (English) name, and `price` is the
      price of the chosen size at the moment the line was created. */
  datatype CartLine = CartLine(
    dishId: int,
    sizeId: int,
    quantity: int,
    name: Field,
    price: int,
    removalNotes: seq<string>)

  /** What `addToCart` compares to decide whether a selection is already in the cart.
      The removal notes are compared through `JSON.stringify`, that is, as an ordered
      sequence: the same notes in another order form another key. */
  datatype LineKey = LineKey(dishId: int, sizeId: int, removalNotes: seq<string>)

  function KeyOf(line: CartLine): LineKey {
    LineKey(line.dishId, line.sizeId, line.removalNotes)
  }

  /** No two lines of the cart share a key. */
  ghost predicate UniqueKeys(cart: seq<CartLine>) {
    forall i, j :: 0 <= i < j < |cart| ==> KeyOf(cart[i]) != KeyOf(cart[j])
  }

  ghost predicate PositiveQuantities(cart: seq<CartLine>) {
    forall i :: 0 <= i < |cart| ==> cart[i].quantity >= 1
  }

  /** `cart.find(...)` on the key: the index of the first line carrying `key`, or
      `|cart|` when there is none. */
  function IndexOfKey(cart: seq<CartLine>, key: LineKey): (r: nat)
    ensures r <= |cart|
    ensures r < |cart| ==> KeyOf(cart[r]) == key
    ensures forall j :: 0 <= j < r ==> KeyOf(cart[j]) != key
  {
    if cart == [] then 0
    else if KeyOf(cart[0]) == key then 0
    else 1 + IndexOfKey(cart[1..], key)
  }

  /** The outcome of adding a selection: the new cart, or the `TypeError` thrown when
      the selection is new and the dish has no size with the requested id (the size
      lookup yields `undefined` and reading its price throws before the push). */
  datatype AddResult = Added(cart: seq<CartLine>) | InvalidSize

  /** `addToCart(dish, sizeId, qty, removalNotes)` on a cart value. */
  function Add(cart: seq<CartLine>, dish: Dish, sizeId: int, qty: int, notes: seq<string>): (r: AddResult)
    ensures r.InvalidSize? <==>
      (forall j :: 0 <= j < |cart| ==> KeyOf(cart[j]) != LineKey(dish.id, sizeId, notes)) &&
      (forall j :: 0 <= j < |dish.sizes| ==> dish.sizes[j].id != sizeId)
    ensures r.Added? ==> |cart| <= |r.cart| <= |cart| + 1
  {
    var k := IndexOfKey(cart, LineKey(dish.id, sizeId, notes));
    if k < |cart| then
      Added(cart[k := cart[k].(quantity := cart[k].quantity + qty)])
    else
      match FindSize(dish.sizes, sizeId)
      case None => InvalidSize
      case Some(size) => Added(cart + [CartLine(dish.id, sizeId, qty, dish.name.en, size.price, notes)])
  }

  /** A selection whose key is already in a cart with unique keys is merged into that
      line: its quantity grows by `qty`, and the length and every other line stay the
      same. The size is not looked up again, so the line keeps its own price. */
  lemma AddMergesMatchingLine(cart: seq<CartLine>, dish: Dish, sizeId: int, qty: int, notes: seq<string>, j: nat)
    requires UniqueKeys(cart)
    requires j < |cart| && KeyOf(cart[j]) == LineKey(dish.id, sizeId, notes)
    ensures Add(cart, dish, sizeId, qty, notes) == Added(cart[j := cart[j].(quantity := cart[j].quantity + qty)])
  {
  }

  /** A selection whose key is not in the cart appends exactly one line at the end,
      carrying `qty`, the dish's base name, the given notes and the price of the first
      size with the requested id; without such a size the cart is left as it was. */
  lemma AddAppendsNewLine(cart: seq<CartLine>, dish: Dish, sizeId: int, qty: int, notes: seq<string>)
    requires forall j :: 0 <= j < |cart| ==> KeyOf(cart[j]) != LineKey(dish.id, sizeId, notes)
    ensures FindSize(dish.sizes, sizeId).None? ==> Add(cart, dish, sizeId, qty, notes) == InvalidSize
    ensures FindSize(dish.sizes, sizeId).Some? ==>
      var r := Add(cart, dish, sizeId, qty, notes);
      r.Added? && |r.cart| == |cart| + 1 && r.cart[..|cart|] == cart &&
      r.cart[|cart|] == CartLine(dish.id, sizeId, qty, dish.name.en, FindSize(dish.sizes, sizeId).value.price, notes)
  {
  }

  /** Adding keeps the keys of the cart unique. */
  lemma AddPreservesUniqueKeys(cart: seq<CartLine>, dish: Dish, sizeId: int, qty: int, notes: seq<string>)
    requires UniqueKeys(cart)
    ensures Add(cart, dish, sizeId, qty, notes).Added? ==> UniqueKeys(Add(cart, dish, sizeId, qty, notes).cart)
  {
  }

  /** Adding a positive quantity keeps every quantity positive. */
  lemma AddPreservesPositiveQuantities(cart: seq<CartLine>, dish: Dish, sizeId: int, qty: int, notes: seq<string>)
    requires PositiveQuantities(cart) && qty >= 1
    ensures Add(cart, dish, sizeId, qty, notes).Added? ==> PositiveQuantities(Add(cart, dish, sizeId, qty, notes).cart)
  {
  }

  /** Adding the same new selection twice, with quantities q1 and q2, leaves one new
      line carrying q1 + q2, not two lines. */
  lemma AddSameSelectionTwice(cart: seq<CartLine>, dish: Dish, sizeId: int, q1: int, q2: int, notes: seq<string>)
    requires forall j :: 0 <= j < |cart| ==> KeyOf(cart[j]) != LineKey(dish.id, sizeId, notes)
    requires FindSize(dish.sizes, sizeId).Some?
    ensures var r1 := Add(cart, dish, sizeId, q1, notes);
      r1.Added? && var r2 := Add(r1.cart, dish, sizeId, q2, notes);
      r2.Added? && |r2.cart| == |cart| + 1 && r2.cart[..|cart|] == cart &&
      KeyOf(r2.cart[|cart|]) == LineKey(dish.id, sizeId, notes) &&
      r2.cart[|cart|].quantity == q1 + q2
  {
    AddAppendsNewLine(cart, dish, sizeId, q1, notes);
    var c1 := Add(cart, dish, sizeId, q1, notes).cart;
    assert forall j :: 0 <= j < |cart| ==> c1[j] == cart[j];
    assert IndexOfKey(c1, LineKey(dish.id, sizeId, notes)) == |cart|;
    var c2 := Add(c1, dish, sizeId, q2, notes).cart;
    assert c2[..|cart|] == cart;
  }

  /** The same dish and size with two different sequences of removal notes give two
      separate lines. */
  lemma AddDifferentNotesTwice(cart: seq<CartLine>, dish: Dish, sizeId: int, q1: int, q2: int, notes1: seq<string>, notes2: seq<string>)
    requires notes1 != notes2
    requires forall j :: 0 <= j < |cart| ==> KeyOf(cart[j]) != LineKey(dish.id, sizeId, notes1)
    requires forall j :: 0 <= j < |cart| ==> KeyOf(cart[j]) != LineKey(dish.id, sizeId, notes2)
    requires FindSize(dish.sizes, sizeId).Some?
    ensures var r1 := Add(cart, dish, sizeId, q1, notes1);
      r1.Added? && var r2 := Add(r1.cart, dish, sizeId, q2, notes2);
      r2.Added? && |r2.cart| == |cart| + 2 &&
      r2.cart[|cart|].quantity == q1 && r2.cart[|cart| + 1].quantity == q2
  {
  }

  /** The amount shown for one line. */
  function Amount(line: CartLine): int {
    line.price * line.quantity
  }

  /** The sum of `f` over a sequence, accumulated from the first element to the last. */
  function Sum<T>(s: seq<T>, f: T -> int): int
    decreases |s|
  {
    if s == [] then 0 else Sum(s[..|s| - 1], f) + f(s[|s| - 1])
  }

  /** The cart total: the sum of price times quantity over all lines. */
  function Total(cart: seq<CartLine>): int {
    Sum(cart, Amount)
  }

  lemma {:induction false} SumConcat<T>(a: seq<T>, b: seq<T>, f: T -> int)
    ensures Sum(a + b, f) == Sum(a, f) + Sum(b, f)
    decreases |b|
  {
    if b == [] {
      assert a + b == a;
    } else {
      var b' := b[..|b| - 1];
      assert (a + b)[..|a + b| - 1] == a + b';
      SumConcat(a, b', f);
    }
  }

  /** Appending one element adds its value to the sum. */
  lemma SumSnoc<T>(s: seq<T>, x: T, f: T -> int)
    ensures Sum(s + [x], f) == Sum(s, f) + f(x)
  {
    assert (s + [x])[..|s|] == s;
  }

  /** Taking one element out of a sequence takes its value out of the sum. */
  lemma SumRemoveAt<T>(s: seq<T>, j: nat, f: T -> int)
    requires j < |s|
    ensures Sum(s, f) == Sum(s[..j] + s[j + 1..], f) + f(s[j])
  {
    var left, x, right := s[..j], s[j], s[j + 1..];
    assert s == (left + [x]) + right;
    calc {
      Sum(s, f);
      Sum((left + [x]) + right, f);
      { SumConcat(left + [x], right, f); }
      Sum(left + [x], f) + Sum(right, f);
      { SumSnoc(left, x, f); }
      Sum(left, f) + f(x) + Sum(right, f);
      { SumConcat(left, right, f); }
      Sum(left + right, f) + f(x);
    }
  }

  /** Replacing one element changes the sum by the difference of the two values. */
  lemma SumUpdate<T>(s: seq<T>, k: nat, x: T, f: T -> int)
    requires k < |s|
    ensures Sum(s[k := x], f) == Sum(s, f) - f(s[k]) + f(x)
  {
    SumRemoveAt(s, k, f);
    SumRemoveAt(s[k := x], k, f);
    assert s[k := x][..k] + s[k := x][k + 1..] == s[..k] + s[k + 1..];
  }

  /** Taking one element out of a sequence takes it out of its multiset. */
  lemma MultisetRemoveAt<T>(s: seq<T>, j: nat)
    requires j < |s|
    ensures multiset(s[..j] + s[j + 1..]) == multiset(s) - multiset{s[j]}
  {
    assert s == s[..j] + [s[j]] + s[j + 1..];
  }

  /** The sum of a sequence is its first value plus the sum of the rest. */
  lemma SumFront<T>(s: seq<T>, f: T -> int)
    requires s != []
    ensures Sum(s, f) == f(s[0]) + Sum(s[1..], f)
  {
    assert s == [s[0]] + s[1..];
    SumConcat([s[0]], s[1..], f);
    SumSingleton(s[0], f);
  }

  /** The sum does not depend on the order of the elements. */
  lemma {:induction false} SumPermutation<T>(a: seq<T>, b: seq<T>, f: T -> int)
    requires multiset(a) == multiset(b)
    ensures Sum(a, f) == Sum(b, f)
    decreases |a|
  {
    if a == [] {
      assert |b| == |multiset(b)| == 0;
    } else {
      var x := a[|a| - 1];
      SumRemoveAt(a, |a| - 1, f);
      MultisetRemoveAt(a, |a| - 1);
      assert a[..|a| - 1] + a[|a|..] == a[..|a| - 1];
      assert x in multiset(b);
      var j :| 0 <= j < |b| && b[j] == x;
      SumRemoveAt(b, j, f);
      MultisetRemoveAt(b, j);
      SumPermutation(a[..|a| - 1], b[..j] + b[j + 1..], f);
    }
  }

  /** The price a successful addition contributes per unit: the matched line's own
      price when the selection merges, the chosen size's price when it appends. */
  function UnitPrice(cart: seq<CartLine>, dish: Dish, sizeId: int, notes: seq<string>): int
    requires Add(cart, dish, sizeId, 1, notes).Added?
  {
    var k := IndexOfKey(cart, LineKey(dish.id, sizeId, notes));
    if k < |cart| then cart[k].price else FindSize(dish.sizes, sizeId).value.price
  }

  lemma SumSingleton<T>(x: T, f: T -> int)
    ensures Sum([x], f) == f(x)
  {
  }

  /** Raising one line's quantity by `qty` raises the total by `qty` times its price. */
  lemma MergeRaisesTotal(cart: seq<CartLine>, k: nat, qty: int)
    requires k < |cart|
    ensures Total(cart[k := cart[k].(quantity := cart[k].quantity + qty)]) == Total(cart) + qty * cart[k].price
  {
    var line := cart[k].(quantity := cart[k].quantity + qty);
    SumUpdate(cart, k, line, Amount);
    assert Amount(line) == Amount(cart[k]) + qty * cart[k].price;
  }

  /** A successful addition raises the total by `qty` times its unit price. */
  lemma AddRaisesTotal(cart: seq<CartLine>, dish: Dish, sizeId: int, qty: int, notes: seq<string>)
    requires Add(cart, dish, sizeId, qty, notes).Added?
    ensures Total(Add(cart, dish, sizeId, qty, notes).cart) == Total(cart) + qty * UnitPrice(cart, dish, sizeId, notes)
  {
    var k := IndexOfKey(cart, LineKey(dish.id, sizeId, notes));
    if k < |cart| {
      MergeRaisesTotal(cart, k, qty);
    } else {
      var price := FindSize(dish.sizes, sizeId).value.price;
      SumSnoc(cart, CartLine(dish.id, sizeId, qty, dish.name.en, price, notes), Amount);
      assert Amount(CartLine(dish.id, sizeId, qty, dish.name.en, price, notes)) == qty * price;
    }
  }

  /** One call of `addToCart`, with its arguments. */
  datatype Addition = Addition(dish: Dish, sizeId: int, qty: int, notes: seq<string>)

  /** The cart after one call; a call that throws leaves it as it was. */
  function Apply(cart: seq<CartLine>, op: Addition): seq<CartLine> {
    match Add(cart, op.dish, op.sizeId, op.qty, op.notes)
    case Added(c) => c
    case InvalidSize => cart
  }

  /** The cart after a sequence of calls. */
  function ApplyAll(cart: seq<CartLine>, ops: seq<Addition>): seq<CartLine>
    decreases |ops|
  {
    if ops == [] then cart else ApplyAll(Apply(cart, ops[0]), ops[1..])
  }

  /** Over any sequence of additions of positive quantities, keys stay unique and
      quantities stay positive; in particular from the empty cart. */
  lemma {:induction false} ApplyAllKeepsInvariants(cart: seq<CartLine>, ops: seq<Addition>)
    requires UniqueKeys(cart) && PositiveQuantities(cart)
    requires forall i :: 0 <= i < |ops| ==> ops[i].qty >= 1
    ensures UniqueKeys(ApplyAll(cart, ops)) && PositiveQuantities(ApplyAll(cart, ops))
    decreases |ops|
  {
    if ops != [] {
      var op := ops[0];
      AddPreservesUniqueKeys(cart, op.dish, op.sizeId, op.qty, op.notes);
      AddPreservesPositiveQuantities(cart, op.dish, op.sizeId, op.qty, op.notes);
      ApplyAllKeepsInvariants(Apply(cart, op), ops[1..]);
    }
  }

  /** Every line carries the catalog price `P` of its dish and size. */
  ghost predicate PricedBy(cart: seq<CartLine>, P: (int, int) -> int) {
    forall i :: 0 <= i < |cart| ==> cart[i].price == P(cart[i].dishId, cart[i].sizeId)
  }

  /** The addition names a size the dish offers, at the catalog price `P`. */
  ghost predicate OfferedAt(op: Addition, P: (int, int) -> int) {
    FindSize(op.dish.sizes, op.sizeId).Some? &&
    FindSize(op.dish.sizes, op.sizeId).value.price == P(op.dish.id, op.sizeId)
  }

  /** What an addition is worth at catalog prices `P`. */
  function Requested(P: (int, int) -> int): Addition -> int {
    (op: Addition) => op.qty * P(op.dish.id, op.sizeId)
  }

  /** One offered addition keeps every line at catalog prices and raises the total by
      what it requested. */
  lemma ApplyAtCatalogPrices(cart: seq<CartLine>, op: Addition, P: (int, int) -> int)
    requires PricedBy(cart, P) && OfferedAt(op, P)
    ensures PricedBy(Apply(cart, op), P)
    ensures Total(Apply(cart, op)) == Total(cart) + Requested(P)(op)
  {
    var c1 := Apply(cart, op);
    assert Add(cart, op.dish, op.sizeId, op.qty, op.notes).Added?;
    AddRaisesTotal(cart, op.dish, op.sizeId, op.qty, op.notes);
    assert UnitPrice(cart, op.dish, op.sizeId, op.notes) == P(op.dish.id, op.sizeId);
    forall i | 0 <= i < |c1| ensures c1[i].price == P(c1[i].dishId, c1[i].sizeId) {
      if i < |cart| {
        assert c1[i].price == cart[i].price && KeyOf(c1[i]) == KeyOf(cart[i]);
      }
    }
  }

  /** When every addition picks an offered size and prices do not change, the total is
      the starting total plus what was requested. */
  lemma {:induction false} ApplyAllTotal(cart: seq<CartLine>, ops: seq<Addition>, P: (int, int) -> int)
    requires PricedBy(cart, P)
    requires forall i :: 0 <= i < |ops| ==> OfferedAt(ops[i], P)
    ensures PricedBy(ApplyAll(cart, ops), P)
    ensures Total(ApplyAll(cart, ops)) == Total(cart) + Sum(ops, Requested(P))
    decreases |ops|
  {
    if ops != [] {
      var op := ops[0];
      assert OfferedAt(op, P);
      ApplyAtCatalogPrices(cart, op, P);
      ApplyAllTotal(Apply(cart, op), ops[1..], P);
      SumFront(ops, Requested(P));
    }
  }

  /** Under unchanged prices, the order in which offered selections are added does not
      change the cart total. */
  lemma AdditionOrderKeepsTotal(cart: seq<CartLine>, ops1: seq<Addition>, ops2: seq<Addition>, P: (int, int) -> int)
    requires PricedBy(cart, P)
    requires multiset(ops1) == multiset(ops2)
    requires forall i :: 0 <= i < |ops1| ==> OfferedAt(ops1[i], P)
    ensures Total(ApplyAll(cart, ops1)) == Total(ApplyAll(cart, ops2))
  {
    forall i | 0 <= i < |ops2| ensures OfferedAt(ops2[i], P) {
      assert ops2[i] in multiset(ops1);
    }
    ApplyAllTotal(cart, ops1, P);
    ApplyAllTotal(cart, ops2, P);
    SumPermutation(ops1, ops2, Requested(P));
  }
}
