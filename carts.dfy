/** The cart both storefront scripts keep: an array of lines keyed by product
    id. The functions here give the cart each handler leaves behind; the
    storefront classes update their `cart` field to exactly these values. */
module Carts {
  import opened Seqs
  import opened Records

  /** At most one line per product id. */
  predicate UniqueIds(lines: seq<CartLine>) {
    forall i, j :: 0 <= i < j < |lines| ==> lines[i].product.id != lines[j].product.id
  }

  /** Every line holds at least one unit. */
  predicate PositiveQuantities(lines: seq<CartLine>) {
    forall i :: 0 <= i < |lines| ==> lines[i].quantity >= 1
  }

  /** The cart invariant that adding, changing and removing keep. */
  predicate Valid(lines: seq<CartLine>) {
    UniqueIds(lines) && PositiveQuantities(lines)
  }

  /** The cart badge: the sum of the line quantities (the `reduce`). */
  function Count(lines: seq<CartLine>): int {
    if lines == [] then 0 else lines[0].quantity + Count(lines[1..])
  }

  /** The cart total: the sum of price times quantity over the lines. */
  function Total(lines: seq<CartLine>): int {
    if lines == [] then 0 else lines[0].product.price * lines[0].quantity + Total(lines[1..])
  }

  /** `addToCart(id)`: nothing for an id that is not in the catalogue; one more
      unit on the first line with that id; otherwise a new line of quantity 1,
      copied from the first product with that id, at the end. */
  function Added(lines: seq<CartLine>, products: seq<Product>, id: int): seq<CartLine> {
    var p := IndexWhere(products, ProductWithId(id));
    if p < 0 then lines
    else
      var k := IndexWhere(lines, LineWithId(id));
      if k >= 0 then lines[k := lines[k].(quantity := lines[k].quantity + 1)]
      else lines + [CartLine(products[p], 1)]
  }

  /** `removeFromCart(id)`: every line with that id goes. */
  function Without(lines: seq<CartLine>, id: int): seq<CartLine> {
    Filter(lines, LineWithoutId(id))
  }

  /** `changeQuantity(id, delta)`: nothing for an absent id; the first line
      with that id gains `delta`, and when that leaves it at zero or below every
      line with that id is removed. */
  function Adjusted(lines: seq<CartLine>, id: int, delta: int): seq<CartLine> {
    var k := IndexWhere(lines, LineWithId(id));
    if k < 0 then lines
    else if lines[k].quantity + delta <= 0 then Without(lines, id)
    else lines[k := lines[k].(quantity := lines[k].quantity + delta)]
  }

  // ---- addToCart ----

  lemma AddUnknownProduct(lines: seq<CartLine>, products: seq<Product>, id: int)
    requires forall k :: 0 <= k < |products| ==> products[k].id != id
    ensures Added(lines, products, id) == lines
  {
  }

  lemma AddExistingLine(lines: seq<CartLine>, products: seq<Product>, id: int, k: nat)
    requires exists j :: 0 <= j < |products| && products[j].id == id
    requires k < |lines| && lines[k].product.id == id
    requires forall j :: 0 <= j < k ==> lines[j].product.id != id
    ensures |Added(lines, products, id)| == |lines|
    ensures Added(lines, products, id)[k] == lines[k].(quantity := lines[k].quantity + 1)
    ensures forall j :: 0 <= j < |lines| && j != k ==> Added(lines, products, id)[j] == lines[j]
  {
    var j :| 0 <= j < |products| && products[j].id == id;
    assert ProductWithId(id)(products[j]);
    assert LineWithId(id)(lines[k]);
  }

  lemma AddNewLine(lines: seq<CartLine>, products: seq<Product>, id: int, p: nat)
    requires p < |products| && products[p].id == id
    requires forall j :: 0 <= j < p ==> products[j].id != id
    requires forall j :: 0 <= j < |lines| ==> lines[j].product.id != id
    ensures Added(lines, products, id) == lines + [CartLine(products[p], 1)]
  {
    assert ProductWithId(id)(products[p]);
  }

  lemma AddPreservesValid(lines: seq<CartLine>, products: seq<Product>, id: int)
    requires Valid(lines)
    ensures Valid(Added(lines, products, id))
  {
    var p := IndexWhere(products, ProductWithId(id));
    if p >= 0 && IndexWhere(lines, LineWithId(id)) < 0 {
      var r := Added(lines, products, id);
      assert r == lines + [CartLine(products[p], 1)];
      assert products[p].id == id by { assert ProductWithId(id)(products[p]); }
      forall i | 0 <= i < |lines| ensures lines[i].product.id != id {
        assert !LineWithId(id)(lines[i]);
      }
    }
  }

  // ---- removeFromCart ----

  lemma RemoveExactly(lines: seq<CartLine>, id: int)
    ensures forall l :: l in Without(lines, id) <==> l in lines && l.product.id != id
    ensures forall a, b :: lines == a + b ==> Without(lines, id) == Without(a, id) + Without(b, id)
  {
    forall a, b | lines == a + b ensures Without(lines, id) == Without(a, id) + Without(b, id) {
      FilterAppend(a, b, LineWithoutId(id));
    }
  }

  /** Filtering a valid cart, by any test, leaves a valid cart. */
  lemma FilterPreservesValid(lines: seq<CartLine>, keep: CartLine -> bool)
    requires Valid(lines)
    ensures Valid(Filter(lines, keep))
  {
    var key := (l: CartLine) => l.product.id;
    FilterKeepsKeysDistinct(lines, keep, key);
    var r := Filter(lines, keep);
    forall i, j | 0 <= i < j < |r| ensures r[i].product.id != r[j].product.id {
      assert key(r[i]) != key(r[j]);
    }
    forall i | 0 <= i < |r| ensures r[i].quantity >= 1 {
      assert r[i] in lines;
    }
  }

  lemma RemovePreservesValid(lines: seq<CartLine>, id: int)
    requires Valid(lines)
    ensures Valid(Without(lines, id))
  {
    FilterPreservesValid(lines, LineWithoutId(id));
  }

  // ---- changeQuantity ----

  lemma ChangeAbsentLine(lines: seq<CartLine>, id: int, delta: int)
    requires forall j :: 0 <= j < |lines| ==> lines[j].product.id != id
    ensures Adjusted(lines, id, delta) == lines
  {
  }

  lemma ChangeKeepsLine(lines: seq<CartLine>, id: int, delta: int, k: nat)
    requires k < |lines| && lines[k].product.id == id
    requires forall j :: 0 <= j < k ==> lines[j].product.id != id
    requires lines[k].quantity + delta > 0
    ensures |Adjusted(lines, id, delta)| == |lines|
    ensures Adjusted(lines, id, delta)[k] == lines[k].(quantity := lines[k].quantity + delta)
    ensures forall j :: 0 <= j < |lines| && j != k ==> Adjusted(lines, id, delta)[j] == lines[j]
  {
    assert LineWithId(id)(lines[k]);
  }

  lemma ChangeDropsLine(lines: seq<CartLine>, id: int, delta: int, k: nat)
    requires k < |lines| && lines[k].product.id == id
    requires lines[k].quantity + delta <= 0
    requires forall j :: 0 <= j < k ==> lines[j].product.id != id
    ensures Adjusted(lines, id, delta) == Without(lines, id)
    ensures forall l :: l in Adjusted(lines, id, delta) ==> l.product.id != id
  {
    assert LineWithId(id)(lines[k]);
  }

  lemma ChangePreservesValid(lines: seq<CartLine>, id: int, delta: int)
    requires Valid(lines)
    ensures Valid(Adjusted(lines, id, delta))
  {
    var k := IndexWhere(lines, LineWithId(id));
    if k >= 0 && lines[k].quantity + delta <= 0 {
      RemovePreservesValid(lines, id);
    }
  }

  // ---- the cart count ----

  lemma {:induction false} CountAppend(a: seq<CartLine>, b: seq<CartLine>)
    ensures Count(a + b) == Count(a) + Count(b)
  {
    if a == [] {
      assert a + b == b;
    } else {
      assert (a + b)[1..] == a[1..] + b;
      CountAppend(a[1..], b);
    }
  }

  lemma {:induction false} CountUpdate(lines: seq<CartLine>, k: nat, q: int)
    requires k < |lines|
    ensures Count(lines[k := lines[k].(quantity := q)]) == Count(lines) - lines[k].quantity + q
  {
    if k > 0 {
      assert lines[k := lines[k].(quantity := q)][1..] == lines[1..][k - 1 := lines[1..][k - 1].(quantity := q)];
      CountUpdate(lines[1..], k - 1, q);
    }
  }

  /** Removing every line with `id` lowers the count by the units those lines held. */
  lemma {:induction false} CountSplit(lines: seq<CartLine>, id: int)
    ensures Count(Without(lines, id)) + Count(Filter(lines, LineWithId(id))) == Count(lines)
  {
    if lines != [] {
      CountSplit(lines[1..], id);
      var h := lines[0];
      if h.product.id == id {
        assert Without(lines, id) == Without(lines[1..], id);
        CountAppend([h], Filter(lines[1..], LineWithId(id)));
      } else {
        assert Filter(lines, LineWithId(id)) == Filter(lines[1..], LineWithId(id));
        CountAppend([h], Without(lines[1..], id));
      }
    }
  }

  /** In a cart with unique ids, no line but the one at `k` has its id. */
  lemma OthersDiffer(lines: seq<CartLine>, k: nat)
    requires UniqueIds(lines) && k < |lines|
    ensures forall j :: 0 <= j < |lines| && j != k ==> !LineWithId(lines[k].product.id)(lines[j])
  {
    forall j | 0 <= j < |lines| && j != k
      ensures lines[j].product.id != lines[k].product.id
    {
      if j < k {
        assert lines[j].product.id != lines[k].product.id;
      } else {
        assert lines[k].product.id != lines[j].product.id;
      }
    }
  }

  /** In a cart with unique ids, the line at `k` is the only one with its id. */
  lemma SoleLine(lines: seq<CartLine>, k: nat)
    requires UniqueIds(lines) && k < |lines|
    ensures Filter(lines, LineWithId(lines[k].product.id)) == [lines[k]]
  {
    OthersDiffer(lines, k);
    FilterOnlyAt(lines, k, LineWithId(lines[k].product.id));
  }

  lemma CountWithout(lines: seq<CartLine>, id: int, k: nat)
    requires UniqueIds(lines)
    requires k < |lines| && lines[k].product.id == id
    ensures Count(Without(lines, id)) == Count(lines) - lines[k].quantity
  {
    SoleLine(lines, k);
    CountSplit(lines, id);
    assert Count([lines[k]]) == lines[k].quantity;
  }

  lemma CountAfterAdd(lines: seq<CartLine>, products: seq<Product>, id: int)
    requires exists j :: 0 <= j < |products| && products[j].id == id
    ensures Count(Added(lines, products, id)) == Count(lines) + 1
  {
    var j :| 0 <= j < |products| && products[j].id == id;
    assert ProductWithId(id)(products[j]);
    var p := IndexWhere(products, ProductWithId(id));
    var k := IndexWhere(lines, LineWithId(id));
    if k >= 0 {
      calc {
        Count(Added(lines, products, id));
        Count(lines[k := lines[k].(quantity := lines[k].quantity + 1)]);
        { CountUpdate(lines, k, lines[k].quantity + 1); }
        Count(lines) - lines[k].quantity + (lines[k].quantity + 1);
      }
    } else {
      var line := CartLine(products[p], 1);
      calc {
        Count(Added(lines, products, id));
        Count(lines + [line]);
        { CountAppend(lines, [line]); assert [line][1..] == []; }
        Count(lines) + 1;
      }
    }
  }

  /** What the "Add to Cart" button keeps and changes, in one statement. */
  lemma AddFacts(lines: seq<CartLine>, products: seq<Product>, id: int)
    ensures Valid(lines) ==> Valid(Added(lines, products, id))
    ensures (exists j :: 0 <= j < |products| && products[j].id == id) ==>
      Count(Added(lines, products, id)) == Count(lines) + 1
  {
    if Valid(lines) {
      AddPreservesValid(lines, products, id);
    }
    if exists j :: 0 <= j < |products| && products[j].id == id {
      CountAfterAdd(lines, products, id);
    }
  }

  /** The first line with `id` sits at `k`. */
  lemma FirstLineAt(lines: seq<CartLine>, id: int, k: nat)
    requires k < |lines| && lines[k].product.id == id
    requires forall j :: 0 <= j < k ==> lines[j].product.id != id
    ensures IndexWhere(lines, LineWithId(id)) == k
  {
    assert LineWithId(id)(lines[k]);
  }

  lemma CountAfterDrop(lines: seq<CartLine>, id: int, delta: int, k: nat)
    requires UniqueIds(lines)
    requires k < |lines| && lines[k].product.id == id
    requires IndexWhere(lines, LineWithId(id)) == k
    requires lines[k].quantity + delta <= 0
    ensures Count(Adjusted(lines, id, delta)) == Count(lines) - lines[k].quantity
  {
    CountWithout(lines, id, k);
  }

  lemma CountAfterKeep(lines: seq<CartLine>, id: int, delta: int, k: nat)
    requires k < |lines|
    requires IndexWhere(lines, LineWithId(id)) == k
    requires lines[k].quantity + delta > 0
    ensures Count(Adjusted(lines, id, delta)) == Count(lines) + delta
  {
    var updated := lines[k := lines[k].(quantity := lines[k].quantity + delta)];
    calc {
      Count(Adjusted(lines, id, delta));
      Count(updated);
      { CountUpdate(lines, k, lines[k].quantity + delta); }
      Count(lines) - lines[k].quantity + (lines[k].quantity + delta);
    }
  }

  lemma CountAfterChange(lines: seq<CartLine>, id: int, delta: int, k: nat)
    requires UniqueIds(lines)
    requires k < |lines| && lines[k].product.id == id
    ensures Count(Adjusted(lines, id, delta)) ==
      if lines[k].quantity + delta <= 0 then Count(lines) - lines[k].quantity
      else Count(lines) + delta
  {
    forall j | 0 <= j < k ensures lines[j].product.id != id {
      assert lines[j].product.id != lines[k].product.id;
    }
    FirstLineAt(lines, id, k);
    if lines[k].quantity + delta <= 0 {
      CountAfterDrop(lines, id, delta, k);
    } else {
      CountAfterKeep(lines, id, delta, k);
    }
  }

  lemma CountAfterRemove(lines: seq<CartLine>, id: int)
    requires UniqueIds(lines)
    ensures Count(Without(lines, id)) ==
      var k := IndexWhere(lines, LineWithId(id));
      if k < 0 then Count(lines) else Count(lines) - lines[k].quantity
  {
    var k := IndexWhere(lines, LineWithId(id));
    if k < 0 {
      FilterKeepsAll(lines, LineWithoutId(id));
    } else {
      CountWithout(lines, id, k);
    }
  }

  /** The total is a running sum: appending a line adds its price times quantity. */
  lemma {:induction false} TotalSnoc(lines: seq<CartLine>, l: CartLine)
    ensures Total(lines + [l]) == Total(lines) + l.product.price * l.quantity
  {
    if lines == [] {
      assert lines + [l] == [l];
    } else {
      assert (lines + [l])[1..] == lines[1..] + [l];
      TotalSnoc(lines[1..], l);
    }
  }

  /** The loop in the cart view that accumulates `price * quantity`. */
  method ComputeTotal(lines: seq<CartLine>) returns (total: int)
    ensures total == Total(lines)
  {
    total := 0;
    var i := 0;
    while i < |lines|
      invariant 0 <= i <= |lines|
      invariant total == Total(lines[..i])
    {
      assert lines[..i + 1] == lines[..i] + [lines[i]];
      TotalSnoc(lines[..i], lines[i]);
      total := total + lines[i].product.price * lines[i].quantity;
      i := i + 1;
    }
    assert lines[..i] == lines;
  }
}
