/** The shopping cart hook (src/hooks/useCart.ts): an ordered list of lines keyed by product id,
    with the total kept beside them. */
module ShoppingCart {
  import opened Wrappers
  import opened Seqs
  import opened Types

  // ---------------------------------------------------------------------------
  // Sums over the lines (the two `reduce` calls)

  function LineTotal(item: CartItem): int {
    item.product.price * item.quantity
  }

  function Quantity(item: CartItem): int {
    item.quantity
  }

  /** Left fold of `f` over the lines, as `reduce((sum, item) => sum + f(item), 0)` computes it. */
  function Sum(items: seq<CartItem>, f: CartItem -> int): int {
    if items == [] then 0 else Sum(items[..|items| - 1], f) + f(items[|items| - 1])
  }

  /** `calculateTotal`: price times quantity, summed over the lines. */
  function CalculateTotal(items: seq<CartItem>): int {
    Sum(items, LineTotal)
  }

  /** The sum behind `getItemCount`: the quantities of all lines. */
  function ItemCount(items: seq<CartItem>): int {
    Sum(items, Quantity)
  }

  lemma {:induction false} SumAppend(a: seq<CartItem>, b: seq<CartItem>, f: CartItem -> int)
    ensures Sum(a + b, f) == Sum(a, f) + Sum(b, f)
    decreases |b|
  {
    if b == [] {
      assert a + b == a;
    } else {
      var b' := b[..|b| - 1];
      assert (a + b)[..|a + b| - 1] == a + b';
      SumAppend(a, b', f);
    }
  }

  /** Replacing one line changes a sum by the difference of that line's terms. */
  lemma SumUpdate(items: seq<CartItem>, i: int, x: CartItem, f: CartItem -> int)
    requires 0 <= i < |items|
    ensures Sum(items[i := x], f) == Sum(items, f) - f(items[i]) + f(x)
  {
    var pre, post := items[..i], items[i + 1..];
    assert items == pre + [items[i]] + post;
    assert items[i := x] == pre + [x] + post;
    SumAppend(pre + [items[i]], post, f);
    SumAppend(pre, [items[i]], f);
    SumAppend(pre + [x], post, f);
    SumAppend(pre, [x], f);
    assert Sum([items[i]], f) == f(items[i]) by { assert [items[i]][..0] == []; }
    assert Sum([x], f) == f(x) by { assert [x][..0] == []; }
  }

  /** Splitting the lines by a test splits every sum over them. */
  lemma {:induction false} SumPartition(items: seq<CartItem>, keep: CartItem -> bool, drop: CartItem -> bool,
                                        f: CartItem -> int)
    requires forall x :: drop(x) == !keep(x)
    ensures Sum(Filter(items, keep), f) + Sum(Filter(items, drop), f) == Sum(items, f)
  {
    if items != [] {
      var head, tail := items[0], items[1..];
      SumPartition(tail, keep, drop, f);
      assert items == [head] + tail;
      SumAppend([head], tail, f);
      assert Sum([head], f) == f(head) by { assert [head][..0] == []; }
      var kept := Filter(tail, keep);
      var dropped := Filter(tail, drop);
      if keep(head) {
        assert Filter(items, keep) == [head] + kept;
        assert Filter(items, drop) == dropped;
        SumAppend([head], kept, f);
      } else {
        assert Filter(items, keep) == kept;
        assert Filter(items, drop) == [head] + dropped;
        SumAppend([head], dropped, f);
      }
    }
  }

  // ---------------------------------------------------------------------------
  // Line-level operations

  /** `findIndex(item => item.product.id === id)`: the first line with that id, or -1. */
  function FindIndex(items: seq<CartItem>, id: string): (r: int)
    ensures -1 <= r < |items|
    ensures r == -1 <==> forall j :: 0 <= j < |items| ==> items[j].product.id != id
    ensures r >= 0 ==> items[r].product.id == id && forall j :: 0 <= j < r ==> items[j].product.id != id
  {
    if items == [] then -1
    else if items[0].product.id == id then 0
    else
      var k := FindIndex(items[1..], id);
      if k == -1 then -1 else k + 1
  }

  /** Reference meaning of adding `quantity` of `product`: walk the lines; the first one with the
      product's id gets `quantity` more; if none has it, a new line goes at the end. */
  function AddItems(items: seq<CartItem>, product: Product, quantity: int): seq<CartItem> {
    if items == [] then [CartItem(product, quantity)]
    else if items[0].product.id == product.id then
      [items[0].(quantity := items[0].quantity + quantity)] + items[1..]
    else [items[0]] + AddItems(items[1..], product, quantity)
  }

  /** The test `item.product.id !== id`. */
  function OtherId(id: string): CartItem -> bool {
    (item: CartItem) => item.product.id != id
  }

  /** The test `item.product.id === id`. */
  function SameId(id: string): CartItem -> bool {
    (item: CartItem) => item.product.id == id
  }

  /** The lines whose product id differs from `id`, in order (`removeFromCart`). */
  function RemoveItems(items: seq<CartItem>, id: string): seq<CartItem> {
    Filter(items, OtherId(id))
  }

  /** Every line whose product id is `id` gets quantity `quantity`; the rest stay (`updateQuantity`). */
  function SetQuantity(items: seq<CartItem>, id: string, quantity: int): seq<CartItem> {
    seq(|items|, j requires 0 <= j < |items| =>
      if items[j].product.id == id then items[j].(quantity := quantity) else items[j])
  }

  /** No two lines share a product id. */
  predicate UniqueIds(items: seq<CartItem>) {
    forall i, j :: 0 <= i < j < |items| ==> items[i].product.id != items[j].product.id
  }

  /** Every line holds at least one unit. */
  predicate AllPositive(items: seq<CartItem>) {
    forall i :: 0 <= i < |items| ==> items[i].quantity >= 1
  }

  /** Adding merges into the first line with the product's id, in place, or appends a new line. */
  lemma {:induction false} AddItemsShape(items: seq<CartItem>, product: Product, quantity: int)
    ensures var i := FindIndex(items, product.id);
      AddItems(items, product, quantity) ==
        if i >= 0 then items[i := items[i].(quantity := items[i].quantity + quantity)]
        else items + [CartItem(product, quantity)]
  {
    if items != [] && items[0].product.id != product.id {
      var rest := items[1..];
      assert items == [items[0]] + rest;
      AddItemsShape(rest, product, quantity);
      var k := FindIndex(rest, product.id);
      if k >= 0 {
        ConsUpdate(items[0], rest, k, rest[k].(quantity := rest[k].quantity + quantity));
      } else {
        ConsAppend(items[0], rest, CartItem(product, quantity));
      }
    }
  }

  /** The line that receives the added units: the existing line with the product's id, or the new one. */
  function ReceivingPrice(items: seq<CartItem>, product: Product): int {
    var i := FindIndex(items, product.id);
    if i >= 0 then items[i].product.price else product.price
  }

  /** Adding `quantity` units raises the total by that many units of the RECEIVING line's price: a
      merge keeps the product already in the cart, so a changed price of the added product is ignored. */
  lemma TotalAfterAdd(items: seq<CartItem>, product: Product, quantity: int)
    ensures CalculateTotal(AddItems(items, product, quantity))
         == CalculateTotal(items) + ReceivingPrice(items, product) * quantity
  {
    AddItemsShape(items, product, quantity);
    var i := FindIndex(items, product.id);
    var price := ReceivingPrice(items, product);
    if i >= 0 {
      TotalAfterMerge(items, i, quantity);
      assert price == items[i].product.price;
    } else {
      TotalAfterAppend(items, CartItem(product, quantity));
      assert price == product.price;
    }
  }

  /** Merging `quantity` units into line `i` raises the total by that line's price per unit. */
  lemma TotalAfterMerge(items: seq<CartItem>, i: int, quantity: int)
    requires 0 <= i < |items|
    ensures CalculateTotal(items[i := items[i].(quantity := items[i].quantity + quantity)])
         == CalculateTotal(items) + items[i].product.price * quantity
  {
    var x := items[i].(quantity := items[i].quantity + quantity);
    SumUpdate(items, i, x, LineTotal);
    assert LineTotal(x) == LineTotal(items[i]) + items[i].product.price * quantity;
  }

  /** Appending a line raises the total by that line's total. */
  lemma TotalAfterAppend(items: seq<CartItem>, line: CartItem)
    ensures CalculateTotal(items + [line]) == CalculateTotal(items) + LineTotal(line)
  {
    SumAppend(items, [line], LineTotal);
    assert [line][..0] == [];
  }

  /** Adding `quantity` units raises the item count by `quantity`, whether it merges or appends. */
  lemma ItemCountAfterAdd(items: seq<CartItem>, product: Product, quantity: int)
    ensures ItemCount(AddItems(items, product, quantity)) == ItemCount(items) + quantity
  {
    AddItemsShape(items, product, quantity);
    var i := FindIndex(items, product.id);
    if i >= 0 {
      SumUpdate(items, i, items[i].(quantity := items[i].quantity + quantity), Quantity);
    } else {
      SumAppend(items, [CartItem(product, quantity)], Quantity);
      assert [CartItem(product, quantity)][..0] == [];
    }
  }

  /** Adding keeps product ids unique. */
  lemma AddKeepsIdsUnique(items: seq<CartItem>, product: Product, quantity: int)
    requires UniqueIds(items)
    ensures UniqueIds(AddItems(items, product, quantity))
  {
    AddItemsShape(items, product, quantity);
  }

  /** Adding a positive quantity keeps every line positive. The source never checks the sign, so
      this holds only for positive arguments. */
  lemma AddKeepsPositive(items: seq<CartItem>, product: Product, quantity: int)
    requires AllPositive(items) && quantity >= 1
    ensures AllPositive(AddItems(items, product, quantity))
  {
    AddItemsShape(items, product, quantity);
  }

  /** Removing drops exactly the lines with that id and keeps the others in their order. */
  lemma RemoveItemsSpec(items: seq<CartItem>, id: string)
    ensures forall x :: x in RemoveItems(items, id) <==> x in items && x.product.id != id
    ensures IsSubsequence(RemoveItems(items, id), items)
  {
    FilterIsSubsequence(items, OtherId(id));
  }

  /** With unique ids, removing a present id lowers every sum by that line's term, and removing an
      absent id changes nothing. */
  lemma SumAfterRemove(items: seq<CartItem>, id: string, f: CartItem -> int)
    requires UniqueIds(items)
    ensures var i := FindIndex(items, id);
      Sum(RemoveItems(items, id), f) == Sum(items, f) - (if i >= 0 then f(items[i]) else 0)
  {
    SumPartition(items, OtherId(id), SameId(id), f);
    var i := FindIndex(items, id);
    if i >= 0 {
      OnlyMatchingLine(items, id, i);
      assert Sum([items[i]], f) == f(items[i]) by { assert [items[i]][..0] == []; }
    } else {
      FilterDropsAll(items, SameId(id));
    }
  }

  /** With unique ids, the lines with id `id` are exactly the one at `i`. */
  lemma OnlyMatchingLine(items: seq<CartItem>, id: string, i: int)
    requires UniqueIds(items) && 0 <= i < |items| && items[i].product.id == id
    ensures Filter(items, SameId(id)) == [items[i]]
  {
    var pre, post := items[..i], items[i + 1..];
    NoneWithId(pre, id);
    NoneWithId(post, id);
    assert items == pre + [items[i]] + post;
    FilterKeepsOne(pre, items[i], post, SameId(id));
  }

  /** Lines none of which has id `id` keep nothing under the test `SameId(id)`. */
  lemma NoneWithId(items: seq<CartItem>, id: string)
    requires forall j :: 0 <= j < |items| ==> items[j].product.id != id
    ensures Filter(items, SameId(id)) == []
  {
    forall x | x in items
      ensures !SameId(id)(x)
    {
      var j :| 0 <= j < |items| && items[j] == x;
    }
    FilterDropsAll(items, SameId(id));
  }

  /** Removing keeps product ids unique. */
  lemma {:induction false} RemoveKeepsIdsUnique(items: seq<CartItem>, id: string)
    requires UniqueIds(items)
    ensures UniqueIds(RemoveItems(items, id))
  {
    if items != [] {
      RemoveKeepsIdsUnique(items[1..], id);
      var rest := RemoveItems(items[1..], id);
      if items[0].product.id != id {
        assert RemoveItems(items, id) == [items[0]] + rest;
        forall k | 0 <= k < |rest|
          ensures rest[k].product.id != items[0].product.id
        {
          assert rest[k] in rest;
          var j :| 0 <= j < |items[1..]| && items[1..][j] == rest[k];
          assert items[j + 1] == rest[k];
        }
      } else {
        assert RemoveItems(items, id) == rest;
      }
    }
  }

  /** Setting a quantity keeps the lines' products and order, changes only the quantities of the
      lines with that id, and never adds a line; an absent id leaves the lines as they were. */
  lemma SetQuantitySpec(items: seq<CartItem>, id: string, quantity: int)
    ensures var r := SetQuantity(items, id, quantity);
      && |r| == |items|
      && (forall j :: 0 <= j < |r| ==> r[j].product == items[j].product)
      && (forall j :: 0 <= j < |r| ==>
            r[j].quantity == if items[j].product.id == id then quantity else items[j].quantity)
      && (FindIndex(items, id) == -1 ==> r == items)
  {
  }

  /** With unique ids, setting the quantity of a present line changes the item count by the
      difference between the new and the old quantity. */
  lemma ItemCountAfterSet(items: seq<CartItem>, id: string, quantity: int)
    requires UniqueIds(items)
    ensures var i := FindIndex(items, id);
      ItemCount(SetQuantity(items, id, quantity)) ==
        if i >= 0 then ItemCount(items) - items[i].quantity + quantity else ItemCount(items)
  {
    var i := FindIndex(items, id);
    if i >= 0 {
      assert SetQuantity(items, id, quantity) == items[i := items[i].(quantity := quantity)];
      SumUpdate(items, i, items[i].(quantity := quantity), Quantity);
    } else {
      assert SetQuantity(items, id, quantity) == items;
    }
  }

  /** Setting a positive quantity keeps every line positive. */
  lemma SetQuantityKeepsPositive(items: seq<CartItem>, id: string, quantity: int)
    requires AllPositive(items) && quantity >= 1
    ensures AllPositive(SetQuantity(items, id, quantity))
  {
  }

  // ---------------------------------------------------------------------------
  // The hook's state

  /** The cart state of one `useCart()` instance. */
  class CartStore {
    var cart: Cart

    /** The total agrees with the lines. Every operation re-establishes it; a cart restored from
        storage may not satisfy it, because its total is taken as stored. */
    predicate TotalConsistent()
      reads this
    {
      cart.total == CalculateTotal(cart.items)
    }

    /** Mount: the empty cart, replaced by the cart saved in session storage when one was saved and
        parsed (`saved`); the saved total is taken as it is. */
    constructor(saved: Option<Cart>)
      ensures cart == saved.GetOr(Cart([], 0))
      ensures saved.None? ==> TotalConsistent()
    {
      cart := Cart([], 0);
      if saved.Some? {
        cart := saved.value;
      }
    }

    /** `addToCart(product, quantity = 1)`. */
    method AddToCart(product: Product, quantity: int := 1)
      modifies this
      ensures cart.items == AddItems(old(cart.items), product, quantity)
      ensures TotalConsistent()
      ensures cart.total == CalculateTotal(old(cart.items)) + ReceivingPrice(old(cart.items), product) * quantity
    {
      var items := cart.items;
      AddItemsShape(items, product, quantity);
      TotalAfterAdd(items, product, quantity);
      var existingItemIndex := FindIndex(items, product.id);
      var newItems: seq<CartItem>;
      if existingItemIndex >= 0 {
        var item := items[existingItemIndex];
        newItems := items[existingItemIndex := item.(quantity := item.quantity + quantity)];
      } else {
        newItems := items + [CartItem(product, quantity)];
      }
      assert newItems == AddItems(items, product, quantity);
      cart := Cart(newItems, CalculateTotal(newItems));
    }

    /** `removeFromCart(productId)`. */
    method RemoveFromCart(productId: string)
      modifies this
      ensures cart.items == RemoveItems(old(cart.items), productId)
      ensures TotalConsistent()
    {
      var newItems := Filter(cart.items, OtherId(productId));
      cart := Cart(newItems, CalculateTotal(newItems));
    }

    /** `updateQuantity(productId, quantity)`: a quantity of zero or less removes the lines. */
    method UpdateQuantity(productId: string, quantity: int)
      modifies this
      ensures quantity <= 0 ==> cart.items == RemoveItems(old(cart.items), productId)
      ensures quantity > 0 ==> cart.items == SetQuantity(old(cart.items), productId, quantity)
      ensures TotalConsistent()
    {
      if quantity <= 0 {
        RemoveFromCart(productId);
        return;
      }
      var items := cart.items;
      var newItems := seq(|items|, j requires 0 <= j < |items| =>
        if items[j].product.id == productId then items[j].(quantity := quantity) else items[j]);
      cart := Cart(newItems, CalculateTotal(newItems));
    }

    /** `clearCart()`. */
    method ClearCart()
      modifies this
      ensures cart == Cart([], 0)
      ensures TotalConsistent()
    {
      cart := Cart([], 0);
    }

    /** `getItemCount()`: the number of units in the cart. */
    function GetItemCount(): (n: int)
      reads this
      ensures AllPositive(cart.items) ==> n >= |cart.items|
      ensures cart.items == [] ==> n == 0
    {
      ItemCountAtLeastLines(cart.items);
      ItemCount(cart.items)
    }
  }

  /** When every line is positive there are at least as many units as lines. */
  lemma {:induction false} ItemCountAtLeastLines(items: seq<CartItem>)
    ensures AllPositive(items) ==> ItemCount(items) >= |items|
  {
    if items != [] {
      var init := items[..|items| - 1];
      ItemCountAtLeastLines(init);
      if AllPositive(items) {
        assert AllPositive(init);
      }
    }
  }
}
