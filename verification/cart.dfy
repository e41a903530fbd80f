/** Cart lines, their totals, and the pure edits the cart handlers perform. */
module Cart {
  import opened Wrappers
  import opened Pricing

  /** A cart line. It carries its own copy of the chosen price option, so its
      total never depends on the catalogue. `total` is the cached line total
      that rendering writes back into the line. */
  datatype CartItem = CartItem(
    cartId: int,
    productId: int,
    name: string,
    category: string,
    option: PriceOption,
    optionIndex: nat,
    quantity: real,
    unitLabel: string,
    total: real)

  /** The option picked in the selection dialog together with its position in
      the product's option list. */
  datatype Choice = Choice(option: PriceOption, index: nat)

  /** Warnings the add handler shows instead of changing the cart. */
  datatype Warning = SelectAnOption | QuantityNotPositive

  /** Picking the option at a position of a product's option list. */
  function Choose(p: Product, index: nat): (r: Option<Choice>)
    ensures r.Some? <==> index < |p.prices|
    ensures r.Some? ==> r.value.index == index && r.value.option in p.prices
    ensures r.Some? ==> r.value.option == p.prices[index]
  {
    if index < |p.prices| then Some(Choice(p.prices[index], index)) else None
  }

  /** The price of one line: the option's price times the quantity, using the
      per-pound price for weight options and nothing for an unknown option. */
  function LineTotal(item: CartItem): real {
    match item.option
    case Normal(price, _) => price * item.quantity
    case Individual(price, _) => price * item.quantity
    case Weight(priceLb, _) => priceLb * item.quantity
    case Unrecognized(_) => 0.0
  }

  /** The line with its cached total brought up to date. */
  function Priced(item: CartItem): (r: CartItem)
    ensures r.total == LineTotal(item)
    ensures r.(total := item.total) == item
    ensures LineTotal(r) == LineTotal(item)
  {
    item.(total := LineTotal(item))
  }

  /** The grand total, accumulated over the lines from first to last. */
  function CartTotal(cart: seq<CartItem>): real
    decreases |cart|
  {
    if |cart| == 0 then 0.0
    else CartTotal(cart[..|cart| - 1]) + LineTotal(cart[|cart| - 1])
  }

  /** The sum of the cached totals the lines carry. */
  function StoredTotalsSum(cart: seq<CartItem>): real
    decreases |cart|
  {
    if |cart| == 0 then 0.0
    else StoredTotalsSum(cart[..|cart| - 1]) + cart[|cart| - 1].total
  }

  /** Every line's cached total is up to date. */
  predicate TotalsFresh(cart: seq<CartItem>) {
    forall i :: 0 <= i < |cart| ==> cart[i].total == LineTotal(cart[i])
  }

  /** Every line has a positive quantity. */
  predicate PositiveQuantities(cart: seq<CartItem>) {
    forall i :: 0 <= i < |cart| ==> cart[i].quantity > 0.0
  }

  /** The cart with every line's cached total brought up to date. */
  function Refreshed(cart: seq<CartItem>): (r: seq<CartItem>)
    ensures |r| == |cart|
    ensures forall i :: 0 <= i < |r| ==> r[i] == Priced(cart[i])
    ensures TotalsFresh(r)
  {
    seq(|cart|, i requires 0 <= i < |cart| => Priced(cart[i]))
  }

  /** Rendering the cart: walks the lines in order, caches each line's total in
      the line and adds it to the running grand total. An empty cart totals 0. */
  method RenderCart(cart: seq<CartItem>) returns (grandTotal: real, rendered: seq<CartItem>)
    ensures grandTotal == CartTotal(cart)
    ensures rendered == Refreshed(cart)
  {
    grandTotal := 0.0;
    rendered := cart;
    if |cart| == 0 {
      return;
    }
    var i := 0;
    while i < |cart|
      invariant 0 <= i <= |cart|
      invariant |rendered| == |cart|
      invariant grandTotal == CartTotal(cart[..i])
      invariant forall k :: 0 <= k < i ==> rendered[k] == Priced(cart[k])
      invariant forall k :: i <= k < |cart| ==> rendered[k] == cart[k]
    {
      var itemTotal := LineTotal(rendered[i]);
      rendered := rendered[i := rendered[i].(total := itemTotal)];
      grandTotal := grandTotal + itemTotal;
      assert cart[..i + 1][..i] == cart[..i];
      i := i + 1;
    }
    assert cart[..|cart|] == cart;
  }

  /** Position of the first line with the given cart id, if any. */
  function FindLine(cart: seq<CartItem>, cartId: int): (r: Option<nat>)
    ensures r.Some? ==> r.value < |cart| && cart[r.value].cartId == cartId
    ensures r.Some? ==> forall j :: 0 <= j < r.value ==> cart[j].cartId != cartId
    ensures r.None? ==> forall j :: 0 <= j < |cart| ==> cart[j].cartId != cartId
    decreases |cart|
  {
    if |cart| == 0 then None
    else if cart[0].cartId == cartId then Some(0)
    else match FindLine(cart[1..], cartId)
      case None => None
      case Some(k) => Some(k + 1)
  }

  /** The cart with the first line carrying `cartId` given a new quantity. */
  function SetQuantity(cart: seq<CartItem>, cartId: int, quantity: real): (r: seq<CartItem>)
    ensures |r| == |cart|
    ensures FindLine(cart, cartId).None? ==> r == cart
    ensures FindLine(cart, cartId).Some? ==>
              var i := FindLine(cart, cartId).value;
              && r[i].quantity == quantity
              && r[i].(quantity := cart[i].quantity) == cart[i]
              && forall k :: 0 <= k < |cart| && k != i ==> r[k] == cart[k]
  {
    match FindLine(cart, cartId)
    case None => cart
    case Some(i) => cart[i := cart[i].(quantity := quantity)]
  }

  /** The cart without the first line carrying `cartId`; the others keep their order. */
  function RemoveLine(cart: seq<CartItem>, cartId: int): (r: seq<CartItem>)
    ensures FindLine(cart, cartId).None? ==> r == cart
    ensures FindLine(cart, cartId).Some? ==>
              var i := FindLine(cart, cartId).value;
              && |r| == |cart| - 1
              && (forall k :: 0 <= k < i ==> r[k] == cart[k])
              && (forall k :: i <= k < |r| ==> r[k] == cart[k + 1])
              && multiset(r) + multiset{cart[i]} == multiset(cart)
  {
    match FindLine(cart, cartId)
    case None => cart
    case Some(i) =>
      assert cart == cart[..i] + [cart[i]] + cart[i + 1..];
      cart[..i] + cart[i + 1..]
  }

  /** The quantity the add handler uses: an unparseable or zero entry counts as 1. */
  function EffectiveQuantity(input: Option<real>): (q: real)
    ensures q != 0.0
    ensures input.Some? && input.value != 0.0 ==> q == input.value
    ensures input.None? || input.value == 0.0 ==> q == 1.0
  {
    match input
    case None => 1.0
    case Some(v) => if v == 0.0 then 1.0 else v
  }

  /** The line the add handler builds; its total is filled in by rendering. */
  function NewLine(p: Product, c: Choice, quantity: real, cartId: int): CartItem {
    CartItem(cartId, p.id, p.name, p.category, c.option, c.index, quantity,
             if c.option.Weight? then "lb" else "unidades", 0.0)
  }

  /** Adding the current selection to the cart. Without a product or an
      option, or with a non-positive quantity, the cart is left as it is and a
      warning is shown; otherwise exactly one line is appended. Duplicate
      selections are never merged. */
  function AddLine(cart: seq<CartItem>, product: Option<Product>, choice: Option<Choice>,
                   quantityInput: Option<real>, cartId: int): (r: Result<seq<CartItem>, Warning>)
    ensures product.None? || choice.None? ==> r == Failure(SelectAnOption)
    ensures product.Some? && choice.Some? && quantityInput.Some? && quantityInput.value < 0.0 ==>
              r == Failure(QuantityNotPositive)
    ensures r.Success? <==> product.Some? && choice.Some? && EffectiveQuantity(quantityInput) > 0.0
    ensures r.Success? ==>
              && |r.value| == |cart| + 1
              && r.value[..|cart|] == cart
              && var line := r.value[|cart|];
              && line.cartId == cartId
              && line.productId == product.value.id
              && line.name == product.value.name
              && line.category == product.value.category
              && line.unitLabel == (if choice.value.option.Weight? then "lb" else "unidades")
              && line.option == choice.value.option
              && line.optionIndex == choice.value.index
              && line.quantity > 0.0
              && line.quantity == EffectiveQuantity(quantityInput)
              && (quantityInput.Some? && quantityInput.value != 0.0 ==> line.quantity == quantityInput.value)
  {
    if product.None? || choice.None? then Failure(SelectAnOption)
    else
      var quantity := EffectiveQuantity(quantityInput);
      if quantity <= 0.0 then Failure(QuantityNotPositive)
      else
        var r := cart + [NewLine(product.value, choice.value, quantity, cartId)];
        assert r[..|cart|] == cart;
        Success(r)
  }

  // ---- Properties of line and grand totals ----

  /** A line total reads only the line's stored option and its quantity. */
  lemma LineTotalDependsOnlyOnOptionAndQuantity(a: CartItem, b: CartItem)
    requires a.option == b.option && a.quantity == b.quantity
    ensures LineTotal(a) == LineTotal(b)
  {
  }

  /** Package and individual lines cost price times quantity, weight lines the
      per-pound price times the pounds, and an unknown option costs nothing. */
  lemma LineTotalByKind(item: CartItem)
    ensures (item.option.Normal? || item.option.Individual?) ==> LineTotal(item) == item.option.price * item.quantity
    ensures item.option.Weight? ==> LineTotal(item) == item.option.priceLb * item.quantity
    ensures item.option.Unrecognized? ==> LineTotal(item) == 0.0
  {
  }

  /** Two unmerged lines for the same option cost exactly what one merged
      line with the summed quantity would, so never merging duplicate
      selections does not change what the shopper pays. */
  lemma LineTotalAdditive(a: CartItem, b: CartItem)
    requires a.option == b.option
    ensures LineTotal(a) + LineTotal(b) == LineTotal(a.(quantity := a.quantity + b.quantity))
  {
  }

  /** The grand total of two carts laid end to end is the sum of their totals. */
  lemma {:induction false} CartTotalAppend(a: seq<CartItem>, b: seq<CartItem>)
    ensures CartTotal(a + b) == CartTotal(a) + CartTotal(b)
    decreases |b|
  {
    if |b| == 0 {
      assert a + b == a;
    } else {
      var b' := b[..|b| - 1];
      assert (a + b)[..|a + b| - 1] == a + b';
      CartTotalAppend(a, b');
    }
  }

  /** Refreshing cached totals changes no total, and afterwards the cached
      totals add up to the grand total. */
  lemma {:induction false} RefreshedTotals(cart: seq<CartItem>)
    ensures CartTotal(Refreshed(cart)) == CartTotal(cart)
    ensures StoredTotalsSum(Refreshed(cart)) == CartTotal(cart)
    decreases |cart|
  {
    if |cart| > 0 {
      var front := cart[..|cart| - 1];
      assert Refreshed(cart)[..|cart| - 1] == Refreshed(front);
      RefreshedTotals(front);
    }
  }

  /** Refreshing an already fresh cart changes nothing. */
  lemma RefreshedFresh(cart: seq<CartItem>)
    requires TotalsFresh(cart)
    ensures Refreshed(cart) == cart
  {
  }

  /** Adding a line raises the grand total by exactly that line's total. */
  lemma AddLineTotal(cart: seq<CartItem>, product: Option<Product>, choice: Option<Choice>,
                     quantityInput: Option<real>, cartId: int)
    ensures var r := AddLine(cart, product, choice, quantityInput, cartId);
            r.Success? ==> CartTotal(r.value) == CartTotal(cart) + LineTotal(r.value[|cart|])
  {
  }

  /** The grand total splits around any one line. */
  lemma CartTotalSplit(cart: seq<CartItem>, i: nat)
    requires i < |cart|
    ensures CartTotal(cart) == CartTotal(cart[..i]) + LineTotal(cart[i]) + CartTotal(cart[i + 1..])
  {
    var pre, post := cart[..i], cart[i + 1..];
    assert cart == (pre + [cart[i]]) + post;
    CartTotalAppend(pre + [cart[i]], post);
    assert (pre + [cart[i]])[..|pre|] == pre;
  }

  /** Removing a line lowers the grand total by exactly that line's total. */
  lemma RemoveLineTotal(cart: seq<CartItem>, cartId: int)
    ensures FindLine(cart, cartId).Some? ==>
              CartTotal(RemoveLine(cart, cartId))
              == CartTotal(cart) - LineTotal(cart[FindLine(cart, cartId).value])
    ensures FindLine(cart, cartId).None? ==> CartTotal(RemoveLine(cart, cartId)) == CartTotal(cart)
  {
    if FindLine(cart, cartId).Some? {
      var i := FindLine(cart, cartId).value;
      var r := RemoveLine(cart, cartId);
      assert r == cart[..i] + cart[i + 1..];
      CartTotalSplit(cart, i);
      CartTotalAppend(cart[..i], cart[i + 1..]);
    }
  }

  /** Changing a line's quantity moves the grand total by the change in that
      line's total; nothing else contributes. */
  lemma SetQuantityTotal(cart: seq<CartItem>, cartId: int, quantity: real)
    ensures FindLine(cart, cartId).Some? ==>
              var i := FindLine(cart, cartId).value;
              CartTotal(SetQuantity(cart, cartId, quantity))
              == CartTotal(cart) - LineTotal(cart[i]) + LineTotal(cart[i].(quantity := quantity))
    ensures FindLine(cart, cartId).None? ==> SetQuantity(cart, cartId, quantity) == cart
  {
    if FindLine(cart, cartId).Some? {
      var i := FindLine(cart, cartId).value;
      var r := SetQuantity(cart, cartId, quantity);
      assert r[..i] == cart[..i];
      assert r[i + 1..] == cart[i + 1..];
      CartTotalSplit(cart, i);
      CartTotalSplit(r, i);
    }
  }
}
