/** The page's state and its event handlers, with the two storage entries
    (products and cart) that every mutation is meant to write through to. */
module App {
  import opened Wrappers
  import opened Pricing
  import opened Cart

  /** In-memory catalogue and cart, and what storage holds under the products
      key and the cart key (`None`: the key is absent). */
  datatype Page = Page(
    products: seq<Product>,
    cart: seq<CartItem>,
    savedProducts: Option<seq<Product>>,
    savedCart: Option<seq<CartItem>>)

  /** Reading a storage entry: an absent key reads as an empty list. */
  function LoadData<T>(saved: Option<seq<T>>): (r: seq<T>)
    ensures saved.None? ==> r == []
    ensures saved.Some? ==> r == saved.value
  {
    match saved
    case None => []
    case Some(data) => data
  }

  /** Storage holds exactly what is in memory, so a reload loses nothing. */
  predicate Durable(app: Page) {
    LoadData(app.savedProducts) == app.products && LoadData(app.savedCart) == app.cart
  }

  /** The state every handler is meant to leave behind: durable, with every
      cart line's cached total up to date. */
  predicate Consistent(app: Page) {
    Durable(app) && TotalsFresh(app.cart)
  }

  /** The state effect of rendering the cart: an empty cart is left alone and
      nothing is saved; otherwise every line's cached total is refreshed and
      the cart is saved. */
  function Render(app: Page): (r: Page)
    ensures r.products == app.products && r.savedProducts == app.savedProducts
    ensures r.cart == Refreshed(app.cart)
    ensures |app.cart| > 0 ==> r.savedCart == Some(r.cart)
    ensures |app.cart| == 0 ==> r == app
    ensures CartTotal(r.cart) == CartTotal(app.cart)
    ensures StoredTotalsSum(r.cart) == CartTotal(app.cart)
    ensures Consistent(app) ==> Consistent(r)
    ensures PositiveQuantities(app.cart) ==> PositiveQuantities(r.cart)
  {
    RefreshedTotals(app.cart);
    if |app.cart| == 0 then
      assert Refreshed(app.cart) == app.cart;
      app
    else
      var c := Refreshed(app.cart);
      app.(cart := c, savedCart := Some(c))
  }

  /** Page load: both lists are read from storage, then the cart is rendered. */
  function Start(savedProducts: Option<seq<Product>>, savedCart: Option<seq<CartItem>>): (r: Page)
    ensures Consistent(r)
    ensures r.savedProducts == savedProducts
    ensures |LoadData(savedCart)| == 0 ==> r.savedCart == savedCart
    ensures r.products == LoadData(savedProducts)
    ensures |r.cart| == |LoadData(savedCart)|
    ensures r.cart == Refreshed(LoadData(savedCart))
  {
    Render(Page(LoadData(savedProducts), LoadData(savedCart), savedProducts, savedCart))
  }

  /** Reloading a consistent state reproduces it exactly. */
  lemma ReloadRestores(app: Page)
    requires Consistent(app)
    ensures Start(app.savedProducts, app.savedCart) == app
  {
    RefreshedFresh(app.cart);
  }

  /** Submitting the product form appends the built product and saves the catalogue. */
  function SubmitProduct(app: Page, form: ProductForm, id: int): (r: Page)
    ensures |r.products| == |app.products| + 1
    ensures r.products[..|app.products|] == app.products
    ensures r.products[|app.products|] == BuildProduct(form, id)
    ensures r.cart == app.cart && r.savedCart == app.savedCart
    ensures r.savedProducts == Some(r.products)
    ensures Consistent(app) ==> Consistent(r)
  {
    var products := app.products + [BuildProduct(form, id)];
    assert products[..|app.products|] == app.products;
    app.(products := products, savedProducts := Some(products))
  }

  /** The "add to cart" button. A rejected add changes nothing; an accepted one
      appends one line, saves, and renders. */
  function AddToCart(app: Page, product: Option<Product>, choice: Option<Choice>,
                     quantityInput: Option<real>, cartId: int): (r: Page)
    ensures AddLine(app.cart, product, choice, quantityInput, cartId).Failure? ==> r == app
    ensures AddLine(app.cart, product, choice, quantityInput, cartId).Success? ==>
              && r.cart == Refreshed(AddLine(app.cart, product, choice, quantityInput, cartId).value)
              && |r.cart| == |app.cart| + 1
              && (forall k :: 0 <= k < |app.cart| ==> r.cart[k] == Priced(app.cart[k]))
              && r.cart[|app.cart|].cartId == cartId
              && r.cart[|app.cart|].quantity > 0.0
              && CartTotal(r.cart) == CartTotal(app.cart) + LineTotal(r.cart[|app.cart|])
              && r.savedCart == Some(r.cart)
    ensures r.products == app.products && r.savedProducts == app.savedProducts
    ensures Consistent(app) ==> Consistent(r)
    ensures PositiveQuantities(app.cart) ==> PositiveQuantities(r.cart)
  {
    match AddLine(app.cart, product, choice, quantityInput, cartId)
    case Failure(_) => app
    case Success(c) =>
      AddLineTotal(app.cart, product, choice, quantityInput, cartId);
      Render(app.(cart := c, savedCart := Some(c)))
  }

  /** Typing a new quantity into a cart line. A non-positive value is refused
      with a warning and an unknown id is ignored; otherwise the first line
      with that id takes the new quantity and the cart is rendered. */
  function ChangeQuantity(app: Page, cartId: int, quantity: real): (r: Page)
    ensures quantity <= 0.0 ==> r == app
    ensures FindLine(app.cart, cartId).None? ==> r == app
    ensures quantity > 0.0 && FindLine(app.cart, cartId).Some? ==>
              var i := FindLine(app.cart, cartId).value;
              && |r.cart| == |app.cart|
              && r.cart[i].quantity == quantity
              && r.cart[i] == Priced(app.cart[i].(quantity := quantity))
              && (forall k :: 0 <= k < |app.cart| && k != i ==> r.cart[k] == Priced(app.cart[k]))
              && CartTotal(r.cart)
                 == CartTotal(app.cart) - LineTotal(app.cart[i]) + LineTotal(app.cart[i].(quantity := quantity))
              && r.savedCart == Some(r.cart)
    ensures r.products == app.products && r.savedProducts == app.savedProducts
    ensures Consistent(app) ==> Consistent(r)
    ensures PositiveQuantities(app.cart) ==> PositiveQuantities(r.cart)
  {
    if quantity <= 0.0 then app
    else match FindLine(app.cart, cartId)
      case None => app
      case Some(i) =>
        SetQuantityTotal(app.cart, cartId, quantity);
        Render(app.(cart := SetQuantity(app.cart, cartId, quantity)))
  }

  /** The "remove" button as the page implements it: the line is spliced out
      and the cart rendered, with no save of its own. */
  function RemoveAsWritten(app: Page, cartId: int): (r: Page)
    ensures FindLine(app.cart, cartId).None? ==> r == app
    ensures FindLine(app.cart, cartId).Some? ==>
              && r.cart == Refreshed(RemoveLine(app.cart, cartId))
              && (|r.cart| > 0 ==> r.savedCart == Some(r.cart))
              && (|r.cart| == 0 ==> r.savedCart == app.savedCart)
    ensures r.products == app.products && r.savedProducts == app.savedProducts
  {
    match FindLine(app.cart, cartId)
    case None => app
    case Some(_) => Render(app.(cart := RemoveLine(app.cart, cartId)))
  }

  /** Removing the only line of a consistent cart as written leaves storage
      holding that line, so a reload brings it back. */
  lemma RemoveAsWrittenLosesLastRemoval(app: Page, cartId: int)
    requires Consistent(app)
    requires |app.cart| == 1 && app.cart[0].cartId == cartId
    ensures RemoveAsWritten(app, cartId).cart == []
    ensures !Durable(RemoveAsWritten(app, cartId))
    ensures Start(RemoveAsWritten(app, cartId).savedProducts, RemoveAsWritten(app, cartId).savedCart).cart == app.cart
  {
  }

  /** The stale storage entry lasts only until the next accepted add, which
      saves the cart again and so makes the state consistent once more. */
  lemma NextAddRepairsLostRemoval(app: Page, cartId: int, product: Option<Product>, choice: Option<Choice>,
                                  quantityInput: Option<real>, newId: int)
    requires Consistent(app)
    requires |app.cart| == 1 && app.cart[0].cartId == cartId
    requires AddLine([], product, choice, quantityInput, newId).Success?
    ensures Consistent(AddToCart(RemoveAsWritten(app, cartId), product, choice, quantityInput, newId))
  {
    RemoveAsWrittenLosesLastRemoval(app, cartId);
  }

  /** Recalculating or showing the cart tab does not repair the lost removal:
      rendering an empty cart saves nothing. */
  lemma RenderKeepsLostRemoval(app: Page, cartId: int)
    requires Consistent(app)
    requires |app.cart| == 1 && app.cart[0].cartId == cartId
    ensures !Durable(Render(RemoveAsWritten(app, cartId)))
  {
    RemoveAsWrittenLosesLastRemoval(app, cartId);
  }

  /** A concrete instance: one package line in the cart and in storage. */
  lemma RemoveAsWrittenCounterexample()
    ensures var line := CartItem(1, 7, "Pan", "bread", Normal(1.5, "paquete"), 0, 1.0, "unidades", 1.5);
            var app := Page([], [line], None, Some([line]));
            && Consistent(app)
            && RemoveAsWritten(app, 1).cart == []
            && LoadData(RemoveAsWritten(app, 1).savedCart) == [line]
  {
  }

  /** The "remove" button with the cart saved after the splice, as "clear"
      does: the first line with that id disappears, and storage follows. */
  function Remove(app: Page, cartId: int): (r: Page)
    ensures FindLine(app.cart, cartId).None? ==> r == app
    ensures FindLine(app.cart, cartId).Some? ==>
              var i := FindLine(app.cart, cartId).value;
              && |r.cart| == |app.cart| - 1
              && (forall k :: 0 <= k < i ==> r.cart[k] == Priced(app.cart[k]))
              && (forall k :: i <= k < |r.cart| ==> r.cart[k] == Priced(app.cart[k + 1]))
              && CartTotal(r.cart) == CartTotal(app.cart) - LineTotal(app.cart[i])
              && r.savedCart == Some(r.cart)
    ensures r.products == app.products && r.savedProducts == app.savedProducts
    ensures Consistent(app) ==> Consistent(r)
    ensures PositiveQuantities(app.cart) ==> PositiveQuantities(r.cart)
  {
    match FindLine(app.cart, cartId)
    case None => app
    case Some(_) =>
      RemoveLineTotal(app.cart, cartId);
      var c := RemoveLine(app.cart, cartId);
      Render(app.(cart := c, savedCart := Some(c)))
  }

  /** The corrected handler differs from the page's only in what it saves. */
  lemma RemoveAgreesInMemory(app: Page, cartId: int)
    ensures Remove(app, cartId).cart == RemoveAsWritten(app, cartId).cart
    ensures |Remove(app, cartId).cart| > 0 ==> Remove(app, cartId) == RemoveAsWritten(app, cartId)
  {
  }

  /** The "clear cart" button (confirmation taken as given): the cart is
      emptied and the empty cart saved. */
  function Clear(app: Page): (r: Page)
    ensures r.cart == [] && r.savedCart == Some([])
    ensures CartTotal(r.cart) == 0.0
    ensures r.products == app.products && r.savedProducts == app.savedProducts
    ensures Consistent(app) ==> Consistent(r)
  {
    Render(app.(cart := [], savedCart := Some([])))
  }

  /** The events the page reacts to, with their parsed inputs. The
      "calculate total" button and switching to the cart tab only render. */
  datatype Event =
    | SubmitProductForm(form: ProductForm, id: int)
    | AddToCartClick(product: Option<Product>, optionIndex: Option<nat>, quantityInput: Option<real>, cartId: int)
    | QuantityChange(lineId: int, quantity: real)
    | RemoveClick(removeId: int)
    | ClearClick
    | RecalculateClick
    | ShowCartTab

  /** The option selected in the dialog: the one clicked, at its position in
      the current product's list; nothing while no product or no option is
      selected. */
  function Selected(product: Option<Product>, optionIndex: Option<nat>): (r: Option<Choice>)
    ensures r.Some? <==> product.Some? && optionIndex.Some? && optionIndex.value < |product.value.prices|
    ensures r.Some? ==> r.value.option == product.value.prices[optionIndex.value]
                        && r.value.index == optionIndex.value
  {
    if product.Some? && optionIndex.Some? then Choose(product.value, optionIndex.value) else None
  }

  /** One event handled by the page with the corrected removal. */
  function Step(app: Page, e: Event): Page {
    match e
    case SubmitProductForm(form, id) => SubmitProduct(app, form, id)
    case AddToCartClick(p, k, q, id) => AddToCart(app, p, Selected(p, k), q, id)
    case QuantityChange(id, q) => ChangeQuantity(app, id, q)
    case RemoveClick(id) => Remove(app, id)
    case ClearClick => Clear(app)
    case RecalculateClick => Render(app)
    case ShowCartTab => Render(app)
  }

  /** One event handled by the page as written: removal does not save. */
  function StepAsWritten(app: Page, e: Event): Page {
    match e
    case RemoveClick(id) => RemoveAsWritten(app, id)
    case _ => Step(app, e)
  }

  /** The page as written keeps its state consistent on every event except
      removing the last line of the cart, which it fails to persist. */
  lemma StepAsWrittenKeepsConsistent(app: Page, e: Event)
    requires Consistent(app)
    ensures !(e.RemoveClick? && FindLine(app.cart, e.removeId).Some? && |app.cart| == 1) ==>
              Consistent(StepAsWritten(app, e))
    ensures e.RemoveClick? && FindLine(app.cart, e.removeId).Some? && |app.cart| == 1 ==>
              !Durable(StepAsWritten(app, e))
  {
    if e.RemoveClick? {
      RemoveAgreesInMemory(app, e.removeId);
      if FindLine(app.cart, e.removeId).Some? && |app.cart| == 1 {
        RemoveAsWrittenLosesLastRemoval(app, e.removeId);
      }
    }
  }

  function Run(app: Page, events: seq<Event>): Page
    decreases |events|
  {
    if |events| == 0 then app else Run(Step(app, events[0]), events[1..])
  }

  /** For the page with the corrected removal: from page load on, any
      sequence of events keeps the state consistent. Storage mirrors memory
      and every cached line total is current, so the cached totals add up to
      the grand total. */
  lemma {:induction false} RunKeepsConsistent(app: Page, events: seq<Event>)
    requires Consistent(app)
    ensures Consistent(Run(app, events))
    decreases |events|
  {
    if |events| > 0 {
      RunKeepsConsistent(Step(app, events[0]), events[1..]);
    }
  }

  /** Once every line has a positive quantity, no sequence of events creates
      one that does not. */
  lemma {:induction false} RunKeepsPositiveQuantities(app: Page, events: seq<Event>)
    requires PositiveQuantities(app.cart)
    ensures PositiveQuantities(Run(app, events).cart)
    decreases |events|
  {
    if |events| > 0 {
      RunKeepsPositiveQuantities(Step(app, events[0]), events[1..]);
    }
  }
}
