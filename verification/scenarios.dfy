/** Worked examples of the page's behaviour on concrete products. */
module Scenarios {
  import opened Wrappers
  import opened Pricing
  import opened Cart
  import opened App

  /** Two accepted adds in a row append two lines, in order, each with its
      own option and quantity; the grand total rises by both line totals. */
  lemma AddTwoLines(app: Page, p1: Product, c1: Choice, q1: Option<real>, id1: int,
                    p2: Product, c2: Choice, q2: Option<real>, id2: int)
    requires EffectiveQuantity(q1) > 0.0 && EffectiveQuantity(q2) > 0.0
    ensures var s1 := AddToCart(app, Some(p1), Some(c1), q1, id1);
            var s2 := AddToCart(s1, Some(p2), Some(c2), q2, id2);
            && |s2.cart| == |app.cart| + 2
            && s2.cart[|app.cart|].option == c1.option
            && s2.cart[|app.cart|].quantity == EffectiveQuantity(q1)
            && s2.cart[|app.cart| + 1].option == c2.option
            && s2.cart[|app.cart| + 1].quantity == EffectiveQuantity(q2)
            && CartTotal(s2.cart)
               == CartTotal(app.cart) + LineTotal(s2.cart[|app.cart|]) + LineTotal(s2.cart[|app.cart| + 1])
  {
    var s1 := AddToCart(app, Some(p1), Some(c1), q1, id1);
    assert s1.cart[|app.cart|] == Priced(AddLine(app.cart, Some(p1), Some(c1), q1, id1).value[|app.cart|]);
    var s2 := AddToCart(s1, Some(p2), Some(c2), q2, id2);
    assert s2.cart[|app.cart|] == Priced(s1.cart[|app.cart|]);
  }

  /** Adding the same selection twice appends two lines carrying the same
      option; the code never merges them into one. */
  lemma AddTwiceNoMerge(app: Page, p: Product, c: Choice, q1: real, q2: real, id1: int, id2: int)
    requires q1 > 0.0 && q2 > 0.0
    ensures var s1 := AddToCart(app, Some(p), Some(c), Some(q1), id1);
            var s2 := AddToCart(s1, Some(p), Some(c), Some(q2), id2);
            && |s2.cart| == |app.cart| + 2
            && s2.cart[|app.cart|].option == c.option && s2.cart[|app.cart|].quantity == q1
            && s2.cart[|app.cart| + 1].option == c.option && s2.cart[|app.cart| + 1].quantity == q2
            && CartTotal(s2.cart)
               == CartTotal(app.cart) + LineTotal(s2.cart[|app.cart|]) + LineTotal(s2.cart[|app.cart| + 1])
  {
    AddTwoLines(app, p, c, Some(q1), id1, p, c, Some(q2), id2);
  }

  /** "Pan Integral": $1.50 per package and $0.50 per piece, 3 pieces a package. */
  function PanIntegral(): Product {
    BuildProduct(ProductForm("Pan Integral", "bread", 1.5, "paquete", true, Some(0.5), Some(3), false, None), 100)
  }

  /** Adding the package option and then the individual option gives two
      separate lines costing $1.50 and $0.50, $2.00 in all. */
  lemma PanIntegralTwoOptions()
    ensures var pan := PanIntegral();
            var s1 := AddToCart(Start(None, None), Some(pan), Some(Choice(pan.prices[0], 0)), None, 1);
            var s2 := AddToCart(s1, Some(pan), Some(Choice(pan.prices[1], 1)), None, 2);
            && |s2.cart| == 2
            && LineTotal(s2.cart[0]) == 1.5 && LineTotal(s2.cart[1]) == 0.5
            && CartTotal(s2.cart) == 2.0
  {
    var pan := PanIntegral();
    assert pan.prices[0] == Normal(1.5, "paquete") && pan.prices[1] == Individual(0.5, 3);
    StartEmpty();
    var s0 := Page([], [], None, None);
    AddTwoLines(s0, pan, Choice(pan.prices[0], 0), None, 1, pan, Choice(pan.prices[1], 1), None, 2);
  }

  /** "Papas": $1.00 per pound. */
  function Papas(): Product {
    BuildProduct(ProductForm("Papas", "vegetables", 0.8, "bolsa", false, None, None, true, Some(1.0)), 200)
  }

  /** The package option, then the weight option with its derived per-kilo price. */
  lemma PapasPrices()
    ensures Papas().prices == [Normal(0.8, "bolsa"), Weight(1.0, 1.0 / KgPerLb)]
  {
  }

  /** Page load with empty storage gives an empty catalogue and cart. */
  lemma StartEmpty()
    ensures Start(None, None) == Page([], [], None, None)
  {
  }

  /** Adding 2.5 lb and then 1.5 lb of a $1.00-per-pound weight option (the
      second option of `Papas`, whose per-kilo price `PapasPrices` gives) to
      the empty cart of a fresh page gives two lines, not one merged line,
      totalling $4.00; the per-kilo price plays no part in the total. */
  lemma PapasNotMerged(priceKg: real)
    ensures var c := Choice(Weight(1.0, priceKg), 1);
            var s1 := AddToCart(Page([], [], None, None), Some(Papas()), Some(c), Some(2.5), 1);
            var s2 := AddToCart(s1, Some(Papas()), Some(c), Some(1.5), 2);
            && |s2.cart| == 2
            && s2.cart[0].option == s2.cart[1].option
            && CartTotal(s2.cart) == 4.0
  {
    var c := Choice(Weight(1.0, priceKg), 1);
    var s0 := Page([], [], None, None);
    AddTwiceNoMerge(s0, Papas(), c, 2.5, 1.5, 1, 2);
    var s1 := AddToCart(s0, Some(Papas()), Some(c), Some(2.5), 1);
    var s2 := AddToCart(s1, Some(Papas()), Some(c), Some(1.5), 2);
    assert LineTotal(s2.cart[0]) == 1.0 * 2.5;
    assert LineTotal(s2.cart[1]) == 1.0 * 1.5;
  }

  /** A zero or unreadable quantity in the dialog adds one unit; a negative
      one is refused and the state stays as it was. */
  lemma QuantityDefaults(app: Page, p: Product, c: Choice, id: int)
    ensures AddToCart(app, Some(p), Some(c), Some(0.0), id).cart[|app.cart|].quantity == 1.0
    ensures AddToCart(app, Some(p), Some(c), None, id).cart[|app.cart|].quantity == 1.0
    ensures AddToCart(app, Some(p), Some(c), Some(-2.0), id) == app
  {
  }
}
