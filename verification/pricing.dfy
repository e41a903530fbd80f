/** Price options and product construction from the "add product" form. */
module Pricing {
  import opened Wrappers

  /** Kilograms in one pound; the per-kilo price is derived with it. */
  const KgPerLb: real := 0.453592

  /** One way a product can be priced. `Unrecognized` stands for an option read
      back from storage whose type tag is none of the three known ones; the
      form never builds it, but a line total must still be defined for it. */
  datatype PriceOption =
    | Normal(price: real, unit: string)
    | Individual(price: real, unitsPerPack: int)
    | Weight(priceLb: real, priceKg: real)
    | Unrecognized(tag: string)

  datatype Product = Product(id: int, name: string, category: string, prices: seq<PriceOption>)

  /** The submitted form, already parsed. `None` in a numeric field means the
      text did not parse as a number; the enable flags are the two checkboxes. */
  datatype ProductForm = ProductForm(
    name: string,
    category: string,
    priceNormal: real,
    unitNormal: string,
    individualEnabled: bool,
    priceIndividual: Option<real>,
    unitsPerPack: Option<int>,
    weightEnabled: bool,
    pricePerLb: Option<real>)

  /** Position of each kind in a product's option list. */
  function Rank(o: PriceOption): nat {
    match o
    case Normal(_, _) => 0
    case Individual(_, _) => 1
    case Weight(_, _) => 2
    case Unrecognized(_) => 3
  }

  /** The shape every constructed product has: the package option first, then
      the other known kinds in a fixed order, each kind at most once. */
  predicate WellOrdered(prices: seq<PriceOption>) {
    && |prices| >= 1
    && prices[0].Normal?
    && (forall i :: 0 <= i < |prices| ==> !prices[i].Unrecognized?)
    && (forall i, j :: 0 <= i < j < |prices| ==> Rank(prices[i]) < Rank(prices[j]))
  }

  /** The individual option is added only when its checkbox is on and both its
      price and its pack size are positive numbers. */
  predicate IndividualAccepted(f: ProductForm) {
    && f.individualEnabled
    && f.priceIndividual.Some? && f.priceIndividual.value > 0.0
    && f.unitsPerPack.Some? && f.unitsPerPack.value > 0
  }

  /** The weight option is added only when its checkbox is on and the per-pound
      price is a positive number. */
  predicate WeightAccepted(f: ProductForm) {
    f.weightEnabled && f.pricePerLb.Some? && f.pricePerLb.value > 0.0
  }

  /** The weight option for a per-pound price, with the per-kilo price derived. */
  function WeightOption(priceLb: real): (o: PriceOption)
    ensures o.Weight? && o.priceLb == priceLb
    ensures o.priceKg * KgPerLb == priceLb
    ensures priceLb > 0.0 ==> o.priceKg > priceLb
  {
    Weight(priceLb, priceLb / KgPerLb)
  }

  /** Builds the product the form describes, with the caller-supplied fresh id. */
  function BuildProduct(f: ProductForm, id: int): (p: Product)
    ensures p.id == id && p.name == f.name && p.category == f.category
    ensures WellOrdered(p.prices)
    ensures p.prices[0] == Normal(f.priceNormal, f.unitNormal)
    ensures |p.prices| == 1 + (if IndividualAccepted(f) then 1 else 0) + (if WeightAccepted(f) then 1 else 0)
    ensures 1 <= |p.prices| <= 3
    ensures IndividualAccepted(f) ==>
              p.prices[1] == Individual(f.priceIndividual.value, f.unitsPerPack.value)
    ensures WeightAccepted(f) ==> p.prices[|p.prices| - 1] == WeightOption(f.pricePerLb.value)
  {
    var package := [Normal(f.priceNormal, f.unitNormal)];
    var individual := if IndividualAccepted(f)
                      then [Individual(f.priceIndividual.value, f.unitsPerPack.value)]
                      else [];
    var weight := if WeightAccepted(f) then [WeightOption(f.pricePerLb.value)] else [];
    Product(id, f.name, f.category, package + individual + weight)
  }

  /** The individual option of a product, if it has one. */
  function IndividualOf(prices: seq<PriceOption>): (r: Option<PriceOption>)
    ensures r.Some? ==> r.value.Individual? && r.value in prices
    ensures r.None? ==> forall i :: 0 <= i < |prices| ==> !prices[i].Individual?
  {
    if |prices| == 0 then None
    else if prices[0].Individual? then Some(prices[0])
    else IndividualOf(prices[1..])
  }

  /** The weight option of a product, if it has one. */
  function WeightOf(prices: seq<PriceOption>): (r: Option<PriceOption>)
    ensures r.Some? ==> r.value.Weight? && r.value in prices
    ensures r.None? ==> forall i :: 0 <= i < |prices| ==> !prices[i].Weight?
  {
    if |prices| == 0 then None
    else if prices[0].Weight? then Some(prices[0])
    else WeightOf(prices[1..])
  }

  /** Reading the options back out of a built product recovers exactly what
      the form asked for: an option is present iff the form's guard accepted it. */
  lemma BuildProductRoundTrip(f: ProductForm, id: int)
    ensures IndividualOf(BuildProduct(f, id).prices)
            == (if IndividualAccepted(f)
                then Some(Individual(f.priceIndividual.value, f.unitsPerPack.value))
                else None)
    ensures WeightOf(BuildProduct(f, id).prices)
            == (if WeightAccepted(f) then Some(WeightOption(f.pricePerLb.value)) else None)
  {
  }

  /** In a well-ordered option list no kind appears twice, so a product never
      offers, say, two weight prices for the dialog to choose between. This
      spells out what the rank order in `WellOrdered` means kind by kind. */
  lemma WellOrderedKindsDistinct(prices: seq<PriceOption>, i: int, j: int)
    requires WellOrdered(prices)
    requires 0 <= i < j < |prices|
    ensures Rank(prices[i]) != Rank(prices[j])
    ensures !(prices[i].Normal? && prices[j].Normal?)
    ensures !(prices[i].Individual? && prices[j].Individual?)
    ensures !(prices[i].Weight? && prices[j].Weight?)
  {
  }
}
