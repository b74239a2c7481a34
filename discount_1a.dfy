/** The discount calculator of src/tasks/41121/1a.jsx: `performCalculation` with its
  * append-only history, the comparison results, the savings-goal percentage and the
  * bulk total. The text inputs are kept as fields that are blank, a number, or other
  * text, because the component reads them both with `parseFloat` (blank is NaN) and by
  * arithmetic coercion (blank is 0). */
module DiscountA {
  import opened Wrappers
  import DiscountIdeal

  /** The content of a text input. */
  datatype Field = Blank | Number(x: real) | Text

  /** `parseFloat`: a number only when the field holds one. */
  function ParseFloat(f: Field): (r: Option<real>)
    ensures r.Some? <==> f.Number?
  {
    if f.Number? then Some(f.x) else None
  }

  /** Arithmetic coercion of a string: blank is 0, other text is NaN. */
  function Coerce(f: Field): (r: Option<real>)
    ensures r.None? <==> f.Text?
    ensures f.Blank? ==> r == Some(0.0)
  {
    match f
    case Blank => Some(0.0)
    case Number(x) => Some(x)
    case Text => None
  }

  // ---------------------------------------------------------------- calculation

  datatype Inputs = Inputs(price: Field, discount: Field, tax: Field)

  const BlankInputs := Inputs(Blank, Blank, Blank)

  /** A history row; NaN is `None`. */
  datatype Calculation = Calculation(original: Option<real>, discount: Option<real>, tax: Option<real>,
                                     saved: Option<real>, final: Option<real>)

  /** `performCalculation`: no validation, so NaN spreads to every figure that uses a
    * missing input. */
  function Perform(i: Inputs): (r: Calculation)
    ensures r.original == ParseFloat(i.price) && r.discount == ParseFloat(i.discount) && r.tax == ParseFloat(i.tax)
    ensures r.saved.Some? <==> i.price.Number? && i.discount.Number?
    ensures r.final.Some? <==> i.price.Number? && i.discount.Number? && i.tax.Number?
  {
    var p, d, t := ParseFloat(i.price), ParseFloat(i.discount), ParseFloat(i.tax);
    var discounted := if p.Some? && d.Some? then Some(p.value * (1.0 - d.value / 100.0)) else None;
    Calculation(
      p,
      if d.Some? then Some(d.value / 100.0 * 100.0) else None,
      if t.Some? then Some(t.value / 100.0 * 100.0) else None,
      if discounted.Some? then Some(p.value - discounted.value) else None,
      if discounted.Some? && t.Some? then Some(discounted.value * (1.0 + t.value / 100.0)) else None)
  }

  /** With all three inputs present the figures are those of the calculator in
    * src/tasks/41121/1ideal.jsx: the same saving and the same final price. */
  lemma AgreesWithIdeal(p: real, d: real, t: real)
    ensures Perform(Inputs(Number(p), Number(d), Number(t))).saved.Some?
    ensures Perform(Inputs(Number(p), Number(d), Number(t))).saved.value
         == DiscountIdeal.CalculateDiscount(p, d, t).saved
    ensures Perform(Inputs(Number(p), Number(d), Number(t))).final.Some?
    ensures Perform(Inputs(Number(p), Number(d), Number(t))).final.value
         == DiscountIdeal.CalculateDiscount(p, d, t).final
  {
    var b := DiscountIdeal.CalculateDiscount(p, d, t);
    assert p * (1.0 - d / 100.0) == p - p * (d / 100.0);
    assert p * (1.0 - d / 100.0) == b.discounted;
  }

  /** Unlike that calculator, a blank tax is not read as 0: the final price is NaN. */
  lemma BlankTaxHasNoFinalPrice(p: real, d: real)
    ensures Perform(Inputs(Number(p), Number(d), Blank)).final.None?
    ensures Perform(Inputs(Number(p), Number(d), Blank)).saved.Some?
    ensures Perform(Inputs(Number(p), Number(d), Blank)).saved.value == p * d / 100.0
  {
    assert p * (1.0 - d / 100.0) == p - p * (d / 100.0);
  }

  // ---------------------------------------------------------------- comparison

  /** A row of `comparisonResults`. */
  datatype ComparisonRow = ComparisonRow(discount: real, final: Option<real>)

  /** `comparisonResults`: one row per comparison discount, in order, with the price
    * input (coerced) times `1 - discount / 100`. */
  function ComparisonResults(price: Field, discounts: seq<real>): (r: seq<ComparisonRow>)
    ensures |r| == |discounts|
    ensures forall k :: 0 <= k < |r| ==> r[k].discount == discounts[k]
    ensures forall k :: 0 <= k < |r| ==> r[k].final == Discounted(Coerce(price), discounts[k])
  {
    seq(|discounts|, k requires 0 <= k < |discounts| => ComparisonRow(discounts[k], Discounted(Coerce(price), discounts[k])))
  }

  /** A coerced price less a percentage; NaN stays NaN. */
  function Discounted(price: Option<real>, d: real): (r: Option<real>)
    ensures r.Some? <==> price.Some?
  {
    match price
    case None => None
    case Some(p) => Some(p * (1.0 - d / 100.0))
  }

  /** Each row's figure is the price less that discount, and with a blank price every
    * row shows 0. */
  lemma ComparisonRowsAreDiscounts(price: real, discounts: seq<real>, k: int)
    requires 0 <= k < |discounts|
    ensures ComparisonResults(Number(price), discounts)[k].final.Some?
    ensures ComparisonResults(Number(price), discounts)[k].final.value
         == price - DiscountIdeal.CalculateDiscount(price, discounts[k], 0.0).saved
    ensures ComparisonResults(Blank, discounts)[k].final.Some?
    ensures ComparisonResults(Blank, discounts)[k].final.value == 0.0
  {
    var d := discounts[k];
    assert Discounted(Some(price), d).value == price * (1.0 - d / 100.0);
    assert price * (1.0 - d / 100.0) == price - price * (d / 100.0);
    assert Discounted(Some(0.0), d).value == 0.0 * (1.0 - d / 100.0);
  }

  // ---------------------------------------------------------------- savings goal

  /** A JavaScript number that may be infinite (NaN does not survive `calculateSavingsGoal`). */
  datatype Extended = Finite(x: real) | PlusInfinity | MinusInfinity

  /** `calculateSavingsGoal`: `(price - goal) / price * 100`, or 0 when that is NaN (a
    * field that is not a number, or 0 / 0); a zero price with another goal divides by 0. */
  function RequiredDiscount(price: Field, goal: Field): (r: Extended)
    ensures !(price.Number? && goal.Number?) ==> r == Finite(0.0)
    ensures price.Number? && goal.Number? && price.x != 0.0 ==> r.Finite?
  {
    var p, g := ParseFloat(price), ParseFloat(goal);
    if p.None? || g.None? then Finite(0.0)
    else if p.value != 0.0 then Finite((p.value - g.value) / p.value * 100.0)
    else if g.value == 0.0 then Finite(0.0)
    else if -g.value > 0.0 then PlusInfinity
    else MinusInfinity
  }

  /** For a positive price, taking the required discount off the price leaves the goal. */
  lemma RequiredDiscountReachesGoal(p: real, g: real)
    requires p > 0.0
    ensures p * (1.0 - RequiredDiscount(Number(p), Number(g)).x / 100.0) == g
  {
    var r := (p - g) / p * 100.0;
    assert r / 100.0 == (p - g) / p;
    assert p * ((p - g) / p) == p - g;
  }

  // ---------------------------------------------------------------- bulk

  /** A bulk row: the price input and the quantity. */
  datatype Item = Item(price: Field, quantity: Field)

  const BlankItem := Item(Blank, Number(1.0))

  /** The `reduce` of `bulkTotal`: price times quantity, both coerced; NaN spreads. */
  function Sum(items: seq<Item>): (r: Option<real>)
    ensures r.Some? <==> forall k :: 0 <= k < |items| ==> !items[k].price.Text? && !items[k].quantity.Text?
  {
    if items == [] then Some(0.0)
    else
      var rest := Sum(items[1..]);
      var line := Line(items[0]);
      assert forall k :: 1 <= k < |items| ==> items[k] == items[1..][k - 1];
      if line.Some? && rest.Some? then Some(line.value + rest.value) else None
  }

  /** One row's `price * quantity`, both coerced. */
  function Line(item: Item): (r: Option<real>)
    ensures r.Some? <==> !item.price.Text? && !item.quantity.Text?
  {
    match (Coerce(item.price), Coerce(item.quantity))
    case (Some(p), Some(q)) => Some(p * q)
    case _ => None
  }

  /** `bulkTotal`: the sum less the discount, a blank or unparsable discount counting as 0. */
  function BulkTotal(items: seq<Item>, discount: Field): (r: Option<real>)
    ensures r.Some? <==> Sum(items).Some?
    ensures !discount.Number? ==> r == Sum(items)
  {
    if Sum(items).None? then None
    else Some(Sum(items).value * (1.0 - ParseFloat(discount).OrElse(0.0) / 100.0))
  }

  /** The initial bulk row (blank price, quantity 1) adds nothing to the total. */
  lemma {:induction false} BlankItemsAddNothing(items: seq<Item>)
    ensures Sum(items + [BlankItem]) == Sum(items)
  {
    if items == [] {
      assert Line(BlankItem).value == 0.0 * 1.0;
      assert [BlankItem][1..] == [];
    } else {
      assert (items + [BlankItem])[1..] == items[1..] + [BlankItem];
      BlankItemsAddNothing(items[1..]);
    }
  }

  // ---------------------------------------------------------------- the app

  class App {
    var calculationHistory: seq<Calculation>
    var currentCalculation: Inputs
    var comparisonDiscounts: seq<real>
    var savingsPrice: Field
    var savingsGoal: Field
    var bulkItems: seq<Item>
    var bulkDiscount: Field

    constructor()
      ensures calculationHistory == [] && currentCalculation == BlankInputs
      ensures comparisonDiscounts == [10.0, 20.0] && bulkItems == [BlankItem] && bulkDiscount == Blank
    {
      calculationHistory := [];
      currentCalculation := BlankInputs;
      comparisonDiscounts := [10.0, 20.0];
      savingsPrice, savingsGoal := Blank, Blank;
      bulkItems := [BlankItem];
      bulkDiscount := Blank;
    }

    /** The calculator's inputs. */
    method SetCurrent(i: Inputs)
      modifies this`currentCalculation
      ensures currentCalculation == i
    {
      currentCalculation := i;
    }

    /** `performCalculation`: one result at the end of the history, inputs cleared. */
    method PerformCalculation()
      modifies this`calculationHistory, this`currentCalculation
      ensures calculationHistory == old(calculationHistory) + [Perform(old(currentCalculation))]
      ensures currentCalculation == BlankInputs
    {
      calculationHistory := calculationHistory + [Perform(currentCalculation)];
      currentCalculation := BlankInputs;
    }

    /** The clear button. */
    method ClearHistory()
      modifies this`calculationHistory
      ensures calculationHistory == []
    {
      calculationHistory := [];
    }

    /** The comparison tab's list. */
    method SetComparisonDiscounts(ds: seq<real>)
      modifies this`comparisonDiscounts
      ensures comparisonDiscounts == ds
    {
      comparisonDiscounts := ds;
    }

    /** The savings-goal inputs. */
    method SetSavingsGoal(price: Field, goal: Field)
      modifies this`savingsPrice, this`savingsGoal
      ensures savingsPrice == price && savingsGoal == goal
    {
      savingsPrice, savingsGoal := price, goal;
    }

    /** The bulk tab's rows and discount. */
    method SetBulk(items: seq<Item>, discount: Field)
      modifies this`bulkItems, this`bulkDiscount
      ensures bulkItems == items && bulkDiscount == discount
    {
      bulkItems, bulkDiscount := items, discount;
    }

    /** The comparison tab's rows, recomputed from the state. */
    function Comparison(): (r: seq<ComparisonRow>)
      reads this
      ensures |r| == |comparisonDiscounts|
    {
      ComparisonResults(currentCalculation.price, comparisonDiscounts)
    }

    /** The savings tab's percentage. */
    function Required(): (r: Extended)
      reads this
      ensures !(savingsPrice.Number? && savingsGoal.Number?) ==> r == Finite(0.0)
      ensures savingsPrice.Number? && savingsGoal.Number? && savingsPrice.x > 0.0 ==>
        r.Finite? && savingsPrice.x * (1.0 - r.x / 100.0) == savingsGoal.x
    {
      if savingsPrice.Number? && savingsGoal.Number? && savingsPrice.x > 0.0 then
        RequiredDiscountReachesGoal(savingsPrice.x, savingsGoal.x);
        RequiredDiscount(savingsPrice, savingsGoal)
      else RequiredDiscount(savingsPrice, savingsGoal)
    }

    /** The bulk tab's total. */
    function Total(): (r: Option<real>)
      reads this
      ensures r.Some? <==> Sum(bulkItems).Some?
      ensures !bulkDiscount.Number? ==> r == Sum(bulkItems)
      ensures bulkDiscount == Number(100.0) && r.Some? ==> r.value == 0.0
    {
      BulkTotal(bulkItems, bulkDiscount)
    }
  }
}
