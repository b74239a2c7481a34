/** The discount calculator of src/tasks/41121/1ideal.jsx: the discount and tax
  * arithmetic, the validation of the three inputs, a history of at most ten
  * calculations, a list of discounts to compare, the savings-goal calculator and the
  * bulk calculator. A parsed input is a number or `None` (NaN); the two-decimal
  * formatting of results into messages is not modelled. */
module DiscountIdeal {
  import opened Wrappers
  import opened Seqs

  // ---------------------------------------------------------------- arithmetic

  /** The result of `calculateDiscount`. */
  datatype Breakdown = Breakdown(discounted: real, saved: real, final: real)

  /** `calculateDiscount`: the discount amount comes off the price, then tax is added to
    * what is left. */
  function CalculateDiscount(price: real, discount: real, tax: real): (r: Breakdown)
    ensures r.discounted + r.saved == price
    ensures r.saved == price * discount / 100.0
    ensures r.final == r.discounted * (1.0 + tax / 100.0)
  {
    var discountAmount := price * (discount / 100.0);
    var discounted := price - discountAmount;
    var taxAmount := discounted * (tax / 100.0);
    Breakdown(discounted, discountAmount, discounted + taxAmount)
  }

  /** For a price that is not negative, a discount between 0 and 100 and a tax that is
    * not negative, the discounted price lies between 0 and the price and tax never
    * lowers it. */
  lemma DiscountBounds(price: real, discount: real, tax: real)
    requires price >= 0.0 && 0.0 <= discount <= 100.0 && tax >= 0.0
    ensures 0.0 <= CalculateDiscount(price, discount, tax).discounted <= price
    ensures 0.0 <= CalculateDiscount(price, discount, tax).saved
    ensures CalculateDiscount(price, discount, tax).final >= CalculateDiscount(price, discount, tax).discounted
  {
    var r := CalculateDiscount(price, discount, tax);
    assert 0.0 <= price * (discount / 100.0) <= price * 1.0 by {
      assert 0.0 <= discount / 100.0 <= 1.0;
    }
    assert r.discounted * (tax / 100.0) >= 0.0;
  }

  // ---------------------------------------------------------------- the calculator

  const NotNumbersMessage := "Please enter valid numbers for both fields."
  const OutOfRangeMessage := "Please enter valid values (price >= 0, 0 <= discount <= 100, 0 <= tax <= 100)."

  /** What `handleCalculate` makes of the three inputs. */
  datatype Checked = NotNumbers | OutOfRange | Accepted(price: real, discount: real, tax: real)

  /** The two guards of `handleCalculate`; a blank or unparsable tax counts as 0. */
  function Check(price: Option<real>, discount: Option<real>, tax: Option<real>): (r: Checked)
    ensures r == NotNumbers <==> price.None? || discount.None?
    ensures r.Accepted? <==> (price.Some? && discount.Some? && price.value >= 0.0
                              && 0.0 <= discount.value <= 100.0 && 0.0 <= tax.OrElse(0.0) <= 100.0)
    ensures r.Accepted? ==> r.price == price.value && r.discount == discount.value && r.tax == tax.OrElse(0.0)
  {
    if price.None? || discount.None? then NotNumbers
    else
      var p, d, t := price.value, discount.value, tax.OrElse(0.0);
      if p < 0.0 || d < 0.0 || d > 100.0 || t < 0.0 || t > 100.0 then OutOfRange
      else Accepted(p, d, t)
  }

  /** A history row; `id` is the clock reading of the calculation. */
  datatype Entry = Entry(id: int, originalPrice: real, discountPercentage: real, taxPercentage: real,
                         discountedPrice: real, amountSaved: real, finalPrice: real)

  const HistoryCap := 10

  /** `[newEntry, ...prev.slice(0, 9)]`: the new entry first, then the nine most recent. */
  function Pushed(history: seq<Entry>, e: Entry): (r: seq<Entry>)
    ensures |r| <= HistoryCap && |r| == if |history| < HistoryCap then |history| + 1 else HistoryCap
    ensures r[0] == e
    ensures forall k :: 1 <= k < |r| ==> r[k] == history[k - 1]
  {
    [e] + history[..if |history| < 9 then |history| else 9]
  }

  /** Pushing into a history that is not yet full loses nothing. */
  lemma PushedKeepsAllWhileRoom(history: seq<Entry>, e: Entry)
    requires |history| < HistoryCap
    ensures Pushed(history, e) == [e] + history
  {
  }

  // ---------------------------------------------------------------- comparison

  /** `addComparisonDiscount`'s guard: a number from 0 to 100. */
  predicate Admissible(d: Option<real>) {
    d.Some? && 0.0 <= d.value <= 100.0
  }

  /** The comparison table: nothing when the price is not a number, otherwise one row
    * per listed discount, in order, with the comparison tax (blank counts as 0). */
  function ComparisonRows(price: Option<real>, discounts: seq<real>, tax: Option<real>): (r: seq<Breakdown>)
    ensures price.None? ==> r == []
    ensures price.Some? ==> |r| == |discounts|
    ensures price.Some? ==>
              forall k :: 0 <= k < |r| ==> r[k] == CalculateDiscount(price.value, discounts[k], tax.OrElse(0.0))
  {
    if price.None? then [] else seq(|discounts|, k requires 0 <= k < |discounts| => CalculateDiscount(price.value, discounts[k], tax.OrElse(0.0)))
  }

  /** A larger discount in the table never gives a larger final price. */
  lemma ComparisonOrdered(price: real, d1: real, d2: real, tax: real)
    requires price >= 0.0 && d1 <= d2 && tax >= 0.0
    ensures CalculateDiscount(price, d2, tax).final <= CalculateDiscount(price, d1, tax).final
  {
    var r1, r2 := CalculateDiscount(price, d1, tax), CalculateDiscount(price, d2, tax);
    assert r2.discounted <= r1.discounted by {
      assert price * d1 / 100.0 <= price * d2 / 100.0;
    }
    assert r2.discounted * (1.0 + tax / 100.0) <= r1.discounted * (1.0 + tax / 100.0);
  }

  // ---------------------------------------------------------------- savings goal

  /** `calculateSavingsGoal`'s guard: both numbers, both positive, and the goal below the price. */
  predicate GoalAccepted(price: Option<real>, goal: Option<real>) {
    price.Some? && goal.Some? && price.value > 0.0 && goal.value > 0.0 && goal.value < price.value
  }

  /** The percentage as written: `(price - goal) / price * 100`. */
  function DiscountNeededAsWritten(price: real, goal: real): real
    requires price > 0.0
  {
    (price - goal) / price * 100.0
  }

  /** As written, the "discount needed to save the goal" brings the price down to the
    * goal instead: for a 100 item and a saving goal of 20 it asks for 80 %, which saves 80. */
  lemma SavingsGoalAsWritten(price: real, goal: real)
    requires price > 0.0
    ensures CalculateDiscount(price, DiscountNeededAsWritten(price, goal), 0.0).discounted == goal
    ensures DiscountNeededAsWritten(100.0, 20.0) == 80.0
    ensures CalculateDiscount(100.0, DiscountNeededAsWritten(100.0, 20.0), 0.0).saved == 80.0
  {
    var d := DiscountNeededAsWritten(price, goal);
    assert price * (d / 100.0) == price - goal by {
      assert d / 100.0 == (price - goal) / price;
    }
  }

  /** The percentage that saves the goal: `goal / price * 100`. */
  function DiscountNeeded(price: real, goal: real): (d: real)
    requires price > 0.0
    ensures CalculateDiscount(price, d, 0.0).saved == goal
  {
    var d := goal / price * 100.0;
    assert price * (d / 100.0) == goal by {
      assert d / 100.0 == goal / price;
    }
    d
  }

  /** Under the guard the needed discount is strictly between 0 and 100. */
  lemma DiscountNeededInRange(price: real, goal: real)
    requires 0.0 < goal < price
    ensures 0.0 < DiscountNeeded(price, goal) < 100.0
  {
    var q := goal / price;
    assert q * price == goal;
    AtLeastOnce(q, price);
    assert q < 1.0 by {
      if q >= 1.0 {
        assert false;
      }
    }
    assert 0.0 < q by {
      if q <= 0.0 {
        assert false;
      }
    }
    assert DiscountNeeded(price, goal) == q * 100.0;
  }

  /** A factor of at least 1 does not shrink a positive number, and a factor of at most
    * 0 does not leave it positive. */
  lemma AtLeastOnce(q: real, p: real)
    requires p > 0.0
    ensures q >= 1.0 ==> q * p >= p
    ensures q <= 0.0 ==> q * p <= 0.0
  {
    assert q * p - p == (q - 1.0) * p;
  }

  /** What the savings-goal panel shows. */
  datatype GoalResult = NoGoalResult | InvalidGoal | Needed(goal: real, price: real, discount: real)

  function SavingsGoal(price: Option<real>, goal: Option<real>): (r: GoalResult)
    ensures r != NoGoalResult
    ensures r.Needed? <==> GoalAccepted(price, goal)
    ensures r.Needed? ==> 0.0 < r.discount < 100.0 && CalculateDiscount(r.price, r.discount, 0.0).saved == r.goal
  {
    if GoalAccepted(price, goal) then
      DiscountNeededInRange(price.value, goal.value);
      Needed(goal.value, price.value, DiscountNeeded(price.value, goal.value))
    else InvalidGoal
  }

  // ---------------------------------------------------------------- bulk

  /** A bulk row: the parsed price and the parsed (integer) quantity. */
  datatype BulkItem = BulkItem(price: Option<real>, quantity: Option<int>)

  const BlankItem := BulkItem(None, Some(1))

  /** A row's contribution to the total: price times quantity, or 0 when either is not a number. */
  function LineTotal(it: BulkItem): real {
    if it.price.Some? && it.quantity.Some? then it.price.value * it.quantity.value as real else 0.0
  }

  /** The `reduce` of `calculateBulkDiscount`. */
  function Subtotal(items: seq<BulkItem>): real {
    if items == [] then 0.0 else LineTotal(items[0]) + Subtotal(items[1..])
  }

  lemma {:induction false} SubtotalAppend(items: seq<BulkItem>, it: BulkItem)
    ensures Subtotal(items + [it]) == Subtotal(items) + LineTotal(it)
  {
    if items != [] {
      assert (items + [it])[1..] == items[1..] + [it];
      SubtotalAppend(items[1..], it);
    }
  }

  /** A row whose price or quantity is not a number changes nothing; in particular "Add
    * Item" leaves the total as it was. */
  lemma UnparsedRowsIgnored(items: seq<BulkItem>, it: BulkItem)
    requires it.price.None? || it.quantity.None?
    ensures Subtotal(items + [it]) == Subtotal(items)
    ensures Subtotal(items + [BlankItem]) == Subtotal(items)
  {
    SubtotalAppend(items, it);
    SubtotalAppend(items, BlankItem);
  }

  /** With prices and quantities that are not negative, the total is not negative. */
  lemma {:induction false} SubtotalNonNegative(items: seq<BulkItem>)
    requires forall k :: 0 <= k < |items| ==> items[k].price.OrElse(0.0) >= 0.0 && items[k].quantity.OrElse(0) >= 0
    ensures Subtotal(items) >= 0.0
  {
    if items != [] {
      var it := items[0];
      if it.price.Some? && it.quantity.Some? {
        assert it.price.value * it.quantity.value as real >= 0.0;
      }
      SubtotalNonNegative(items[1..]);
    }
  }

  /** What the bulk panel shows. */
  datatype BulkResult = NoBulkResult | InvalidBulk | Totals(before: real, after: real, saved: real)

  /** `calculateBulkDiscount`. */
  function BulkDiscount(discount: Option<real>, items: seq<BulkItem>): (r: BulkResult)
    ensures r != NoBulkResult
    ensures r == InvalidBulk <==> !Admissible(discount)
    ensures r.Totals? ==> r.before == Subtotal(items) && r.before - r.after == r.saved
    ensures r.Totals? ==> r.saved == Subtotal(items) * discount.value / 100.0
  {
    if !Admissible(discount) then InvalidBulk
    else
      var before := Subtotal(items);
      var after := before * (1.0 - discount.value / 100.0);
      Totals(before, after, before - after)
  }

  /** With an admissible discount and a total that is not negative, the discounted total
    * lies between 0 and the total. */
  lemma BulkBounds(discount: Option<real>, items: seq<BulkItem>)
    requires Admissible(discount) && Subtotal(items) >= 0.0
    ensures 0.0 <= BulkDiscount(discount, items).after <= BulkDiscount(discount, items).before
  {
    var b, d := Subtotal(items), discount.value;
    assert 0.0 <= b * (d / 100.0) <= b * 1.0 by {
      assert 0.0 <= d / 100.0 <= 1.0;
    }
    assert b * (1.0 - d / 100.0) == b - b * (d / 100.0);
    assert BulkDiscount(discount, items).after == b * (1.0 - d / 100.0);
  }

  // ---------------------------------------------------------------- the component

  class Calculator {
    var originalPrice: Option<real>
    var discountPercentage: Option<real>
    var taxPercentage: Option<real>
    var discountedPrice: Option<real>
    var amountSaved: Option<real>
    var finalPrice: Option<real>
    var error: string
    var history: seq<Entry>
    var comparisonDiscounts: seq<real>
    var newDiscount: Option<real>
    var comparisonTax: Option<real>
    var savingsGoal: Option<real>
    var savingsGoalResult: GoalResult
    var bulkItems: seq<BulkItem>
    var bulkDiscount: Option<real>
    var bulkResult: BulkResult

    /** The history never holds more than ten entries; the three results are shown
      * together or not at all. */
    ghost predicate Valid()
      reads this
    {
      |history| <= HistoryCap && discountedPrice.Some? == amountSaved.Some? == finalPrice.Some?
    }

    constructor()
      ensures Valid()
      ensures history == [] && comparisonDiscounts == [10.0, 20.0, 30.0] && bulkItems == [BlankItem]
      ensures discountedPrice.None? && error == ""
    {
      originalPrice, discountPercentage, taxPercentage := None, None, None;
      discountedPrice, amountSaved, finalPrice := None, None, None;
      error := "";
      history := [];
      comparisonDiscounts := [10.0, 20.0, 30.0];
      newDiscount, comparisonTax, savingsGoal := None, None, None;
      savingsGoalResult := NoGoalResult;
      bulkItems := [BlankItem];
      bulkDiscount := None;
      bulkResult := NoBulkResult;
    }

    /** The price, discount and tax inputs of the calculator tab. */
    method SetInputs(price: Option<real>, discount: Option<real>, tax: Option<real>)
      requires Valid()
      modifies this`originalPrice, this`discountPercentage, this`taxPercentage
      ensures Valid()
      ensures originalPrice == price && discountPercentage == discount && taxPercentage == tax
    {
      originalPrice, discountPercentage, taxPercentage := price, discount, tax;
    }

    /** `handleCalculate` at clock reading `now`: a rejected input shows its message and
      * clears the results without touching the history; an accepted one shows the
      * breakdown and pushes one entry. */
    method HandleCalculate(now: int)
      requires Valid()
      modifies this`discountedPrice, this`amountSaved, this`finalPrice, this`error, this`history
      ensures Valid()
      ensures var c := Check(originalPrice, discountPercentage, taxPercentage);
        match c
        case NotNumbers =>
          error == NotNumbersMessage && discountedPrice.None? && amountSaved.None? && finalPrice.None?
          && history == old(history)
        case OutOfRange =>
          error == OutOfRangeMessage && discountedPrice.None? && amountSaved.None? && finalPrice.None?
          && history == old(history)
        case Accepted(p, d, t) =>
          var b := CalculateDiscount(p, d, t);
          error == "" && discountedPrice == Some(b.discounted) && amountSaved == Some(b.saved)
          && finalPrice == Some(b.final)
          && history == Pushed(old(history), Entry(now, p, d, t, b.discounted, b.saved, b.final))
    {
      var c := Check(originalPrice, discountPercentage, taxPercentage);
      match c {
        case NotNumbers =>
          error := NotNumbersMessage;
          discountedPrice, amountSaved, finalPrice := None, None, None;
        case OutOfRange =>
          error := OutOfRangeMessage;
          discountedPrice, amountSaved, finalPrice := None, None, None;
        case Accepted(p, d, t) =>
          error := "";
          var b := CalculateDiscount(p, d, t);
          discountedPrice, amountSaved, finalPrice := Some(b.discounted), Some(b.saved), Some(b.final);
          history := Pushed(history, Entry(now, p, d, t, b.discounted, b.saved, b.final));
      }
    }

    /** `clearHistory`. */
    method ClearHistory()
      requires Valid()
      modifies this`history
      ensures Valid() && history == []
    {
      history := [];
    }

    /** The comparison tab's inputs: the discount to add and the tax. */
    method SetComparisonInputs(d: Option<real>, tax: Option<real>)
      requires Valid()
      modifies this`newDiscount, this`comparisonTax
      ensures Valid() && newDiscount == d && comparisonTax == tax
    {
      newDiscount, comparisonTax := d, tax;
    }

    /** `addComparisonDiscount`: an admissible value is appended and the input cleared. */
    method AddComparisonDiscount()
      requires Valid()
      modifies this`comparisonDiscounts, this`newDiscount
      ensures Valid()
      ensures Admissible(old(newDiscount)) ==>
        comparisonDiscounts == old(comparisonDiscounts) + [old(newDiscount).value] && newDiscount.None?
      ensures !Admissible(old(newDiscount)) ==>
        comparisonDiscounts == old(comparisonDiscounts) && newDiscount == old(newDiscount)
    {
      if Admissible(newDiscount) {
        comparisonDiscounts := comparisonDiscounts + [newDiscount.value];
        newDiscount := None;
      }
    }

    /** `removeComparisonDiscount`: exactly that index goes. */
    method RemoveComparisonDiscount(index: int)
      requires Valid()
      modifies this`comparisonDiscounts
      ensures Valid() && comparisonDiscounts == RemoveAt(old(comparisonDiscounts), index)
    {
      comparisonDiscounts := RemoveAt(comparisonDiscounts, index);
    }

    /** The savings-goal input. */
    method SetSavingsGoal(goal: Option<real>)
      requires Valid()
      modifies this`savingsGoal
      ensures Valid() && savingsGoal == goal
    {
      savingsGoal := goal;
    }

    /** `calculateSavingsGoal`, with the percentage that saves the goal. */
    method CalculateSavingsGoal()
      requires Valid()
      modifies this`savingsGoalResult
      ensures Valid() && savingsGoalResult == SavingsGoal(originalPrice, savingsGoal)
    {
      savingsGoalResult := SavingsGoal(originalPrice, savingsGoal);
    }

    /** `addBulkItem`: a blank row with quantity 1 at the end. */
    method AddBulkItem()
      requires Valid()
      modifies this`bulkItems
      ensures Valid() && bulkItems == old(bulkItems) + [BlankItem]
    {
      bulkItems := bulkItems + [BlankItem];
    }

    /** `removeBulkItem`: exactly that row goes. */
    method RemoveBulkItem(index: int)
      requires Valid()
      modifies this`bulkItems
      ensures Valid() && bulkItems == RemoveAt(old(bulkItems), index)
    {
      bulkItems := RemoveAt(bulkItems, index);
    }

    /** `updateBulkItem(index, "price", …)`: only that row's price changes. */
    method SetBulkPrice(index: int, price: Option<real>)
      requires Valid() && 0 <= index < |bulkItems|
      modifies this`bulkItems
      ensures Valid() && bulkItems == old(bulkItems)[index := BulkItem(price, old(bulkItems)[index].quantity)]
    {
      bulkItems := bulkItems[index := bulkItems[index].(price := price)];
    }

    /** `updateBulkItem(index, "quantity", …)`: only that row's quantity changes. */
    method SetBulkQuantity(index: int, quantity: Option<int>)
      requires Valid() && 0 <= index < |bulkItems|
      modifies this`bulkItems
      ensures Valid() && bulkItems == old(bulkItems)[index := BulkItem(old(bulkItems)[index].price, quantity)]
    {
      bulkItems := bulkItems[index := bulkItems[index].(quantity := quantity)];
    }

    /** The bulk discount input. */
    method SetBulkDiscount(d: Option<real>)
      requires Valid()
      modifies this`bulkDiscount
      ensures Valid() && bulkDiscount == d
    {
      bulkDiscount := d;
    }

    /** `calculateBulkDiscount`. */
    method CalculateBulkDiscount()
      requires Valid()
      modifies this`bulkResult
      ensures Valid() && bulkResult == BulkDiscount(bulkDiscount, bulkItems)
    {
      bulkResult := BulkDiscount(bulkDiscount, bulkItems);
    }
  }
}
