/**
  Price bookkeeping of a commerce order item: quantity, unit price, the
  adjustment list, the total price kept in step with them, and the
  key/value data bag.
*/
module OrderItems {
  import opened Php

  /** A price: the decimal text of an amount and an ISO 4217 currency code. */
  datatype Price = Price(number: string, currencyCode: string)

  /**
    The price arithmetic and the currency rounder service. They are exact
    decimal operations defined by the price module, which is not part of
    this model, so here they are fixed but unknown functions.
  */
  datatype PriceMath = PriceMath(
    add: (Price, Price) -> Price,
    multiply: (Price, string) -> Price,
    round: Price -> Price)

  /** A price adjustment (tax, discount, fee); `included` marks one already counted in the unit price. */
  datatype Adjustment = Adjustment(kind: string, title: string, amount: Price, included: bool)

  /** The total an item with this unit price and quantity must carry: the rounded product. */
  function LineTotal(math: PriceMath, unit: Price, quantity: string): Price {
    math.round(math.multiply(unit, quantity))
  }

  /** The amounts of the adjustments that are not included in the unit price, in list order. */
  function AddedAmounts(adjustments: seq<Adjustment>): (amounts: seq<Price>)
    ensures |amounts| <= |adjustments|
  {
    if adjustments == [] then []
    else
      var last := adjustments[|adjustments| - 1];
      AddedAmounts(adjustments[..|adjustments| - 1]) + (if last.included then [] else [last.amount])
  }

  /** `base` with every amount added to it in turn. */
  function AddAll(math: PriceMath, base: Price, amounts: seq<Price>): Price {
    if amounts == [] then base
    else math.add(AddAll(math, base, amounts[..|amounts| - 1]), amounts[|amounts| - 1])
  }

  /**
    The adjusted unit price: the unit price plus the amount of every
    adjustment not already included in it, in list order; nothing when
    there is no unit price.
  */
  function AdjustedUnitPrice(math: PriceMath, unit: Option<Price>, adjustments: seq<Adjustment>): Option<Price> {
    if unit.None? then None else Some(AddAll(math, unit.value, AddedAmounts(adjustments)))
  }

  /** Selecting the not-included amounts distributes over concatenation. */
  lemma {:induction false} AddedAmountsAppend(s: seq<Adjustment>, t: seq<Adjustment>)
    ensures AddedAmounts(s + t) == AddedAmounts(s) + AddedAmounts(t)
    decreases |t|
  {
    if t == [] {
      assert s + t == s;
    } else {
      var u := t[..|t| - 1];
      assert (s + t)[..|s + t| - 1] == s + u;
      assert (s + t)[|s + t| - 1] == t[|t| - 1];
      AddedAmountsAppend(s, u);
    }
  }

  /** The selected amounts are exactly the amounts of the not-included adjustments, in order. */
  lemma {:induction false} AddedAmountsAreNotIncluded(adjustments: seq<Adjustment>)
    ensures forall p :: p in AddedAmounts(adjustments) <==>
      exists j :: 0 <= j < |adjustments| && !adjustments[j].included && adjustments[j].amount == p
    decreases |adjustments|
  {
    if adjustments != [] {
      var init := adjustments[..|adjustments| - 1];
      AddedAmountsAreNotIncluded(init);
      forall p
        ensures p in AddedAmounts(adjustments) <==>
          exists j :: 0 <= j < |adjustments| && !adjustments[j].included && adjustments[j].amount == p
      {
        if p in AddedAmounts(init) {
          var j :| 0 <= j < |init| && !init[j].included && init[j].amount == p;
          assert adjustments[j] == init[j];
        }
        if exists j :: 0 <= j < |adjustments| && !adjustments[j].included && adjustments[j].amount == p {
          var j :| 0 <= j < |adjustments| && !adjustments[j].included && adjustments[j].amount == p;
          if j < |init| {
            assert init[j] == adjustments[j];
          }
        }
      }
    }
  }

  /** An included adjustment adds nothing, wherever it stands in the list. */
  lemma IncludedAdjustmentAddsNothing(math: PriceMath, unit: Option<Price>, before: seq<Adjustment>, a: Adjustment, after: seq<Adjustment>)
    requires a.included
    ensures AdjustedUnitPrice(math, unit, before + [a] + after) == AdjustedUnitPrice(math, unit, before + after)
  {
    AddedAmountsAppend(before + [a], after);
    AddedAmountsAppend(before, [a]);
    AddedAmountsAppend(before, after);
    assert [a][..0] == [];
    assert AddedAmounts([a]) == [];
    assert AddedAmounts(before + [a] + after) == AddedAmounts(before + after);
  }

  /** With no adjustment to add, the adjusted unit price is the unit price itself. */
  lemma {:induction false} NothingToAddKeepsUnitPrice(math: PriceMath, unit: Price, adjustments: seq<Adjustment>)
    requires forall j :: 0 <= j < |adjustments| ==> adjustments[j].included
    ensures AddedAmounts(adjustments) == []
    ensures AdjustedUnitPrice(math, Some(unit), adjustments) == Some(unit)
    decreases |adjustments|
  {
    if adjustments != [] {
      NothingToAddKeepsUnitPrice(math, unit, adjustments[..|adjustments| - 1]);
    }
  }

  /**
    The adjusted total: the adjusted unit price times the quantity, rounded;
    nothing when there is no unit price.
  */
  function AdjustedTotalPrice(math: PriceMath, unit: Option<Price>, adjustments: seq<Adjustment>, quantity: string): (r: Option<Price>)
    ensures r.Some? <==> unit.Some?
    ensures r.Some? ==> r.value == LineTotal(math, AdjustedUnitPrice(math, unit, adjustments).value, quantity)
  {
    match AdjustedUnitPrice(math, unit, adjustments)
    case None => None
    case Some(adjusted) => Some(math.round(math.multiply(adjusted, quantity)))
  }

  /** Without adjustments to add, the adjusted total is the plain line total. */
  lemma AdjustedTotalWithoutAdjustments(math: PriceMath, unit: Price, quantity: string, adjustments: seq<Adjustment>)
    requires forall j :: 0 <= j < |adjustments| ==> adjustments[j].included
    ensures AdjustedTotalPrice(math, Some(unit), adjustments, quantity) == Some(LineTotal(math, unit, quantity))
  {
    NothingToAddKeepsUnitPrice(math, unit, adjustments);
  }

  /**
    `getData($key, $default)`: the stored value when the key is set (present
    and not NULL), the default otherwise.
  */
  function DataValue(data: map<string, Value>, key: string, default: Value): (r: Value)
    ensures key !in data ==> r == default
    ensures key in data && data[key] == Null ==> r == default
    ensures key in data && data[key] != Null ==> r == data[key]
  {
    if IsSet(data, key) then data[key] else default
  }

  /** Setting a key and reading it back gives the value, or the default when the value is NULL; other keys read as before. */
  lemma DataRoundTrip(data: map<string, Value>, key: string, value: Value, default: Value, other: string)
    requires other != key
    ensures DataValue(data[key := value], key, default) == if value == Null then default else value
    ensures DataValue(data[key := value], other, default) == DataValue(data, other, default)
  {
  }

  /** An order item. Inheritance from the content entity base is replaced by plain fields. */
  class OrderItem {
    const math: PriceMath
    var quantity: string
    var unitPrice: Option<Price>
    var overriddenUnitPrice: bool
    var adjustments: seq<Adjustment>
    var totalPrice: Option<Price>
    var data: map<string, Value>

    /** Whenever a unit price is present, the total price is the rounded unit price times the quantity. */
    ghost predicate TotalInSync()
      reads this
    {
      unitPrice.Some? ==> totalPrice == Some(LineTotal(math, unitPrice.value, quantity))
    }

    /** A new item carries the field defaults: quantity 1, no prices, not overridden, no adjustments, no data. */
    constructor (math: PriceMath)
      ensures this.math == math
      ensures quantity == "1" && unitPrice == None && !overriddenUnitPrice
      ensures adjustments == [] && totalPrice == None && data == map[]
      ensures TotalInSync()
    {
      this.math := math;
      quantity := "1";
      unitPrice := None;
      overriddenUnitPrice := false;
      adjustments := [];
      totalPrice := None;
      data := map[];
    }

    /** An item as loaded from storage: its stored fields, whatever they hold. */
    constructor Load(math: PriceMath, quantity: string, unitPrice: Option<Price>, overridden: bool,
                     adjustments: seq<Adjustment>, totalPrice: Option<Price>, data: map<string, Value>)
      ensures this.math == math && this.quantity == quantity && this.unitPrice == unitPrice
      ensures overriddenUnitPrice == overridden && this.adjustments == adjustments
      ensures this.totalPrice == totalPrice && this.data == data
    {
      this.math := math;
      this.quantity := quantity;
      this.unitPrice := unitPrice;
      overriddenUnitPrice := overridden;
      this.adjustments := adjustments;
      this.totalPrice := totalPrice;
      this.data := data;
    }

    /**
      Recomputes the total from the unit price and quantity; without a unit
      price the total is left as it was.
    */
    method RecalculateTotalPrice()
      modifies this`totalPrice
      ensures unitPrice.Some? ==> totalPrice == Some(LineTotal(math, unitPrice.value, quantity))
      ensures unitPrice.None? ==> totalPrice == old(totalPrice)
      ensures TotalInSync()
    {
      if unitPrice.Some? {
        var total := math.multiply(unitPrice.value, quantity);
        totalPrice := Some(math.round(total));
      }
    }

    /** Stores the quantity text and brings the total in step with it. */
    method SetQuantity(q: string)
      modifies this`quantity, this`totalPrice
      ensures quantity == q
      ensures unitPrice.Some? ==> totalPrice == Some(LineTotal(math, unitPrice.value, q))
      ensures unitPrice.None? ==> totalPrice == old(totalPrice)
      ensures TotalInSync()
    {
      quantity := q;
      RecalculateTotalPrice();
    }

    /** Stores the unit price and the override flag (FALSE unless given), then recomputes the total. */
    method SetUnitPrice(price: Price, overridden: bool := false)
      modifies this`unitPrice, this`overriddenUnitPrice, this`totalPrice
      ensures unitPrice == Some(price) && overriddenUnitPrice == overridden
      ensures totalPrice == Some(LineTotal(math, price, quantity))
      ensures TotalInSync()
    {
      unitPrice := Some(price);
      overriddenUnitPrice := overridden;
      RecalculateTotalPrice();
    }

    /** Runs before every save; whatever state the item was in, a saved item has its total in step. */
    method PreSave()
      modifies this`totalPrice
      ensures unitPrice.Some? ==> totalPrice == Some(LineTotal(math, unitPrice.value, quantity))
      ensures unitPrice.None? ==> totalPrice == old(totalPrice)
      ensures TotalInSync()
    {
      RecalculateTotalPrice();
    }

    /** Replaces the whole adjustment list; the total price is not touched. */
    method SetAdjustments(list: seq<Adjustment>)
      modifies this`adjustments
      ensures adjustments == list
      ensures totalPrice == old(totalPrice) && (TotalInSync() <==> old(TotalInSync()))
    {
      adjustments := list;
    }

    /** Appends one adjustment at the end; the total price is not touched. */
    method AddAdjustment(a: Adjustment)
      modifies this`adjustments
      ensures adjustments == old(adjustments) + [a]
      ensures totalPrice == old(totalPrice) && (TotalInSync() <==> old(TotalInSync()))
    {
      adjustments := adjustments + [a];
    }

    /** The adjusted unit price, folded over the adjustment list as the entity does. */
    method GetAdjustedUnitPrice() returns (r: Option<Price>)
      ensures r == AdjustedUnitPrice(math, unitPrice, adjustments)
      ensures r.None? <==> unitPrice.None?
    {
      if unitPrice.None? {
        return None;
      }
      var adjusted := unitPrice.value;
      var i := 0;
      while i < |adjustments|
        invariant 0 <= i <= |adjustments|
        invariant adjusted == AddAll(math, unitPrice.value, AddedAmounts(adjustments[..i]))
      {
        var a := adjustments[i];
        assert adjustments[..i + 1] == adjustments[..i] + [a];
        assert adjustments[..i + 1][..i] == adjustments[..i];
        ghost var before := AddedAmounts(adjustments[..i]);
        if !a.included {
          assert (before + [a.amount])[..|before|] == before;
          adjusted := math.add(adjusted, a.amount);
        } else {
          assert before + [] == before;
        }
        i := i + 1;
      }
      assert adjustments[..i] == adjustments;
      return Some(adjusted);
    }

    /** The adjusted total price of the item; nothing without a unit price. */
    function GetAdjustedTotalPrice(): (r: Option<Price>)
      reads this
      ensures r.Some? <==> unitPrice.Some?
      ensures r.Some? ==> r.value == LineTotal(math, AdjustedUnitPrice(math, unitPrice, adjustments).value, quantity)
    {
      AdjustedTotalPrice(math, unitPrice, adjustments, quantity)
    }

    /** `getData($key, $default)`. */
    function GetData(key: string, default: Value): (r: Value)
      reads this
      ensures r == (if key in data && data[key] != Null then data[key] else default)
    {
      DataValue(data, key, default)
    }

    /** `setData($key, $value)`: stores one entry of the data bag. */
    method SetData(key: string, value: Value)
      modifies this`data
      ensures data == old(data)[key := value]
      ensures GetData(key, Null) == value
    {
      data := data[key := value];
    }
  }
}
