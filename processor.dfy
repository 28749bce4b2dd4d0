/** The bill processor: a ledger of line items, applied tax rules, applied
    discounts and registered discounts, edited in place, with its four totals
    recomputed from the current lists on every read. */
module Processor {
  import opened Money
  import opened Ledger
  import opened Calc

  class BillProcessor {
    var bill: seq<LineItem>
    var appliedTaxableCategories: seq<TaxRule>
    var appliedDiscounts: seq<Discount>
    /** Every discount ever registered; updating a discount never changes it. */
    var registeredDiscounts: seq<Discount>

    constructor ()
      ensures bill == [] && appliedTaxableCategories == []
      ensures appliedDiscounts == [] && registeredDiscounts == []
    {
      bill := [];
      appliedTaxableCategories := [];
      appliedDiscounts := [];
      registeredDiscounts := [];
    }

    // ------------------------------------------------------------- totals

    /** totalPreTaxPreDiscounts: the subtotal of the current bill. */
    method TotalPreTaxPreDiscounts() returns (r: int)
      ensures r == AmountSum(bill)
    {
      r := Subtotal(bill);
    }

    /** totalAllDiscountsApplied: the discount walk over the current applied
        discounts, starting from the current subtotal. */
    method TotalAllDiscountsApplied() returns (r: int)
      ensures r == AllDiscounts(bill, appliedDiscounts)
    {
      var subtotal := Subtotal(bill);
      r := TotalDiscountsAppliedCalc(subtotal);
    }

    /** totalAllTaxesApplied: taxes on the subtotal less the discounts. */
    method TotalAllTaxesApplied() returns (r: int)
      ensures r == AllTaxes(bill, appliedTaxableCategories, appliedDiscounts)
    {
      var pre := TotalPreTaxPreDiscounts();
      var discounts := TotalAllDiscountsApplied();
      r := TotalTaxesAppliedCalculation(pre - discounts);
    }

    /** totalPostTaxPostDiscounts: the discounted subtotal plus the taxes. */
    method TotalPostTaxPostDiscounts() returns (r: int)
      ensures r == PostTotal(bill, appliedTaxableCategories, appliedDiscounts)
    {
      var pre := TotalPreTaxPreDiscounts();
      var discounts := TotalAllDiscountsApplied();
      var totalWithDiscounts := pre - discounts;
      var taxes := TotalAllTaxesApplied();
      r := totalWithDiscounts + taxes;
    }

    /** The discount loop: apply the applied discounts in order to the running
        value, stop at the first step that leaves it negative, and report the
        whole subtotal in that case, otherwise what was taken off. */
    method TotalDiscountsAppliedCalc(subtotal: int) returns (discount: int)
      ensures discount == TotalDiscount(subtotal, appliedDiscounts)
    {
      var discountedSubtotal := subtotal;
      var originalSubtotal := subtotal;
      var i := 0;
      while i < |appliedDiscounts|
        invariant 0 <= i <= |appliedDiscounts|
        invariant DiscountWalk(subtotal, appliedDiscounts) == DiscountWalk(discountedSubtotal, appliedDiscounts[i..])
      {
        var d := appliedDiscounts[i];
        assert appliedDiscounts[i..][1..] == appliedDiscounts[i + 1..];
        if d.kind == DollarAmount {
          if d.isEnabled {
            discountedSubtotal := discountedSubtotal - d.amount;
          }
        } else if d.kind == Percent {
          if d.isEnabled {
            discountedSubtotal := discountedSubtotal - MulRound(discountedSubtotal, d.amount);
          }
        }
        i := i + 1;
        if discountedSubtotal < 0 {
          break;
        }
      }
      if discountedSubtotal < 0 {
        discount := originalSubtotal;
      } else {
        discount := originalSubtotal - discountedSubtotal;
      }
    }

    /** The tax calculation on a discounted subtotal: flat taxes on it, the
        flat-tax share of the exempt items, category taxes from a lookup in
        which the last enabled rule of each category wins, then the final
        combination. */
    method TotalTaxesAppliedCalculation(subtotalWithDiscountApplied: int) returns (total: int)
      ensures total == TotalTax(subtotalWithDiscountApplied, bill, appliedTaxableCategories)
    {
      if subtotalWithDiscountApplied <= 0 {
        return 0;
      }
      var governmentTaxes := FlatRules(appliedTaxableCategories);

      var totalTaxesApplied := 0;
      for i := 0 to |governmentTaxes|
        invariant totalTaxesApplied == FlatTaxOn(subtotalWithDiscountApplied, governmentTaxes[..i])
      {
        assert governmentTaxes[..i + 1][..i] == governmentTaxes[..i];
        if governmentTaxes[i].isEnabled {
          totalTaxesApplied := totalTaxesApplied + MulRound(subtotalWithDiscountApplied, governmentTaxes[i].amount);
        }
      }
      assert governmentTaxes[..|governmentTaxes|] == governmentTaxes;

      var exemptTaxesTotal := 0;
      for b := 0 to |bill|
        invariant exemptTaxesTotal == ExemptTax(bill[..b], governmentTaxes)
      {
        assert bill[..b + 1][..b] == bill[..b];
        var billable := bill[b];
        if billable.isTaxExempt {
          for j := 0 to |governmentTaxes|
            invariant exemptTaxesTotal == ExemptTax(bill[..b], governmentTaxes) + FlatTaxOn(billable.amount, governmentTaxes[..j])
          {
            assert governmentTaxes[..j + 1][..j] == governmentTaxes[..j];
            if governmentTaxes[j].isEnabled {
              exemptTaxesTotal := exemptTaxesTotal + MulRound(billable.amount, governmentTaxes[j].amount);
            }
          }
        }
      }
      assert bill[..|bill|] == bill;

      var taxableCategories := CategoryRules(appliedTaxableCategories);
      var taxReference: map<string, TaxRule> := map[];
      for k := 0 to |taxableCategories|
        invariant taxReference == CategoryLookup(taxableCategories[..k])
      {
        assert taxableCategories[..k + 1][..k] == taxableCategories[..k];
        var taxable := taxableCategories[k];
        if taxable.isEnabled {
          taxReference := taxReference[taxable.category := taxable];
        }
      }
      assert taxableCategories[..|taxableCategories|] == taxableCategories;

      var categoryTax := 0;
      for b := 0 to |bill|
        invariant categoryTax == CategoryTax(bill[..b], taxReference)
      {
        assert bill[..b + 1][..b] == bill[..b];
        var billable := bill[b];
        if billable.category in taxReference {
          var taxable := taxReference[billable.category];
          if !billable.isTaxExempt {
            categoryTax := categoryTax + MulRound(billable.amount, taxable.amount);
          }
        }
      }

      if exemptTaxesTotal > totalTaxesApplied {
        total := totalTaxesApplied + categoryTax;
      } else {
        var appliedTaxesExemptTaxAdjustment := totalTaxesApplied - exemptTaxesTotal;
        total := categoryTax + appliedTaxesExemptTaxAdjustment;
      }
    }

    // ------------------------------------------------------ line items

    /** addBillableItem: an item whose amount is not positive is refused and
        nothing changes; otherwise it is appended. */
    method AddBillableItem(billable: LineItem) returns (o: Outcome)
      modifies this
      ensures billable.amount <= 0 ==> o == Fail(InvalidAmount) && bill == old(bill)
      ensures billable.amount > 0 ==> o == Pass && bill == old(bill) + [billable]
      ensures appliedTaxableCategories == old(appliedTaxableCategories)
      ensures appliedDiscounts == old(appliedDiscounts) && registeredDiscounts == old(registeredDiscounts)
    {
      if billable.amount <= 0 {
        return Fail(InvalidAmount);
      }
      bill := bill + [billable];
      o := Pass;
    }

    /** removeBillableItem: drops every item equal to `billable` on all four
        fields, keeps the others in order; an absent item changes nothing. */
    method RemoveBillableItem(billable: LineItem)
      modifies this
      ensures bill == WithoutItem(old(bill), billable)
      ensures appliedTaxableCategories == old(appliedTaxableCategories)
      ensures appliedDiscounts == old(appliedDiscounts) && registeredDiscounts == old(registeredDiscounts)
    {
      bill := WithoutItem(bill, billable);
    }

    /** updateBillable: replaces the first item with the same id; fails, with
        nothing changed, when there is none. */
    method UpdateBillable(billable: LineItem) returns (o: Outcome)
      modifies this
      ensures match FirstIndex(old(bill), ItemId, billable.id)
              case Some(k) => o == Pass && bill == old(bill)[k := billable]
              case None => o == Fail(NotFound) && bill == old(bill)
      ensures appliedTaxableCategories == old(appliedTaxableCategories)
      ensures appliedDiscounts == old(appliedDiscounts) && registeredDiscounts == old(registeredDiscounts)
    {
      var index := FirstIndex(bill, ItemId, billable.id);
      match index {
        case Some(idx) =>
          bill := bill[idx := billable];
          o := Pass;
        case None =>
          o := Fail(NotFound);
      }
    }

    // -------------------------------------------------------- discounts

    /** setDiscounts: registers every discount and applies the enabled ones,
        in order. */
    method SetDiscounts(discounts: seq<Discount>)
      modifies this
      ensures registeredDiscounts == old(registeredDiscounts) + discounts
      ensures appliedDiscounts == old(appliedDiscounts) + EnabledOnly(discounts)
      ensures bill == old(bill) && appliedTaxableCategories == old(appliedTaxableCategories)
    {
      ghost var applied0 := appliedDiscounts;
      registeredDiscounts := registeredDiscounts + discounts;
      for i := 0 to |discounts|
        invariant registeredDiscounts == old(registeredDiscounts) + discounts
        invariant appliedDiscounts == applied0 + EnabledOnly(discounts[..i])
        invariant bill == old(bill) && appliedTaxableCategories == old(appliedTaxableCategories)
      {
        var discount := discounts[i];
        ghost var prefix := discounts[..i];
        assert discounts[..i + 1] == prefix + [discount];
        EnabledOnlySnoc(prefix, discount);
        if discount.isEnabled {
          AddDiscount(discount);
        }
      }
      assert discounts[..|discounts|] == discounts;
    }

    /** clearAppliedDiscounts */
    method ClearAppliedDiscounts()
      modifies this
      ensures appliedDiscounts == [] && registeredDiscounts == old(registeredDiscounts)
      ensures bill == old(bill) && appliedTaxableCategories == old(appliedTaxableCategories)
    {
      appliedDiscounts := [];
    }

    /** addDiscount: appends to the applied discounts, so it is applied last. */
    method AddDiscount(discount: Discount)
      modifies this
      ensures appliedDiscounts == old(appliedDiscounts) + [discount]
      ensures registeredDiscounts == old(registeredDiscounts)
      ensures bill == old(bill) && appliedTaxableCategories == old(appliedTaxableCategories)
    {
      appliedDiscounts := appliedDiscounts + [discount];
    }

    /** findRegisteredDiscountFor: the first registered discount with that id,
        or NotFound. */
    method FindRegisteredDiscountFor(id: string) returns (r: Result<Discount>)
      ensures r.Failure? <==> forall j :: 0 <= j < |registeredDiscounts| ==> registeredDiscounts[j].id != id
      ensures r.Failure? ==> r.error == NotFound
      ensures r.Success? ==> exists k :: 0 <= k < |registeredDiscounts| && registeredDiscounts[k] == r.value
                                       && r.value.id == id
                                       && forall j :: 0 <= j < k ==> registeredDiscounts[j].id != id
    {
      var index := FirstIndex(registeredDiscounts, DiscountId, id);
      match index {
        case Some(idx) =>
          r := Success(registeredDiscounts[idx]);
        case None =>
          r := Failure(NotFound);
      }
    }

    /** updateDiscount: an enabled discount is appended to the applied ones (so
        re-enabling moves it to the end); a disabled one removes the first
        applied discount with its id, and fails, with nothing changed, when no
        applied discount has that id. */
    method UpdateDiscount(discount: Discount) returns (o: Outcome)
      modifies this
      ensures discount.isEnabled ==> o == Pass && appliedDiscounts == old(appliedDiscounts) + [discount]
      ensures !discount.isEnabled ==>
                match FirstIndex(old(appliedDiscounts), DiscountId, discount.id)
                case Some(k) => o == Pass && appliedDiscounts == RemoveAt(old(appliedDiscounts), k)
                case None => o == Fail(NotFound) && appliedDiscounts == old(appliedDiscounts)
      ensures registeredDiscounts == old(registeredDiscounts)
      ensures bill == old(bill) && appliedTaxableCategories == old(appliedTaxableCategories)
    {
      if !discount.isEnabled {
        var removedIndex := FirstIndex(appliedDiscounts, DiscountId, discount.id);
        match removedIndex {
          case Some(idx) =>
            appliedDiscounts := RemoveAt(appliedDiscounts, idx);
            return Pass;
          case None =>
        }
      } else {
        AddDiscount(discount);
        return Pass;
      }
      o := Fail(NotFound);
    }

    /** removeDiscount: its predicate compares each applied discount's id with
        itself, so every applied discount is removed whatever the argument. */
    method RemoveDiscount(discount: Discount)
      modifies this
      ensures appliedDiscounts == [] && registeredDiscounts == old(registeredDiscounts)
      ensures bill == old(bill) && appliedTaxableCategories == old(appliedTaxableCategories)
    {
      appliedDiscounts := [];
    }

    // ------------------------------------------------------------ taxes

    /** addTaxable: appends to the applied tax rules. */
    method AddTaxable(taxable: TaxRule)
      modifies this
      ensures appliedTaxableCategories == old(appliedTaxableCategories) + [taxable]
      ensures bill == old(bill) && appliedDiscounts == old(appliedDiscounts)
      ensures registeredDiscounts == old(registeredDiscounts)
    {
      appliedTaxableCategories := appliedTaxableCategories + [taxable];
    }

    /** setTaxes: appends every rule, in order. */
    method SetTaxes(taxes: seq<TaxRule>)
      modifies this
      ensures appliedTaxableCategories == old(appliedTaxableCategories) + taxes
      ensures bill == old(bill) && appliedDiscounts == old(appliedDiscounts)
      ensures registeredDiscounts == old(registeredDiscounts)
    {
      for i := 0 to |taxes|
        invariant appliedTaxableCategories == old(appliedTaxableCategories) + taxes[..i]
        invariant bill == old(bill) && appliedDiscounts == old(appliedDiscounts)
        invariant registeredDiscounts == old(registeredDiscounts)
      {
        assert taxes[..i + 1] == taxes[..i] + [taxes[i]];
        AddTaxable(taxes[i]);
      }
      assert taxes[..|taxes|] == taxes;
    }

    /** clearAppliedTaxes */
    method ClearAppliedTaxes()
      modifies this
      ensures appliedTaxableCategories == []
      ensures bill == old(bill) && appliedDiscounts == old(appliedDiscounts)
      ensures registeredDiscounts == old(registeredDiscounts)
    {
      appliedTaxableCategories := [];
    }

    /** updateTaxable: replaces the first rule with the same id; fails, with
        nothing changed, when there is none. */
    method UpdateTaxable(taxable: TaxRule) returns (o: Outcome)
      modifies this
      ensures match FirstIndex(old(appliedTaxableCategories), TaxId, taxable.id)
              case Some(k) => o == Pass && appliedTaxableCategories == old(appliedTaxableCategories)[k := taxable]
              case None => o == Fail(NotFound) && appliedTaxableCategories == old(appliedTaxableCategories)
      ensures bill == old(bill) && appliedDiscounts == old(appliedDiscounts)
      ensures registeredDiscounts == old(registeredDiscounts)
    {
      var index := FirstIndex(appliedTaxableCategories, TaxId, taxable.id);
      match index {
        case Some(idx) =>
          appliedTaxableCategories := appliedTaxableCategories[idx := taxable];
          o := Pass;
        case None =>
          o := Fail(NotFound);
      }
    }

    /** findTaxFor: the first applied tax rule with that id, or NotFound. */
    method FindTaxFor(id: string) returns (r: Result<TaxRule>)
      ensures r.Failure? <==> forall j :: 0 <= j < |appliedTaxableCategories| ==> appliedTaxableCategories[j].id != id
      ensures r.Failure? ==> r.error == NotFound
      ensures r.Success? ==> exists k :: 0 <= k < |appliedTaxableCategories| && appliedTaxableCategories[k] == r.value
                                       && r.value.id == id
                                       && forall j :: 0 <= j < k ==> appliedTaxableCategories[j].id != id
    {
      var index := FirstIndex(appliedTaxableCategories, TaxId, id);
      match index {
        case Some(idx) =>
          r := Success(appliedTaxableCategories[idx]);
        case None =>
          r := Failure(NotFound);
      }
    }

    /** removeTaxable: drops every applied rule with the same id. */
    method RemoveTaxable(taxable: TaxRule)
      modifies this
      ensures appliedTaxableCategories == WithoutTaxId(old(appliedTaxableCategories), taxable.id)
      ensures bill == old(bill) && appliedDiscounts == old(appliedDiscounts)
      ensures registeredDiscounts == old(registeredDiscounts)
    {
      appliedTaxableCategories := WithoutTaxId(appliedTaxableCategories, taxable.id);
    }
  }
}
