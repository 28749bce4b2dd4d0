/** Properties of the tax calculation and of the totals built on it: the
    category lookup's last-enabled-wins rule, the sign of each part, what
    exemption does and does not affect, and the bounds of the final total. */
module TaxProps {
  import opened Money
  import opened Ledger
  import opened Calc
  import opened DiscountProps
  import opened SubtotalProps

  predicate RatesNonNegative(taxes: seq<TaxRule>)
  {
    forall t :: t in taxes ==> t.amount >= 0
  }

  /** A discounted subtotal that is zero or negative carries no tax. */
  lemma TaxZeroOnNonPositiveBase(post: int, bill: seq<LineItem>, taxes: seq<TaxRule>)
    requires post <= 0
    ensures TotalTax(post, bill, taxes) == 0
  {
  }

  lemma {:induction false} FlatTaxOnNonNegative(base: int, rules: seq<TaxRule>)
    requires base >= 0 && RatesNonNegative(rules)
    ensures FlatTaxOn(base, rules) >= 0
    decreases |rules|
  {
    if rules != [] {
      var t := rules[|rules| - 1];
      var init := rules[..|rules| - 1];
      assert forall u :: u in init ==> u in rules;
      FlatTaxOnNonNegative(base, init);
      assert t in rules;
      MulRoundBounds(base, t.amount);
    }
  }

  /** The category lookup holds an entry for a category exactly when some
      enabled rule has that category, and the entry is the last such rule. */
  lemma {:induction false} CategoryLookupSpec(rules: seq<TaxRule>, c: string)
    ensures c in CategoryLookup(rules) <==>
              exists k :: 0 <= k < |rules| && rules[k].isEnabled && rules[k].category == c
    ensures c in CategoryLookup(rules) ==>
              exists k :: 0 <= k < |rules| && rules[k].isEnabled && rules[k].category == c
                          && CategoryLookup(rules)[c] == rules[k]
                          && forall j :: k < j < |rules| ==> !(rules[j].isEnabled && rules[j].category == c)
    decreases |rules|
  {
    if rules != [] {
      var n := |rules| - 1;
      var t := rules[n];
      var init := rules[..n];
      assert forall j :: 0 <= j < n ==> init[j] == rules[j];
      CategoryLookupSpec(init, c);
      if t.isEnabled && t.category == c {
        assert CategoryLookup(rules)[c] == rules[n];
      } else {
        assert CategoryLookup(rules) == CategoryLookup(init)
               || (t.isEnabled && CategoryLookup(rules) == CategoryLookup(init)[t.category := t]);
        if c in CategoryLookup(init) {
          var k :| 0 <= k < n && init[k].isEnabled && init[k].category == c
                   && CategoryLookup(init)[c] == init[k]
                   && forall j :: k < j < n ==> !(init[j].isEnabled && init[j].category == c);
          assert rules[k] == init[k];
        }
      }
    }
  }

  /** One more applied rule overwrites the lookup's entry for its category
      when it is enabled and has a category, and leaves the lookup alone
      otherwise. */
  lemma LookupOfTaxesSnoc(taxes: seq<TaxRule>, t: TaxRule)
    ensures CategoryLookup(CategoryRules(taxes + [t]))
            == if t.isEnabled && t.category != ""
               then CategoryLookup(CategoryRules(taxes))[t.category := t]
               else CategoryLookup(CategoryRules(taxes))
  {
    CategoryRulesSnoc(taxes, t);
    var rs := CategoryRules(taxes);
    if t.category != "" {
      var rs' := rs + [t];
      assert rs'[..|rs'| - 1] == rs;
      assert rs'[|rs'| - 1] == t;
      LookupSnoc(rs, t);
    } else {
      assert rs + [] == rs;
    }
  }

  /** Appending one rule to a lookup's input overwrites its entry when the
      rule is enabled. */
  lemma LookupSnoc(rs: seq<TaxRule>, t: TaxRule)
    ensures CategoryLookup(rs + [t])
            == if t.isEnabled then CategoryLookup(rs)[t.category := t] else CategoryLookup(rs)
  {
    assert (rs + [t])[..|rs|] == rs;
  }

  /** The lookup built straight from the applied tax list: each enabled rule
      with a category, in order, overwrites the entry for that category. */
  function TaxLookup(taxes: seq<TaxRule>): map<string, TaxRule>
  {
    if taxes == [] then map[]
    else
      var t := taxes[|taxes| - 1];
      var m := TaxLookup(taxes[..|taxes| - 1]);
      if t.isEnabled && t.category != "" then m[t.category := t] else m
  }

  /** Filtering the category rules first and then building the lookup gives
      the lookup built straight from the applied list. */
  lemma {:induction false} TaxLookupIsCategoryLookup(taxes: seq<TaxRule>)
    ensures CategoryLookup(CategoryRules(taxes)) == TaxLookup(taxes)
    decreases |taxes|
  {
    if taxes != [] {
      var n := |taxes| - 1;
      assert taxes == taxes[..n] + [taxes[n]];
      TaxLookupIsCategoryLookup(taxes[..n]);
      LookupOfTaxesSnoc(taxes[..n], taxes[n]);
    }
  }

  /** The directly built lookup holds an entry for a category exactly when
      the category is not empty and some enabled applied rule has it, and the
      entry is the last such rule. */
  lemma {:induction false} TaxLookupSpec(taxes: seq<TaxRule>, c: string)
    ensures c in TaxLookup(taxes) <==>
              c != "" && exists k :: 0 <= k < |taxes| && taxes[k].isEnabled && taxes[k].category == c
    ensures c in TaxLookup(taxes) ==>
              exists k :: 0 <= k < |taxes| && taxes[k].isEnabled && taxes[k].category == c
                          && TaxLookup(taxes)[c] == taxes[k]
                          && forall j :: k < j < |taxes| ==> !(taxes[j].isEnabled && taxes[j].category == c)
    decreases |taxes|
  {
    if taxes != [] {
      var n := |taxes| - 1;
      var t := taxes[n];
      var init := taxes[..n];
      assert forall j :: 0 <= j < n ==> init[j] == taxes[j];
      TaxLookupSpec(init, c);
      if t.isEnabled && t.category != "" && t.category == c {
        assert TaxLookup(taxes)[c] == taxes[n];
      } else {
        assert TaxLookup(taxes) == TaxLookup(init)
               || (t.isEnabled && TaxLookup(taxes) == TaxLookup(init)[t.category := t]);
        if c in TaxLookup(init) {
          var k :| 0 <= k < n && init[k].isEnabled && init[k].category == c
                   && TaxLookup(init)[c] == init[k]
                   && forall j :: k < j < n ==> !(init[j].isEnabled && init[j].category == c);
          assert taxes[k] == init[k];
        }
      }
    }
  }

  /** The lookup the tax calculation builds, stated over the applied tax
      list itself: a category has an entry exactly when it is not empty and
      some enabled applied rule has it, and the entry is the last such rule of
      the applied list. */
  lemma CategoryLookupOfTaxes(taxes: seq<TaxRule>, c: string)
    ensures c in CategoryLookup(CategoryRules(taxes)) <==>
              c != "" && exists k :: 0 <= k < |taxes| && taxes[k].isEnabled && taxes[k].category == c
    ensures c in CategoryLookup(CategoryRules(taxes)) ==>
              exists k :: 0 <= k < |taxes| && taxes[k].isEnabled && taxes[k].category == c
                          && CategoryLookup(CategoryRules(taxes))[c] == taxes[k]
                          && forall j :: k < j < |taxes| ==> !(taxes[j].isEnabled && taxes[j].category == c)
  {
    TaxLookupIsCategoryLookup(taxes);
    TaxLookupSpec(taxes, c);
  }

  /** Every entry of the lookup is one of the rules it was built from. */
  lemma {:induction false} CategoryLookupFromRules(rules: seq<TaxRule>)
    ensures forall c :: c in CategoryLookup(rules) ==> CategoryLookup(rules)[c] in rules
    decreases |rules|
  {
    if rules != [] {
      var init := rules[..|rules| - 1];
      CategoryLookupFromRules(init);
      assert forall u :: u in init ==> u in rules;
    }
  }

  lemma {:induction false} CategoryTaxNonNegative(bill: seq<LineItem>, lookup: map<string, TaxRule>)
    requires AmountsNonNegative(bill)
    requires forall c :: c in lookup ==> lookup[c].amount >= 0
    ensures CategoryTax(bill, lookup) >= 0
    decreases |bill|
  {
    if bill != [] {
      var b := bill[|bill| - 1];
      var init := bill[..|bill| - 1];
      assert forall u :: u in init ==> u in bill;
      CategoryTaxNonNegative(init, lookup);
      assert b in bill;
      if b.category in lookup {
        MulRoundBounds(b.amount, lookup[b.category].amount);
      }
    }
  }

  /** With non-negative rates and amounts the tax is never negative, in
      either branch of the final combination. */
  lemma TaxNonNegative(post: int, bill: seq<LineItem>, taxes: seq<TaxRule>)
    requires RatesNonNegative(taxes) && AmountsNonNegative(bill)
    ensures TotalTax(post, bill, taxes) >= 0
  {
    if post > 0 {
      var flat := FlatRules(taxes);
      var lookup := CategoryLookup(CategoryRules(taxes));
      FlatTaxOnNonNegative(post, flat);
      CategoryLookupFromRules(CategoryRules(taxes));
      CategoryTaxNonNegative(bill, lookup);
    }
  }

  lemma {:induction false} ExemptTaxWithoutExemptItems(bill: seq<LineItem>, flat: seq<TaxRule>)
    requires forall b :: b in bill ==> !b.isTaxExempt
    ensures ExemptTax(bill, flat) == 0
    decreases |bill|
  {
    if bill != [] {
      var init := bill[..|bill| - 1];
      assert forall u :: u in init ==> u in bill;
      ExemptTaxWithoutExemptItems(init, flat);
      assert bill[|bill| - 1] in bill;
    }
  }

  /** A bill with no exempt item pays every enabled flat rule on the whole
      discounted subtotal plus the category taxes. */
  lemma TaxWithoutExemptItems(post: int, bill: seq<LineItem>, taxes: seq<TaxRule>)
    requires post > 0
    requires forall b :: b in bill ==> !b.isTaxExempt
    ensures TotalTax(post, bill, taxes)
            == FlatTaxOn(post, FlatRules(taxes)) + CategoryTax(bill, CategoryLookup(CategoryRules(taxes)))
  {
    ExemptTaxWithoutExemptItems(bill, FlatRules(taxes));
  }

  /** The category tax of a bill is the sum over any split of the bill. */
  lemma {:induction false} CategoryTaxConcat(a: seq<LineItem>, b: seq<LineItem>, lookup: map<string, TaxRule>)
    ensures CategoryTax(a + b, lookup) == CategoryTax(a, lookup) + CategoryTax(b, lookup)
    decreases |b|
  {
    if b == [] {
      assert a + b == a;
    } else {
      var n := |b| - 1;
      assert (a + b)[..|a + b| - 1] == a + b[..n];
      assert (a + b)[|a + b| - 1] == b[n];
      CategoryTaxConcat(a, b[..n], lookup);
    }
  }

  /** Exempt items add no category tax: the category tax of a bill is that of
      its items with exempt ones dropped anywhere in it. */
  lemma CategoryTaxIgnoresExempt(a: seq<LineItem>, x: LineItem, b: seq<LineItem>, lookup: map<string, TaxRule>)
    requires x.isTaxExempt
    ensures CategoryTax(a + [x] + b, lookup) == CategoryTax(a + b, lookup)
  {
    CategoryTaxConcat(a + [x], b, lookup);
    CategoryTaxConcat(a, [x], lookup);
    CategoryTaxConcat(a, b, lookup);
    assert [x][..0] == [];
  }

  // ------------------------------------------------------------- totals

  /** With non-negative amounts, well-formed discounts and non-negative
      rates, the discounted subtotal lies between 0 and the subtotal, and the
      final total is at least the discounted subtotal, so never negative. */
  lemma PostTotalBounds(bill: seq<LineItem>, taxes: seq<TaxRule>, ds: seq<Discount>)
    requires AmountsNonNegative(bill) && DiscountsWellFormed(ds) && RatesNonNegative(taxes)
    ensures 0 <= Subtotal(bill) - AllDiscounts(bill, ds) <= Subtotal(bill)
    ensures PostTotal(bill, taxes, ds) >= Subtotal(bill) - AllDiscounts(bill, ds) >= 0
  {
    SubtotalSign(bill);
    DiscountBounds(Subtotal(bill), ds);
    TaxNonNegative(Subtotal(bill) - AllDiscounts(bill, ds), bill, taxes);
  }

  /** When the compounding walk goes negative at some step, the whole
      subtotal is reported as discount, so the bill carries no tax and its
      final total is 0. */
  lemma NegativeExcursionMakesBillFree(bill: seq<LineItem>, taxes: seq<TaxRule>, ds: seq<Discount>, k: nat)
    requires Subtotal(bill) >= 0
    requires k <= |ds| && Compound(Subtotal(bill), ds[..k]) < 0
    ensures AllDiscounts(bill, ds) == Subtotal(bill)
    ensures AllTaxes(bill, taxes, ds) == 0
    ensures PostTotal(bill, taxes, ds) == 0
  {
    TotalDiscountSpec(Subtotal(bill), ds);
  }
}
