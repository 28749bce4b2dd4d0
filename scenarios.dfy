/** The bill processor's recorded regression values, restated over the model.
    Amounts are in cents and rates in ten-thousandths (Money.RateScale). */
module Scenarios {
  import opened Money
  import opened Ledger
  import opened Calc
  import opened Processor

  const Nestea := LineItem("nestea", 150, "Tea", true)
  const Coke := LineItem("coke", 150, "Pop", false)
  const GreyGoose := LineItem("greyGoose", 5045, "Alcohol", false)
  const Pizza := LineItem("pizza", 500, "Pizza", false)
  const CokeLarge := LineItem("cokeLarge", 500, "Pop", false)

  const Hst := TaxRule("hst", 1300, "", true)
  const CokeTax := TaxRule("cokeTax", 2000, "Pop", true)
  const AlcoholTax := TaxRule("alcoholTax", 1000, "Alcohol", true)

  const TwoDollars := Discount("twoDollars", 200, DollarAmount, true)
  const TenPercent := Discount("tenPercent", 1000, Percent, true)
  const OneFortyNine := Discount("oneFortyNine", 149, DollarAmount, true)

  // Unfoldings of the calculation on short lists.

  lemma Sum1(a: LineItem)
    ensures AmountSum([a]) == a.amount
  {
  }

  lemma Sum2(a: LineItem, b: LineItem)
    ensures AmountSum([a, b]) == a.amount + b.amount
  {
    assert [a, b][1..] == [b];
    Sum1(b);
  }

  lemma Sum4(a: LineItem, b: LineItem, c: LineItem, d: LineItem)
    ensures AmountSum([a, b, c, d]) == a.amount + b.amount + c.amount + d.amount
  {
    assert [a, b, c, d][1..] == [b, c, d];
    assert [b, c, d][1..] == [c, d];
    Sum2(c, d);
  }

  lemma Walk1(s: int, d: Discount)
    ensures DiscountWalk(s, [d]) == ApplyDiscount(s, d)
  {
  }

  lemma Walk2(s: int, d1: Discount, d2: Discount)
    ensures DiscountWalk(s, [d1, d2])
            == (var n := ApplyDiscount(s, d1); if n < 0 then n else ApplyDiscount(n, d2))
  {
    assert [d1, d2][1..] == [d2];
    Walk1(ApplyDiscount(s, d1), d2);
  }

  lemma FlatTax1(base: int, t: TaxRule)
    ensures FlatTaxOn(base, [t]) == if t.isEnabled then MulRound(base, t.amount) else 0
  {
  }

  lemma Lookup1(t: TaxRule)
    ensures CategoryLookup([t]) == if t.isEnabled then map[t.category := t] else map[]
  {
  }

  lemma Rules1(t: TaxRule)
    ensures FlatRules([t]) == if t.category == "" then [t] else []
    ensures CategoryRules([t]) == if t.category != "" then [t] else []
  {
  }

  lemma Rules2(t1: TaxRule, t2: TaxRule)
    requires t1.category == "" && t2.category != ""
    ensures FlatRules([t1, t2]) == [t1] && FlatRules([t2, t1]) == [t1]
    ensures CategoryRules([t1, t2]) == [t2] && CategoryRules([t2, t1]) == [t2]
  {
    assert [t1, t2][1..] == [t2];
    assert [t2, t1][1..] == [t1];
    Rules1(t1);
    Rules1(t2);
  }

  /** The parts of a tax on a bill with one item. */
  lemma Tax1(b: LineItem, flat: seq<TaxRule>, lookup: map<string, TaxRule>)
    ensures ExemptTax([b], flat) == if b.isTaxExempt then FlatTaxOn(b.amount, flat) else 0
    ensures CategoryTax([b], lookup)
            == if b.category in lookup && !b.isTaxExempt then MulRound(b.amount, lookup[b.category].amount) else 0
  {
  }

  /** The parts of a tax on a bill with two items. */
  lemma Tax2(a: LineItem, b: LineItem, flat: seq<TaxRule>, lookup: map<string, TaxRule>)
    ensures ExemptTax([a, b], flat)
            == ExemptTax([a], flat) + (if b.isTaxExempt then FlatTaxOn(b.amount, flat) else 0)
    ensures CategoryTax([a, b], lookup)
            == CategoryTax([a], lookup)
               + (if b.category in lookup && !b.isTaxExempt then MulRound(b.amount, lookup[b.category].amount) else 0)
  {
  }

  // The recorded values.

  /** Two dollars then ten percent leaves 50.80 of 58.45; ten percent then two
      dollars leaves 50.60: the order of discounts matters. */
  lemma DiscountOrderMatters()
    ensures Subtotal([Nestea, Coke, Pizza, GreyGoose]) == 5845
    ensures Subtotal([Nestea, Coke, Pizza, GreyGoose])
            - AllDiscounts([Nestea, Coke, Pizza, GreyGoose], [TwoDollars, TenPercent]) == 5080
    ensures Subtotal([Nestea, Coke, Pizza, GreyGoose])
            - AllDiscounts([Nestea, Coke, Pizza, GreyGoose], [TenPercent, TwoDollars]) == 5060
  {
    Sum4(Nestea, Coke, Pizza, GreyGoose);
    Walk2(5845, TwoDollars, TenPercent);
    assert MulRound(5645, 1000) == 565;
    Walk2(5845, TenPercent, TwoDollars);
    assert MulRound(5845, 1000) == 585;
  }

  /** With the 13% flat tax and the 10% alcohol tax the bill totals 62.25, or
      62.03 with the discounts swapped. */
  lemma TaxedTotals()
    ensures PostTotal([Coke, Pizza, GreyGoose, Nestea], [Hst, AlcoholTax], [TwoDollars, TenPercent]) == 6225
    ensures PostTotal([Coke, Pizza, GreyGoose, Nestea], [Hst, AlcoholTax], [TenPercent, TwoDollars]) == 6203
  {
    var bill := [Coke, Pizza, GreyGoose, Nestea];
    Sum4(Coke, Pizza, GreyGoose, Nestea);
    Walk2(5845, TwoDollars, TenPercent);
    assert MulRound(5645, 1000) == 565;
    Walk2(5845, TenPercent, TwoDollars);
    assert MulRound(5845, 1000) == 585;
    Rules2(Hst, AlcoholTax);
    FlatTax1(5080, Hst);
    assert MulRound(5080, 1300) == 660;
    FlatTax1(5060, Hst);
    assert MulRound(5060, 1300) == 658;
    FlatTax1(150, Hst);
    assert MulRound(150, 1300) == 20;
    var lookup := CategoryLookup([AlcoholTax]);
    Lookup1(AlcoholTax);
    assert bill[..3] == [Coke, Pizza, GreyGoose];
    assert bill[..3][..2] == [Coke, Pizza];
    Tax2(Coke, Pizza, [Hst], lookup);
    Tax1(Coke, [Hst], lookup);
    assert ExemptTax(bill, [Hst]) == 20;
    assert MulRound(5045, 1000) == 505;
    assert CategoryTax(bill, lookup) == 505;
  }

  /** A 1.50 item with a two-dollar discount goes negative in either order,
      so the whole 1.50 is the discount, and nothing is taxed or owed. */
  lemma NegativeExcursionClamp()
    ensures AllDiscounts([Coke], [TwoDollars, TenPercent]) == 150
    ensures AllDiscounts([Coke], [TenPercent, TwoDollars]) == 150
    ensures AllTaxes([Coke], [], [TwoDollars, TenPercent]) == 0
    ensures AllTaxes([Coke], [], [TenPercent, TwoDollars]) == 0
    ensures PostTotal([Coke], [], [TwoDollars, TenPercent]) == 0
    ensures PostTotal([Coke], [], [TenPercent, TwoDollars]) == 0
  {
    Sum1(Coke);
    Walk2(150, TwoDollars, TenPercent);
    Walk2(150, TenPercent, TwoDollars);
    assert MulRound(150, 1000) == 15;
  }

  /** 1.49 off a 1.50 item leaves 0.01: the 13% flat tax on it rounds to 0.00
      and the 20% category tax on the undiscounted 1.50 is 0.30. */
  lemma CloseToEdgeDiscount()
    ensures AllDiscounts([Coke], [OneFortyNine]) == 149
    ensures AllTaxes([Coke], [Hst, CokeTax], [OneFortyNine]) == 30
    ensures PostTotal([Coke], [Hst, CokeTax], [OneFortyNine]) == 31
  {
    Sum1(Coke);
    Walk1(150, OneFortyNine);
    Rules2(Hst, CokeTax);
    FlatTax1(1, Hst);
    assert MulRound(1, 1300) == 0;
    Lookup1(CokeTax);
    Tax1(Coke, [Hst], CategoryLookup([CokeTax]));
    assert MulRound(150, 2000) == 30;
  }

  /** An exempt item pays no flat tax, with or without a discount. */
  lemma TaxExempt()
    ensures AllTaxes([Nestea], [Hst], []) == 0
    ensures PostTotal([Nestea], [Hst], []) == 150
    ensures AllDiscounts([Nestea], [OneFortyNine]) == 149
    ensures PostTotal([Nestea], [Hst], [OneFortyNine]) == 1
  {
    Sum1(Nestea);
    Walk1(150, OneFortyNine);
    Rules1(Hst);
    FlatTax1(150, Hst);
    FlatTax1(1, Hst);
    assert MulRound(150, 1300) == 20;
    assert MulRound(1, 1300) == 0;
    Tax1(Nestea, [Hst], CategoryLookup([]));
  }

  /** Two 1.49 discounts on 3.00 leave 0.02; the exempt share 0.20 exceeds the
      flat tax 0.00, and the category tax 0.30 on the coke remains. */
  lemma TaxExemptWithCategoryTax()
    ensures AllDiscounts([Nestea, Coke], [OneFortyNine, OneFortyNine]) == 298
    ensures AllTaxes([Nestea, Coke], [CokeTax, Hst], [OneFortyNine, OneFortyNine]) == 30
    ensures PostTotal([Nestea, Coke], [CokeTax, Hst], [OneFortyNine, OneFortyNine]) == 32
  {
    Sum2(Nestea, Coke);
    Walk2(300, OneFortyNine, OneFortyNine);
    Rules2(Hst, CokeTax);
    FlatTax1(2, Hst);
    FlatTax1(150, Hst);
    assert MulRound(2, 1300) == 0;
    assert MulRound(150, 1300) == 20;
    Lookup1(CokeTax);
    var lookup := CategoryLookup([CokeTax]);
    Tax2(Nestea, Coke, [Hst], lookup);
    Tax1(Nestea, [Hst], lookup);
    assert MulRound(150, 2000) == 30;
  }

  /** When the exempt share exceeds a non-zero flat tax, the flat tax is still
      charged in full: 10.00 exempt and 1.00 taxable less 5.00 leaves 6.00,
      whose 13% is 0.78, while the exempt share is 1.30. */
  lemma ExemptShareAboveFlatTax()
    ensures FlatTaxOn(600, [Hst]) == 78
    ensures ExemptTax([LineItem("tea", 1000, "Tea", true), LineItem("pop", 100, "Pop", false)], [Hst]) == 130
    ensures AllTaxes([LineItem("tea", 1000, "Tea", true), LineItem("pop", 100, "Pop", false)],
                     [Hst], [Discount("five", 500, DollarAmount, true)]) == 78
  {
    var tea := LineItem("tea", 1000, "Tea", true);
    var pop := LineItem("pop", 100, "Pop", false);
    Sum2(tea, pop);
    Walk1(1100, Discount("five", 500, DollarAmount, true));
    Rules1(Hst);
    FlatTax1(600, Hst);
    FlatTax1(1000, Hst);
    assert MulRound(600, 1300) == 78;
    assert MulRound(1000, 1300) == 130;
    Tax2(tea, pop, [Hst], CategoryLookup([]));
    Tax1(tea, [Hst], CategoryLookup([]));
  }

  /** The totals of a 5.00 item under the 13% flat tax for the three orders
      of discounts the registration sequence below passes through. */
  lemma BothEnabledTotals()
    ensures PostTotal([CokeLarge], [Hst], [TwoDollars, TenPercent]) == 305
    ensures AllDiscounts([CokeLarge], [TwoDollars, TenPercent]) == 230
  {
    Sum1(CokeLarge);
    Walk2(500, TwoDollars, TenPercent);
    assert MulRound(300, 1000) == 30;
    Rules1(Hst);
    FlatTax1(270, Hst);
    assert MulRound(270, 1300) == 35;
    Tax1(CokeLarge, [Hst], CategoryLookup([]));
  }

  lemma TenPercentOnlyTotals()
    ensures PostTotal([CokeLarge], [Hst], [TenPercent]) == 509
    ensures AllDiscounts([CokeLarge], [TenPercent]) == 50
  {
    Sum1(CokeLarge);
    Walk1(500, TenPercent);
    assert MulRound(500, 1000) == 50;
    Rules1(Hst);
    FlatTax1(450, Hst);
    assert MulRound(450, 1300) == 59;
    Tax1(CokeLarge, [Hst], CategoryLookup([]));
  }

  lemma ReEnabledTotals()
    ensures PostTotal([CokeLarge], [Hst], [TenPercent, TwoDollars]) == 283
    ensures AllDiscounts([CokeLarge], [TenPercent, TwoDollars]) == 250
  {
    Sum1(CokeLarge);
    Walk2(500, TenPercent, TwoDollars);
    assert MulRound(500, 1000) == 50;
    Rules1(Hst);
    FlatTax1(250, Hst);
    assert MulRound(250, 1300) == 33;
    Tax1(CokeLarge, [Hst], CategoryLookup([]));
  }

  const TwoDollarsOff := TwoDollars.(isEnabled := false)
  const TenPercentOff := TenPercent.(isEnabled := false)

  /** Facts about the two registered, initially disabled discounts. */
  lemma RegisteredPair()
    ensures TwoDollarsOff.id != TenPercentOff.id
    ensures TwoDollarsOff.(isEnabled := true) == TwoDollars && TenPercentOff.(isEnabled := true) == TenPercent
    ensures EnabledOnly([TwoDollarsOff, TenPercentOff]) == []
    ensures FirstIndex([TwoDollarsOff, TenPercentOff], DiscountId, TwoDollarsOff.id) == Some(0)
    ensures FirstIndex([TwoDollarsOff, TenPercentOff], DiscountId, TenPercentOff.id) == Some(1)
    ensures FirstIndex([TwoDollars, TenPercent], DiscountId, TwoDollarsOff.id) == Some(0)
  {
    assert TwoDollarsOff.id[1] != TenPercentOff.id[1];
    assert [TenPercentOff][1..] == [];
    assert EnabledOnly([TenPercentOff]) == [];
    assert [TwoDollarsOff, TenPercentOff][1..] == [TenPercentOff];
  }

  /** Looks up a registered discount by id and enables it. */
  method EnableRegistered(p: BillProcessor, d: Discount)
    requires p.registeredDiscounts == [TwoDollarsOff, TenPercentOff]
    requires d == TwoDollarsOff || d == TenPercentOff
    modifies p
    ensures p.appliedDiscounts == old(p.appliedDiscounts) + [d.(isEnabled := true)]
    ensures p.registeredDiscounts == old(p.registeredDiscounts)
    ensures p.bill == old(p.bill) && p.appliedTaxableCategories == old(p.appliedTaxableCategories)
  {
    RegisteredPair();
    var found := p.FindRegisteredDiscountFor(d.id);
    assert found.Success? by {
      if d == TwoDollarsOff { assert p.registeredDiscounts[0].id == d.id; }
      else { assert p.registeredDiscounts[1].id == d.id; }
    }
    ghost var k :| 0 <= k < 2 && p.registeredDiscounts[k] == found.value && found.value.id == d.id
                   && forall j :: 0 <= j < k ==> p.registeredDiscounts[j].id != d.id;
    assert found.value == d by {
      if d == TwoDollarsOff { assert k == 0; } else { assert k == 1; }
    }
    var o := p.UpdateDiscount(found.value.(isEnabled := true));
  }

  /** Looks up the registered two-dollar discount, still disabled there, and
      passes it to updateDiscount, which removes it from the applied ones. */
  method DisableTwoDollars(p: BillProcessor)
    requires p.registeredDiscounts == [TwoDollarsOff, TenPercentOff]
    requires p.appliedDiscounts == [TwoDollars, TenPercent]
    modifies p
    ensures p.appliedDiscounts == [TenPercent]
    ensures p.registeredDiscounts == old(p.registeredDiscounts)
    ensures p.bill == old(p.bill) && p.appliedTaxableCategories == old(p.appliedTaxableCategories)
  {
    RegisteredPair();
    var found := p.FindRegisteredDiscountFor(TwoDollarsOff.id);
    assert found.Success? by { assert p.registeredDiscounts[0].id == TwoDollarsOff.id; }
    assert found.value == TwoDollarsOff;
    var o := p.UpdateDiscount(found.value);
    assert RemoveAt([TwoDollars, TenPercent], 0) == [TenPercent];
  }

  /** A processor billing one 5.00 item under the 13% flat tax, with the
      two discounts registered disabled. */
  method RegistrationSetup() returns (p: BillProcessor)
    ensures fresh(p)
    ensures p.bill == [CokeLarge] && p.appliedTaxableCategories == [Hst]
    ensures p.registeredDiscounts == [TwoDollarsOff, TenPercentOff] && p.appliedDiscounts == []
  {
    RegisteredPair();
    p := new BillProcessor();
    var o := p.AddBillableItem(CokeLarge);
    p.AddTaxable(Hst);
    p.SetDiscounts([TwoDollarsOff, TenPercentOff]);
  }

  /** Registering two disabled discounts, enabling both, disabling the first
      and enabling it again (which moves it after the ten percent). */
  method RegistrationOfDiscounts() returns (post1: int, disc1: int, post2: int, disc2: int, post3: int, disc3: int)
    ensures post1 == 305 && disc1 == 230
    ensures post2 == 509 && disc2 == 50
    ensures post3 == 283 && disc3 == 250
  {
    RegisteredPair();
    var p := RegistrationSetup();
    EnableRegistered(p, TwoDollarsOff);
    EnableRegistered(p, TenPercentOff);
    assert p.appliedDiscounts == [TwoDollars, TenPercent];
    BothEnabledTotals();
    post1 := p.TotalPostTaxPostDiscounts();
    disc1 := p.TotalAllDiscountsApplied();

    DisableTwoDollars(p);
    TenPercentOnlyTotals();
    post2 := p.TotalPostTaxPostDiscounts();
    disc2 := p.TotalAllDiscountsApplied();

    EnableRegistered(p, TwoDollarsOff);
    assert p.appliedDiscounts == [TenPercent, TwoDollars];
    ReEnabledTotals();
    post3 := p.TotalPostTaxPostDiscounts();
    disc3 := p.TotalAllDiscountsApplied();
  }

  /** Removing an item that was never added leaves the subtotal alone;
      removing two of three items leaves the third. */
  method RemovingBillables() returns (absent: int, remaining: int)
    ensures absent == 150 && remaining == 500
  {
    var p := new BillProcessor();
    var o := p.AddBillableItem(Coke);
    p.RemoveBillableItem(Nestea);
    absent := p.TotalPreTaxPreDiscounts();

    var q := new BillProcessor();
    o := q.AddBillableItem(Nestea);
    o := q.AddBillableItem(Coke);
    o := q.AddBillableItem(Pizza);
    q.RemoveBillableItem(Nestea);
    q.RemoveBillableItem(Coke);
    remaining := q.TotalPreTaxPreDiscounts();
  }
}
