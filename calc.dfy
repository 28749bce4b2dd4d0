/** The bill processor's calculation pipeline as functions of its four lists:
    subtotal, then the discount walk, then taxes, then the post-tax total.
    The class in module Processor computes the same values with loops and is
    proved equal to these functions. */
module Calc {
  import opened Money
  import opened Ledger

  // ---------------------------------------------------------------- subtotal

  /** The amounts of the bill added up (a reference definition). */
  function AmountSum(bill: seq<LineItem>): int
  {
    if bill == [] then 0 else bill[0].amount + AmountSum(bill[1..])
  }

  /** `reduce` over the bill from `acc`: acc + a0, then + a1, and so on. */
  function Reduce(acc: int, bill: seq<LineItem>): int
    decreases |bill|
  {
    if bill == [] then acc else Reduce(acc + bill[0].amount, bill[1..])
  }

  lemma {:induction false} ReduceIsSum(acc: int, bill: seq<LineItem>)
    ensures Reduce(acc, bill) == acc + AmountSum(bill)
    decreases |bill|
  {
    if bill != [] {
      ReduceIsSum(acc + bill[0].amount, bill[1..]);
    }
  }

  /** The subtotal: the bill's amounts folded left to right from 0. */
  function Subtotal(bill: seq<LineItem>): (r: int)
    ensures r == AmountSum(bill)
  {
    ReduceIsSum(0, bill);
    Reduce(0, bill)
  }

  // --------------------------------------------------------------- discounts

  /** Well-formed discounts: a dollar amount is not negative and a percent
      rate lies between 0 and 1. */
  predicate DiscountWellFormed(d: Discount)
  {
    match d.kind
    case DollarAmount => d.amount >= 0
    case Percent => 0 <= d.amount <= RateScale
  }

  predicate DiscountsWellFormed(ds: seq<Discount>)
  {
    forall i :: 0 <= i < |ds| ==> DiscountWellFormed(ds[i])
  }

  /** One discount applied to the running value: a disabled discount leaves
      it alone, a dollar discount subtracts its amount, a percent discount
      subtracts its share of the running value (so discounts compound). */
  function ApplyDiscount(running: int, d: Discount): int
  {
    if !d.isEnabled then running
    else match d.kind
      case DollarAmount => running - d.amount
      case Percent => running - MulRound(running, d.amount)
  }

  /** Every discount applied in order, with no early exit (a reference
      definition for the walk below). */
  function Compound(running: int, ds: seq<Discount>): int
    decreases |ds|
  {
    if ds == [] then running else Compound(ApplyDiscount(running, ds[0]), ds[1..])
  }

  /** The running value where the discount loop stops: it applies the
      discounts in order and stops right after the first step that leaves
      the running value negative. */
  function DiscountWalk(running: int, ds: seq<Discount>): int
    decreases |ds|
  {
    if ds == [] then running
    else
      var next := ApplyDiscount(running, ds[0]);
      if next < 0 then next else DiscountWalk(next, ds[1..])
  }

  /** The discount reported for a subtotal: the whole subtotal when the walk
      went negative, otherwise what the walk took off. */
  function TotalDiscount(subtotal: int, ds: seq<Discount>): int
  {
    var running := DiscountWalk(subtotal, ds);
    if running < 0 then subtotal else subtotal - running
  }

  // ------------------------------------------------------------------- taxes

  /** The flat tax rules: those with an empty category, in order. */
  function FlatRules(taxes: seq<TaxRule>): (r: seq<TaxRule>)
    ensures forall t :: t in r <==> t in taxes && t.category == ""
  {
    if taxes == [] then []
    else
      assert taxes == [taxes[0]] + taxes[1..];
      if taxes[0].category == "" then [taxes[0]] + FlatRules(taxes[1..])
      else FlatRules(taxes[1..])
  }

  /** The category tax rules: those with a non-empty category, in order. */
  function CategoryRules(taxes: seq<TaxRule>): (r: seq<TaxRule>)
    ensures forall t :: t in r <==> t in taxes && t.category != ""
  {
    if taxes == [] then []
    else
      assert taxes == [taxes[0]] + taxes[1..];
      if taxes[0].category != "" then [taxes[0]] + CategoryRules(taxes[1..])
      else CategoryRules(taxes[1..])
  }

  /** Filtering one more rule appends it exactly when it is flat, so the flat
      rules keep their order and copies. */
  lemma {:induction false} FlatRulesSnoc(taxes: seq<TaxRule>, t: TaxRule)
    ensures FlatRules(taxes + [t]) == FlatRules(taxes) + (if t.category == "" then [t] else [])
  {
    if taxes == [] {
      assert taxes + [t] == [t];
    } else {
      assert (taxes + [t])[1..] == taxes[1..] + [t];
      FlatRulesSnoc(taxes[1..], t);
    }
  }

  /** Filtering one more rule appends it exactly when it has a category, so
      the category rules keep their order and copies. */
  lemma {:induction false} CategoryRulesSnoc(taxes: seq<TaxRule>, t: TaxRule)
    ensures CategoryRules(taxes + [t]) == CategoryRules(taxes) + (if t.category != "" then [t] else [])
  {
    if taxes == [] {
      assert taxes + [t] == [t];
    } else {
      assert (taxes + [t])[1..] == taxes[1..] + [t];
      CategoryRulesSnoc(taxes[1..], t);
    }
  }

  /** What the enabled rules among `rules` levy on `base`, each rounded to
      cents, summed in order. */
  function FlatTaxOn(base: int, rules: seq<TaxRule>): int
  {
    if rules == [] then 0
    else
      var t := rules[|rules| - 1];
      FlatTaxOn(base, rules[..|rules| - 1]) + (if t.isEnabled then MulRound(base, t.amount) else 0)
  }

  /** The flat tax that the exempt items would have carried: for every exempt
      item, every enabled flat rule's tax on that item's own amount. */
  function ExemptTax(bill: seq<LineItem>, flat: seq<TaxRule>): int
  {
    if bill == [] then 0
    else
      var b := bill[|bill| - 1];
      ExemptTax(bill[..|bill| - 1], flat) + (if b.isTaxExempt then FlatTaxOn(b.amount, flat) else 0)
  }

  /** The category lookup: each enabled rule, in order, overwrites the entry
      for its category, so the last enabled rule of a category wins. */
  function CategoryLookup(rules: seq<TaxRule>): map<string, TaxRule>
  {
    if rules == [] then map[]
    else
      var t := rules[|rules| - 1];
      var m := CategoryLookup(rules[..|rules| - 1]);
      if t.isEnabled then m[t.category := t] else m
  }

  /** Every non-exempt item whose category has a rule in the lookup pays that
      rule's rate on its own (undiscounted) amount. */
  function CategoryTax(bill: seq<LineItem>, lookup: map<string, TaxRule>): int
  {
    if bill == [] then 0
    else
      var b := bill[|bill| - 1];
      CategoryTax(bill[..|bill| - 1], lookup)
        + (if b.category in lookup && !b.isTaxExempt then MulRound(b.amount, lookup[b.category].amount) else 0)
  }

  /** The combination at the end of the tax calculation. When the exempt
      share exceeds the flat tax, the flat tax is kept whole and added to the
      category tax; otherwise the exempt share is taken off the flat tax. */
  function CombineTaxes(flat: int, exempt: int, category: int): int
  {
    if exempt > flat then flat + category else category + (flat - exempt)
  }

  /** The taxes on a bill whose discounted subtotal is `post`: nothing on a
      base that is zero or negative. */
  function TotalTax(post: int, bill: seq<LineItem>, taxes: seq<TaxRule>): int
  {
    if post <= 0 then 0
    else
      var flat := FlatRules(taxes);
      CombineTaxes(FlatTaxOn(post, flat), ExemptTax(bill, flat),
                   CategoryTax(bill, CategoryLookup(CategoryRules(taxes))))
  }

  // ------------------------------------------------------------------ totals

  /** totalAllDiscountsApplied */
  function AllDiscounts(bill: seq<LineItem>, ds: seq<Discount>): int
  {
    TotalDiscount(Subtotal(bill), ds)
  }

  /** totalAllTaxesApplied: taxes on subtotal minus discounts. */
  function AllTaxes(bill: seq<LineItem>, taxes: seq<TaxRule>, ds: seq<Discount>): int
  {
    TotalTax(Subtotal(bill) - AllDiscounts(bill, ds), bill, taxes)
  }

  /** totalPostTaxPostDiscounts: discounted subtotal plus taxes. */
  function PostTotal(bill: seq<LineItem>, taxes: seq<TaxRule>, ds: seq<Discount>): int
  {
    (Subtotal(bill) - AllDiscounts(bill, ds)) + AllTaxes(bill, taxes, ds)
  }
}
