# BillProcessor ledger engine in Dafny

This project models the `BillProcessor` class of BillProcessingLib: a bill of
line items, an ordered list of applied discounts, a list of registered
discounts and a list of tax rules, from which four totals are recomputed on
every read — the subtotal, the discount, the taxes and the post-tax,
post-discount total.

Money is modelled as integer cents. Rates (tax rates and percent discounts)
are integers scaled by `Money.RateScale` = 10000, so 13% is 1300. The
decimal handler of the source (rounding mode `.plain`, scale 2) becomes
`Money.RoundPlain`, which rounds a product of cents and a scaled rate to the
nearest cent, halves away from zero. Adding or subtracting cents is exact, so
only products are rounded, as in the source.

Modules:

- `Money`: rounding to cents.
- `Ledger`: the records (`LineItem`, `Discount`, `TaxRule`), the error kinds, and
  the list operations the class uses (first index by id, remove at an index,
  remove all matches, keep the enabled discounts).
- `Calc`: the calculation pipeline as functions of the four lists. This is the
  specification the class is proved against.
- `Processor`: the class `BillProcessor`, with its four lists as fields:
  - every editing operation is a method with `modifies this`;
  - the discount loop (with its early `break`) and the tax loops (including
    the nested exempt loop and the in-place category dictionary) are
    imperative methods proved equal to the `Calc` functions.
- `SubtotalProps`, `DiscountProps`, `TaxProps`: what the pipeline guarantees.
- `Scenarios`: the values the repository's tests assert, restated over the
  model.

Three places where the code does something a reader may not expect. The
model follows the code in each:

- **Exempt share larger than the flat tax** (`BillProcessing.swift:353-356`):
  line 354 sets the adjusted flat tax `appliedTaxesExemptTaxAdjustment` to 0,
  but line 355 returns the unadjusted flat tax plus the category tax and never
  reads the variable. The model returns flat plus category, not category alone.
  `Scenarios.ExemptShareAboveFlatTax` shows a bill where the two readings
  differ.
- **`removeDiscount`** (`BillProcessing.swift:202-206`): the closure on line
  204 compares each applied discount's id with itself and never reads the
  `discount` parameter, so every applied discount is removed.
- **`updateDiscount` with a disabled discount that is not applied**
  (`BillProcessing.swift:199`): the method falls through to `fatalError` and
  aborts. Here it is a `NotFound` failure that changes nothing.

Every `fatalError` of the source becomes a failure result (`Outcome.Fail` or
`Result.Failure`) that leaves the state unchanged. The one `assert`
(`BillProcessing.swift:149`, in `addBillableItem`) is modelled as checked, as
in an unoptimised build: a non-positive amount fails the same way.

## Model

| member | source | states |
|---|---|---|
| Money.RoundPlain | BillProcessor/BillProcessing.swift:57-62 | the result is the nearest cent to n / RateScale, halves rounded away from zero, for positive and negative n |
| Money.MulRoundBounds | BillProcessor/BillProcessing.swift:57-62 | a rounded product of a non-negative amount and rate is non-negative, and at most the amount when the rate is at most 1 |
| Ledger.FirstIndex | BillProcessor/BillProcessing.swift:136-138 | the index found holds a matching id and no earlier entry matches; none is found exactly when no entry matches (Swift `firstIndex`) |
| Ledger.RemoveAt | BillProcessor/BillProcessing.swift:188 | one entry fewer; the entries before k are kept and the ones after k shift down by one (Swift `remove(at:)`) |
| Ledger.WithoutItem | BillProcessor/BillProcessing.swift:155-157 | keeps exactly the items not equal to x on all four fields; a bill without x is returned unchanged |
| Ledger.WithoutTaxId | BillProcessor/BillProcessing.swift:239-241 | keeps exactly the rules whose id differs; a list with no such id is returned unchanged |
| Ledger.WithoutItemSnoc | BillProcessor/BillProcessing.swift:155-157 | one more item is kept at the end exactly when it differs from x, so the kept items stay in order and every copy is kept |
| Ledger.WithoutTaxIdSnoc | BillProcessor/BillProcessing.swift:239-241 | one more rule is kept at the end exactly when its id differs, so the kept rules stay in order and every copy is kept |
| Ledger.EnabledOnly | BillProcessor/BillProcessing.swift:110-114 | keeps exactly the enabled discounts |
| Ledger.EnabledOnlySnoc | BillProcessor/BillProcessing.swift:110-114 | filtering one more discount appends it exactly when it is enabled, so the enabled discounts keep their order |
| Calc.ReduceIsSum | BillProcessor/BillProcessing.swift:245-248 | the left fold from acc equals acc plus the sum of the amounts |
| Calc.Subtotal | BillProcessor/BillProcessing.swift:244-251 | the fold from 0 equals the sum of the item amounts |
| Calc.FlatRules | BillProcessor/BillProcessing.swift:295-297 | keeps exactly the rules with an empty category |
| Calc.CategoryRules | BillProcessor/BillProcessing.swift:321-323 | keeps exactly the rules with a non-empty category |
| Calc.FlatRulesSnoc | BillProcessor/BillProcessing.swift:295-297 | one more rule is kept at the end exactly when its category is empty, so the flat rules keep their order and copies |
| Calc.CategoryRulesSnoc | BillProcessor/BillProcessing.swift:321-323 | one more rule is kept at the end exactly when its category is not empty, so the category rules keep their order and copies |
| Processor.BillProcessor.constructor | BillProcessor/BillProcessing.swift:51-55 | all four lists start empty |
| Processor.BillProcessor.TotalPreTaxPreDiscounts | BillProcessor/BillProcessing.swift:66-70 | the subtotal of the current bill, as the sum of its amounts; the state is unchanged |
| Processor.BillProcessor.TotalAllDiscountsApplied | BillProcessor/BillProcessing.swift:72-78 | the discount walk over the current applied discounts, from the current subtotal; the state is unchanged |
| Processor.BillProcessor.TotalAllTaxesApplied | BillProcessor/BillProcessing.swift:80-86 | the tax on the subtotal less the discount; the state is unchanged |
| Processor.BillProcessor.TotalPostTaxPostDiscounts | BillProcessor/BillProcessing.swift:88-95 | the subtotal less the discount plus the tax, a function of the four lists only; the state is unchanged |
| Processor.BillProcessor.TotalDiscountsAppliedCalc | BillProcessor/BillProcessing.swift:253-284 | the loop with its early break computes the walk that stops at the first negative running value: the whole subtotal in that case, otherwise the subtotal less the final running value |
| Processor.BillProcessor.TotalTaxesAppliedCalculation | BillProcessor/BillProcessing.swift:286-363 | the flat-tax loop, the nested exempt loop, the in-place lookup and the category loop compute zero on a non-positive base and otherwise the two-branch combination of flat, exempt and category taxes |
| Processor.BillProcessor.AddBillableItem | BillProcessor/BillProcessing.swift:147-152 | a non-positive amount fails with InvalidAmount and changes nothing; otherwise the item is appended and earlier items stay as they were |
| Processor.BillProcessor.RemoveBillableItem | BillProcessor/BillProcessing.swift:154-159 | the bill loses every item equal to the argument and keeps the rest in order; nothing else changes |
| Processor.BillProcessor.UpdateBillable | BillProcessor/BillProcessing.swift:135-145 | only the first item with the same id is replaced; with no such item it fails with NotFound and changes nothing |
| Processor.BillProcessor.SetDiscounts | BillProcessor/BillProcessing.swift:106-116 | every discount is appended to the registered list, and the enabled ones, in order, to the applied list |
| Processor.BillProcessor.ClearAppliedDiscounts | BillProcessor/BillProcessing.swift:118-121 | no discount stays applied; the registered list and the rest are unchanged |
| Processor.BillProcessor.AddDiscount | BillProcessor/BillProcessing.swift:161-164 | the discount is appended, so it is applied last |
| Processor.BillProcessor.FindRegisteredDiscountFor | BillProcessor/BillProcessing.swift:166-177 | the first registered discount with that id, or NotFound exactly when none has it |
| Processor.BillProcessor.UpdateDiscount | BillProcessor/BillProcessing.swift:179-200 | an enabled discount is appended at the end; a disabled one removes the first applied discount with its id, or fails with NotFound and changes nothing; the registered list never changes |
| Processor.BillProcessor.RemoveDiscount | BillProcessor/BillProcessing.swift:202-206 | every applied discount is removed, whatever the argument |
| Processor.BillProcessor.AddTaxable | BillProcessor/BillProcessing.swift:208-210 | the rule is appended |
| Processor.BillProcessor.SetTaxes | BillProcessor/BillProcessing.swift:123-128 | every rule is appended, in order |
| Processor.BillProcessor.ClearAppliedTaxes | BillProcessor/BillProcessing.swift:130-133 | no tax rule stays applied; nothing else changes |
| Processor.BillProcessor.UpdateTaxable | BillProcessor/BillProcessing.swift:212-222 | only the first rule with the same id is replaced; with no such rule it fails with NotFound and changes nothing |
| Processor.BillProcessor.FindTaxFor | BillProcessor/BillProcessing.swift:224-235 | the first applied rule with that id, or NotFound exactly when none has it |
| Processor.BillProcessor.RemoveTaxable | BillProcessor/BillProcessing.swift:238-242 | every rule with that id is removed and the rest keep their order |
| SubtotalProps.AmountSumConcat | BillProcessor/BillProcessing.swift:244-251 | the subtotal of two bills joined is the sum of their subtotals |
| SubtotalProps.SubtotalAppend | BillProcessor/BillProcessing.swift:147-152 | appending an item raises the subtotal by its amount |
| SubtotalProps.SubtotalUpdate | BillProcessor/BillProcessing.swift:135-145 | replacing an item changes the subtotal by the difference of the two amounts |
| SubtotalProps.SubtotalWithoutItem | BillProcessor/BillProcessing.swift:154-159 | removing an item lowers the subtotal by its amount once per copy; an absent item lowers it by nothing |
| SubtotalProps.SubtotalSign | BillProcessor/BillProcessing.swift:244-251 | non-negative amounts give a non-negative subtotal, positive as soon as one item has a positive amount (so a bill built only by addBillableItem, lines 147-152, with its `assert` checked, is positive unless empty; updateBillable, lines 135-145, never checks the amount, in the source or the model) |
| DiscountProps.ApplyDiscountBounds | BillProcessor/BillProcessing.swift:260-271 | a well-formed discount never raises a non-negative running value, and a percent discount never makes it negative |
| DiscountProps.DiscountWalkSpec | BillProcessor/BillProcessing.swift:258-276 | against the fold with no early exit: a walk that ends non-negative equals the full fold, and no prefix went negative; a walk that ends negative equals the fold at the first prefix that went negative |
| DiscountProps.TotalDiscountSpec | BillProcessor/BillProcessing.swift:278-283 | with no negative prefix the discount is the subtotal less the fully compounded value; with one, it is the whole subtotal |
| DiscountProps.DiscountWalkAtMost | BillProcessor/BillProcessing.swift:258-276 | with well-formed discounts the walk never ends above the subtotal |
| DiscountProps.DiscountBounds | BillProcessor/BillProcessing.swift:253-284 | with well-formed discounts, 0 <= discount <= subtotal, so the discounted subtotal is between 0 and the subtotal |
| DiscountProps.DisabledDiscountsIgnored | BillProcessor/BillProcessing.swift:260-271 | the walk and the discount over a list equal those over its enabled discounts alone |
| DiscountProps.LaterDiscountsIgnored | BillProcessor/BillProcessing.swift:273-275 | once the walk has gone negative, discounts after that point have no effect |
| DiscountProps.DiscountWalkSnoc | BillProcessor/BillProcessing.swift:179-200 | a discount appended at the end, as re-enabling does, applies to the value the walk ended at |
| TaxProps.TaxZeroOnNonPositiveBase | BillProcessor/BillProcessing.swift:288-292 | a discounted subtotal of zero or less carries no tax |
| TaxProps.FlatTaxOnNonNegative | BillProcessor/BillProcessing.swift:302-306 | flat taxes with non-negative rates on a non-negative base are non-negative |
| TaxProps.CategoryLookupSpec | BillProcessor/BillProcessing.swift:326-333 | a category has an entry exactly when some enabled rule has it, and the entry is the last such rule |
| TaxProps.LookupOfTaxesSnoc | BillProcessor/BillProcessing.swift:321-333 | one more applied rule overwrites the lookup entry for its category when it is enabled and has a category, and leaves the lookup alone otherwise |
| TaxProps.LookupSnoc | BillProcessor/BillProcessing.swift:326-333 | one more rule in the loop overwrites the entry for its category when it is enabled |
| TaxProps.TaxLookupIsCategoryLookup | BillProcessor/BillProcessing.swift:321-333 | filtering the category rules and then building the dictionary gives the dictionary built in one pass over the applied list |
| TaxProps.TaxLookupSpec | BillProcessor/BillProcessing.swift:321-333 | the one-pass dictionary has an entry for c exactly when c is not empty and some enabled applied rule has it, and the entry is the last such rule |
| TaxProps.CategoryLookupOfTaxes | BillProcessor/BillProcessing.swift:321-333 | over the applied list itself: c has an entry exactly when c is not empty and some enabled applied rule has category c, and the entry is the last such rule |
| TaxProps.CategoryLookupFromRules | BillProcessor/BillProcessing.swift:326-333 | every entry of the lookup is one of the rules it was built from |
| TaxProps.CategoryTaxNonNegative | BillProcessor/BillProcessing.swift:335-348 | with non-negative amounts and rates the category tax is non-negative |
| TaxProps.TaxNonNegative | BillProcessor/BillProcessing.swift:350-362 | with non-negative rates and amounts the tax is non-negative in both branches of the combination |
| TaxProps.ExemptTaxWithoutExemptItems | BillProcessor/BillProcessing.swift:308-318 | a bill with no exempt item has no exempt share |
| TaxProps.TaxWithoutExemptItems | BillProcessor/BillProcessing.swift:350-362 | without exempt items the tax is the whole flat tax plus the category tax |
| TaxProps.CategoryTaxConcat | BillProcessor/BillProcessing.swift:338-348 | the category tax of a bill is the sum over any split of it |
| TaxProps.CategoryTaxIgnoresExempt | BillProcessor/BillProcessing.swift:341-346 | an exempt item, wherever it sits in the bill, adds no category tax |
| TaxProps.PostTotalBounds | BillProcessor/BillProcessing.swift:88-95 | with non-negative amounts and rates and well-formed discounts, 0 <= subtotal less discount <= subtotal, and the final total is at least the discounted subtotal |
| TaxProps.NegativeExcursionMakesBillFree | BillProcessor/BillProcessing.swift:278-292 | when some prefix of the compounded discounts goes negative, the discount is the whole subtotal, the tax is 0 and the final total is 0 |
| Scenarios.DiscountOrderMatters | BillProcessorTests/BillProcessorTests.swift:182-212 | 58.45 less $2 then 10% leaves 50.80; 10% then $2 leaves 50.60 |
| Scenarios.TaxedTotals | BillProcessorTests/BillProcessorTests.swift:214-258 | with 13% flat tax and 10% alcohol tax, the totals are 62.25 and, with the discounts swapped, 62.03 |
| Scenarios.NegativeExcursionClamp | BillProcessorTests/BillProcessorTests.swift:333-403 | $2 off a 1.50 item gives a 1.50 discount in either order, no tax and a total of 0.00 |
| Scenarios.CloseToEdgeDiscount | BillProcessorTests/BillProcessorTests.swift:406-429 | 1.49 off 1.50 gives a discount of 1.49, taxes of 0.30 and a total of 0.31 |
| Scenarios.TaxExempt | BillProcessorTests/BillProcessorTests.swift:435-459 | an exempt 1.50 item pays no flat tax: total 1.50, or 0.01 after a 1.49 discount |
| Scenarios.TaxExemptWithCategoryTax | BillProcessorTests/BillProcessorTests.swift:461-481 | two 1.49 discounts on 3.00 give a discount of 2.98, taxes of 0.30 and a total of 0.32 |
| Scenarios.ExemptShareAboveFlatTax | BillProcessor/BillProcessing.swift:353-356 | an exempt share of 1.30 above a flat tax of 0.78 leaves the 0.78 flat tax charged in full |
| Scenarios.BothEnabledTotals | BillProcessorTests/BillProcessorTests.swift:523-524 | with $2 then 10% applied to a 5.00 item under 13% flat tax, the total is 3.05 and the discount 2.30 |
| Scenarios.TenPercentOnlyTotals | BillProcessorTests/BillProcessorTests.swift:536-537 | with only 10% applied, the total is 5.09 and the discount 0.50 |
| Scenarios.ReEnabledTotals | BillProcessorTests/BillProcessorTests.swift:547-548 | with 10% then $2 applied, the total is 2.83 and the discount 2.50 |
| Scenarios.RegistrationOfDiscounts | BillProcessorTests/BillProcessorTests.swift:498-551 | through the class: after registering two disabled discounts, enabling both, disabling the $2 one and re-enabling it, the totals read 3.05/2.30, then 5.09/0.50, then 2.83/2.50 |
| Scenarios.RemovingBillables | BillProcessorTests/BillProcessorTests.swift:152-180 | through the class: removing an absent item leaves 1.50; removing two of three items leaves 5.00 |

## Left out

- The delegate notification (`BillProcessorDelegate`, `delegate`, `update()`): an observer callback that reads the totals and changes no state.
- `NSDecimalNumber` itself. Amounts are whole cents and rates are whole ten-thousandths. An amount with more than two decimals, or a rate with more than four, is outside the model.
- The `Double` to decimal conversion that the tests use to build their fixtures.
- `name`, `hashValue` and the `TaxType` tag. The calculation never reads them; a rule is treated as flat or category by its category alone.
- The Swift generics and protocols. The model has one concrete record type with value semantics for each protocol. A client whose records are class instances could change a stored record through a reference, for example one returned by `findRegisteredDiscountFor`; the model does not capture that aliasing.
- Process aborts. `fatalError` becomes a failure result that leaves the state unchanged.
- Processor.BillProcessor.AddBillableItem: the `assert` at `BillProcessing.swift:149` is checked only in unoptimised builds; an optimised build appends a non-positive item. The model follows the checked behaviour and fails with `InvalidAmount`.
- Calc.FlatRules, Calc.CategoryRules, Ledger.EnabledOnly, Ledger.WithoutItem, Ledger.WithoutTaxId: their own contracts state which elements are kept. That the kept elements stay in order, with every copy, is stated by the companion lemmas `FlatRulesSnoc`, `CategoryRulesSnoc`, `EnabledOnlySnoc`, `WithoutItemSnoc` and `WithoutTaxIdSnoc`.
- Swift `String` equality. Swift compares strings by Unicode canonical equivalence, so two differently composed spellings of one id or category are equal there. The model compares `seq<char>` character by character. This affects the id comparisons at `BillProcessing.swift:137`, 168, 184, 214, 226 and 240 (`Ledger.FirstIndex`, `Ledger.WithoutTaxId`), the category tests and dictionary keys at lines 296, 322, 331 and 341 (`Calc.FlatRules`, `Calc.CategoryRules`, `Calc.CategoryLookup`, `Calc.CategoryTax`), and the item `==` at line 156 (`Ledger.WithoutItem`). Ids and categories that are already in one normal form behave the same in both.
