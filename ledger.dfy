/** The records a bill processor keeps, its error conditions, and the list
    operations (first index, remove-all) its editing methods are built on. */
module Ledger {

  /** A billable line item. Two items are equal when all four fields are
      equal: the library leaves `==` to the client's Hashable type, and the
      repository's test fixture defines it on these four fields. */
  datatype LineItem = LineItem(id: string, amount: int, category: string, isTaxExempt: bool)

  datatype DiscountKind = Percent | DollarAmount

  /** A discount. `amount` is in cents for a DollarAmount discount and a rate
      (scaled by Money.RateScale) for a Percent discount. */
  datatype Discount = Discount(id: string, amount: int, kind: DiscountKind, isEnabled: bool)

  /** A tax rule. `amount` is a rate scaled by Money.RateScale. An empty
      category makes it a flat tax on the whole discounted subtotal; any other
      category makes it apply to the line items of that category. */
  datatype TaxRule = TaxRule(id: string, amount: int, category: string, isEnabled: bool)

  /** The two failures: a missing id, where the source calls `fatalError`, and
      a non-positive item amount, which the source's `assert` rejects in
      unoptimised builds only. */
  datatype Error = NotFound | InvalidAmount

  datatype Outcome = Pass | Fail(error: Error)

  datatype Result<T> = Success(value: T) | Failure(error: Error)

  datatype Option<T> = None | Some(value: T)

  function ItemId(b: LineItem): string { b.id }
  function DiscountId(d: Discount): string { d.id }
  function TaxId(t: TaxRule): string { t.id }

  /** The index of the first element whose key is `id` (Swift's `firstIndex`). */
  function FirstIndex<T>(s: seq<T>, key: T -> string, id: string): (r: Option<nat>)
    ensures r.Some? ==> r.value < |s| && key(s[r.value]) == id
    ensures r.Some? ==> forall j :: 0 <= j < r.value ==> key(s[j]) != id
    ensures r.None? <==> forall j :: 0 <= j < |s| ==> key(s[j]) != id
  {
    if |s| == 0 then None
    else if key(s[0]) == id then Some(0)
    else match FirstIndex(s[1..], key, id)
      case None => None
      case Some(k) => Some(k + 1)
  }

  /** `s` without its element at index k, the rest in order (Swift's `remove(at:)`). */
  function RemoveAt<T>(s: seq<T>, k: nat): (r: seq<T>)
    requires k < |s|
    ensures |r| == |s| - 1
    ensures forall j :: 0 <= j < k ==> r[j] == s[j]
    ensures forall j :: k <= j < |r| ==> r[j] == s[j + 1]
  {
    s[..k] + s[k + 1..]
  }

  /** Every item of the bill except those equal to `x` on all four fields,
      the rest in order (removeAll with the equality predicate). */
  function WithoutItem(bill: seq<LineItem>, x: LineItem): (r: seq<LineItem>)
    ensures forall y :: y in r <==> y in bill && y != x
    ensures x !in bill ==> r == bill
  {
    if bill == [] then []
    else
      assert bill == [bill[0]] + bill[1..];
      if bill[0] == x then WithoutItem(bill[1..], x)
      else [bill[0]] + WithoutItem(bill[1..], x)
  }

  /** Every tax rule whose id differs from `id`, the rest in order
      (removeAll with the id predicate). */
  function WithoutTaxId(taxes: seq<TaxRule>, id: string): (r: seq<TaxRule>)
    ensures forall t :: t in r <==> t in taxes && t.id != id
    ensures (forall t :: t in taxes ==> t.id != id) ==> r == taxes
  {
    if taxes == [] then []
    else
      assert taxes == [taxes[0]] + taxes[1..];
      if taxes[0].id == id then WithoutTaxId(taxes[1..], id)
      else [taxes[0]] + WithoutTaxId(taxes[1..], id)
  }

  /** The enabled discounts, in order. */
  function EnabledOnly(ds: seq<Discount>): (r: seq<Discount>)
    ensures forall d :: d in r <==> d in ds && d.isEnabled
  {
    if ds == [] then []
    else
      assert ds == [ds[0]] + ds[1..];
      if ds[0].isEnabled then [ds[0]] + EnabledOnly(ds[1..])
      else EnabledOnly(ds[1..])
  }

  /** Filtering distributes over appending one more discount. */
  lemma {:induction false} EnabledOnlySnoc(ds: seq<Discount>, d: Discount)
    ensures EnabledOnly(ds + [d]) == EnabledOnly(ds) + (if d.isEnabled then [d] else [])
  {
    if ds == [] {
      assert ds + [d] == [d];
    } else {
      assert (ds + [d])[1..] == ds[1..] + [d];
      EnabledOnlySnoc(ds[1..], d);
    }
  }

  /** Removing x from a bill with one more item keeps that item, at the end,
      exactly when it is not x: the kept items stay in order, copies included. */
  lemma {:induction false} WithoutItemSnoc(bill: seq<LineItem>, y: LineItem, x: LineItem)
    ensures WithoutItem(bill + [y], x) == WithoutItem(bill, x) + (if y == x then [] else [y])
  {
    if bill == [] {
      assert bill + [y] == [y];
    } else {
      assert (bill + [y])[1..] == bill[1..] + [y];
      WithoutItemSnoc(bill[1..], y, x);
    }
  }

  /** The same for removing the rules with a given id. */
  lemma {:induction false} WithoutTaxIdSnoc(taxes: seq<TaxRule>, t: TaxRule, id: string)
    ensures WithoutTaxId(taxes + [t], id) == WithoutTaxId(taxes, id) + (if t.id == id then [] else [t])
  {
    if taxes == [] {
      assert taxes + [t] == [t];
    } else {
      assert (taxes + [t])[1..] == taxes[1..] + [t];
      WithoutTaxIdSnoc(taxes[1..], t, id);
    }
  }
}
