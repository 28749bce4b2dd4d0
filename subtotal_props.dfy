/** How the subtotal responds to the line-item edits: appending, replacing
    one item, and removing every copy of an item. */
module SubtotalProps {
  import opened Ledger
  import opened Calc

  lemma {:induction false} AmountSumConcat(a: seq<LineItem>, b: seq<LineItem>)
    ensures AmountSum(a + b) == AmountSum(a) + AmountSum(b)
    decreases |a|
  {
    if a == [] {
      assert a + b == b;
    } else {
      assert (a + b)[1..] == a[1..] + b;
      AmountSumConcat(a[1..], b);
    }
  }

  /** Appending an item (addBillableItem) adds its amount to the subtotal. */
  lemma SubtotalAppend(bill: seq<LineItem>, x: LineItem)
    ensures Subtotal(bill + [x]) == Subtotal(bill) + x.amount
  {
    AmountSumConcat(bill, [x]);
  }

  /** Replacing the item at k (updateBillable) swaps its amount for the new
      one's. */
  lemma SubtotalUpdate(bill: seq<LineItem>, k: nat, x: LineItem)
    requires k < |bill|
    ensures Subtotal(bill[k := x]) == Subtotal(bill) - bill[k].amount + x.amount
  {
    assert bill == bill[..k] + [bill[k]] + bill[k + 1..];
    assert bill[k := x] == bill[..k] + [x] + bill[k + 1..];
    AmountSumConcat(bill[..k] + [bill[k]], bill[k + 1..]);
    AmountSumConcat(bill[..k], [bill[k]]);
    AmountSumConcat(bill[..k] + [x], bill[k + 1..]);
    AmountSumConcat(bill[..k], [x]);
  }

  /** Removing every copy of an item (removeBillableItem) takes its amount
      off once for each copy; removing an absent item changes nothing. */
  lemma {:induction false} SubtotalWithoutItem(bill: seq<LineItem>, x: LineItem)
    ensures Subtotal(WithoutItem(bill, x)) == Subtotal(bill) - multiset(bill)[x] * x.amount
    decreases |bill|
  {
    if bill != [] {
      var rest := bill[1..];
      assert bill == [bill[0]] + rest;
      var c := multiset(rest)[x];
      SubtotalWithoutItem(rest, x);
      if bill[0] == x {
        assert multiset(bill)[x] == c + 1;
        MulSucc(c, x.amount);
      } else {
        assert multiset(bill)[x] == c;
        assert WithoutItem(bill, x) == [bill[0]] + WithoutItem(rest, x);
      }
    }
  }

  lemma MulSucc(c: int, a: int)
    ensures (c + 1) * a == c * a + a
  {
  }

  predicate AmountsNonNegative(bill: seq<LineItem>)
  {
    forall b :: b in bill ==> b.amount >= 0
  }

  /** A bill of non-negative amounts has a non-negative subtotal, and a
      positive one as soon as any of its items has a positive amount. */
  lemma {:induction false} SubtotalSign(bill: seq<LineItem>)
    requires AmountsNonNegative(bill)
    ensures Subtotal(bill) >= 0
    ensures (exists b :: b in bill && b.amount > 0) ==> Subtotal(bill) > 0
    decreases |bill|
  {
    if bill != [] {
      assert bill == [bill[0]] + bill[1..];
      assert forall u :: u in bill[1..] ==> u in bill;
      assert bill[0] in bill;
      SubtotalSign(bill[1..]);
      if exists b :: b in bill && b.amount > 0 {
        var b :| b in bill && b.amount > 0;
        assert b == bill[0] || b in bill[1..];
      }
    }
  }
}
