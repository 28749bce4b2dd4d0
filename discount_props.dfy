/** Properties of the discount walk: what it computes when the running value
    never goes negative, what it reports when it does, its bounds, and its
    treatment of disabled and later discounts. */
module DiscountProps {
  import opened Money
  import opened Ledger
  import opened Calc

  /** A well-formed discount never raises a non-negative running value, and a
      percent discount never takes it below zero. */
  lemma ApplyDiscountBounds(running: int, d: Discount)
    requires running >= 0 && DiscountWellFormed(d)
    ensures ApplyDiscount(running, d) <= running
    ensures d.kind == Percent ==> ApplyDiscount(running, d) >= 0
  {
    if d.isEnabled && d.kind == Percent {
      MulRoundBounds(running, d.amount);
    }
  }

  /** The first k steps of the compounding fold, seen from after the first
      step. */
  lemma CompoundPrefix(s: int, ds: seq<Discount>, k: nat)
    requires 1 <= k <= |ds|
    ensures Compound(s, ds[..k]) == Compound(ApplyDiscount(s, ds[0]), ds[1..][..k - 1])
  {
    assert ds[..k][1..] == ds[1..][..k - 1];
  }

  /** The walk, characterised by the compounding fold with no early exit:
      when it ends non-negative it equals the full fold and no prefix of the
      fold went negative; when it ends negative it equals the fold at the
      first prefix that went negative. */
  lemma {:induction false} DiscountWalkSpec(s: int, ds: seq<Discount>)
    requires s >= 0
    ensures DiscountWalk(s, ds) >= 0 ==>
              DiscountWalk(s, ds) == Compound(s, ds)
              && forall k :: 0 <= k <= |ds| ==> Compound(s, ds[..k]) >= 0
    ensures DiscountWalk(s, ds) < 0 ==>
              exists k :: 1 <= k <= |ds| && DiscountWalk(s, ds) == Compound(s, ds[..k])
                          && forall j :: 0 <= j < k ==> Compound(s, ds[..j]) >= 0
    decreases |ds|
  {
    if ds == [] {
      assert ds[..0] == ds;
    } else {
      var next := ApplyDiscount(s, ds[0]);
      assert Compound(s, ds[..0]) == s by { assert ds[..0] == []; }
      if next < 0 {
        CompoundPrefix(s, ds, 1);
        assert ds[1..][..0] == [];
        assert DiscountWalk(s, ds) == Compound(s, ds[..1]);
      } else {
        DiscountWalkSpec(next, ds[1..]);
        if DiscountWalk(s, ds) >= 0 {
          assert ds[..|ds|] == ds;
          CompoundPrefix(s, ds, |ds|);
          assert ds[1..][..|ds| - 1] == ds[1..];
          forall k | 0 <= k <= |ds|
            ensures Compound(s, ds[..k]) >= 0
          {
            if k >= 1 {
              CompoundPrefix(s, ds, k);
            }
          }
        } else {
          var k' :| 1 <= k' <= |ds[1..]| && DiscountWalk(next, ds[1..]) == Compound(next, ds[1..][..k'])
                    && forall j :: 0 <= j < k' ==> Compound(next, ds[1..][..j]) >= 0;
          CompoundPrefix(s, ds, k' + 1);
          forall j | 0 <= j < k' + 1
            ensures Compound(s, ds[..j]) >= 0
          {
            if j >= 1 {
              CompoundPrefix(s, ds, j);
            }
          }
        }
      }
    }
  }

  /** The reported discount. Without a negative excursion it is the subtotal
      less the fully compounded value; with one it is the whole subtotal. */
  lemma TotalDiscountSpec(s: int, ds: seq<Discount>)
    requires s >= 0
    ensures (forall k :: 0 <= k <= |ds| ==> Compound(s, ds[..k]) >= 0) ==>
              TotalDiscount(s, ds) == s - Compound(s, ds)
    ensures (exists k :: 0 <= k <= |ds| && Compound(s, ds[..k]) < 0) ==>
              TotalDiscount(s, ds) == s
  {
    DiscountWalkSpec(s, ds);
    if DiscountWalk(s, ds) < 0 {
      var k :| 1 <= k <= |ds| && DiscountWalk(s, ds) == Compound(s, ds[..k])
               && forall j :: 0 <= j < k ==> Compound(s, ds[..j]) >= 0;
      assert Compound(s, ds[..k]) < 0;
    }
  }

  /** With well-formed discounts the walk never ends above where it started. */
  lemma {:induction false} DiscountWalkAtMost(s: int, ds: seq<Discount>)
    requires s >= 0 && DiscountsWellFormed(ds)
    ensures DiscountWalk(s, ds) <= s
    decreases |ds|
  {
    if ds != [] {
      ApplyDiscountBounds(s, ds[0]);
      var next := ApplyDiscount(s, ds[0]);
      if next >= 0 {
        assert DiscountsWellFormed(ds[1..]) by {
          forall i | 0 <= i < |ds[1..]| ensures DiscountWellFormed(ds[1..][i]) {
            assert ds[1..][i] == ds[i + 1];
          }
        }
        DiscountWalkAtMost(next, ds[1..]);
      }
    }
  }

  /** With non-negative dollar amounts and percent rates between 0 and 1,
      the discount is between nothing and the whole subtotal, so the
      discounted subtotal is never negative. */
  lemma DiscountBounds(s: int, ds: seq<Discount>)
    requires s >= 0 && DiscountsWellFormed(ds)
    ensures 0 <= TotalDiscount(s, ds) <= s
    ensures 0 <= s - TotalDiscount(s, ds) <= s
  {
    DiscountWalkAtMost(s, ds);
  }

  /** Disabled discounts take no part: from a non-negative subtotal the walk
      over the list equals the walk over its enabled discounts alone. */
  lemma {:induction false} DisabledDiscountsIgnored(s: int, ds: seq<Discount>)
    requires s >= 0
    ensures DiscountWalk(s, ds) == DiscountWalk(s, EnabledOnly(ds))
    ensures TotalDiscount(s, ds) == TotalDiscount(s, EnabledOnly(ds))
    decreases |ds|
  {
    if ds != [] {
      var next := ApplyDiscount(s, ds[0]);
      if ds[0].isEnabled {
        assert EnabledOnly(ds) == [ds[0]] + EnabledOnly(ds[1..]);
        assert EnabledOnly(ds)[1..] == EnabledOnly(ds[1..]);
        if next >= 0 {
          DisabledDiscountsIgnored(next, ds[1..]);
        }
      } else {
        DisabledDiscountsIgnored(s, ds[1..]);
      }
    }
  }

  /** Once the walk has gone negative, discounts appended after it are never
      evaluated. */
  lemma {:induction false} LaterDiscountsIgnored(s: int, ds: seq<Discount>, more: seq<Discount>)
    requires ds != [] && DiscountWalk(s, ds) < 0
    ensures DiscountWalk(s, ds + more) == DiscountWalk(s, ds)
    decreases |ds|
  {
    assert (ds + more)[0] == ds[0];
    assert (ds + more)[1..] == ds[1..] + more;
    var next := ApplyDiscount(s, ds[0]);
    if next >= 0 {
      LaterDiscountsIgnored(next, ds[1..], more);
    }
  }

  /** A discount appended at the end is applied to the value the walk ended
      at, when that value is not negative (what re-enabling a discount does). */
  lemma {:induction false} DiscountWalkSnoc(s: int, ds: seq<Discount>, d: Discount)
    requires DiscountWalk(s, ds) >= 0
    ensures DiscountWalk(s, ds + [d]) == ApplyDiscount(DiscountWalk(s, ds), d)
    decreases |ds|
  {
    if ds == [] {
      assert ds + [d] == [d];
    } else {
      assert (ds + [d])[0] == ds[0];
      assert (ds + [d])[1..] == ds[1..] + [d];
      DiscountWalkSnoc(ApplyDiscount(s, ds[0]), ds[1..], d);
    }
  }
}
