/**
 * The dashboard counters: per-pool remaining stock, floored at zero item by
 * item, and the number of coupons given and redeemed.
 */
module Dashboard {
  import opened Records
  import opened Usage

  /** The numeric tiles of the dashboard. Revenue is not modelled. */
  datatype Stats = Stats(
    totalItems: nat,
    totalPreorders: nat,
    totalExtraOrders: nat,
    preorderRemaining: int,
    extraRemaining: int,
    couponsGiven: nat,
    couponsRedeemed: nat)

  /** `Math.max(x, 0)`. */
  function Floor0(x: int): int
  {
    if x > 0 then x else 0
  }

  /** Reference definition: the sum over the items of what is left in `pool`, each floored at zero. */
  function Remaining(items: seq<Item>, pool: Pool, lines: seq<Line>): (r: int)
    ensures r >= 0
  {
    if |items| == 0 then 0
    else
      var it := items[|items| - 1];
      Remaining(items[..|items| - 1], pool, lines) + Floor0(StockOf(it, pool) - Committed(lines, it.id))
  }

  /** The sum of the items' stocks in `pool`. */
  function TotalStock(items: seq<Item>, pool: Pool): int
  {
    if |items| == 0 then 0
    else TotalStock(items[..|items| - 1], pool) + StockOf(items[|items| - 1], pool)
  }

  /** Reference definition: the number of preorders whose flag `f` is set. */
  function CountCoupons(ps: seq<Preorder>, f: CouponFlag): (n: nat)
    ensures n <= |ps|
  {
    if |ps| == 0 then 0
    else CountCoupons(ps[..|ps| - 1], f) + (if Coupon(ps[|ps| - 1], f) then 1 else 0)
  }

  method UpdateDashboardStats(items: seq<Item>, preorders: seq<Preorder>, extraOrders: seq<ExtraOrder>)
    returns (s: Stats)
    ensures s.totalItems == |items|
    ensures s.totalPreorders == |preorders|
    ensures s.totalExtraOrders == |extraOrders|
    ensures s.preorderRemaining == Remaining(items, PreorderPool, PreorderLines(preorders))
    ensures s.extraRemaining == Remaining(items, ExtraPool, ExtraLines(extraOrders))
    ensures s.couponsGiven == CountCoupons(preorders, Given)
    ensures s.couponsRedeemed == CountCoupons(preorders, Redeemed)
  {
    var preorderUsage, extraUsage := CalcUsageByItem(preorders, extraOrders);
    var preorderRemaining, extraRemaining := 0, 0;
    var couponsGiven, couponsRedeemed := 0, 0;

    for i := 0 to |items|
      invariant preorderRemaining == Remaining(items[..i], PreorderPool, PreorderLines(preorders))
      invariant extraRemaining == Remaining(items[..i], ExtraPool, ExtraLines(extraOrders))
    {
      var item := items[i];
      assert items[..i + 1][..i] == items[..i];
      preorderRemaining := preorderRemaining + Floor0(item.preorderStock - UsageOf(preorderUsage, item.id));
      extraRemaining := extraRemaining + Floor0(item.extraStock - UsageOf(extraUsage, item.id));
    }

    for i := 0 to |preorders|
      invariant couponsGiven == CountCoupons(preorders[..i], Given)
      invariant couponsRedeemed == CountCoupons(preorders[..i], Redeemed)
    {
      var p := preorders[i];
      assert preorders[..i + 1][..i] == preorders[..i];
      if p.couponGiven { couponsGiven := couponsGiven + 1; }
      if p.couponRedeemed { couponsRedeemed := couponsRedeemed + 1; }
    }

    assert items[..|items|] == items;
    assert preorders[..|preorders|] == preorders;
    s := Stats(|items|, |preorders|, |extraOrders|, preorderRemaining, extraRemaining,
               couponsGiven, couponsRedeemed);
  }

  /**
   * With no negative stock and no negative quantity, the remaining total is
   * at most the pool's total stock.
   */
  lemma {:induction false} RemainingAtMostStock(items: seq<Item>, pool: Pool, lines: seq<Line>)
    requires forall i :: 0 <= i < |items| ==> StockOf(items[i], pool) >= 0
    requires NonNegQuantities(lines)
    ensures Remaining(items, pool, lines) <= TotalStock(items, pool)
  {
    if |items| > 0 {
      var it := items[|items| - 1];
      RemainingAtMostStock(items[..|items| - 1], pool, lines);
      CommittedNonNeg(lines, it.id);
    }
  }

  /** The floor only ever raises the total: it is at least the unfloored sum of stock less usage. */
  lemma {:induction false} RemainingAtLeastUnfloored(items: seq<Item>, pool: Pool, lines: seq<Line>)
    ensures Remaining(items, pool, lines) >= TotalStock(items, pool) - TotalCommitted(items, lines)
  {
    if |items| > 0 {
      RemainingAtLeastUnfloored(items[..|items| - 1], pool, lines);
    }
  }

  /** The pool's usage summed over the catalog's items. */
  function TotalCommitted(items: seq<Item>, lines: seq<Line>): int
  {
    if |items| == 0 then 0
    else TotalCommitted(items[..|items| - 1], lines) + Committed(lines, items[|items| - 1].id)
  }

  /** The remaining total is zero exactly when every item of the pool is sold out. */
  lemma {:induction false} RemainingZeroIffSoldOut(items: seq<Item>, pool: Pool, lines: seq<Line>)
    ensures Remaining(items, pool, lines) == 0
        <==> forall i :: 0 <= i < |items| ==> StockOf(items[i], pool) <= Committed(lines, items[i].id)
  {
    if |items| > 0 {
      var n := |items| - 1;
      RemainingZeroIffSoldOut(items[..n], pool, lines);
      assert forall i :: 0 <= i < n ==> items[..n][i] == items[i];
    }
  }

  /** A click on a coupon badge moves that coupon count by exactly one and leaves the other count alone. */
  lemma {:induction false} ToggleMovesCount(ps: seq<Preorder>, k: nat, f: CouponFlag)
    requires k < |ps|
    ensures CountCoupons(ps[k := ToggleCoupon(ps[k], f)], f)
         == CountCoupons(ps, f) + (if Coupon(ps[k], f) then -1 else 1)
    ensures forall g :: g != f ==> CountCoupons(ps[k := ToggleCoupon(ps[k], f)], g) == CountCoupons(ps, g)
    decreases |ps|
  {
    var n := |ps| - 1;
    var ps' := ps[k := ToggleCoupon(ps[k], f)];
    assert ps'[..n] == if k < n then ps[..n][k := ToggleCoupon(ps[k], f)] else ps[..n];
    if k < n {
      ToggleMovesCount(ps[..n], k, f);
    }
  }
}
