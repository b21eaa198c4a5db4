/**
 * The three record kinds the tuckshop front end mirrors from its document
 * store, in the flat order shape (item id and quantity at the top level of
 * each order), and the flag handling of order records: the defaults a new
 * order is saved with, the merge an edit writes, and the badge toggles.
 */
module Records {

  type ItemId = string
  type OrderId = string

  /** A catalog item with its two independent stock pools. The price is not modelled. */
  datatype Item = Item(id: ItemId, name: string, preorderStock: int, extraStock: int)

  /** A preorder, redeemed later with a coupon. Cost and creation time are not modelled. */
  datatype Preorder = Preorder(
    id: OrderId,
    name: string,
    itemId: ItemId,
    quantity: int,
    couponGiven: bool,
    couponRedeemed: bool)

  /** A walk-up ("extra") order. Cost and creation time are not modelled. */
  datatype ExtraOrder = ExtraOrder(
    id: OrderId,
    itemId: ItemId,
    quantity: int,
    paymentMethod: string,
    paid: bool)

  /** The two stock pools: preorder stock never serves an extra order, and vice versa. */
  datatype Pool = PreorderPool | ExtraPool

  function StockOf(item: Item, pool: Pool): int
  {
    match pool
    case PreorderPool => item.preorderStock
    case ExtraPool => item.extraStock
  }

  /** What the stock ledger reads of an order of either kind. */
  datatype Line = Line(orderId: OrderId, itemId: ItemId, quantity: int)

  function PreorderLines(ps: seq<Preorder>): seq<Line>
  {
    seq(|ps|, i requires 0 <= i < |ps| => Line(ps[i].id, ps[i].itemId, ps[i].quantity))
  }

  function ExtraLines(os: seq<ExtraOrder>): seq<Line>
  {
    seq(|os|, i requires 0 <= i < |os| => Line(os[i].id, os[i].itemId, os[i].quantity))
  }

  /** The two coupon badges of a preorder. */
  datatype CouponFlag = Given | Redeemed

  function Coupon(p: Preorder, f: CouponFlag): bool
  {
    match f
    case Given => p.couponGiven
    case Redeemed => p.couponRedeemed
  }

  /** The record a new preorder is added with; the store assigns `id`. */
  function NewPreorder(id: OrderId, name: string, itemId: ItemId, quantity: int): (p: Preorder)
    ensures p.id == id && p.name == name && p.itemId == itemId && p.quantity == quantity
    ensures forall f :: !Coupon(p, f)
  {
    Preorder(id, name, itemId, quantity, false, false)
  }

  /**
   * The record after an edit is merged into the stored preorder `p`: the
   * edited fields are replaced and both coupon flags are those `p` had.
   */
  function EditPreorder(p: Preorder, name: string, itemId: ItemId, quantity: int): (q: Preorder)
    ensures q.id == p.id && q.name == name && q.itemId == itemId && q.quantity == quantity
    ensures forall f :: Coupon(q, f) == Coupon(p, f)
  {
    p.(name := name, itemId := itemId, quantity := quantity)
  }

  /** A click on a coupon badge merges the negation of that one flag into the record. */
  function ToggleCoupon(p: Preorder, f: CouponFlag): (q: Preorder)
    ensures Coupon(q, f) == !Coupon(p, f)
    ensures forall g :: g != f ==> Coupon(q, g) == Coupon(p, g)
    ensures q.id == p.id && q.name == p.name && q.itemId == p.itemId && q.quantity == p.quantity
  {
    match f
    case Given => p.(couponGiven := !p.couponGiven)
    case Redeemed => p.(couponRedeemed := !p.couponRedeemed)
  }

  /** The record a new extra order is added with; the store assigns `id`. */
  function NewExtraOrder(id: OrderId, itemId: ItemId, quantity: int, paymentMethod: string): (o: ExtraOrder)
    ensures o.id == id && o.itemId == itemId && o.quantity == quantity && o.paymentMethod == paymentMethod
    ensures !o.paid
  {
    ExtraOrder(id, itemId, quantity, paymentMethod, false)
  }

  /** The record after an edit is merged into the stored extra order `o`: `paid` is kept. */
  function EditExtraOrder(o: ExtraOrder, itemId: ItemId, quantity: int, paymentMethod: string): (e: ExtraOrder)
    ensures e.id == o.id && e.itemId == itemId && e.quantity == quantity && e.paymentMethod == paymentMethod
    ensures e.paid == o.paid
  {
    o.(itemId := itemId, quantity := quantity, paymentMethod := paymentMethod)
  }

  /** A click on the paid badge merges the negation of `paid` into the record. */
  function TogglePaid(o: ExtraOrder): (e: ExtraOrder)
    ensures e.paid == !o.paid
    ensures e.id == o.id && e.itemId == o.itemId && e.quantity == o.quantity && e.paymentMethod == o.paymentMethod
  {
    o.(paid := !o.paid)
  }

  /** Two clicks on the same badge give back the record as it was. */
  lemma ToggleCouponTwice(p: Preorder, f: CouponFlag)
    ensures ToggleCoupon(ToggleCoupon(p, f), f) == p
  {
  }

  /** A badge toggle leaves what the stock ledger reads of the order untouched. */
  lemma ToggleKeepsLines(ps: seq<Preorder>, i: nat, f: CouponFlag)
    requires i < |ps|
    ensures PreorderLines(ps[i := ToggleCoupon(ps[i], f)]) == PreorderLines(ps)
  {
  }
}
