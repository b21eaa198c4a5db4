/**
 * The stock check the order dialogs run on every change of the selected
 * item or the quantity: the pool's usage of the item, minus the edited
 * order's own quantity when it is on that item, gives `before`; the
 * requested quantity then gives `after`; the warning follows from the two.
 */
module Availability {
  import opened Wrappers
  import opened Records
  import opened Find
  import opened Usage

  /** The feedback the dialog shows. `Idle` is the empty warning of the no-op path. */
  datatype Outcome =
    | Idle
    | NoStockLeft
    | OnlyLeft(left: int)
    | StockAfter(after: int)

  /** The three-way policy, first match wins: no stock left, only `before` left, or stock after. */
  function Classify(before: int, qty: int): (r: Outcome)
    ensures r == NoStockLeft <==> before <= 0
    ensures r == OnlyLeft(before) <==> 0 < before < qty
    ensures r == StockAfter(before - qty) <==> 0 < before && qty <= before
    ensures r != Idle
  {
    if before <= 0 then NoStockLeft
    else if before - qty < 0 then OnlyLeft(before)
    else StockAfter(before - qty)
  }

  /** The quantity of item `itemId` the edited order already holds, if it is found and on that item. */
  function Excluded(lines: seq<Line>, itemId: ItemId, editing: Option<OrderId>): int
  {
    match editing
    case None => 0
    case Some(eid) =>
      match FindOrder(lines, eid)
      case None => 0
      case Some(k) => if lines[k].itemId == itemId then lines[k].quantity else 0
  }

  /** The usage the check counts against the item: the pool's usage less the edited order's own share. */
  function Used(lines: seq<Line>, itemId: ItemId, editing: Option<OrderId>): int
  {
    Committed(lines, itemId) - Excluded(lines, itemId, editing)
  }

  /**
   * Reference definition of the check for one pool whose orders are `lines`:
   * an unknown item or a zero (absent) quantity is a no-op, not an error.
   */
  function Check(items: seq<Item>, pool: Pool, lines: seq<Line>, selected: ItemId, qty: int,
                 editing: Option<OrderId>): (r: Outcome)
    ensures r == Idle <==> FindItemById(items, selected).None? || qty == 0
  {
    match FindItemById(items, selected)
    case None => Idle
    case Some(item) =>
      if qty == 0 then Idle
      else Classify(StockOf(item, pool) - Used(lines, item.id, editing), qty)
  }

  /** The preorder dialog's check, computed from the usage maps. */
  method UpdatePreorderCost(items: seq<Item>, preorders: seq<Preorder>, extraOrders: seq<ExtraOrder>,
                            selected: ItemId, qty: int, editing: Option<OrderId>)
    returns (r: Outcome)
    ensures r == Check(items, PreorderPool, PreorderLines(preorders), selected, qty, editing)
  {
    var item := FindItemById(items, selected);
    if item.None? || qty == 0 {
      return Idle;
    }
    var preorderUsage, _ := CalcUsageByItem(preorders, extraOrders);
    var used := UsageOf(preorderUsage, item.value.id);
    if editing.Some? {
      var lines := PreorderLines(preorders);
      var existing := FindOrder(lines, editing.value);
      if existing.Some? && lines[existing.value].itemId == item.value.id {
        used := used - lines[existing.value].quantity;
      }
    }
    var before := item.value.preorderStock - used;
    r := Classify(before, qty);
  }

  /** The extra-order dialog's check: the same computation over the extra pool. */
  method UpdateExtraCost(items: seq<Item>, preorders: seq<Preorder>, extraOrders: seq<ExtraOrder>,
                         selected: ItemId, qty: int, editing: Option<OrderId>)
    returns (r: Outcome)
    ensures r == Check(items, ExtraPool, ExtraLines(extraOrders), selected, qty, editing)
  {
    var item := FindItemById(items, selected);
    if item.None? || qty == 0 {
      return Idle;
    }
    var _, extraUsage := CalcUsageByItem(preorders, extraOrders);
    var used := UsageOf(extraUsage, item.value.id);
    if editing.Some? {
      var lines := ExtraLines(extraOrders);
      var existing := FindOrder(lines, editing.value);
      if existing.Some? && lines[existing.value].itemId == item.value.id {
        used := used - lines[existing.value].quantity;
      }
    }
    var before := item.value.extraStock - used;
    r := Classify(before, qty);
  }

  /** All orders but the one with identifier `eid`. */
  function Without(lines: seq<Line>, eid: OrderId): seq<Line>
  {
    if |lines| == 0 then []
    else
      var last := lines[|lines| - 1];
      Without(lines[..|lines| - 1], eid) + (if last.orderId == eid then [] else [last])
  }

  lemma {:induction false} WithoutAppend(a: seq<Line>, b: seq<Line>, eid: OrderId)
    ensures Without(a + b, eid) == Without(a, eid) + Without(b, eid)
    decreases |b|
  {
    if |b| == 0 {
      assert a + b == a;
    } else {
      var b' := b[..|b| - 1];
      assert (a + b)[..|a + b| - 1] == a + b';
      assert (a + b)[|a + b| - 1] == b[|b| - 1];
      WithoutAppend(a, b', eid);
    }
  }

  lemma {:induction false} WithoutAbsent(lines: seq<Line>, eid: OrderId)
    requires forall j :: 0 <= j < |lines| ==> lines[j].orderId != eid
    ensures Without(lines, eid) == lines
  {
    if |lines| > 0 {
      WithoutAbsent(lines[..|lines| - 1], eid);
    }
  }

  /** Leaving out the one line with identifier `eid` between two runs without it joins the runs. */
  lemma WithoutDrop(pre: seq<Line>, x: Line, post: seq<Line>, eid: OrderId)
    requires x.orderId == eid
    requires forall j :: 0 <= j < |pre| ==> pre[j].orderId != eid
    requires forall j :: 0 <= j < |post| ==> post[j].orderId != eid
    ensures Without(pre + [x] + post, eid) == pre + post
  {
    WithoutAbsent(pre, eid);
    WithoutAbsent(post, eid);
    assert Without([x], eid) == [] by {
      assert [x][..0] == [];
    }
    WithoutAppend(pre + [x], post, eid);
    WithoutAppend(pre, [x], eid);
  }

  /** When no other order carries its id, leaving out the order at index `k` removes exactly that one line. */
  lemma WithoutFound(lines: seq<Line>, k: nat)
    requires k < |lines|
    requires forall j :: 0 <= j < |lines| && j != k ==> lines[j].orderId != lines[k].orderId
    ensures Without(lines, lines[k].orderId) == lines[..k] + lines[k + 1..]
  {
    var pre, x, post := lines[..k], lines[k], lines[k + 1..];
    forall j | 0 <= j < |pre| ensures pre[j].orderId != x.orderId {
      assert pre[j] == lines[j];
    }
    forall j | 0 <= j < |post| ensures post[j].orderId != x.orderId {
      assert post[j] == lines[k + 1 + j];
    }
    SplitAt(lines, k);
    WithoutDrop(pre, x, post, x.orderId);
  }

  /**
   * No double counting: the usage the check counts while order `eid` is
   * edited is exactly the usage of all the other orders of the pool.
   */
  lemma UsedCountsOtherOrders(lines: seq<Line>, itemId: ItemId, eid: OrderId)
    requires UniqueIds(lines)
    ensures Used(lines, itemId, Some(eid)) == Committed(Without(lines, eid), itemId)
  {
    match FindOrder(lines, eid)
    case None =>
      WithoutAbsent(lines, eid);
    case Some(k) =>
      assert forall j :: 0 <= j < |lines| && j != k ==> lines[j].orderId != lines[k].orderId;
      WithoutFound(lines, k);
      CommittedRemove(lines, k, itemId);
  }

  /**
   * The pool's orders, as the front end mirrors them, once the dialog's order
   * is saved. A new order is added under the identifier `freshId` the store
   * assigns, with a creation time. An edit merges into the stored order. An
   * edit of an order that is gone writes a document without a creation time.
   * The listeners query by creation time, so that document never reaches
   * the mirrored pool, and the pool is unchanged.
   */
  function AfterSave(lines: seq<Line>, editing: Option<OrderId>, freshId: OrderId,
                     itemId: ItemId, qty: int): seq<Line>
  {
    match editing
    case None => lines + [Line(freshId, itemId, qty)]
    case Some(eid) =>
      match FindOrder(lines, eid)
      case None => lines
      case Some(k) => lines[k := Line(eid, itemId, qty)]
  }

  /**
   * For a positive quantity on a known item, a new order or an edit of an
   * order still in the pool is accepted exactly when saving it would leave
   * the pool's usage of the item within its stock, and the stock it reports
   * afterwards is what would then be left.
   */
  lemma CheckMatchesSave(items: seq<Item>, pool: Pool, lines: seq<Line>, selected: ItemId, qty: int,
                         editing: Option<OrderId>, freshId: OrderId)
    requires FindItemById(items, selected).Some?
    requires qty > 0
    requires editing.None? || FindOrder(lines, editing.value).Some?
    ensures var stock := StockOf(FindItemById(items, selected).value, pool);
            var saved := Committed(AfterSave(lines, editing, freshId, selected, qty), selected);
            && (Check(items, pool, lines, selected, qty, editing).StockAfter? <==> saved <= stock)
            && (Check(items, pool, lines, selected, qty, editing).StockAfter? ==>
                  Check(items, pool, lines, selected, qty, editing).after == stock - saved)
  {
    var saved := Committed(AfterSave(lines, editing, freshId, selected, qty), selected);
    var l := Line(if editing.Some? then editing.value else freshId, selected, qty);
    assert (lines + [l])[..|lines|] == lines;
    if editing.Some? {
      var k := FindOrder(lines, editing.value).value;
      CommittedUpdate(lines, k, l, selected);
    }
    assert saved == Used(lines, selected, editing) + qty;
  }

  /**
   * The other case: the order being edited is gone from the pool. The check
   * then judges the quantity exactly as for a new order, yet saving leaves
   * the mirrored pool as it was.
   */
  lemma CheckVanishedEdit(items: seq<Item>, pool: Pool, lines: seq<Line>, selected: ItemId, qty: int,
                          eid: OrderId, freshId: OrderId)
    requires FindOrder(lines, eid).None?
    ensures Check(items, pool, lines, selected, qty, Some(eid)) == Check(items, pool, lines, selected, qty, None)
    ensures AfterSave(lines, Some(eid), freshId, selected, qty) == lines
  {
  }

  /**
   * Opening an order for edit and leaving it as it is never warns about
   * stock: if the pool's usage fits the item's stock, the check accepts and
   * reports the stock left with every order counted once.
   */
  lemma EditUnchangedNeverRejects(items: seq<Item>, pool: Pool, lines: seq<Line>, k: nat)
    requires UniqueIds(lines)
    requires k < |lines|
    requires FindItemById(items, lines[k].itemId).Some?
    requires lines[k].quantity > 0
    requires Committed(lines, lines[k].itemId) <= StockOf(FindItemById(items, lines[k].itemId).value, pool)
    ensures Check(items, pool, lines, lines[k].itemId, lines[k].quantity, Some(lines[k].orderId))
         == StockAfter(StockOf(FindItemById(items, lines[k].itemId).value, pool) - Committed(lines, lines[k].itemId))
  {
    var e := lines[k];
    assert FindOrder(lines, e.orderId) == Some(k);
    assert Excluded(lines, e.itemId, Some(e.orderId)) == e.quantity;
  }
}
