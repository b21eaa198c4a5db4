/**
 * Usage accumulation: for one stock pool, how many units of each item the
 * existing orders of that pool have committed.
 */
module Usage {
  import opened Records

  /** Reads a usage map the way the front end does: a missing entry is 0. */
  function UsageOf(usage: map<ItemId, int>, id: ItemId): int
  {
    if id in usage then usage[id] else 0
  }

  /** What one order line commits of item `id`. */
  function Contribution(l: Line, id: ItemId): int
  {
    if l.itemId == id then l.quantity else 0
  }

  /** Reference definition: the sum of the quantities of the lines on item `id`. */
  function Committed(lines: seq<Line>, id: ItemId): int
  {
    if |lines| == 0 then 0
    else Committed(lines[..|lines| - 1], id) + Contribution(lines[|lines| - 1], id)
  }

  /** The items some line refers to. */
  function ItemIds(lines: seq<Line>): set<ItemId>
  {
    set l | l in lines :: l.itemId
  }

  predicate NonNegQuantities(lines: seq<Line>)
  {
    forall i :: 0 <= i < |lines| ==> lines[i].quantity >= 0
  }

  /** One pass over one pool's orders, adding each quantity into its item's entry. */
  method Accumulate(lines: seq<Line>) returns (usage: map<ItemId, int>)
    ensures usage.Keys == ItemIds(lines)
    ensures forall id :: UsageOf(usage, id) == Committed(lines, id)
  {
    usage := map[];
    for i := 0 to |lines|
      invariant usage.Keys == ItemIds(lines[..i])
      invariant forall id :: UsageOf(usage, id) == Committed(lines[..i], id)
    {
      var l := lines[i];
      usage := usage[l.itemId := UsageOf(usage, l.itemId) + l.quantity];
      assert lines[..i + 1][..i] == lines[..i];
      assert lines[..i + 1] == lines[..i] + [l];
    }
    assert lines[..|lines|] == lines;
  }

  /**
   * The two usage maps, one per pool. Each map is built from its own pool's
   * orders only, so an order of one kind never counts against the other pool.
   */
  method CalcUsageByItem(preorders: seq<Preorder>, extraOrders: seq<ExtraOrder>)
    returns (preorderUsage: map<ItemId, int>, extraUsage: map<ItemId, int>)
    ensures preorderUsage.Keys == ItemIds(PreorderLines(preorders))
    ensures forall id :: UsageOf(preorderUsage, id) == Committed(PreorderLines(preorders), id)
    ensures extraUsage.Keys == ItemIds(ExtraLines(extraOrders))
    ensures forall id :: UsageOf(extraUsage, id) == Committed(ExtraLines(extraOrders), id)
  {
    preorderUsage := Accumulate(PreorderLines(preorders));
    extraUsage := Accumulate(ExtraLines(extraOrders));
  }

  /** Usage over two consecutive runs of orders is the sum of their usages. */
  lemma {:induction false} CommittedAppend(a: seq<Line>, b: seq<Line>, id: ItemId)
    ensures Committed(a + b, id) == Committed(a, id) + Committed(b, id)
    decreases |b|
  {
    if |b| == 0 {
      assert a + b == a;
    } else {
      var b' := b[..|b| - 1];
      assert (a + b)[..|a + b| - 1] == a + b';
      assert (a + b)[|a + b| - 1] == b[|b| - 1];
      CommittedAppend(a, b', id);
    }
  }

  /**
   * A list is the run before index `k`, the element at `k` and the run after
   * it. Stated on its own so that the identity is proved outside the larger
   * proofs that use it.
   */
  lemma SplitAt(lines: seq<Line>, k: nat)
    requires k < |lines|
    ensures lines == lines[..k] + [lines[k]] + lines[k + 1..]
  {
  }

  /** Replacing one order changes the usage by exactly the difference of the two contributions. */
  lemma CommittedUpdate(lines: seq<Line>, k: nat, l: Line, id: ItemId)
    requires k < |lines|
    ensures Committed(lines[k := l], id)
         == Committed(lines, id) - Contribution(lines[k], id) + Contribution(l, id)
  {
    var pre, post := lines[..k], lines[k + 1..];
    SplitAt(lines, k);
    assert lines[k := l] == pre + [l] + post;
    CommittedAppend(pre + [lines[k]], post, id);
    CommittedAppend(pre + [l], post, id);
  }

  /** Taking one order out of a list lowers the usage by that order's contribution. */
  lemma CommittedRemove(b: seq<Line>, j: nat, id: ItemId)
    requires j < |b|
    ensures Committed(b, id) == Committed(b[..j] + b[j + 1..], id) + Contribution(b[j], id)
  {
    SplitAt(b, j);
    CommittedAppend(b[..j] + [b[j]], b[j + 1..], id);
    CommittedAppend(b[..j], b[j + 1..], id);
  }

  lemma MultisetRemove(b: seq<Line>, j: nat)
    requires j < |b|
    ensures multiset(b[..j] + b[j + 1..]) == multiset(b) - multiset{b[j]}
  {
    SplitAt(b, j);
  }

  /** The usage does not depend on the order in which the orders are listed. */
  lemma {:induction false} CommittedPermutation(a: seq<Line>, b: seq<Line>, id: ItemId)
    requires multiset(a) == multiset(b)
    ensures Committed(a, id) == Committed(b, id)
    decreases |a|
  {
    if |a| == 0 {
      assert |b| == |multiset(b)| == 0;
    } else {
      var n := |a| - 1;
      var x := a[n];
      assert x in multiset(b);
      var j :| 0 <= j < |b| && b[j] == x;
      MultisetRemove(b, j);
      assert a == a[..n] + [x];
      assert multiset(a[..n]) == multiset(a) - multiset{x};
      CommittedPermutation(a[..n], b[..j] + b[j + 1..], id);
      CommittedRemove(b, j, id);
    }
  }

  /** Orders with non-negative quantities never commit a negative amount. */
  lemma {:induction false} CommittedNonNeg(lines: seq<Line>, id: ItemId)
    requires NonNegQuantities(lines)
    ensures Committed(lines, id) >= 0
  {
    if |lines| > 0 {
      CommittedNonNeg(lines[..|lines| - 1], id);
    }
  }
}
