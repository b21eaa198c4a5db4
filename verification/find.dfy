/** First-match lookups, as JavaScript's `Array.prototype.find` performs them. */
module Find {
  import opened Wrappers
  import opened Records

  /** The index of the first element satisfying `p`, or `None` when no element does. */
  function FindIndex<T>(s: seq<T>, p: T -> bool): (r: Option<nat>)
    ensures r.Some? ==> r.value < |s| && p(s[r.value])
    ensures r.Some? ==> forall j :: 0 <= j < r.value ==> !p(s[j])
    ensures r.None? <==> forall j :: 0 <= j < |s| ==> !p(s[j])
  {
    if |s| == 0 then None
    else if p(s[0]) then Some(0)
    else
      match FindIndex(s[1..], p)
      case None => None
      case Some(k) => Some(k + 1)
  }

  /** The first catalog item with identifier `id`. */
  function FindItemById(items: seq<Item>, id: ItemId): (r: Option<Item>)
    ensures r.Some? ==> r.value in items && r.value.id == id
    ensures r.Some? ==> exists k :: 0 <= k < |items| && r.value == items[k] && forall j :: 0 <= j < k ==> items[j].id != id
    ensures r.None? <==> forall it :: it in items ==> it.id != id
  {
    match FindIndex(items, (it: Item) => it.id == id)
    case None => None
    case Some(k) => Some(items[k])
  }

  /** The index of the first order line whose order identifier is `id`. */
  function FindOrder(lines: seq<Line>, id: OrderId): (r: Option<nat>)
    ensures r.Some? ==> r.value < |lines| && lines[r.value].orderId == id
    ensures r.Some? ==> forall j :: 0 <= j < r.value ==> lines[j].orderId != id
    ensures r.None? <==> forall j :: 0 <= j < |lines| ==> lines[j].orderId != id
  {
    FindIndex(lines, (l: Line) => l.orderId == id)
  }

  /** Store document identifiers: no two orders of one collection share one. */
  predicate UniqueIds(lines: seq<Line>)
  {
    forall i, j :: 0 <= i < j < |lines| ==> lines[i].orderId != lines[j].orderId
  }
}
