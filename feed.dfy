/**
 * The feed collection and the pure parts of the feed view: the read flags,
 * the ten-item page window, the previous/next page numbers, and which
 * entry a detail view marks as read.
 */
module Feed {
  import opened JsText

  datatype Option<T> = None | Some(value: T)

  /** One entry of the feed list; `read` is the only field the client changes. */
  datatype FeedItem = FeedItem(
    id: int,
    title: string,
    user: string,
    timeAgo: string,
    url: string,
    content: string,
    commentsCount: int,
    points: int,
    read: bool)

  /** Items per feed page. */
  const PageSize := 10

  /** `x` and `y` are the same entry, read flag aside. */
  predicate SameEntry(x: FeedItem, y: FeedItem)
  {
    x.(read := false) == y.(read := false)
  }

  /** The feed list as `makeFeeds` leaves it: every entry unread, nothing else touched. */
  function Unread(s: seq<FeedItem>): (r: seq<FeedItem>)
    ensures |r| == |s|
    ensures forall i :: 0 <= i < |r| ==> !r[i].read && SameEntry(r[i], s[i])
  {
    seq(|s|, i requires 0 <= i < |s| => s[i].(read := false))
  }

  /** `Math.ceil(n / 10)`: the number of pages needed for `n` items. */
  function MaxPage(n: nat): (m: nat)
    ensures n <= m * PageSize
    ensures m == 0 || (m - 1) * PageSize < n
  {
    (n + PageSize - 1) / PageSize
  }

  /** The "Previous" link: one page back, but never below page 1 (NaN compares false, so gives 1). */
  function PrevPage(p: Num): (r: int)
    ensures r >= 1
    ensures p.Int? && p.value >= 1 ==> r <= p.value && (r == p.value <==> p.value == 1)
    ensures p.Int? && p.value > 1 ==> r == p.value - 1
    ensures p.NaN? || p.value <= 1 ==> r == 1
  {
    if p.Int? && p.value > 1 then p.value - 1 else 1
  }

  /**
   * The "Next" link, where `n` is the feed length read before this view's
   * fetch: one page on, but never past the last page (NaN compares false,
   * so gives the last page).
   */
  function NextPage(p: Num, n: nat): (r: int)
    ensures r <= MaxPage(n)
    ensures p.Int? && p.value < MaxPage(n) ==> r == p.value + 1
    ensures p.NaN? || p.value >= MaxPage(n) ==> r == MaxPage(n)
  {
    if p.Int? && p.value < MaxPage(n) then p.value + 1 else MaxPage(n)
  }

  /** Page `p` can be rendered: all of its ten indices lie inside the feed. */
  predicate PageInRange(n: nat, p: int)
  {
    1 <= p && p * PageSize <= n
  }

  /**
   * The items the feed view shows for page `p`: the ten entries at
   * `(p-1)*10 .. p*10-1`, or `None` when one of those indices is outside
   * the feed (the view then fails reading a field of `undefined`). A NaN
   * page gives an empty window: the loop condition is false from the start.
   */
  function Window(feeds: seq<FeedItem>, p: Num): (r: Option<seq<FeedItem>>)
    ensures p.NaN? ==> r == Some([])
    ensures p.Int? ==> (r.Some? <==> PageInRange(|feeds|, p.value))
    ensures p.Int? && r.Some? ==>
      |r.value| == PageSize &&
      forall k :: 0 <= k < PageSize ==> r.value[k] == feeds[(p.value - 1) * PageSize + k]
  {
    match p
    case NaN => Some([])
    case Int(page) =>
      if PageInRange(|feeds|, page) then Some(feeds[(page - 1) * PageSize .. page * PageSize]) else None
  }

  /** `feeds[i].id === Number(id)`. */
  predicate Matches(item: FeedItem, id: Num)
    ensures Matches(item, id) <==> id == Int(item.id)
  {
    StrictEquals(Int(item.id), id)
  }

  /** The index of the first entry at or after `from` whose id is `id`. */
  function FirstMatchFrom(feeds: seq<FeedItem>, id: Num, from: nat): (r: Option<nat>)
    decreases |feeds| - from
    ensures r.Some? ==> from <= r.value < |feeds| && Matches(feeds[r.value], id)
    ensures r.Some? ==> forall j :: from <= j < r.value ==> !Matches(feeds[j], id)
    ensures r.None? ==> forall j :: from <= j < |feeds| ==> !Matches(feeds[j], id)
  {
    if from >= |feeds| then None
    else if Matches(feeds[from], id) then Some(from)
    else FirstMatchFrom(feeds, id, from + 1)
  }

  function FirstMatch(feeds: seq<FeedItem>, id: Num): Option<nat>
  {
    FirstMatchFrom(feeds, id, 0)
  }

  /** The feed list after a detail view for `id`: the first entry with that id is marked read. */
  function MarkedRead(feeds: seq<FeedItem>, id: Num): (r: seq<FeedItem>)
    ensures |r| == |feeds|
    ensures forall j :: 0 <= j < |r| ==> SameEntry(r[j], feeds[j])
    ensures forall j :: 0 <= j < |r| ==> (feeds[j].read ==> r[j].read)
    ensures (forall j :: 0 <= j < |feeds| ==> !Matches(feeds[j], id)) ==> r == feeds
    ensures forall k ::
              && 0 <= k < |feeds| && Matches(feeds[k], id)
              && (forall j :: 0 <= j < k ==> !Matches(feeds[j], id))
              ==> r == feeds[k := feeds[k].(read := true)]
  {
    match FirstMatch(feeds, id)
    case None => feeds
    case Some(k) => feeds[k := feeds[k].(read := true)]
  }

  /** With distinct ids, marking entry `k` read leaves every other entry's flag as it was. */
  lemma MarkedReadUnique(feeds: seq<FeedItem>, k: nat)
    requires k < |feeds|
    requires forall i, j :: 0 <= i < j < |feeds| ==> feeds[i].id != feeds[j].id
    ensures var r := MarkedRead(feeds, Int(feeds[k].id));
      r[k].read && forall j :: 0 <= j < |feeds| && j != k ==> r[j] == feeds[j]
  {
  }

  /** On the first render the feed is still empty, so the "Next" link points at page 0. */
  lemma NextPageBeforeFirstFetch(p: Num)
    requires p.NaN? || p.value >= 0
    ensures NextPage(p, 0) == 0
  {
  }

  /** Both links clamp at the boundaries: page 1 links back to itself, the last page forward to itself. */
  lemma LinksClampAtBoundaries(n: nat)
    ensures PrevPage(Int(1)) == 1
    ensures NextPage(Int(MaxPage(n)), n) == MaxPage(n)
  {
  }

  /** A short last page (fewer than ten items) cannot be rendered: its window runs past the feed. */
  lemma ShortLastPageOutOfRange(feeds: seq<FeedItem>)
    requires |feeds| % PageSize != 0
    ensures Window(feeds, Int(MaxPage(|feeds|))) == None
  {
  }

  /** When the feed divides into whole pages, the windows of pages 1..MaxPage tile it exactly, in order. */
  lemma {:induction false} WindowsTileFeed(feeds: seq<FeedItem>, m: nat)
    requires |feeds| % PageSize == 0 && m <= MaxPage(|feeds|)
    ensures Pages(feeds, m) == feeds[..m * PageSize]
  {
    if m > 0 {
      WindowsTileFeed(feeds, m - 1);
      assert feeds[..m * PageSize] == feeds[..(m - 1) * PageSize] + feeds[(m - 1) * PageSize .. m * PageSize];
    }
  }

  /** The concatenated windows of pages 1..m (all in range). */
  function Pages(feeds: seq<FeedItem>, m: nat): seq<FeedItem>
    requires m * PageSize <= |feeds|
  {
    if m == 0 then [] else Pages(feeds, m - 1) + Window(feeds, Int(m)).value
  }
}
