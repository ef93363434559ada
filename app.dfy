/**
 * The client's state and control flow: the process-wide store, the feed
 * view with its fetch-once initialisation, the detail view that marks an
 * entry read, and the hash router that chooses between them.
 *
 * The network is not modelled: each view receives, as a parameter, the
 * answer its request would get (the parsed feed list, the parsed item).
 * Views return what they would render instead of writing the DOM.
 */
module App {
  import opened JsText
  import opened Feed
  import opened CommentTree

  /** An item as the detail endpoint returns it. */
  datatype ItemDetail = ItemDetail(
    id: int,
    title: string,
    user: string,
    timeAgo: string,
    url: string,
    content: string,
    comments: seq<Comment>)

  /** What the feed view renders: the page's items (with their read flags) and the two links. */
  datatype FeedPage = FeedPage(items: seq<FeedItem>, prevPage: int, nextPage: int)

  /**
   * What the detail view renders: the id it requested, the item's title,
   * the page its back link returns to, and the comment blocks.
   */
  datatype DetailPage = DetailPage(itemId: string, title: string, backPage: Num, comments: seq<Block>)

  /** The outcome of one route: a rendered view, or a feed view that stopped before rendering. */
  datatype View = FeedView(page: FeedPage) | DetailView(detail: DetailPage) | Aborted

  /** The route a URL fragment (`location.hash`, "#" included) selects. */
  datatype Route = FeedRoute | PageRoute(page: Num) | DetailRoute(id: string)

  /** Length of the "#/page/" and "#/show/" prefixes that precede a page number or an id. */
  const PrefixLength := 7

  /**
   * The router's three-way choice: the empty fragment shows the current
   * page; a fragment with "page" anywhere in it selects the page numbered
   * by its suffix from position 7; anything else is a detail route for the
   * id at position 7.
   */
  function Classify(hash: string): (r: Route)
    ensures r.FeedRoute? <==> hash == []
    ensures r.PageRoute? <==> hash != [] && Contains(hash, "page")
    ensures r.PageRoute? ==> r.page == ToNumber(Substr(hash, PrefixLength))
    ensures r.DetailRoute? ==> r.id == Substr(hash, PrefixLength)
  {
    if hash == [] then FeedRoute
    else if IndexOf(hash, "page") >= 0 then PageRoute(ToNumber(Substr(hash, PrefixLength)))
    else DetailRoute(Substr(hash, PrefixLength))
  }

  /** The feed view's outcome for the given feed list, current page and pre-fetch length. */
  function FeedViewOf(feeds: seq<FeedItem>, p: Num, lengthBeforeFetch: nat): (v: View)
    ensures !v.DetailView?
    ensures v.Aborted? <==> Window(feeds, p).None?
    ensures v.FeedView? ==>
      && v.page.items == Window(feeds, p).value
      && 1 <= v.page.prevPage
      && v.page.nextPage <= MaxPage(lengthBeforeFetch)
  {
    match Window(feeds, p)
    case None => Aborted
    case Some(items) => FeedView(FeedPage(items, PrevPage(p), NextPage(p, lengthBeforeFetch)))
  }

  /** The link "#/page/N" that the feed and detail views emit routes back to page N. */
  lemma PageLinkRoundTrip(n: nat)
    ensures Classify("#/page/" + NatToString(n)) == PageRoute(Int(n))
  {
    var hash := "#/page/" + NatToString(n);
    assert OccursAt(hash, "page", 2) by {
      assert hash[2..6] == "page";
    }
    assert Substr(hash, PrefixLength) == NatToString(n);
    NumberOfString(n);
  }

  /** The link "#/show/ID" of a feed entry routes to the detail view for that id. */
  lemma ShowLinkRoundTrip(n: nat)
    ensures Classify("#/show/" + NatToString(n)) == DetailRoute(NatToString(n))
  {
    var hash := "#/show/" + NatToString(n);
    forall i | 0 <= i < |hash| ensures hash[i] != 'p' {
      if i >= PrefixLength {
        assert hash[i] == NatToString(n)[i - PrefixLength];
        assert IsDigit(hash[i]);
      }
    }
    NotContainedWithoutFirstChar(hash, "page");
    assert Substr(hash, PrefixLength) == NatToString(n);
  }

  /** `makeFeeds`: clears every read flag in place and returns the same array. */
  method MakeFeeds(feeds: array<FeedItem>) returns (r: array<FeedItem>)
    modifies feeds
    ensures r == feeds
    ensures feeds[..] == Unread(old(feeds[..]))
  {
    for i := 0 to feeds.Length
      invariant forall j :: 0 <= j < i ==> feeds[j] == old(feeds[j]).(read := false)
      invariant forall j :: i <= j < feeds.Length ==> feeds[j] == old(feeds[j])
    {
      feeds[i] := feeds[i].(read := false);
    }
    r := feeds;
  }

  /**
   * The feed view's loop over indices `(p-1)*10 .. p*10-1`: collects the
   * entries in order, and fails at the first index outside the array.
   */
  method CollectWindow(feeds: array<FeedItem>, p: Num) returns (r: Option<seq<FeedItem>>)
    ensures r == Window(feeds[..], p)
  {
    match p
    case NaN =>
      r := Some([]);
    case Int(page) =>
      var start := (page - 1) * PageSize;
      var list := [];
      var i := start;
      while i < page * PageSize
        invariant start <= i <= page * PageSize
        invariant i > start ==> 0 <= start && i <= feeds.Length && list == feeds[start..i]
        invariant i == start ==> list == []
      {
        if i < 0 || i >= feeds.Length {
          return None;
        }
        list := list + [feeds[i]];
        i := i + 1;
      }
      r := Some(list);
  }

  /** The process-wide store: the current page and the feed list. */
  class Store {
    var currentPage: Num
    var feeds: array<FeedItem>

    /** Start-up state: page 1, no feed fetched yet. */
    constructor ()
      ensures currentPage == Int(1)
      ensures fresh(feeds) && feeds.Length == 0
    {
      currentPage := Int(1);
      feeds := new FeedItem[0];
    }

    /**
     * The detail view's loop: sets `read` on the first entry whose id is
     * `id` and stops; without a match the feed list is left as it was.
     */
    method MarkRead(id: Num)
      modifies feeds
      ensures feeds[..] == MarkedRead(old(feeds[..]), id)
    {
      var i := 0;
      while i < feeds.Length
        invariant 0 <= i <= feeds.Length
        invariant feeds[..] == old(feeds[..])
        invariant forall j :: 0 <= j < i ==> !Matches(feeds[j], id)
      {
        if StrictEquals(Int(feeds[i].id), id) {
          feeds[i] := feeds[i].(read := true);
          break;
        }
        i := i + 1;
      }
    }

    /**
     * `newsFeed`: fetches the feed list only while the store's list is
     * empty, then renders the window of the current page. The "Next" link's
     * last page is computed from the list length as it was before the fetch.
     */
    method NewsFeed(fetched: seq<FeedItem>) returns (v: View)
      modifies this
      ensures currentPage == old(currentPage)
      ensures old(feeds.Length) == 0 ==> fresh(feeds) && feeds[..] == Unread(fetched)
      ensures old(feeds.Length) != 0 ==> feeds == old(feeds) && feeds[..] == old(feeds[..])
      ensures v == FeedViewOf(feeds[..], currentPage, old(feeds.Length))
    {
      var lengthBeforeFetch := feeds.Length;
      if feeds.Length == 0 {
        var parsed := new FeedItem[|fetched|](i requires 0 <= i < |fetched| => fetched[i]);
        feeds := MakeFeeds(parsed);
      }
      var window := CollectWindow(feeds, currentPage);
      match window
      case None =>
        v := Aborted;
      case Some(items) =>
        v := FeedView(FeedPage(items, PrevPage(currentPage), NextPage(currentPage, lengthBeforeFetch)));
    }

    /**
     * `newsDetail`: requests the item whose id is the fragment from position
     * 7 (`item` is the answer), links back to the current page, marks the
     * matching feed entry read and renders the comment thread.
     */
    method NewsDetail(hash: string, item: ItemDetail) returns (d: DetailPage)
      modifies feeds
      ensures feeds[..] == MarkedRead(old(feeds[..]), ToNumber(Substr(hash, PrefixLength)))
      ensures d == DetailPage(Substr(hash, PrefixLength), item.title, currentPage, Rendered(item.comments))
    {
      var id := Substr(hash, PrefixLength);
      var backPage := currentPage;
      MarkRead(ToNumber(id));
      var comments := MakeComment(item.comments);
      d := DetailPage(id, item.title, backPage, comments);
    }

    /**
     * `router`: only a page route writes `currentPage`; the feed and page
     * routes run the feed view, the detail route the detail view.
     */
    method Router(hash: string, fetched: seq<FeedItem>, item: ItemDetail) returns (v: View)
      modifies this, feeds
      ensures var route := Classify(hash);
        && currentPage == (if route.PageRoute? then route.page else old(currentPage))
        && (route.DetailRoute? ==>
              && feeds == old(feeds)
              && feeds[..] == MarkedRead(old(feeds[..]), ToNumber(route.id))
              && v == DetailView(DetailPage(route.id, item.title, currentPage, Rendered(item.comments))))
        && (!route.DetailRoute? ==>
              && (old(feeds.Length) == 0 ==> fresh(feeds) && feeds[..] == Unread(fetched))
              && (old(feeds.Length) != 0 ==> feeds == old(feeds) && feeds[..] == old(feeds[..]))
              && v == FeedViewOf(feeds[..], currentPage, old(feeds.Length)))
    {
      match Classify(hash)
      case FeedRoute =>
        v := NewsFeed(fetched);
      case PageRoute(page) =>
        currentPage := page;
        v := NewsFeed(fetched);
      case DetailRoute(_) =>
        var d := NewsDetail(hash, item);
        v := DetailView(d);
    }
  }
}
