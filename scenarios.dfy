/**
 * Whole navigation sessions, each starting from a fresh store, with what
 * the views render along the way.
 */
module Scenarios {
  import opened JsText
  import opened Feed
  import opened App

  /** Going to page `n` and then to the empty fragment keeps page `n`: the store, not the URL, holds the page. */
  method ReturnToFeedKeepsPage(fetched: seq<FeedItem>, item: ItemDetail, n: nat) returns (page: Num)
    ensures page == Int(n)
  {
    var store := new Store();
    PageLinkRoundTrip(n);
    var paged := store.Router("#/page/" + NatToString(n), fetched, item);
    var back := store.Router("", fetched, item);
    page := store.currentPage;
  }

  /**
   * Opening entry `k` of the first page from the feed and returning to the
   * feed shows that entry read and every other entry of the page unread:
   * the feed list is not fetched again, so the flag survives.
   */
  method ReadFlagPersists(fetched: seq<FeedItem>, item: ItemDetail, k: nat) returns (v: View)
    requires PageSize <= |fetched| && k < PageSize
    requires fetched[k].id >= 0
    requires forall i, j :: 0 <= i < j < |fetched| ==> fetched[i].id != fetched[j].id
    ensures v.FeedView? && |v.page.items| == PageSize
    ensures v.FeedView? && v.page.items[k].read
    ensures v.FeedView? && forall j :: 0 <= j < PageSize && j != k ==> !v.page.items[j].read
  {
    var store := new Store();
    var first := store.Router("", fetched, item);
    ghost var loaded := Unread(fetched);
    assert store.feeds[..] == loaded;
    var id := fetched[k].id;
    assert loaded[k].id == id;
    ShowLinkRoundTrip(id);
    NumberOfString(id);
    var detail := store.Router("#/show/" + NatToString(id), fetched, item);
    MarkedReadUnique(loaded, k);
    v := store.Router("", fetched, item);
  }

  /**
   * On the first render the list is still empty when the last page is
   * computed, so the "Next" link points at page 0; following it fails,
   * since page 0's window starts at index -10.
   */
  method FirstRenderLinksToPageZero(fetched: seq<FeedItem>, item: ItemDetail) returns (first: View, next: View)
    requires PageSize <= |fetched|
    ensures first.FeedView? && first.page.nextPage == 0 && first.page.prevPage == 1
    ensures next == Aborted
  {
    var store := new Store();
    first := store.Router("", fetched, item);
    PageLinkRoundTrip(0);
    next := store.Router("#/page/" + NatToString(0), fetched, item);
  }

  /**
   * With 25 entries there are three pages: page 2 links forward to page 3,
   * but page 3 holds only five entries and cannot be rendered.
   */
  method ShortFeed(fetched: seq<FeedItem>, item: ItemDetail) returns (second: View, third: View)
    requires |fetched| == 25
    ensures second.FeedView? && second.page.prevPage == 1 && second.page.nextPage == 3
    ensures third == Aborted
  {
    var store := new Store();
    var first := store.Router("", fetched, item);
    PageLinkRoundTrip(2);
    second := store.Router("#/page/" + NatToString(2), fetched, item);
    PageLinkRoundTrip(3);
    third := store.Router("#/page/" + NatToString(3), fetched, item);
  }

  /**
   * A detail view opened directly, before any feed view, marks nothing
   * (the list is empty), leaves the page at 1 and links back to page 1.
   */
  method DeepLinkedDetail(fetched: seq<FeedItem>, item: ItemDetail, n: nat) returns (v: View, feedLength: nat)
    ensures v.DetailView? && v.detail.itemId == NatToString(n) && v.detail.backPage == Int(1)
    ensures feedLength == 0
  {
    var store := new Store();
    ShowLinkRoundTrip(n);
    v := store.Router("#/show/" + NatToString(n), fetched, item);
    feedLength := store.feeds.Length;
  }
}
