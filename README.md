# Hacker News client: store, views and hash router

A Dafny model of the navigation and state core of a small single-page
Hacker News reader (`app.ts`). The reader keeps one process-wide store
(the current page number and the feed list, each entry carrying a `read`
flag), and a hash router picks one of two views on every fragment change:

- the **feed view** fetches the feed list only while the store's list is
  empty, clears every read flag (`makeFeeds`), shows the ten entries of the
  current page and computes the "Previous" and "Next" page numbers;
- the **detail view** requests one item, marks the first feed entry with
  that id as read, links back to the current page and renders the item's
  comment thread in pre-order, indenting each comment by 40 pixels per
  reply level (`makeComment`).

Files:

- `js_text.dfy` (module `JsText`): the JavaScript built-ins the router and
  views rely on: `Number()` on a fragment suffix (an integer or NaN),
  `String()` of a page number, `substr`, `indexOf` and `===` on numbers.
- `comment_tree.dfy` (module `CommentTree`): comments, rendered blocks,
  `makeComment` as a recursive method with a loop, proved against a
  pre-order flattening.
- `feed.dfy` (module `Feed`): feed entries, the page window, the
  previous/next numbers and the mark-read specification.
- `app.dfy` (module `App`): the `Store` class with `currentPage` and the
  `feeds` array, `makeFeeds`, the window loop, the two views and the router.
- `scenarios.dfy` (module `Scenarios`): whole sessions from a fresh store.

The network is a parameter: each view receives the parsed answer its
request would get. Views return what they would render (a `View` record)
instead of writing HTML into the page.

Behaviour of the code worth knowing:

- The page window is not clamped: on a short last page, page 0 or a
  negative page the loop reads a field of `undefined` and the view stops
  before rendering. The model returns `Aborted` for that case
  (`Feed.ShortLastPageOutOfRange`, `Scenarios.ShortFeed`).
- The last page is computed from the list length before the first fetch,
  so the first feed view links "Next" to page 0
  (`Feed.NextPageBeforeFirstFetch`, `Scenarios.FirstRenderLinksToPageZero`).
- A page fragment whose suffix is not a number sets the page to NaN. The
  window loop then never runs (an empty page), "Previous" is 1 and "Next"
  is the last page.

## Model

| member | source | states |
|---|---|---|
| JsText.ToNumber | app.ts:207 | `Number(s)` is an integer exactly when `s` is a digit string, never negative, and 0 for the empty suffix; otherwise NaN |
| JsText.StrictEquals | app.ts:168 | `a === b` holds exactly when both are the same number; NaN equals nothing |
| JsText.LeadingZero | app.ts:207 | a leading zero does not change `Number()`: "02" parses as 2 |
| JsText.NatToString | app.ts:147-148 | `String(n)` is a non-empty digit string that starts with "0" only for 0 |
| JsText.NumberOfString | app.ts:147-148 | parsing the page number written into a link gives that number back |
| JsText.StringOfNumber | app.ts:207 | every canonical digit string is the spelling of the number it parses to |
| JsText.Substr | app.ts:154 | `substr(k)` is the suffix after the first `k` characters, empty when `k` is past the end |
| JsText.IndexOfFrom | app.ts:206 | the result is the first occurrence at or after `from`, or -1 when there is none |
| JsText.IndexOf | app.ts:206 | `indexOf(p) >= 0` exactly when `p` occurs in the string, at the first occurrence |
| CommentTree.BlockOf | app.ts:183-191 | a comment's block carries its author, age and text, indented by exactly `level * 40` pixels |
| CommentTree.MakeComment | app.ts:178-199 | the loop-and-recursion renderer yields exactly the blocks of the pre-order listing of the forest |
| CommentTree.RenderedAppend | app.ts:181-196 | rendering `a + b` is rendering `a` followed by rendering `b`; the empty forest renders as nothing |
| CommentTree.RenderedOne | app.ts:183-195 | a comment's block is followed immediately by the blocks of its whole reply thread |
| CommentTree.PreOrderAppend | app.ts:181-196 | the pre-order listing of `a + b` is that of `a` followed by that of `b` |
| CommentTree.RenderedSize | app.ts:181-196 | exactly one block per comment in the forest |
| CommentTree.PreOrderDescends | app.ts:184 | in a well-levelled forest the listing starts at the root level, never goes below it and deepens by at most one level per step |
| CommentTree.RenderedIndentation | app.ts:184 | the blocks of a well-levelled forest start at padding `40 * d`, never less, and each is at most 40 pixels deeper than the previous |
| CommentTree.PreOrderExample | app.ts:193-195 | a root with two replies, each with one reply, renders root, child 1, grandchild 1, child 2, grandchild 2 |
| Feed.Unread | app.ts:71-73 | same length, every entry unread, every other field unchanged |
| Feed.MaxPage | app.ts:92 | `Math.ceil(n / 10)`: the smallest page count whose pages hold `n` items |
| Feed.PrevPage | app.ts:147 | "Previous" is at least 1, one less than the page above page 1, and 1 for page 1, any lower page and NaN |
| Feed.NextPage | app.ts:148 | "Next" never exceeds the last page, is one more than the page below the last, and the last page otherwise (NaN included) |
| Feed.Window | app.ts:124-144 | a NaN page shows nothing; an integer page succeeds exactly when its ten indices are in the feed, and then yields the entries `(p-1)*10 .. p*10-1` in order |
| Feed.Matches | app.ts:168 | an entry matches exactly when `Number(id)` is that entry's id |
| Feed.FirstMatchFrom | app.ts:167-172 | the index found matches `id` and no earlier index does; `None` only when no entry matches |
| Feed.MarkedRead | app.ts:167-172 | same length and entries; flags only go from unread to read; no match leaves the list unchanged; otherwise exactly the first matching entry becomes read |
| Feed.MarkedReadUnique | app.ts:167-172 | with distinct ids, viewing entry `k` marks `k` read and leaves every other entry as it was |
| Feed.NextPageBeforeFirstFetch | app.ts:92 | with the list still empty, "Next" is 0 for any non-negative or NaN page |
| Feed.LinksClampAtBoundaries | app.ts:147-148 | page 1 links back to itself and the last page links forward to itself |
| Feed.ShortLastPageOutOfRange | app.ts:124-129 | when the feed length is not a multiple of ten, the last page cannot be rendered |
| Feed.WindowsTileFeed | app.ts:124 | for a feed of whole pages, the windows of pages 1..m concatenate to the first `10 * m` entries |
| App.Classify | app.ts:201-213 | feed route exactly for the empty fragment, page route exactly for a non-empty fragment containing "page" (page = `Number` of the suffix from 7), detail route otherwise (id = the suffix from 7) |
| App.FeedViewOf | app.ts:124-148 | the feed view aborts exactly when the window is out of range, otherwise shows the window with "Previous" at least 1 and "Next" at most the last page |
| App.PageLinkRoundTrip | app.ts:206-207 | the fragment "#/page/N" that the views link to routes to page N |
| App.ShowLinkRoundTrip | app.ts:129 | the fragment "#/show/ID" of a feed entry routes to the detail view for ID |
| App.MakeFeeds | app.ts:70-76 | clears every read flag in place, changes nothing else, and returns the same array |
| App.CollectWindow | app.ts:124-144 | the window loop collects exactly `Feed.Window` of the array, failing at an out-of-range index |
| App.Store.constructor | app.ts:35-38 | the store starts on page 1 with an empty feed list |
| App.Store.MarkRead | app.ts:167-172 | the array afterwards is `MarkedRead` of the array before |
| App.Store.NewsFeed | app.ts:88-151 | fetches only when the list is empty (then the list is the fetched entries, all unread), otherwise keeps the same array unchanged; never changes the page; renders the window with prev/next from the pre-fetch length |
| App.Store.NewsDetail | app.ts:153-176 | marks the entry whose id is the suffix from 7 and renders the item title, the current page as back link, and the comment blocks |
| App.Store.Router | app.ts:201-213 | only a page route writes `currentPage`; the detail route keeps the feed array and applies mark-read; the other two routes run the feed view |
| Scenarios.ReturnToFeedKeepsPage | app.ts:204-208 | after "#/page/N" and then the empty fragment, the current page is still N |
| Scenarios.ReadFlagPersists | app.ts:119-126 | after the feed, a detail view of entry `k` and the feed again, entry `k` shows read and the rest of the page unread |
| Scenarios.FirstRenderLinksToPageZero | app.ts:92 | the first feed view links "Next" to page 0, and following that link aborts the feed view |
| Scenarios.ShortFeed | app.ts:124-148 | with 25 entries page 2 links to pages 1 and 3, and page 3 aborts |
| Scenarios.DeepLinkedDetail | app.ts:161-172 | a detail view before any feed view leaves the list empty and links back to page 1 |

## Left out

- The network: `XMLHttpRequest`, the `Api`, `NewsFeedApi` and `NewsDetailApi` classes and `JSON.parse` (app.ts:30, app.ts:40-67). The parsed answers are method parameters; network and parse failures, which would abort a view, are not modelled.
- The DOM: `updateView`, the root container and its missing-container message (app.ts:79-86), the `hashchange` listener and the start-up call (app.ts:216-218).
- The HTML templates and `template.replace` (app.ts:93-116, app.ts:125-143, app.ts:146-148, app.ts:157-165, app.ts:183-191): views return records (`FeedPage`, `DetailPage`, `Block`) instead of markup, so the text "NaN" of a NaN back link is not produced; the page number itself is kept.
- JsText.ToNumber: only plain ASCII digit strings are numbers; JavaScript's `Number()` also accepts surrounding whitespace, signs, decimals, exponents, hexadecimal and "Infinity", which the model treats as NaN.
- JsText.ToNumber: integers are exact in the model, while JavaScript numbers are doubles that round above 2^53. For huge page numbers the code's `(p-1)*10` and `p*10` can round to the same value, so the loop runs zero times and an empty page renders, where the model aborts; an id fragment such as "9007199254740993" rounds to 9007199254740992 and marks that entry, where the model marks only an exact match.
- Feed entries are values stored in the `feeds` array rather than objects shared by reference; the parsed list holds distinct objects and nothing else refers to them, so no sharing is lost.
- The optional `read` field is absent in the parsed entries; the model gives fetched entries some boolean flag, which `makeFeeds` overwrites before any view reads it.
- `app.js` is an earlier draft superseded by `app.ts` and is not part of this model.
