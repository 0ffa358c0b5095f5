// The values the Instagram service works on (the decoded JSON of the media
// endpoint and the list of image URLs it caches) and the specification
// functions that say what `InstagramService::getImageUrls` computes.
module Instagram {
  import opened Php

  /** InstagramService::CACHE_KEY, the namespace of every cache key. */
  const CACHE_KEY := "instagram_element_images"

  /** The two halves of InstagramService::INSTAGRAM_MEDIA_URL around its `%s`. */
  const MEDIA_URL_HEAD := "https://www.instagram.com/"
  const MEDIA_URL_TAIL := "/media/"

  /** One entry of an item's `images`. */
  datatype Rendition = Rendition(width: int, url: string)

  /** One entry of a page's `items`. */
  datatype Item = Item(id: string, images: seq<Rendition>)

  /** The decoded body of one response of the media endpoint. */
  datatype PageData = PageData(items: seq<Item>, moreAvailable: bool)

  /** What the endpoint serves once it has nothing more to give. */
  const EmptyPage := PageData([], false)

  /** A PHP value of type `string[]|null`: what getImageUrls returns and saves. */
  datatype Stored = Null | Urls(urls: seq<string>)

  /** A stored value in a boolean context: null and the empty array are falsy. */
  predicate TruthyStored(v: Stored) {
    v.Urls? && v.urls != []
  }

  // ---------------------------------------------------------------------------
  // Cache key

  /** generateCacheKey: implode('_', [CACHE_KEY, username, limit]). */
  function GenerateCacheKey(username: string, limit: nat): string {
    CACHE_KEY + "_" + username + "_" + DecimalString(limit)
  }

  lemma {:induction false} SplitAtLastSeparator(h1: string, d1: string, h2: string, d2: string)
    requires h1 + d1 == h2 + d2
    requires |h1| > 0 && h1[|h1| - 1] == '_' && |h2| > 0 && h2[|h2| - 1] == '_'
    requires AllDigits(d1) && AllDigits(d2)
    ensures h1 == h2 && d1 == d2
  {
    var k := h1 + d1;
    assert k[|h1| - 1] == '_' && (h2 + d2)[|h2| - 1] == '_';
    if |d1| != |d2| {
      assert false;
    }
    assert h1 == k[..|h1|];
    assert h2 == (h2 + d2)[..|h2|];
    assert d1 == k[|h1|..];
    assert d2 == (h2 + d2)[|h2|..];
  }

  /**
   * Different (username, limit) pairs never share a cache key: the decimal
   * limit holds no '_', so the last '_' of a key separates it from the username.
   */
  lemma CacheKeyInjective(u1: string, l1: nat, u2: string, l2: nat)
    requires GenerateCacheKey(u1, l1) == GenerateCacheKey(u2, l2)
    ensures u1 == u2 && l1 == l2
  {
    var h1, h2 := CACHE_KEY + "_" + u1 + "_", CACHE_KEY + "_" + u2 + "_";
    SplitAtLastSeparator(h1, DecimalString(l1), h2, DecimalString(l2));
    assert u1 == h1[|CACHE_KEY| + 1 .. |h1| - 1];
    assert u2 == h2[|CACHE_KEY| + 1 .. |h2| - 1];
    DecimalStringInjective(l1, l2);
  }

  /**
   * The key is built from the limit as the caller gave it, so the "unbounded"
   * limit 0 has a key of its own, distinct from every positive limit's,
   * PHP_INT_MAX included.
   */
  lemma UnboundedLimitHasOwnKey(username: string, limit: nat)
    requires limit != 0
    ensures GenerateCacheKey(username, 0) != GenerateCacheKey(username, limit)
  {
    if GenerateCacheKey(username, 0) == GenerateCacheKey(username, limit) {
      CacheKeyInjective(username, 0, username, limit);
    }
  }

  // ---------------------------------------------------------------------------
  // Request URL

  function MediaUrlBase(username: string): string {
    MEDIA_URL_HEAD + username + MEDIA_URL_TAIL
  }

  /** The URL fetch requests: the query carries the cursor only when it is truthy. */
  function MediaUrl(username: string, maxId: Option<string>): string {
    if Truthy(maxId) then MediaUrlBase(username) + "?max_id=" + maxId.value
    else MediaUrlBase(username)
  }

  lemma MediaUrlQuery(username: string, maxId: Option<string>)
    ensures MediaUrlBase(username) <= MediaUrl(username, maxId)
    ensures Truthy(maxId) <==> |MediaUrl(username, maxId)| > |MediaUrlBase(username)|
    ensures Truthy(maxId) ==>
      MediaUrl(username, maxId)[|MediaUrlBase(username)|..] == "?max_id=" + maxId.value
  {
    var b := MediaUrlBase(username);
    if Truthy(maxId) {
      assert (b + "?max_id=" + maxId.value)[|b|..] == "?max_id=" + maxId.value;
    }
  }

  /** The URLs of a sequence of fetches, one per cursor. */
  function RequestUrls(username: string, cursors: seq<Option<string>>): (r: seq<string>)
    ensures |r| == |cursors|
  {
    if cursors == [] then []
    else RequestUrls(username, cursors[..|cursors| - 1]) + [MediaUrl(username, cursors[|cursors| - 1])]
  }

  lemma {:induction false} RequestUrlsAt(username: string, cursors: seq<Option<string>>, i: nat)
    requires i < |cursors|
    ensures RequestUrls(username, cursors)[i] == MediaUrl(username, cursors[i])
  {
    if i < |cursors| - 1 {
      RequestUrlsAt(username, cursors[..|cursors| - 1], i);
    }
  }

  /** The log of requests after one more fetch. */
  lemma RequestUrlsSnoc(username: string, log: seq<string>, cursors: seq<Option<string>>, maxId: Option<string>)
    ensures (log + RequestUrls(username, cursors)) + [MediaUrl(username, maxId)] ==
      log + RequestUrls(username, cursors + [maxId])
  {
  }

  // ---------------------------------------------------------------------------
  // Image selection

  /**
   * parseLargestImage: the foreach replaces the candidate whenever a width
   * exceeds `$width`, which stays 0, so the candidate is the LAST rendition
   * of positive width (None when there is none).
   */
  function LargestImage(images: seq<Rendition>): Option<Rendition> {
    if images == [] then None
    else if images[|images| - 1].width > 0 then Some(images[|images| - 1])
    else LargestImage(images[..|images| - 1])
  }

  lemma {:induction false} LargestImageIsLastPositive(images: seq<Rendition>)
    ensures LargestImage(images).None? <==> forall i :: 0 <= i < |images| ==> images[i].width <= 0
    ensures LargestImage(images).Some? ==>
      exists i :: 0 <= i < |images| && images[i] == LargestImage(images).value && images[i].width > 0 &&
        forall j :: i < j < |images| ==> images[j].width <= 0
  {
    if images != [] {
      var n := |images| - 1;
      if images[n].width <= 0 {
        var front := images[..n];
        LargestImageIsLastPositive(front);
        assert forall i :: 0 <= i < n ==> images[i] == front[i];
        if LargestImage(front).Some? {
          var i :| 0 <= i < n && front[i] == LargestImage(front).value && front[i].width > 0 &&
            forall j :: i < j < n ==> front[j].width <= 0;
          assert images[i] == LargestImage(images).value;
        }
      }
    }
  }

  /** parseLargestImage does not pick the widest rendition when a later one is narrower. */
  lemma SelectionIsNotWidest()
    ensures var images := [Rendition(10, "a"), Rendition(50, "b"), Rendition(50, "c"), Rendition(5, "d")];
      LargestImage(images) == Some(Rendition(5, "d"))
  {
  }

  /** parseImageUrls: the URL chosen for each item, in item order, skipping items with none. */
  function ImageUrls(items: seq<Item>): seq<string> {
    if items == [] then []
    else
      var image := LargestImage(items[|items| - 1].images);
      ImageUrls(items[..|items| - 1]) + (if image.Some? then [image.value.url] else [])
  }

  /** Each item contributes independently, in order. */
  lemma {:induction false} ImageUrlsAppend(a: seq<Item>, b: seq<Item>)
    ensures ImageUrls(a + b) == ImageUrls(a) + ImageUrls(b)
  {
    if b != [] {
      var n := |b| - 1;
      assert (a + b)[..|a + b| - 1] == a + b[..n];
      ImageUrlsAppend(a, b[..n]);
    } else {
      assert a + b == a;
    }
  }

  /** At most one URL per item; exactly one per item iff every item has a positive-width rendition. */
  lemma {:induction false} ImageUrlsCount(items: seq<Item>)
    ensures |ImageUrls(items)| <= |items|
    ensures |ImageUrls(items)| == |items| <==>
      forall i :: 0 <= i < |items| ==> LargestImage(items[i].images).Some?
  {
    if items != [] {
      var n := |items| - 1;
      ImageUrlsCount(items[..n]);
      assert forall i :: 0 <= i < n ==> items[i] == items[..n][i];
    }
  }

  /** Every URL produced is the URL of a positive-width rendition of one of the items. */
  lemma {:induction false} ImageUrlsOrigin(items: seq<Item>, u: string)
    requires u in ImageUrls(items)
    ensures exists i, k :: (0 <= i < |items| && 0 <= k < |items[i].images| &&
      items[i].images[k].url == u && items[i].images[k].width > 0)
  {
    var n := |items| - 1;
    var image := LargestImage(items[n].images);
    if u in ImageUrls(items[..n]) {
      ImageUrlsOrigin(items[..n], u);
      var i, k :| 0 <= i < n && 0 <= k < |items[..n][i].images| &&
        items[..n][i].images[k].url == u && items[..n][i].images[k].width > 0;
      assert items[i] == items[..n][i];
    } else {
      assert image.Some? && image.value.url == u;
      LargestImageIsLastPositive(items[n].images);
      var k :| 0 <= k < |items[n].images| && items[n].images[k] == image.value &&
        items[n].images[k].width > 0 && forall j :: k < j < |items[n].images| ==> items[n].images[j].width <= 0;
    }
  }

  // ---------------------------------------------------------------------------
  // One page

  /** parseMaxId's result: the id of the page's last item, or null for an empty page. */
  function PageCursor(items: seq<Item>): Option<string> {
    if items == [] then None else Some(items[|items| - 1].id)
  }

  /** The items left on the page after parseMaxId's array_pop. */
  function Popped(items: seq<Item>): seq<Item> {
    if items == [] then [] else items[..|items| - 1]
  }

  /** The URLs one fetched page adds to the accumulation. */
  function PageUrls(page: PageData): seq<string> {
    ImageUrls(Popped(page.items))
  }

  /** The last item of a page, consumed as the cursor, never adds a URL. */
  lemma PageUrlsOmitLastItem(page: PageData)
    requires page.items != []
    ensures PageUrls(page) == ImageUrls(page.items[..|page.items| - 1])
    ensures PageUrls(page) + ImageUrls([page.items[|page.items| - 1]]) == ImageUrls(page.items)
  {
  }

  // ---------------------------------------------------------------------------
  // The fetch loop

  /** The page the endpoint serves next. */
  function NextPage(pages: seq<PageData>): PageData {
    if pages == [] then EmptyPage else pages[0]
  }

  /** The pages still to serve after the next fetch. */
  function AfterNext(pages: seq<PageData>): seq<PageData> {
    if pages == [] then [] else pages[1..]
  }

  /** The page the (k+1)-th fetch is served. */
  function Served(pages: seq<PageData>, k: nat): PageData {
    if k < |pages| then pages[k] else EmptyPage
  }

  /** The URLs the first m fetches contribute, whatever made the loop go on. */
  function ServedUrls(pages: seq<PageData>, m: nat): seq<string> {
    if m == 0 then [] else ServedUrls(pages, m - 1) + PageUrls(Served(pages, m - 1))
  }

  /** The exit test of the do-while. */
  predicate Continues(page: PageData, images: seq<string>, limit: nat) {
    page.moreAvailable && Truthy(PageCursor(page.items)) && |images| < limit
  }

  /**
   * The outcome of the do-while: the accumulated URLs, the cursor each fetch
   * was made with, and the pages the endpoint has not served.
   */
  datatype Crawl = Crawl(images: seq<string>, cursors: seq<Option<string>>, rest: seq<PageData>)

  /** The loop run from the current cursor and accumulation against the endpoint's pending pages. */
  function CrawlFrom(pages: seq<PageData>, maxId: Option<string>, images: seq<string>, limit: nat): Crawl
    decreases |pages|
  {
    var page := NextPage(pages);
    var more := images + PageUrls(page);
    if Continues(page, more, limit) then
      var tail := CrawlFrom(pages[1..], PageCursor(page.items), more, limit);
      Crawl(tail.images, [maxId] + tail.cursors, tail.rest)
    else
      Crawl(more, [maxId], AfterNext(pages))
  }

  /** A crawl resumed after the fetches made with the cursors `done`. */
  function Resumed(done: seq<Option<string>>, tail: Crawl): Crawl {
    Crawl(tail.images, done + tail.cursors, tail.rest)
  }

  /**
   * One turn of the do-while: the fetch consumes the next page, its last item
   * gives the cursor, the rest of its items give URLs, and the loop goes on
   * exactly when the page said more was available, the cursor is truthy and
   * fewer than `limit` URLs have been gathered.
   */
  lemma CrawlTurn(whole: Crawl, done: seq<Option<string>>, pages: seq<PageData>, maxId: Option<string>,
                  images: seq<string>, limit: nat,
                  pages': seq<PageData>, maxId': Option<string>, images': seq<string>, more: bool)
    requires whole == Resumed(done, CrawlFrom(pages, maxId, images, limit))
    requires pages' == AfterNext(pages) && maxId' == PageCursor(NextPage(pages).items)
    requires images' == images + PageUrls(NextPage(pages))
    requires more == (NextPage(pages).moreAvailable && Truthy(maxId') && |images'| < limit)
    ensures more ==> |pages'| < |pages| && whole == Resumed(done + [maxId], CrawlFrom(pages', maxId', images', limit))
    ensures !more ==> whole == Crawl(images', done + [maxId], pages')
  {
  }

  lemma {:induction false} ServedShift(pages: seq<PageData>, m: nat)
    requires pages != []
    ensures PageUrls(pages[0]) + ServedUrls(pages[1..], m) == ServedUrls(pages, m + 1)
  {
    if m > 0 {
      ServedShift(pages, m - 1);
      assert Served(pages[1..], m - 1) == Served(pages, m);
    }
  }

  /** The loop fetches at least once, the first time with the cursor it starts from, and at most once past the last page. */
  lemma {:induction false} CrawlShape(pages: seq<PageData>, maxId: Option<string>, images: seq<string>, limit: nat)
    ensures var c := CrawlFrom(pages, maxId, images, limit);
      1 <= |c.cursors| <= |pages| + 1 && c.cursors[0] == maxId &&
      c.rest == AfterNext(pages[|c.cursors| - 1..])
    decreases |pages|
  {
    var page := NextPage(pages);
    var more := images + PageUrls(page);
    if Continues(page, more, limit) {
      CrawlShape(pages[1..], PageCursor(page.items), more, limit);
      var tail := CrawlFrom(pages[1..], PageCursor(page.items), more, limit);
      assert pages[1..][|tail.cursors| - 1..] == pages[|tail.cursors|..];
    }
  }

  /** The accumulation is exactly the URLs of the pages the loop was served, in fetch order. */
  lemma {:induction false} CrawlImages(pages: seq<PageData>, maxId: Option<string>, images: seq<string>, limit: nat)
    ensures var c := CrawlFrom(pages, maxId, images, limit);
      c.images == images + ServedUrls(pages, |c.cursors|)
    decreases |pages|
  {
    var page := NextPage(pages);
    var more := images + PageUrls(page);
    var c := CrawlFrom(pages, maxId, images, limit);
    if Continues(page, more, limit) {
      var tail := CrawlFrom(pages[1..], PageCursor(page.items), more, limit);
      var m := |tail.cursors|;
      assert c.images == tail.images && |c.cursors| == m + 1;
      calc {
        tail.images;
        { CrawlImages(pages[1..], PageCursor(page.items), more, limit); }
        more + ServedUrls(pages[1..], m);
        images + (PageUrls(pages[0]) + ServedUrls(pages[1..], m));
        { ServedShift(pages, m); }
        images + ServedUrls(pages, m + 1);
      }
    } else {
      assert ServedUrls(pages, 1) == PageUrls(page);
    }
  }

  /**
   * Each fetch after the first is made with the id of the last item of the
   * page before, and only because that page said more was available, that id
   * was truthy and fewer URLs than the limit had been gathered.
   */
  lemma {:induction false} CrawlContinued(pages: seq<PageData>, maxId: Option<string>, images: seq<string>, limit: nat, i: nat)
    requires 1 <= i < |CrawlFrom(pages, maxId, images, limit).cursors|
    ensures var c := CrawlFrom(pages, maxId, images, limit);
      Served(pages, i - 1).moreAvailable &&
      c.cursors[i] == PageCursor(Served(pages, i - 1).items) && Truthy(c.cursors[i]) &&
      |images + ServedUrls(pages, i)| < limit
    decreases |pages|
  {
    var page := NextPage(pages);
    var more := images + PageUrls(page);
    assert Continues(page, more, limit);
    var tail := CrawlFrom(pages[1..], PageCursor(page.items), more, limit);
    ServedShift(pages, i - 1);
    if i > 1 {
      CrawlContinued(pages[1..], PageCursor(page.items), more, limit, i - 1);
      assert Served(pages[1..], i - 2) == Served(pages, i - 1);
    } else {
      CrawlShape(pages[1..], PageCursor(page.items), more, limit);
    }
  }

  /** The loop stops after the last page it fetched because one of the three conditions failed there. */
  lemma {:induction false} CrawlStopped(pages: seq<PageData>, maxId: Option<string>, images: seq<string>, limit: nat)
    ensures var c := CrawlFrom(pages, maxId, images, limit);
      1 <= |c.cursors| && !Continues(Served(pages, |c.cursors| - 1), c.images, limit)
    decreases |pages|
  {
    var page := NextPage(pages);
    var more := images + PageUrls(page);
    if Continues(page, more, limit) {
      var tail := CrawlFrom(pages[1..], PageCursor(page.items), more, limit);
      CrawlStopped(pages[1..], PageCursor(page.items), more, limit);
      assert Served(pages[1..], |tail.cursors| - 1) == Served(pages, |tail.cursors|);
    }
  }

  /** No fetch follows a page that says nothing more is available. */
  lemma CrawlStopsAfterLastPage(pages: seq<PageData>, maxId: Option<string>, images: seq<string>, limit: nat, k: nat)
    requires !Served(pages, k).moreAvailable
    ensures |CrawlFrom(pages, maxId, images, limit).cursors| <= k + 1
  {
    if |CrawlFrom(pages, maxId, images, limit).cursors| > k + 1 {
      CrawlContinued(pages, maxId, images, limit, k + 1);
    }
  }

  lemma {:induction false} ServedUrlsGrow(pages: seq<PageData>, m: nat, n: nat)
    requires m <= n
    ensures |ServedUrls(pages, m)| <= |ServedUrls(pages, n)|
  {
    if m < n {
      ServedUrlsGrow(pages, m, n - 1);
      var last := PageUrls(Served(pages, n - 1));
      assert ServedUrls(pages, n) == ServedUrls(pages, n - 1) + last;
    }
  }

  // ---------------------------------------------------------------------------
  // Limit and result

  /** `$limit ? $limit : PHP_INT_MAX`: the limit 0 stands for "unbounded". */
  function EffectiveLimit(limit: nat): (l: nat)
    ensures l >= 1
  {
    if limit != 0 then limit else PHP_INT_MAX
  }

  /**
   * With the limit 0 the count never ends the loop while the pages hold fewer
   * than PHP_INT_MAX URLs: the loop stops only at a page that says nothing
   * more is available or whose last item gives no truthy cursor.
   */
  lemma UnboundedCrawlReadsToEnd(pages: seq<PageData>, maxId: Option<string>, images: seq<string>)
    requires |images| + |ServedUrls(pages, |pages| + 1)| < PHP_INT_MAX
    ensures var c := CrawlFrom(pages, maxId, images, EffectiveLimit(0));
      var last := Served(pages, |c.cursors| - 1);
      !(last.moreAvailable && Truthy(PageCursor(last.items)))
  {
    var c := CrawlFrom(pages, maxId, images, EffectiveLimit(0));
    CrawlShape(pages, maxId, images, EffectiveLimit(0));
    CrawlImages(pages, maxId, images, EffectiveLimit(0));
    CrawlStopped(pages, maxId, images, EffectiveLimit(0));
    ServedUrlsGrow(pages, |c.cursors|, |pages| + 1);
  }

  /** `array_chunk(array_reverse($images), $limit)[0]`. */
  function Finish(images: seq<string>, limit: nat): Stored
    requires limit >= 1
  {
    match FirstChunk(Reverse(images), limit)
    case None => Null
    case Some(chunk) => Urls(chunk)
  }

  /**
   * The result is null exactly when nothing was gathered; otherwise it holds
   * the last min(limit, n) URLs gathered, the last one gathered first.
   */
  lemma FinishContents(images: seq<string>, limit: nat)
    requires limit >= 1
    ensures Finish(images, limit).Null? <==> images == []
    ensures Finish(images, limit).Urls? ==>
      var urls := Finish(images, limit).urls;
      |urls| == Min(limit, |images|) &&
      forall i :: 0 <= i < |urls| ==> urls[i] == images[|images| - 1 - i]
  {
    if images != [] {
      ReverseLength(images);
      forall i | 0 <= i < Min(limit, |images|)
        ensures Reverse(images)[i] == images[|images| - 1 - i]
      {
        ReverseAt(images, i);
      }
    } else {
      assert Reverse(images) == [];
    }
  }
}
