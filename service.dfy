// The objects of Services/InstagramService.php: the cache the service is
// given, the page object that json_decode returns and parseMaxId changes in
// place, the remote media endpoint behind fetch(), and the service itself.
module Service {
  import opened Php
  import opened Instagram

  /** The Zend cache handed to the service, reduced to load and save on a map. */
  class Cache {
    var entries: map<string, Stored>
    /** Every save made, in order. */
    ghost var saves: seq<(string, Stored)>

    constructor (entries: map<string, Stored>)
      ensures this.entries == entries && saves == []
    {
      this.entries := entries;
      saves := [];
    }

    /** load($id): the stored value, or false (None) when there is none. */
    method Load(id: string) returns (v: Option<Stored>)
      ensures v.Some? <==> id in entries
      ensures v.Some? ==> v.value == entries[id]
    {
      if id in entries {
        v := Some(entries[id]);
      } else {
        v := None;
      }
    }

    /** save($data, $id): overwrites the entry under `id` and no other. */
    method Save(data: Stored, id: string)
      modifies this
      ensures entries == old(entries)[id := data]
      ensures saves == old(saves) + [(id, data)]
    {
      entries := entries[id := data];
      saves := saves + [(id, data)];
    }
  }

  /** The object json_decode builds from one response body. */
  class Page {
    var items: seq<Item>
    var moreAvailable: bool

    constructor (data: PageData)
      ensures items == data.items && moreAvailable == data.moreAvailable
    {
      items := data.items;
      moreAvailable := data.moreAvailable;
    }
  }

  /**
   * The remote media endpoint: it serves the pages it holds in order, one per
   * request, and an empty page that says nothing more is available once they
   * are used up. It records the URL of every request.
   */
  class MediaEndpoint {
    var pending: seq<PageData>
    ghost var requests: seq<string>

    constructor (pages: seq<PageData>)
      ensures pending == pages && requests == []
    {
      pending := pages;
      requests := [];
    }

    method Get(url: string) returns (page: Page)
      modifies this
      ensures fresh(page)
      ensures page.items == NextPage(old(pending)).items
      ensures page.moreAvailable == NextPage(old(pending)).moreAvailable
      ensures pending == AfterNext(old(pending))
      ensures requests == old(requests) + [url]
    {
      page := new Page(NextPage(pending));
      pending := AfterNext(pending);
      requests := requests + [url];
    }
  }

  class InstagramService {
    const cache: Cache

    constructor (cache: Cache)
      ensures this.cache == cache
    {
      this.cache := cache;
    }

    /**
     * getImageUrls: a truthy cached list is returned as it is, with no
     * request and no save. Otherwise the pages are fetched as CrawlFrom
     * describes, the gathered URLs are reversed and cut to the effective
     * limit, and that value is saved under the key and returned.
     */
    method GetImageUrls(username: string, limit: nat, endpoint: MediaEndpoint) returns (images: Stored)
      modifies cache, endpoint
      ensures var key := GenerateCacheKey(username, limit);
        key in old(cache.entries) && TruthyStored(old(cache.entries[key])) ==>
          images == old(cache.entries[key]) && unchanged(cache) && unchanged(endpoint)
      ensures var key := GenerateCacheKey(username, limit);
        !(key in old(cache.entries) && TruthyStored(old(cache.entries[key]))) ==>
          var c := CrawlFrom(old(endpoint.pending), None, [], EffectiveLimit(limit));
          images == Finish(c.images, EffectiveLimit(limit)) &&
          (images.Urls? ==> |images.urls| <= EffectiveLimit(limit)) &&
          cache.entries == old(cache.entries)[key := images] &&
          cache.saves == old(cache.saves) + [(key, images)] &&
          endpoint.requests == old(endpoint.requests) + RequestUrls(username, c.cursors) &&
          endpoint.pending == c.rest
    {
      var cacheKey := GenerateCacheKey(username, limit);
      var cached := cache.Load(cacheKey);
      var lim := EffectiveLimit(limit);

      if cached.Some? && TruthyStored(cached.value) {
        return cached.value;
      }

      var urls := FetchAll(username, lim, endpoint);

      var reversed := Reverse(urls);
      var chunk := FirstChunk(reversed, lim);
      images := if chunk.Some? then Urls(chunk.value) else Null;
      FinishContents(urls, lim);

      cache.Save(images, cacheKey);
    }

    /**
     * The do-while of getImageUrls: fetch a page, pop its last item as the
     * next cursor, add the URLs of the rest, and go on while the page said
     * more was available, the cursor is truthy and fewer than `limit` URLs
     * have been gathered.
     */
    method FetchAll(username: string, limit: nat, endpoint: MediaEndpoint) returns (urls: seq<string>)
      modifies endpoint
      ensures var c := CrawlFrom(old(endpoint.pending), None, [], limit);
        urls == c.images &&
        endpoint.requests == old(endpoint.requests) + RequestUrls(username, c.cursors) &&
        endpoint.pending == c.rest
    {
      urls := [];
      var maxId: Option<string> := None;
      ghost var whole := CrawlFrom(endpoint.pending, None, [], limit);
      assert whole == Resumed([], whole);
      ghost var requests0 := endpoint.requests;
      ghost var cursors: seq<Option<string>> := [];

      // The do-while: `more` is true before the first iteration.
      var more := true;
      while more
        invariant endpoint.requests == requests0 + RequestUrls(username, cursors)
        invariant more ==> whole == Resumed(cursors, CrawlFrom(endpoint.pending, maxId, urls, limit))
        invariant !more ==> whole == Crawl(urls, cursors, endpoint.pending)
        decreases if more then 1 else 0, |endpoint.pending|
      {
        ghost var pending, cursor, before, done := endpoint.pending, maxId, urls, cursors;
        var result := Fetch(username, maxId, endpoint);
        RequestUrlsSnoc(username, requests0, done, cursor);
        cursors := done + [cursor];
        maxId := ParseMaxId(result);
        var pageUrls := ParseImageUrls(result);
        urls := urls + pageUrls;
        more := result.moreAvailable && Truthy(maxId) && |urls| < limit;
        CrawlTurn(whole, done, pending, cursor, before, limit, endpoint.pending, maxId, urls, more);
      }
    }

    /** The request half of fetch: the URL gets `?max_id=` only for a truthy cursor. */
    method Fetch(username: string, maxId: Option<string>, endpoint: MediaEndpoint) returns (result: Page)
      modifies endpoint
      ensures fresh(result)
      ensures result.items == NextPage(old(endpoint.pending)).items
      ensures result.moreAvailable == NextPage(old(endpoint.pending)).moreAvailable
      ensures endpoint.pending == AfterNext(old(endpoint.pending))
      ensures endpoint.requests == old(endpoint.requests) + [MediaUrl(username, maxId)]
    {
      var url := MEDIA_URL_HEAD + username + MEDIA_URL_TAIL;
      if Truthy(maxId) {
        url := url + "?max_id=" + maxId.value;
      }
      result := endpoint.Get(url);
    }

    /** parseMaxId: pops the last item off the page and returns its id; null for an empty page. */
    method ParseMaxId(result: Page) returns (maxId: Option<string>)
      modifies result
      ensures maxId == PageCursor(old(result.items))
      ensures result.items == Popped(old(result.items))
      ensures result.moreAvailable == old(result.moreAvailable)
    {
      if |result.items| == 0 {
        return None;
      }
      var last := result.items[|result.items| - 1];
      result.items := result.items[..|result.items| - 1];
      maxId := Some(last.id);
    }

    /** parseImageUrls: one URL per item whose selection is not null, in item order. */
    method ParseImageUrls(result: Page) returns (urls: seq<string>)
      ensures urls == ImageUrls(result.items)
    {
      urls := [];
      var i := 0;
      while i < |result.items|
        invariant 0 <= i <= |result.items|
        invariant urls == ImageUrls(result.items[..i])
      {
        var image := ParseLargestImage(result.items[i]);
        if image.Some? {
          urls := urls + [image.value.url];
        }
        assert result.items[..i + 1][..i] == result.items[..i];
        i := i + 1;
      }
      assert result.items[..i] == result.items;
    }

    /**
     * parseLargestImage: `width` is never raised above 0, so every rendition
     * of positive width replaces the candidate and the last one wins.
     */
    method ParseLargestImage(item: Item) returns (largestImage: Option<Rendition>)
      ensures largestImage == LargestImage(item.images)
    {
      var width := 0;
      largestImage := None;
      var i := 0;
      while i < |item.images|
        invariant 0 <= i <= |item.images|
        invariant largestImage == LargestImage(item.images[..i])
      {
        var image := item.images[i];
        if image.width > width {
          largestImage := Some(image);
        }
        assert item.images[..i + 1][..i] == item.images[..i];
        i := i + 1;
      }
      assert item.images[..i] == item.images;
    }
  }

  /**
   * Two renderings of the same element: once the first call has produced a
   * non-empty list, the second is served from the cache with that very list
   * and sends no request.
   */
  method RenderTwice(service: InstagramService, username: string, limit: nat, endpoint: MediaEndpoint)
    returns (first: Stored, second: Stored, ghost requestsAfterFirst: seq<string>)
    modifies service.cache, endpoint
    ensures TruthyStored(first) ==> second == first && endpoint.requests == requestsAfterFirst
  {
    first := service.GetImageUrls(username, limit, endpoint);
    requestsAfterFirst := endpoint.requests;
    second := service.GetImageUrls(username, limit, endpoint);
  }
}
