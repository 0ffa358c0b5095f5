# Instagram element image fetcher — a Dafny model

This project models `InstagramService::getImageUrls` of the Shopware
"Instagram element" plugin, with its private helpers. Given a username and a
limit, the service looks for a cached list of image URLs under a key built
from the two. A truthy cached list is returned at once. Otherwise it pages
through the account's media endpoint with a `max_id` cursor. It picks at most
one image URL per item, and none for the item each page's cursor is taken
from, and stops when the endpoint has nothing more, the cursor
is falsy, or enough URLs are gathered. It then reverses the list, cuts it to
the limit, saves it in the cache and returns it.

The model has three modules:

- `Php` (`php.dfy`) holds the PHP semantics the code relies on: truthiness
  of nullable strings, the decimal text `implode` gives an int,
  `array_reverse`, and the first chunk of `array_chunk`.
- `Instagram` (`instagram.dfy`) holds the decoded JSON as datatypes
  (`Rendition`, `Item`, `PageData`) and the value `string[]|null` that is
  returned and cached (`Stored`). It also holds the specification functions
  (`GenerateCacheKey`, `MediaUrl`, `LargestImage`, `ImageUrls`, `CrawlFrom`,
  `Finish`) and the lemmas about them.
- `Service` (`service.dfy`) holds the objects. `Cache` is the injected Zend
  cache as a map. `Page` is the object `json_decode` returns, which
  `parseMaxId` changes in place. `MediaEndpoint` is the remote endpoint:
  it serves a finite sequence of pages in order, then an empty page with
  `more_available = false`, and logs every URL requested.
  `InstagramService` has `GetImageUrls` and one method per helper.

`FetchAll` is the do-while of `getImageUrls` (lines 56-63), split out into a
method of its own. `GetImageUrls` calls it between the cache lookup and the
reverse-and-truncate step. The statements are the same as in the source.

Where the code does something other than its names, docblocks and comments
suggest, the model follows the code:

- Selection. `parseLargestImage` never updates `$width` (lines 136-143), so
  it picks the last rendition of positive width, not the widest one its name
  and `$largestImage` suggest. `SelectionIsNotWidest` shows that for widths
  10, 50, 50, 5 it picks the rendition of width 5.
- Cache hit. The cached value is returned only when it is truthy (line 52),
  so a cached `null` or `[]` leads to a new fetch.
- Nothing gathered. The docblock declares `@return string[]` (line 44), but
  with nothing gathered `array_chunk(...)[0]` is null (line 66), so `null` is
  returned and saved.
- Dropped item. `parseMaxId` pops the last item of every page (line 109)
  before `parseImageUrls` runs. The item that supplies the cursor therefore
  never contributes a URL.
- Order. The list is reversed before it is cut (lines 65-66), as the comment
  `// neueste Bilder zuerst` ("newest images first") intends, and the cut is
  the one `// Limit einhalten` ("keep the limit") names. When the last page
  overshoots the limit, the result keeps the URLs gathered last, last one
  first (`FinishContents`).

## Model

| member | source | states |
|---|---|---|
| `Instagram.CacheKeyInjective` | Services/InstagramService.php:153-160 | the key `instagram_element_images_<username>_<limit>` determines both the username and the limit: two calls share a key only when both arguments are equal |
| `Instagram.UnboundedLimitHasOwnKey` | Services/InstagramService.php:48-50 | the key is built from the raw limit before 0 is replaced, so limit 0 never shares a key with a positive limit (PHP_INT_MAX included) |
| `Php.DecimalRoundTrip` | Services/InstagramService.php:155-159 | the decimal text `implode` gives a non-negative int reads back as that int |
| `Instagram.EffectiveLimit` | Services/InstagramService.php:50 | the limit the loop and `array_chunk` use is at least 1, so it is always a valid chunk size (0, the "unbounded" limit, becomes PHP_INT_MAX) |
| `Instagram.MediaUrlQuery` | Services/InstagramService.php:81-85 | the request URL is the account's media URL, with `?max_id=<cursor>` appended exactly when the cursor is truthy (not null, "" or "0") |
| `Instagram.LargestImageIsLastPositive` | Services/InstagramService.php:134-146 | the selection is null iff no rendition has positive width; otherwise it is a rendition of the item with positive width, and every later rendition has width <= 0 |
| `Instagram.SelectionIsNotWidest` | Services/InstagramService.php:136-143 | for renditions of widths 10, 50, 50, 5 the selection is the width-5 one, not a widest one |
| `Instagram.ImageUrlsAppend` | Services/InstagramService.php:116-128 | the URLs of a concatenation of items are the URLs of the first part followed by those of the second (one item's selection never depends on another, order is kept) |
| `Instagram.ImageUrlsCount` | Services/InstagramService.php:116-128 | at most one URL per item; exactly one per item iff every item has a non-null selection |
| `Instagram.ImageUrlsOrigin` | Services/InstagramService.php:116-128 | every URL produced is the URL of a positive-width rendition of one of the items |
| `Instagram.PageUrlsOmitLastItem` | Services/InstagramService.php:103-110 | the definition for one page: a non-empty page contributes the URLs of all its items but the last, which `array_pop` removed to serve as the cursor (what the loop gathers over all pages is stated by `CrawlImages`) |
| `Instagram.CrawlTurn` | Services/InstagramService.php:59-63 | the bridge between one turn of the loop in `FetchAll` and one step of `CrawlFrom`: the turn consumes the next page, and the loop goes on exactly when the page said more was available, its cursor is truthy and fewer than `limit` URLs are gathered (the exit conditions over a whole crawl are stated by `CrawlContinued` and `CrawlStopped`) |
| `Instagram.CrawlShape` | Services/InstagramService.php:57-63 | the loop fetches at least once, first with the cursor it starts from (null in getImageUrls), and at most once past the last page the endpoint holds |
| `Instagram.CrawlImages` | Services/InstagramService.php:59-62 | the gathered URLs are exactly the URLs of the pages served, in fetch order |
| `Instagram.CrawlContinued` | Services/InstagramService.php:60-63 | every fetch after the first uses the id of the previous page's last item as cursor, and happens only because that page said more was available, that id was truthy and fewer than `limit` URLs were gathered |
| `Instagram.CrawlStopped` | Services/InstagramService.php:63 | after the last fetch, one of the three conditions of the `while` fails |
| `Instagram.CrawlStopsAfterLastPage` | Services/InstagramService.php:63 | no fetch follows a page with `more_available = false`, whatever the count |
| `Instagram.UnboundedCrawlReadsToEnd` | Services/InstagramService.php:50-63 | with limit 0, and fewer than PHP_INT_MAX URLs in all, the loop stops only at a page that says nothing more is available or gives no truthy cursor |
| `Instagram.FinishContents` | Services/InstagramService.php:65-66 | the result is null iff nothing was gathered; otherwise it holds min(limit, n) URLs, the i-th being the (n-1-i)-th gathered |
| `Service.Cache.Load` | Services/InstagramService.php:49 | a miss gives false (None); a hit gives the stored value |
| `Service.Cache.Save` | Services/InstagramService.php:68 | the entry under the key is replaced and no other entry changes; the save is logged |
| `Service.MediaEndpoint.Get` | Services/InstagramService.php:87-96 | one request: it logs the URL and serves the next pending page, or an empty page without more once none is left |
| `Service.InstagramService.constructor` | Services/InstagramService.php:36-39 | the service keeps the cache it is given |
| `Service.InstagramService.GetImageUrls` | Services/InstagramService.php:46-71 | on a truthy cached value: returns it, with no request and no change to the cache; otherwise returns `Finish` of the crawl, at most the effective limit long, saves it once under the key computed from the raw limit, changes no other entry, and makes exactly the crawl's requests |
| `Service.InstagramService.FetchAll` | Services/InstagramService.php:56-63 | the do-while gathers exactly `CrawlFrom`'s URLs, sends one request per cursor `CrawlFrom` lists and leaves the endpoint with the pages it did not serve |
| `Service.InstagramService.Fetch` | Services/InstagramService.php:79-85 | requests `MediaUrl(username, maxId)` and returns the page served |
| `Service.InstagramService.ParseMaxId` | Services/InstagramService.php:103-110 | null for a page without items; otherwise the id of the last item, which is removed from the page in place |
| `Service.InstagramService.ParseImageUrls` | Services/InstagramService.php:116-128 | the foreach gathers `ImageUrls` of the page's items |
| `Service.InstagramService.ParseLargestImage` | Services/InstagramService.php:134-146 | the foreach ends with `LargestImage` of the item's renditions |
| `Service.RenderTwice` | Services/InstagramService.php:48-54 | after a call that returned a non-empty list, a second call with the same arguments returns the same list and sends no request |

## Left out

- The curl request and `json_decode` (Services/InstagramService.php:87-96) are replaced by `MediaEndpoint`, which serves a given sequence of pages in order whatever URL it is sent. That the remote side picks the page by the `max_id` cursor is not modelled; the URLs sent are logged and specified instead. Failed requests and malformed JSON are not modelled.
- The Zend cache's expiry, eviction, storage and cache-id validation are not modelled. The cache is a plain map that keeps every save and accepts every key, whereas Zend's `load` and `save` reject ids with characters outside `[a-zA-Z0-9_]`, so a username containing '.' would make the real `load` (line 49) throw before any fetch.
- Values another component might have stored under the same key with a different type are not modelled: an entry is always `string[]` or null.
- Concurrent callers racing on one cache key are not modelled; every call runs alone.
- Bootstrap.php is not part of this model: the plugin lifecycle, the component and field definitions, the event subscription and the LESS registration. `onLoadElement` only forwards the configured username and limit to the service.
- The backend combo box (Views/emotion_components/backend/instagram-element.js) is not part of this model. It offers the limits 0, 5, 10, 15, 20 and 25, which is why the limit is a `nat`.
- PHP integers are 64-bit. A limit above PHP_INT_MAX cannot come from the configuration and is not treated specially.
