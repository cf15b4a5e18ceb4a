/** The cache-aside image fetch (`image-proxy.service.ts`). The cache is an
    abstract map with no expiry; `fetch` is an oracle that yields the HTTP
    response for a URL, or nothing when the request itself fails. */
module ImageProxyService {
  import opened Common
  import opened Strings

  newtype byte = x: int | 0 <= x < 256

  datatype ImageData = ImageData(buffer: seq<byte>, contentType: string)

  /** What is read from a `fetch` response: `ok`, the body and the
      `content-type` header (absent when the header is missing). */
  datatype FetchResponse = FetchResponse(ok: bool, body: seq<byte>, contentType: Option<string>)

  const CachePrefix := "image:"
  const DefaultContentType := "image/jpeg"

  /** `image:${url}`. */
  function CacheKey(url: string): (k: string)
    ensures StartsWith(k, CachePrefix) && k[|CachePrefix|..] == url
  {
    CachePrefix + url
  }

  /** Different URLs never share a cache entry. */
  lemma CacheKeyInjective(a: string, b: string)
    requires CacheKey(a) == CacheKey(b)
    ensures a == b
  {
    assert a == CacheKey(a)[|CachePrefix|..];
  }

  /** The cached value of a successful response; the content type falls
      back to "image/jpeg" when the header is absent or empty. */
  function ImageOf(resp: FetchResponse): (d: ImageData)
    ensures d.buffer == resp.body
    ensures Truthy(resp.contentType) ==> d.contentType == resp.contentType.value
    ensures !Truthy(resp.contentType) ==> d.contentType == DefaultContentType
  {
    ImageData(resp.body, OrElse(resp.contentType, DefaultContentType))
  }

  class ImageProxyService {
    var cache: map<string, ImageData>
    /** The URLs handed to `fetch`, in order. */
    ghost var fetched: seq<string>

    /** Every entry this service writes is under an "image:" key. */
    ghost predicate Valid()
      reads this
    {
      forall k :: k in cache ==> StartsWith(k, CachePrefix)
    }

    constructor ()
      ensures Valid() && cache == map[] && fetched == []
    {
      cache := map[];
      fetched := [];
    }

    /** `fetchImage`: a hit is returned without fetching; a miss fetches
        once, and only an ok response is stored and returned. `None` stands
        for the rejected promise. */
    method FetchImage(url: string, fetch: string -> Option<FetchResponse>) returns (r: Option<ImageData>)
      requires Valid()
      modifies this
      ensures Valid()
      ensures CacheKey(url) in old(cache) ==>
        r == Some(old(cache)[CacheKey(url)]) && cache == old(cache) && fetched == old(fetched)
      ensures CacheKey(url) !in old(cache) ==> fetched == old(fetched) + [url]
      ensures CacheKey(url) !in old(cache) && (fetch(url).None? || !fetch(url).value.ok) ==>
        r.None? && cache == old(cache)
      ensures CacheKey(url) !in old(cache) && fetch(url).Some? && fetch(url).value.ok ==>
        r == Some(ImageOf(fetch(url).value)) && cache == old(cache)[CacheKey(url) := ImageOf(fetch(url).value)]
      ensures forall k :: k != CacheKey(url) ==> (k in cache <==> k in old(cache))
      ensures forall k :: k != CacheKey(url) && k in cache ==> cache[k] == old(cache)[k]
      ensures r.Some? ==> CacheKey(url) in cache && cache[CacheKey(url)] == r.value
    {
      var key := CacheKey(url);
      if key in cache {
        return Some(cache[key]);
      }
      fetched := fetched + [url];
      var response := fetch(url);
      if response.None? || !response.value.ok {
        return None;
      }
      var data := ImageOf(response.value);
      cache := cache[key := data];
      r := Some(data);
    }
  }
}
