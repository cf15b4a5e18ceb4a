/** `GET /api/image-proxy?url=` (`image-proxy.controller.ts`): the URL is
    required, its host must be a Google image host, and the image is then
    served with a one-day cache header. `hostOf` stands for `new URL(url)
    .hostname`, with nothing for a URL that does not parse. */
module ImageProxyController {
  import opened Common
  import opened Strings
  import opened ImageProxyService

  const AllowedDomains: seq<string> := ["googleusercontent.com", "ggpht.com", "googleapis.com"]
  const CacheControl := "public, max-age=86400"

  datatype ImageResponse =
    | Image(cacheControl: string, contentType: string, buffer: seq<byte>)
    | Failure(status: int, message: string)

  /** `allowedDomains.some(d => hostname.endsWith(d))`, false when the URL
      does not parse. */
  predicate IsAllowedDomain(url: string, hostOf: string -> Option<string>) {
    match hostOf(url)
    case None => false
    case Some(host) => exists i :: 0 <= i < |AllowedDomains| && EndsWith(host, AllowedDomains[i])
  }

  /** The allow-list spelled out: the host ends with one of the three names. */
  lemma IsAllowedDomainIff(url: string, hostOf: string -> Option<string>)
    ensures IsAllowedDomain(url, hostOf) <==>
      hostOf(url).Some? &&
      (EndsWith(hostOf(url).value, "googleusercontent.com")
       || EndsWith(hostOf(url).value, "ggpht.com")
       || EndsWith(hostOf(url).value, "googleapis.com"))
  {
    if hostOf(url).Some? {
      var h := hostOf(url).value;
      if EndsWith(h, "googleusercontent.com") {
        assert EndsWith(h, AllowedDomains[0]);
      }
      if EndsWith(h, "ggpht.com") {
        assert EndsWith(h, AllowedDomains[1]);
      }
      if EndsWith(h, "googleapis.com") {
        assert EndsWith(h, AllowedDomains[2]);
      }
    }
  }

  /** A plain suffix test: a host that merely ends in the letters of an
      allowed domain, such as "evilgoogleusercontent.com", passes. */
  lemma SuffixLookalikeAllowed(url: string, hostOf: string -> Option<string>)
    requires hostOf(url) == Some("evilgoogleusercontent.com")
    ensures IsAllowedDomain(url, hostOf)
  {
    var h := "evilgoogleusercontent.com";
    assert h[|h| - |AllowedDomains[0]|..] == AllowedDomains[0];
    assert EndsWith(h, AllowedDomains[0]);
  }

  /** A URL that does not parse is never allowed. */
  lemma UnparseableRejected(url: string, hostOf: string -> Option<string>)
    requires hostOf(url).None?
    ensures !IsAllowedDomain(url, hostOf)
  {
  }

  class ImageProxyController {
    const service: ImageProxyService

    ghost predicate Valid()
      reads this, service
    {
      service.Valid()
    }

    constructor (service: ImageProxyService)
      ensures this.service == service
    {
      this.service := service;
    }

    /** `getImage`: 400 without a URL, 403 for a host off the allow-list
        (both before any fetch), 500 when the fetch fails, and otherwise the
        image with the cache header and its content type. */
    method GetImage(imageUrl: Option<string>, hostOf: string -> Option<string>,
                    fetch: string -> Option<FetchResponse>)
      returns (resp: ImageResponse)
      requires Valid()
      modifies service
      ensures Valid()
      ensures !Truthy(imageUrl) ==>
        resp == Failure(400, "URL parameter is required")
        && service.cache == old(service.cache) && service.fetched == old(service.fetched)
      ensures Truthy(imageUrl) && !IsAllowedDomain(imageUrl.value, hostOf) ==>
        resp == Failure(403, "Only Google domains are allowed")
        && service.cache == old(service.cache) && service.fetched == old(service.fetched)
      ensures Truthy(imageUrl) && IsAllowedDomain(imageUrl.value, hostOf) ==>
        var url := imageUrl.value;
        var key := CacheKey(url);
        && (resp.Image? <==> key in service.cache)
        && (resp.Image? ==> resp == Image(CacheControl, service.cache[key].contentType, service.cache[key].buffer))
        && (resp.Failure? ==> resp == Failure(500, "Failed to fetch image"))
        && (key in old(service.cache) ==>
              && resp == Image(CacheControl, old(service.cache)[key].contentType, old(service.cache)[key].buffer)
              && service.cache == old(service.cache) && service.fetched == old(service.fetched))
        && (key !in old(service.cache) ==>
              && service.fetched == old(service.fetched) + [url]
              && (resp.Image? <==> fetch(url).Some? && fetch(url).value.ok))
        && (key !in old(service.cache) && fetch(url).Some? && fetch(url).value.ok ==>
              && resp == Image(CacheControl, ImageOf(fetch(url).value).contentType, fetch(url).value.body)
              && service.cache == old(service.cache)[key := ImageOf(fetch(url).value)])
        && (key !in old(service.cache) && !(fetch(url).Some? && fetch(url).value.ok) ==>
              service.cache == old(service.cache))
    {
      if !Truthy(imageUrl) {
        return Failure(400, "URL parameter is required");
      }
      var url := imageUrl.value;
      if !IsAllowedDomain(url, hostOf) {
        return Failure(403, "Only Google domains are allowed");
      }
      var data := service.FetchImage(url, fetch);
      if data.None? {
        return Failure(500, "Failed to fetch image");
      }
      resp := Image(CacheControl, data.value.contentType, data.value.buffer);
    }
  }
}
