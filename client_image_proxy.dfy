/** `getProxiedImageUrl` of the web client (`utils/imageProxy.ts`): Google
    image URLs are rewritten to go through the backend proxy. `apiUrlEnv` is
    the build-time `VITE_API_URL` and `encode` stands for
    `encodeURIComponent`. */
module ClientImageProxy {
  import opened Common
  import opened Strings
  import ImageProxyController

  const GoogleDomains: seq<string> := ["googleusercontent.com", "ggpht.com", "googleapis.com"]
  const DefaultApiUrl := "http://localhost:3002"
  const ProxyPath := "/api/image-proxy?url="

  /** `import.meta.env.VITE_API_URL || "http://localhost:3002"`. */
  function ApiUrl(apiUrlEnv: Option<string>): (r: string)
    ensures r != ""
  {
    OrElse(apiUrlEnv, DefaultApiUrl)
  }

  /** `googleDomains.some(d => imageUrl.includes(d))`: anywhere in the URL. */
  predicate MentionsGoogle(url: string) {
    exists i :: 0 <= i < |GoogleDomains| && Contains(url, GoogleDomains[i])
  }

  function ProxiedImageUrl(imageUrl: Option<string>, apiUrlEnv: Option<string>, encode: string -> string): (r: Option<string>)
    ensures !Truthy(imageUrl) ==> r.None?
    ensures Truthy(imageUrl) ==> r.Some?
    ensures Truthy(imageUrl) && !MentionsGoogle(imageUrl.value) ==> r == imageUrl
    ensures Truthy(imageUrl) && MentionsGoogle(imageUrl.value) ==>
      r == Some(ApiUrl(apiUrlEnv) + ProxyPath + encode(imageUrl.value))
  {
    if !Truthy(imageUrl) then None
    else if !MentionsGoogle(imageUrl.value) then imageUrl
    else Some(ApiUrl(apiUrlEnv) + ProxyPath + encode(imageUrl.value))
  }

  /** The domain test is a substring test: a non-Google host whose URL
      mentions a Google domain in its path is proxied. */
  lemma PathMentionProxied(apiUrlEnv: Option<string>, encode: string -> string)
    ensures var url := "http://a.b/ggpht.com";
      ProxiedImageUrl(Some(url), apiUrlEnv, encode) == Some(ApiUrl(apiUrlEnv) + ProxyPath + encode(url))
  {
    var url := "http://a.b/ggpht.com";
    assert OccursAt(url, GoogleDomains[1], 11);
    ContainsIff(url, GoogleDomains[1]);
    assert MentionsGoogle(url);
  }

  /** The client's substring test and the backend's hostname test disagree:
      the url above is sent through the proxy, whose host "a.b" the backend
      refuses with 403. */
  lemma ProxiedButRefused(apiUrlEnv: Option<string>, encode: string -> string, hostOf: string -> Option<string>)
    requires hostOf("http://a.b/ggpht.com") == Some("a.b")
    ensures var url := "http://a.b/ggpht.com";
      && ProxiedImageUrl(Some(url), apiUrlEnv, encode) == Some(ApiUrl(apiUrlEnv) + ProxyPath + encode(url))
      && !ImageProxyController.IsAllowedDomain(url, hostOf)
  {
    PathMentionProxied(apiUrlEnv, encode);
    ImageProxyController.IsAllowedDomainIff("http://a.b/ggpht.com", hostOf);
  }
}
