/** client/src/utils/favicon.js: favicon candidates for a link, the first one
    that loads, a per-URL cache, and URL normalisation. Two browser facilities
    are parameters: WHATWG URL hostname parsing (`parseHost`, None when the URL
    constructor throws) and the image-load check (`check`, Some(true) when the
    image loads, Some(false) on error or timeout, None when the check itself
    throws). */
module Favicon {
  import opened Wrappers
  import opened Text

  /** The URL the hostname is parsed from: `url.startsWith('http') ? url : https://${url}`. */
  function AbsoluteUrl(url: string): (r: string)
    ensures StartsWith(r, "http")
    ensures r == url <==> StartsWith(url, "http")
    ensures r != url ==> r == "https://" + url
  {
    if StartsWith(url, "http") then url
    else
      assert ("https://" + url)[..4] == "http";
      "https://" + url
  }

  /** `getDomainFromUrl`: null for a missing URL (its `startsWith` throws) or one
      the URL parser rejects; otherwise the parsed hostname. */
  function GetDomainFromUrl(url: Option<string>, parseHost: string -> Option<string>): (r: Option<string>)
    ensures url.None? ==> r.None?
    ensures url.Some? ==> r == parseHost(AbsoluteUrl(url.value))
  {
    if url.None? then None else parseHost(AbsoluteUrl(url.value))
  }

  /** The scheme every service URL starts with. */
  const Https := "https://"

  /** The `services` table of `getFaviconUrl` for one domain. */
  function Services(domain: string): (m: map<string, string>)
    ensures m.Keys == {"google", "duckduckgo", "faviconIO", "direct"}
  {
    map[
      "google" := Https + "www.google.com/s2/favicons?domain=" + domain + "&sz=32",
      "duckduckgo" := Https + "icons.duckduckgo.com/ip3/" + domain + ".ico",
      "faviconIO" := Https + "favicons.githubusercontent.com/" + domain,
      "direct" := Https + domain + "/favicon.ico"]
  }

  /** A URL built as `https://` + host part + domain + tail is an https URL that
      names the domain. */
  lemma BuiltUrlNamesDomain(host: string, domain: string, tail: string)
    ensures StartsWith(Https + host + domain + tail, Https)
    ensures Contains(Https + host + domain + tail, domain)
  {
    var u := Https + host + domain + tail;
    assert StartsWith(Https, Https);
    StartsWithConcat(Https, host, Https);
    StartsWithConcat(Https + host, domain, Https);
    StartsWithConcat(Https + host + domain, tail, Https);
    assert u[|Https + host|..|Https + host| + |domain|] == domain;
    assert OccursAt(u, domain, |Https + host|);
  }

  /** Every service URL is an https URL that names the domain. */
  lemma ServicesNameDomain(domain: string, service: string)
    requires service in Services(domain)
    ensures StartsWith(Services(domain)[service], Https)
    ensures Contains(Services(domain)[service], domain)
  {
    var m := Services(domain);
    if service == "google" {
      BuiltUrlNamesDomain("www.google.com/s2/favicons?domain=", domain, "&sz=32");
      assert m[service] == Https + "www.google.com/s2/favicons?domain=" + domain + "&sz=32";
    } else if service == "duckduckgo" {
      BuiltUrlNamesDomain("icons.duckduckgo.com/ip3/", domain, ".ico");
      assert m[service] == Https + "icons.duckduckgo.com/ip3/" + domain + ".ico";
    } else if service == "faviconIO" {
      BuiltUrlNamesDomain("favicons.githubusercontent.com/", domain, "");
      assert m[service] == Https + "favicons.githubusercontent.com/" + domain + "";
    } else {
      BuiltUrlNamesDomain("", domain, "/favicon.ico");
      assert m[service] == Https + "" + domain + "/favicon.ico";
    }
  }

  /** `getFaviconUrl(url, service = 'google')`: null without a (non-empty)
      domain; the service's URL for a known service key, Google's otherwise. */
  function GetFaviconUrl(url: Option<string>, parseHost: string -> Option<string>, service: string := "google"): (r: Option<string>)
    ensures r.None? <==> GetDomainFromUrl(url, parseHost) in {None, Some("")}
    ensures r.Some? ==> StartsWith(r.value, Https)
    ensures r.Some? ==> Contains(r.value, GetDomainFromUrl(url, parseHost).value)
  {
    var domain := GetDomainFromUrl(url, parseHost);
    if domain.None? || domain.value == "" then None
    else
      var services := Services(domain.value);
      var key := if service in services then service else "google";
      ServicesNameDomain(domain.value, key);
      Some(services[key])
  }

  /** An unknown service key gives the same URL as 'google'. */
  lemma UnknownServiceIsGoogle(url: Option<string>, parseHost: string -> Option<string>, service: string)
    requires service !in {"google", "duckduckgo", "faviconIO", "direct"}
    ensures GetFaviconUrl(url, parseHost, service) == GetFaviconUrl(url, parseHost, "google")
  {
    var domain := GetDomainFromUrl(url, parseHost);
    if domain.Some? && domain.value != "" {
      assert service !in Services(domain.value);
    }
  }

  /** `getFaviconUrls`: [] without a domain, else the Google, DuckDuckGo,
      /favicon.ico and /apple-touch-icon.png candidates in that order. */
  function GetFaviconUrls(url: Option<string>, parseHost: string -> Option<string>): (r: seq<string>)
    ensures r == [] <==> GetDomainFromUrl(url, parseHost) in {None, Some("")}
    ensures r != [] ==> |r| == 4
    ensures forall i :: 0 <= i < |r| ==> StartsWith(r[i], "https://")
    ensures r != [] ==> var d := GetDomainFromUrl(url, parseHost).value;
      r == [Services(d)["google"], Services(d)["duckduckgo"], Services(d)["direct"],
            Https + d + "/apple-touch-icon.png"]
  {
    var domain := GetDomainFromUrl(url, parseHost);
    if domain.None? || domain.value == "" then []
    else
      var d := domain.value;
      var r := [
        Https + "www.google.com/s2/favicons?domain=" + d + "&sz=32",
        Https + "icons.duckduckgo.com/ip3/" + d + ".ico",
        Https + d + "/favicon.ico",
        Https + d + "/apple-touch-icon.png"];
      BuiltUrlNamesDomain("www.google.com/s2/favicons?domain=", d, "&sz=32");
      BuiltUrlNamesDomain("icons.duckduckgo.com/ip3/", d, ".ico");
      BuiltUrlNamesDomain("", d, "/favicon.ico");
      BuiltUrlNamesDomain("", d, "/apple-touch-icon.png");
      assert Https + "" + d == Https + d;
      r
  }

  /** The first three candidates are what `getFaviconUrl` gives for the services
      'google', 'duckduckgo' and 'direct'. */
  lemma CandidatesMatchServices(url: Option<string>, parseHost: string -> Option<string>)
    requires GetFaviconUrls(url, parseHost) != []
    ensures Some(GetFaviconUrls(url, parseHost)[0]) == GetFaviconUrl(url, parseHost, "google")
    ensures Some(GetFaviconUrls(url, parseHost)[1]) == GetFaviconUrl(url, parseHost, "duckduckgo")
    ensures Some(GetFaviconUrls(url, parseHost)[2]) == GetFaviconUrl(url, parseHost, "direct")
    ensures GetFaviconUrls(url, parseHost)[3] ==
      Https + GetDomainFromUrl(url, parseHost).value + "/apple-touch-icon.png"
  {
  }

  /** The candidate list checked in order: the first candidate that loads, None
      when none does, Failure(c) when checking `c` throws. */
  function FirstValid(candidates: seq<string>, check: string -> Option<bool>): (r: Result<Option<string>, string>)
    ensures r.Success? && r.value.Some? ==> r.value.value in candidates && check(r.value.value) == Some(true)
    ensures r.Success? && r.value.None? ==> forall c :: c in candidates ==> check(c) == Some(false)
    ensures r.Failure? ==> r.error in candidates && check(r.error).None?
  {
    if candidates == [] then Success(None)
    else
      var c := candidates[0];
      match check(c) {
        case None => Failure(c)
        case Some(true) => Success(Some(c))
        case Some(false) =>
          assert forall x :: x in candidates ==> x == c || x in candidates[1..];
          FirstValid(candidates[1..], check)
      }
  }

  /** The first candidate that loads, after candidates that all failed to load,
      is the one chosen. */
  lemma {:induction false} FirstLoadingIsChosen(candidates: seq<string>, check: string -> Option<bool>, k: nat)
    requires k < |candidates| && check(candidates[k]) == Some(true)
    requires forall j :: 0 <= j < k ==> check(candidates[j]) == Some(false)
    ensures FirstValid(candidates, check) == Success(Some(candidates[k]))
  {
    if k > 0 {
      assert candidates[1..][k - 1] == candidates[k];
      forall j | 0 <= j < k - 1 ensures check(candidates[1..][j]) == Some(false) {
        assert candidates[1..][j] == candidates[j + 1];
      }
      FirstLoadingIsChosen(candidates[1..], check, k - 1);
    }
  }

  /** `getValidFavicon`: tries the candidates in order and returns at the first
      one that loads; null if none does. */
  method GetValidFavicon(url: Option<string>, parseHost: string -> Option<string>, check: string -> Option<bool>)
    returns (r: Result<Option<string>, string>)
    ensures r == FirstValid(GetFaviconUrls(url, parseHost), check)
  {
    var faviconUrls := GetFaviconUrls(url, parseHost);
    for i := 0 to |faviconUrls|
      invariant FirstValid(faviconUrls[i..], check) == FirstValid(faviconUrls, check)
    {
      var isValid := check(faviconUrls[i]);
      assert faviconUrls[i..][1..] == faviconUrls[i + 1..];
      if isValid.None? {
        return Failure(faviconUrls[i]);
      }
      if isValid.value {
        return Success(Some(faviconUrls[i]));
      }
    }
    return Success(None);
  }

  /** What `getFavicon` stores for a URL it has not seen: the first candidate that
      loads, or null when none does or the lookup fails. */
  function Computed(url: Option<string>, parseHost: string -> Option<string>, check: string -> Option<bool>): (r: Option<string>)
    ensures r.Some? ==> r.value in GetFaviconUrls(url, parseHost) && check(r.value) == Some(true)
  {
    match FirstValid(GetFaviconUrls(url, parseHost), check) {
      case Success(v) => v
      case Failure(_) => None
    }
  }

  /** The `useFavicon` composable: a cache from URL to favicon (or null). */
  class FaviconCache {
    var cache: map<Option<string>, Option<string>>
    const parseHost: string -> Option<string>
    const check: string -> Option<bool>

    /** Every cached favicon is a candidate of its URL that loaded. */
    ghost predicate Valid()
      reads this
    {
      forall u :: u in cache && cache[u].Some? ==>
        cache[u].value in GetFaviconUrls(u, parseHost) && check(cache[u].value) == Some(true)
    }

    constructor(parseHost: string -> Option<string>, check: string -> Option<bool>)
      ensures cache == map[] && Valid()
      ensures this.parseHost == parseHost && this.check == check
    {
      cache := map[];
      this.parseHost := parseHost;
      this.check := check;
    }

    /** `getFavicon`: a cached URL answers from the cache and changes nothing;
        otherwise the favicon is computed and stored before it is returned, null
        when the lookup fails. */
    method GetFavicon(url: Option<string>) returns (r: Option<string>)
      requires Valid()
      modifies this
      ensures Valid()
      ensures url in old(cache) ==> r == old(cache)[url] && cache == old(cache)
      ensures url !in old(cache) ==> r == Computed(url, parseHost, check)
      ensures url !in old(cache) ==> cache == old(cache)[url := r]
    {
      if url in cache {
        return cache[url];
      }
      var faviconUrl := GetValidFavicon(url, parseHost, check);
      match faviconUrl {
        case Success(v) =>
          cache := cache[url := v];
          r := v;
        case Failure(_) =>
          cache := cache[url := None];
          r := None;
      }
    }

    /** `preloadFavicon`: fills the cache for a URL, discarding the answer. */
    method Preload(url: Option<string>)
      requires Valid()
      modifies this
      ensures Valid()
      ensures url in old(cache) ==> cache == old(cache)
      ensures url !in old(cache) ==> cache == old(cache)[url := Computed(url, parseHost, check)]
    {
      var _ := GetFavicon(url);
    }

    /** `clearCache`. */
    method ClearCache()
      requires Valid()
      modifies this
      ensures cache == map[] && Valid()
    {
      cache := map[];
    }
  }

  /** The URL starts with "http://" or "https://"; either way it starts with "http". */
  predicate HasScheme(url: string)
    ensures HasScheme(url) ==> StartsWith(url, "http") && |url| >= 7
  {
    StartsWith(url, "http://") || StartsWith(url, "https://")
  }

  /** `normalizeUrl`: '' for a missing or empty URL; a URL with an http or https
      scheme unchanged; anything else with 'https://' in front. */
  function NormalizeUrl(url: Option<string>): (r: string)
    ensures r == "" <==> url.None? || url.value == ""
    ensures r != "" ==> HasScheme(r)
    ensures url.Some? && HasScheme(url.value) ==> r == url.value
    ensures url.Some? && url.value != "" && !HasScheme(url.value) ==> r == "https://" + url.value
  {
    if url.None? || url.value == "" then ""
    else if HasScheme(url.value) then url.value
    else
      assert ("https://" + url.value)[..8] == "https://";
      "https://" + url.value
  }

  /** Normalising twice is normalising once. */
  lemma NormalizeIdempotent(url: Option<string>)
    ensures NormalizeUrl(Some(NormalizeUrl(url))) == NormalizeUrl(url)
  {
  }
}
