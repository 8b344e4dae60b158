/** The URL helpers of the API client: which URLs go through the CORS proxy,
    how a URL is rewritten to the proxy and back, the farspark thumbnail URL,
    and the extension table that guesses a content type. The browser's URL
    parser and the `buildAbsoluteURL` of url-toolkit are not part of this
    model: they are the functions of a `Browser` value. */
module MediaUrls {
  import opened Strings
  import opened Farspark

  /** The build-time configuration; `None` is a setting left undefined. */
  datatype Config = Config(
    corsProxyServer: Option<string>,       // CORS_PROXY_SERVER
    nonCorsProxyDomains: Option<string>,   // NON_CORS_PROXY_DOMAINS, comma separated
    reticulumServer: Option<string>,       // RETICULUM_SERVER
    mediaServer: Option<string>,           // MEDIA_SERVER
    thumbnailServer: Option<string>)       // THUMBNAIL_SERVER

  /** The parts of a parsed URL that the client reads. */
  datatype ParsedUrl = ParsedUrl(hostname: string, pathname: string)

  /** The URL machinery of the browser and of url-toolkit. */
  datatype Browser = Browser(
    parse: string -> Option<ParsedUrl>,    // `new URL(s)`; None when it throws
    absolutize: string -> Option<string>,  // `new URL(s, window.location).href`
    buildAbsolute: (string, string) -> string, // `buildAbsoluteURL(base, relative)`
    locationHostname: string)              // `document.location.hostname`

  /** A configuration value as a template literal writes it. */
  function Text(o: Option<string>): string {
    match o
    case None => "undefined"
    case Some(s) => s
  }

  /** A configuration value used as a condition. */
  predicate IsSet(o: Option<string>) {
    o.Some? && o.value != ""
  }

  /** `RETICULUM_SERVER`: the configured server, or the page's host name. */
  function ReticulumServer(cfg: Config, br: Browser): string {
    if IsSet(cfg.reticulumServer) then cfg.reticulumServer.value else br.locationHostname
  }

  // ---------------------------------------------------------------------
  // CORS proxying
  // ---------------------------------------------------------------------

  /** `nonCorsProxyDomains`: the configured list split at commas, then the
      proxy server itself when one is configured. An unset list splits into
      `[""]`. */
  function NonCorsProxyDomains(cfg: Config): (ds: seq<string>)
    ensures |ds| >= 1
  {
    Split(if cfg.nonCorsProxyDomains.Some? then cfg.nonCorsProxyDomains.value else "", ',') +
    (if IsSet(cfg.corsProxyServer) then [cfg.corsProxyServer.value] else [])
  }

  /** `domains.find(domain => host.endsWith(domain))` */
  function FirstSuffix(domains: seq<string>, host: string): (r: Option<nat>)
    ensures r.Some? ==> r.value < |domains| && EndsWith(host, domains[r.value])
    ensures r.Some? ==> forall j :: 0 <= j < r.value ==> !EndsWith(host, domains[j])
    ensures r.None? ==> forall j :: 0 <= j < |domains| ==> !EndsWith(host, domains[j])
  {
    if domains == [] then None
    else if EndsWith(host, domains[0]) then Some(0)
    else match FirstSuffix(domains[1..], host)
      case None => None
      case Some(i) => Some(i + 1)
  }

  /** `shouldCorsProxy(url)`: false only when the URL parses and the first
      listed domain its host name ends with is a non-empty string (the empty
      string that `find` may return is falsy). */
  function ShouldCorsProxy(cfg: Config, br: Browser, url: string): bool {
    match br.parse(url)
    case None => true
    case Some(p) =>
      match FirstSuffix(NonCorsProxyDomains(cfg), p.hostname)
      case None => true
      case Some(i) => NonCorsProxyDomains(cfg)[i] == ""
  }

  /** A URL is exempt from proxying exactly when it parses and some
      non-empty listed domain ends its host name with no earlier domain
      doing so. */
  lemma ShouldCorsProxyExempt(cfg: Config, br: Browser, url: string)
    ensures !ShouldCorsProxy(cfg, br, url) <==>
      br.parse(url).Some? &&
      var ds, host := NonCorsProxyDomains(cfg), br.parse(url).value.hostname;
      exists i :: 0 <= i < |ds| && ds[i] != "" && EndsWith(host, ds[i]) &&
        forall j :: 0 <= j < i ==> !EndsWith(host, ds[j])
  {
    if br.parse(url).Some? {
      var ds, host := NonCorsProxyDomains(cfg), br.parse(url).value.hostname;
      var f := FirstSuffix(ds, host);
      if exists i :: 0 <= i < |ds| && ds[i] != "" && EndsWith(host, ds[i]) &&
          forall j :: 0 <= j < i ==> !EndsWith(host, ds[j]) {
        var i :| 0 <= i < |ds| && ds[i] != "" && EndsWith(host, ds[i]) &&
          forall j :: 0 <= j < i ==> !EndsWith(host, ds[j]);
        assert f == Some(i);
      }
    }
  }

  /** An empty entry in the domain list exempts nothing, and it hides every
      entry after it, because every host name ends with "". */
  lemma EmptyDomainShadows(cfg: Config, br: Browser, url: string, e: nat)
    requires e < |NonCorsProxyDomains(cfg)| && NonCorsProxyDomains(cfg)[e] == ""
    requires br.parse(url).Some?
    ensures !ShouldCorsProxy(cfg, br, url) ==>
      exists i :: 0 <= i < e && EndsWith(br.parse(url).value.hostname, NonCorsProxyDomains(cfg)[i])
  {
    var host := br.parse(url).value.hostname;
    assert EndsWith(host, NonCorsProxyDomains(cfg)[e]);
  }

  /** With NON_CORS_PROXY_DOMAINS unset or empty, the list starts with ""
      and every URL is proxied, the proxy's own URLs included. */
  lemma UnsetDomainsProxyEverything(cfg: Config, br: Browser, url: string)
    requires cfg.nonCorsProxyDomains.None? || cfg.nonCorsProxyDomains == Some("")
    ensures ShouldCorsProxy(cfg, br, url)
  {
    assert NonCorsProxyDomains(cfg)[0] == "";
    if br.parse(url).Some? {
      assert FirstSuffix(NonCorsProxyDomains(cfg), br.parse(url).value.hostname) == Some(0);
    }
  }

  predicate IsHttpUrl(url: string) {
    StartsWith(url, "http:") || StartsWith(url, "https:")
  }

  /** `proxiedUrlFor(url)` */
  function ProxiedUrlFor(cfg: Config, br: Browser, url: string): string {
    if !IsHttpUrl(url) then url
    else if !ShouldCorsProxy(cfg, br, url) then url
    else Text(cfg.corsProxyServer) + "/" + url
  }

  /** A URL is left as it is exactly when it is not an http(s) URL or is
      exempt from proxying; otherwise the proxy server and a slash are put in
      front of it. */
  lemma ProxiedUrlForCases(cfg: Config, br: Browser, url: string)
    ensures var r := ProxiedUrlFor(cfg, br, url);
      (r == url <==> !IsHttpUrl(url) || !ShouldCorsProxy(cfg, br, url)) &&
      (r != url ==> r == Text(cfg.corsProxyServer) + "/" + url && EndsWith(r, url))
  {
    var r := ProxiedUrlFor(cfg, br, url);
    if IsHttpUrl(url) && ShouldCorsProxy(cfg, br, url) {
      assert |r| > |url|;
      assert r[|r| - |url|..] == url;
    }
  }

  // ---------------------------------------------------------------------
  // Thumbnails
  // ---------------------------------------------------------------------

  /** `scaledThumbnailUrlFor(url, width, height)`. `None` stands for the
      TypeError thrown when RETICULUM_SERVER is not configured (the function
      reads the configuration directly, without the host-name fallback). */
  function ScaledThumbnailUrlFor(cfg: Config, url: string, width: nat, height: nat): Option<string> {
    match cfg.reticulumServer
    case None => None
    case Some(server) =>
      if Contains(server, "hubs.local") && Contains(url, "hubs.local") then Some(url)
      else Some(Text(cfg.thumbnailServer) + "/thumbnail/" + FarsparkEncodeUrl(url) +
                "?w=" + NatToString(width) + "&h=" + NatToString(height))
  }

  /** Outside a hubs.local set-up, the thumbnail URL carries the original
      URL as one path segment of base64url characters, from which the
      thumbnail server recovers the URL's UTF-8 bytes exactly. */
  lemma ThumbnailUrlCarriesUrl(cfg: Config, url: string, width: nat, height: nat)
    requires cfg.reticulumServer.Some?
    requires !(Contains(cfg.reticulumServer.value, "hubs.local") && Contains(url, "hubs.local"))
    ensures exists segment ::
      ScaledThumbnailUrlFor(cfg, url, width, height) ==
        Some(Text(cfg.thumbnailServer) + "/thumbnail/" + segment + "?w=" + NatToString(width) + "&h=" + NatToString(height)) &&
      (forall k :: 0 <= k < |segment| ==> UrlValue(segment[k]).Some?) &&
      DecodeBase64UrlNoPad(segment) == Some(Utf8(url))
  {
    var segment := FarsparkEncodeUrl(url);
    FarsparkRoundTrip(url);
    var sx := Sextets(Utf8(url));
    forall k | 0 <= k < |segment| ensures UrlValue(segment[k]).Some? {
      UrlValueOfUrlChar(sx[k]);
    }
  }

  // ---------------------------------------------------------------------
  // Content type by extension
  // ---------------------------------------------------------------------

  /** `CommonKnownContentTypes` */
  const KnownContentTypes: map<string, string> := map[
    "gltf" := "model/gltf",
    "glb" := "model/gltf-binary",
    "png" := "image/png",
    "jpg" := "image/jpeg",
    "jpeg" := "image/jpeg",
    "pdf" := "application/pdf",
    "mp4" := "video/mp4",
    "mp3" := "audio/mpeg"]

  /** `new URL(url).pathname.split(".").pop()` */
  function Extension(pathname: string): string {
    LastSplit(pathname, '.')
  }

  /** `guessContentType(url)`: `Err` is the TypeError of an unparseable URL,
      `Ok(None)` is `undefined`. */
  function GuessContentType(br: Browser, url: string): Result<Option<string>, string> {
    match br.parse(url)
    case None => Err(url)
    case Some(p) =>
      var ext := Extension(p.pathname);
      Ok(if ext in KnownContentTypes then Some(KnownContentTypes[ext]) else None)
  }

  /** The guess is the table entry of the text after the last "." of the
      path (the whole path when it has none), compared case-sensitively;
      it throws only for a URL that does not parse. */
  lemma GuessContentTypeSpec(br: Browser, url: string)
    ensures br.parse(url).None? <==> GuessContentType(br, url).Err?
    ensures br.parse(url).Some? ==>
      var path, ext := br.parse(url).value.pathname, Extension(br.parse(url).value.pathname);
      '.' !in ext && EndsWith(path, ext) && (|ext| == |path| || path[|path| - |ext| - 1] == '.') &&
      (GuessContentType(br, url).value.Some? <==> ext in KnownContentTypes) &&
      (ext in KnownContentTypes ==> GuessContentType(br, url).value.value == KnownContentTypes[ext])
  {
    if br.parse(url).Some? {
      var path := br.parse(url).value.pathname;
      LastPiece(path, '.');
      var ext := Extension(path);
      assert GuessContentType(br, url) == Ok(if ext in KnownContentTypes then Some(KnownContentTypes[ext]) else None);
    }
  }

  // ---------------------------------------------------------------------
  // Un-proxying (HLS segment URLs)
  // ---------------------------------------------------------------------

  /** `unproxyUrl(baseUrl, url)`: drop a leading CORS_PROXY_SERVER from
      both, resolve a URL that does not start with "http" against the base
      (after giving it a leading "/"), and proxy the result again. */
  function UnproxiedUrl(cfg: Config, br: Browser, baseUrl: string, url: string): string {
    var prefix := if IsSet(cfg.corsProxyServer) then cfg.corsProxyServer.value else "";
    var base := if prefix != "" && StartsWith(baseUrl, prefix) then baseUrl[|prefix|..] else baseUrl;
    var u := if prefix != "" && StartsWith(url, prefix) then url[|prefix|..] else url;
    var resolved := if StartsWith(u, "http") then u
                    else br.buildAbsolute(base, if StartsWith(u, "/") then u else "/" + u);
    ProxiedUrlFor(cfg, br, resolved)
  }

  /** As written, un-proxying a proxied absolute URL leaves a "/" in front
      of it (the prefix removed lacks the slash `proxiedUrlFor` adds), so the
      original URL is resolved as a path below the base URL. */
  lemma UnproxyOfProxiedResolvesAgainstBase(cfg: Config, br: Browser, baseUrl: string, url: string)
    requires IsSet(cfg.corsProxyServer) && IsHttpUrl(url) && ShouldCorsProxy(cfg, br, url)
    ensures var p := cfg.corsProxyServer.value;
      var base := if StartsWith(baseUrl, p) then baseUrl[|p|..] else baseUrl;
      UnproxiedUrl(cfg, br, baseUrl, ProxiedUrlFor(cfg, br, url)) ==
        ProxiedUrlFor(cfg, br, br.buildAbsolute(base, "/" + url))
  {
    var p := cfg.corsProxyServer.value;
    var proxied := ProxiedUrlFor(cfg, br, url);
    assert proxied == p + "/" + url;
    assert StartsWith(proxied, p);
    assert proxied[|p|..] == "/" + url;
    assert ("/" + url)[..4][0] == '/';
    assert StartsWith("/" + url, "/");
  }

  /** A browser whose `buildAbsoluteURL` resolves every path against
      https://a.example, as it does for a base URL on that origin. */
  function ExampleBrowser(): Browser {
    Browser(
      s => Some(ParsedUrl("b.example", "/s.ts")),
      s => Some(s),
      (base, rel) => "https://a.example" + rel,
      "a.example")
  }

  /** A concrete case: with the proxy at https://proxy.example, the segment
      https://b.example/s.ts of a playlist at https://a.example/x.m3u8 comes
      back as https://a.example/https://b.example/s.ts behind the proxy,
      instead of as itself behind the proxy. */
  lemma UnproxyCounterexample()
    ensures var cfg := Config(Some("https://proxy.example"), None, None, None, None);
      var u := "https://b.example/s.ts";
      var proxied := ProxiedUrlFor(cfg, ExampleBrowser(), u);
      proxied == "https://proxy.example" + "/" + u &&
      UnproxiedUrl(cfg, ExampleBrowser(), "https://a.example/x.m3u8", proxied) ==
        "https://proxy.example" + "/" + ("https://a.example" + "/" + u) &&
      UnproxiedUrl(cfg, ExampleBrowser(), "https://a.example/x.m3u8", proxied) != proxied
  {
    var cfg := Config(Some("https://proxy.example"), None, None, None, None);
    var br := ExampleBrowser();
    var u := "https://b.example/s.ts";
    UnsetDomainsProxyEverything(cfg, br, u);
    assert IsHttpUrl(u) by { assert u[..6] == "https:"; }
    UnproxyOfProxiedResolvesAgainstBase(cfg, br, "https://a.example/x.m3u8", u);
    var again := "https://a.example" + "/" + u;
    assert br.buildAbsolute("https://a.example/x.m3u8", "/" + u) == again;
    assert IsHttpUrl(again) by { assert again[..6] == "https:"; }
    UnsetDomainsProxyEverything(cfg, br, again);
  }

  /** The evident intent: the proxy prefix
      removed includes the slash that `proxiedUrlFor` puts after it. */
  function UnproxiedUrlFixed(cfg: Config, br: Browser, baseUrl: string, url: string): string {
    var prefix := if IsSet(cfg.corsProxyServer) then cfg.corsProxyServer.value + "/" else "";
    var base := if prefix != "" && StartsWith(baseUrl, prefix) then baseUrl[|prefix|..] else baseUrl;
    var u := if prefix != "" && StartsWith(url, prefix) then url[|prefix|..] else url;
    var resolved := if StartsWith(u, "http") then u
                    else br.buildAbsolute(base, if StartsWith(u, "/") then u else "/" + u);
    ProxiedUrlFor(cfg, br, resolved)
  }

  /** With the slash removed too, un-proxying a proxied absolute URL gives
      back the same proxied URL, whatever the base. */
  lemma UnproxyFixedRoundTrip(cfg: Config, br: Browser, baseUrl: string, url: string)
    requires IsSet(cfg.corsProxyServer) && IsHttpUrl(url) && ShouldCorsProxy(cfg, br, url)
    ensures UnproxiedUrlFixed(cfg, br, baseUrl, ProxiedUrlFor(cfg, br, url)) == ProxiedUrlFor(cfg, br, url)
  {
    var p := cfg.corsProxyServer.value + "/";
    var proxied := ProxiedUrlFor(cfg, br, url);
    assert proxied == p + url;
    assert StartsWith(proxied, p);
    assert proxied[|p|..] == url;
    assert StartsWith(url, "http") by {
      if StartsWith(url, "http:") { assert url[..4] == url[..5][..4]; }
      else { assert url[..4] == url[..6][..4]; }
    }
  }
}
