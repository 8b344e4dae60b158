/** The media resolution of the API client: `resolveUrl`, `resolveMedia`
    and `getContentType`, with the two module-level memo caches they share.
    Each operation is a function from the caches and the request log before
    the call to the caches, the log and the answer after it; the replies of
    the servers, the HEAD request and the Sketchfab zip loader are inputs. */
module MediaResolver {
  import opened Strings
  import opened MediaUrls
  import opened Network

  /** What the resolver reads besides its caches: the configuration, the
      browser's URL machinery and the client's `serverURL`. */
  datatype Env = Env(cfg: Config, br: Browser, serverUrl: string)

  /** `meta` of a resolve reply; only `expected_content_type` is read. */
  datatype Meta = Meta(expectedContentType: Option<string>)

  /** The JSON a resolve request answers with. */
  datatype Resolved = Resolved(origin: string, meta: Option<Meta>)

  /** The object `resolveMedia` settles to. */
  datatype Media = Media(
    canonicalUrl: string,
    accessibleUrl: string,
    contentType: Option<string>,
    meta: Option<Meta>,
    files: Option<map<string, string>>)   // the zip's file name to object URL map

  /** What `resolveUrl` returns: `{origin: url}` for a URL that is not
      proxied, otherwise a (possibly stored) request. */
  datatype UrlAnswer = Direct(origin: string) | Requested(request: Pending<Resolved>)

  /** What `resolveMedia` returns: `{accessibleUrl}` for a same-origin URL,
      a (possibly stored) request, or the rejection of a URL that cannot be
      made absolute. */
  datatype MediaAnswer = SameOrigin(accessibleUrl: string) | Memoized(request: Pending<Media>) | Rejected(error: ApiError)

  /** The reply of the Sketchfab zip loader. */
  datatype ZipReply = ZipFailed | Unzipped(files: map<string, string>)

  /** The replies a resolution may wait for: the resolve POST, the HEAD
      request (its body is the content-type header, `None` when absent) and
      the zip loader. */
  datatype MediaReplies = MediaReplies(resolve: Reply<Resolved>, head: Reply<string>, zip: ZipReply)

  /** `resolveUrlCache`, `resolveMediaCache`, and the count of requests
      created so far (which tells stored requests apart). */
  datatype Caches = Caches(
    urls: map<string, Pending<Resolved>>,
    media: map<string, Pending<Media>>,
    tickets: nat)

  /** Caches, request log and answer after a call. */
  datatype Step<T> = Step(caches: Caches, log: seq<Request>, answer: T)

  const SketchfabPrefix := "https://sketchfab.com/"
  const SketchfabZipType := "model/gltf+zip"
  const SceneEntry := "scene.gtlf"

  // ---------------------------------------------------------------------
  // Cache keys
  // ---------------------------------------------------------------------

  /** An index as a template literal writes it. */
  function IndexText(index: Option<nat>): string {
    match index
    case None => "undefined"
    case Some(n) => NatToString(n)
  }

  /** `${url}|${index}` */
  function CacheKey(url: string, index: Option<nat>): string {
    url + "|" + IndexText(index)
  }

  lemma DigitsAreNotUndefined(n: nat)
    ensures NatToString(n) != "undefined"
  {
    assert NatToString(n)[0] != "undefined"[0];
  }

  lemma {:induction false} IndexTextInjective(a: Option<nat>, b: Option<nat>)
    requires IndexText(a) == IndexText(b)
    ensures a == b
  {
    match a
    case None =>
      if b.Some? { DigitsAreNotUndefined(b.value); assert false; }
    case Some(n) =>
      if b.None? { DigitsAreNotUndefined(n); assert false; }
      else { NatToStringValue(n); NatToStringValue(b.value); }
  }

  /** The index text never holds a "|", so the key is split unambiguously
      at its last "|": distinct URL and index pairs never share an entry. */
  lemma {:induction false} CacheKeyInjective(u1: string, i1: Option<nat>, u2: string, i2: Option<nat>)
    requires CacheKey(u1, i1) == CacheKey(u2, i2)
    ensures u1 == u2 && i1 == i2
  {
    var t1, t2 := IndexText(i1), IndexText(i2);
    var s := CacheKey(u1, i1);
    assert '|' !in t1 && '|' !in t2;
    BarAfterUrl(u1, t1, u2, t2);
    BarAfterUrl(u2, t2, u1, t1);
    assert u1 == s[..|u1|] == u2;
    assert t1 == s[|u1| + 1..] == t2;
    IndexTextInjective(i1, i2);
  }

  /** In `u1|t1`, with no "|" in `t1`, the last "|" is the one after `u1`. */
  lemma BarAfterUrl(u1: string, t1: string, u2: string, t2: string)
    requires u1 + "|" + t1 == u2 + "|" + t2 && '|' !in t1
    ensures |u2| <= |u1|
  {
    var s := u1 + "|" + t1;
    assert s[|u2|] == '|';
    assert forall k :: |u1| < k < |s| ==> s[k] == t1[k - |u1| - 1];
  }

  // ---------------------------------------------------------------------
  // resolveUrl
  // ---------------------------------------------------------------------

  /** Old entries stay, with the same request, and the ticket count never
      goes down. */
  predicate Grows(c: Caches, c': Caches) {
    (forall k :: k in c.urls ==> k in c'.urls && c'.urls[k] == c.urls[k]) &&
    (forall k :: k in c.media ==> k in c'.media && c'.media[k] == c.media[k]) &&
    c.tickets <= c'.tickets
  }

  /** Sketchfab URLs are resolved by MEDIA_SERVER, the rest by the
      Reticulum server with the authorization header. */
  function ResolveEndpoint(env: Env, url: string): string {
    (if Contains(url, SketchfabPrefix) then Text(env.cfg.mediaServer) else ReticulumServer(env.cfg, env.br)) + "/api/v1/media"
  }

  /** `resolveUrl(url, index)` */
  function ResolveUrl(env: Env, c: Caches, log: seq<Request>, url: string, index: Option<nat>, reply: Reply<Resolved>)
    : Step<UrlAnswer>
  {
    if !ShouldCorsProxy(env.cfg, env.br, url) then Step(c, log, Direct(url))
    else
      var key := CacheKey(url, index);
      if key in c.urls then Step(c, log, Requested(c.urls[key]))
      else
        var endpoint := ResolveEndpoint(env, url);
        var p := Pending(c.tickets, FetchJson(endpoint, reply));
        Step(c.(urls := c.urls[key := p], tickets := c.tickets + 1),
             log + [ResolvePost(endpoint, url, index, !Contains(url, SketchfabPrefix))],
             Requested(p))
  }

  /** A URL that is not proxied is answered directly and a stored key
      gets its stored request, both without touching the caches or the
      log. Otherwise exactly one resolve POST is sent, to MEDIA_SERVER for
      Sketchfab and to Reticulum otherwise, and its request is stored under
      the URL and index with a new ticket. */
  lemma ResolveUrlSpec(env: Env, c: Caches, log: seq<Request>, url: string, index: Option<nat>, reply: Reply<Resolved>)
    ensures !ShouldCorsProxy(env.cfg, env.br, url) ==> ResolveUrl(env, c, log, url, index, reply) == Step(c, log, Direct(url))
    ensures ShouldCorsProxy(env.cfg, env.br, url) && CacheKey(url, index) in c.urls ==>
      ResolveUrl(env, c, log, url, index, reply) == Step(c, log, Requested(c.urls[CacheKey(url, index)]))
    ensures ShouldCorsProxy(env.cfg, env.br, url) && CacheKey(url, index) !in c.urls ==>
      var s := ResolveUrl(env, c, log, url, index, reply);
      var endpoint := ResolveEndpoint(env, url);
      s.answer.Requested? && s.answer.request.ticket == c.tickets &&
      s.answer.request.outcome == FetchJson(endpoint, reply) &&
      s.caches == c.(urls := c.urls[CacheKey(url, index) := s.answer.request], tickets := c.tickets + 1) &&
      s.log == log + [ResolvePost(endpoint, url, index, !Contains(url, SketchfabPrefix))]
  {
  }

  /** What awaiting an answer of `resolveUrl` gives. */
  function Settled(a: UrlAnswer): Result<Resolved, ApiError> {
    match a
    case Direct(origin) => Ok(Resolved(origin, None))
    case Requested(p) => p.outcome
  }

  // ---------------------------------------------------------------------
  // Content type
  // ---------------------------------------------------------------------

  /** `result.meta && result.meta.expected_content_type`, when truthy. */
  function ExpectedType(meta: Option<Meta>): Option<string> {
    if meta.Some? && IsSet(meta.value.expectedContentType) then meta.value.expectedContentType else None
  }

  /** `fetchContentType(accessibleUrl)`: a HEAD request through
      `this.fetch`, then the content-type header (`None` for null). */
  function HeadContentType(url: string, reply: Reply<string>): Result<Option<string>, ApiError> {
    match Fetch(url, reply)
    case Err(e) => Err(e)
    case Ok(resp) => Ok(resp.body)
  }

  /** The chosen content type, and whether a HEAD request was issued. */
  datatype Typed = Typed(contentType: Result<Option<string>, ApiError>, headSent: bool)

  /** `expected || guessContentType(canonical) || await fetchContentType(accessible)` */
  function ChooseContentType(br: Browser, meta: Option<Meta>, canonical: string, accessible: string, head: Reply<string>)
    : (t: Typed)
    ensures ExpectedType(meta).Some? ==> t == Typed(Ok(ExpectedType(meta)), false)
    ensures ExpectedType(meta).None? && GuessContentType(br, canonical).Err? ==>
      t == Typed(Err(InvalidUrl(canonical)), false)
    ensures ExpectedType(meta).None? && GuessContentType(br, canonical).Ok? && GuessContentType(br, canonical).value.Some? ==>
      t == Typed(Ok(GuessContentType(br, canonical).value), false)
    ensures t.headSent <==> ExpectedType(meta).None? && GuessContentType(br, canonical) == Ok(None)
    ensures t.headSent ==> t.contentType == HeadContentType(accessible, head)
  {
    var hint := ExpectedType(meta);
    if hint.Some? then Typed(Ok(hint), false)
    else
      match GuessContentType(br, canonical)
      case Err(_) => Typed(Err(InvalidUrl(canonical)), false)
      case Ok(guess) =>
        if guess.Some? then Typed(Ok(guess), false)
        else Typed(HeadContentType(accessible, head), true)
  }

  /** `getContentType(url)`: the same priority over `resolveUrl(url)`
      (index undefined); its errors are passed on unwrapped. */
  function GetContentType(env: Env, c: Caches, log: seq<Request>, url: string, replies: MediaReplies)
    : Step<Result<Option<string>, ApiError>>
  {
    var inner := ResolveUrl(env, c, log, url, None, replies.resolve);
    match Settled(inner.answer)
    case Err(e) => Step(inner.caches, inner.log, Err(e))
    case Ok(r) =>
      var accessible := ProxiedUrlFor(env.cfg, env.br, r.origin);
      var t := ChooseContentType(env.br, r.meta, r.origin, accessible, replies.head);
      Step(inner.caches, inner.log + (if t.headSent then [HeadRequest(accessible)] else []), t.contentType)
  }

  /** A content-type lookup passes on the resolve error, or asks for the
      type in the order expected type, guess, HEAD request, and adds only
      that HEAD request to the log. */
  lemma GetContentTypeSpec(env: Env, c: Caches, log: seq<Request>, url: string, replies: MediaReplies)
    ensures var s := GetContentType(env, c, log, url, replies);
      var inner := ResolveUrl(env, c, log, url, None, replies.resolve);
      s.caches == inner.caches && IsPrefix(inner.log, s.log) &&
      (Settled(inner.answer).Err? ==> s.log == inner.log && s.answer == Err(Settled(inner.answer).error)) &&
      (Settled(inner.answer).Ok? ==>
        var r := Settled(inner.answer).value;
        var accessible := ProxiedUrlFor(env.cfg, env.br, r.origin);
        var t := ChooseContentType(env.br, r.meta, r.origin, accessible, replies.head);
        s.answer == t.contentType &&
        s.log == inner.log + (if t.headSent then [HeadRequest(accessible)] else []))
  {
  }

  // ---------------------------------------------------------------------
  // resolveMedia
  // ---------------------------------------------------------------------

  /** The asynchronous body of `resolveMedia` once `resolveUrl` has
      settled: proxy the origin, choose the content type, and for a
      Sketchfab zip replace the accessible URL by the zip's scene file. */
  function LoadMedia(env: Env, log: seq<Request>, absoluteUrl: string, resolved: Result<Resolved, ApiError>, replies: MediaReplies)
    : (run: Traced<Media>)
    ensures IsPrefix(log, run.log)
    ensures forall k :: |log| <= k < |run.log| ==> run.log[k].HeadRequest? || run.log[k].ZipLoad?
    ensures resolved.Err? ==> run == Traced(log, Err(MediaResolutionFailed(absoluteUrl, resolved.error)))
    ensures run.outcome.Ok? ==> resolved.Ok? && run.outcome.value.canonicalUrl == resolved.value.origin
    ensures run.outcome.Ok? && run.outcome.value.contentType == Some(SketchfabZipType) ==>
      var m := run.outcome.value;
      m.files.Some? && SceneEntry in m.files.value && m.accessibleUrl == m.files.value[SceneEntry]
    ensures run.outcome.Ok? && run.outcome.value.contentType != Some(SketchfabZipType) ==>
      var m := run.outcome.value;
      m.files.None? && m.accessibleUrl == ProxiedUrlFor(env.cfg, env.br, m.canonicalUrl) &&
      m.meta == resolved.value.meta
  {
    match resolved
    case Err(e) => Traced(log, Err(MediaResolutionFailed(absoluteUrl, e)))
    case Ok(r) =>
      var accessible := ProxiedUrlFor(env.cfg, env.br, r.origin);
      var t := ChooseContentType(env.br, r.meta, r.origin, accessible, replies.head);
      var log1 := log + (if t.headSent then [HeadRequest(accessible)] else []);
      match t.contentType
      case Err(e) => Traced(log1, Err(MediaResolutionFailed(absoluteUrl, e)))
      case Ok(contentType) =>
        if contentType == Some(SketchfabZipType) then
          var log2 := log1 + [ZipLoad(accessible)];
          match replies.zip
          case ZipFailed => Traced(log2, Err(SketchfabLoadFailed(accessible, ZipUnreadable)))
          case Unzipped(files) =>
            if SceneEntry in files then
              Traced(log2, Ok(Media(r.origin, files[SceneEntry], contentType, None, Some(files))))
            else Traced(log2, Err(SketchfabLoadFailed(accessible, MissingSceneFile)))
        else Traced(log1, Ok(Media(r.origin, accessible, contentType, r.meta, None)))
  }

  /** `resolveMedia(url, index)` */
  function ResolveMedia(env: Env, c: Caches, log: seq<Request>, url: string, index: Option<nat>, replies: MediaReplies)
    : Step<MediaAnswer>
  {
    match env.br.absolutize(url)
    case None => Step(c, log, Rejected(InvalidUrl(url)))
    case Some(abs) =>
      if StartsWith(abs, env.serverUrl) then Step(c, log, SameOrigin(abs))
      else
        var key := CacheKey(abs, index);
        if key in c.media then Step(c, log, Memoized(c.media[key]))
        else
          var inner := ResolveUrl(env, c, log, abs, None, replies.resolve);
          var run := LoadMedia(env, inner.log, abs, Settled(inner.answer), replies);
          var p := Pending(inner.caches.tickets, run.outcome);
          Step(inner.caches.(media := inner.caches.media[key := p], tickets := inner.caches.tickets + 1), run.log, Memoized(p))
  }

  /** A URL that cannot be made absolute is rejected and a same-origin one
      answered directly, both without touching the caches. Otherwise a
      stored request is returned as it is, or the resolution is run and its
      request stored under the URL and index. */
  lemma ResolveMediaSpec(env: Env, c: Caches, log: seq<Request>, url: string, index: Option<nat>, replies: MediaReplies)
    ensures env.br.absolutize(url).None? ==>
      ResolveMedia(env, c, log, url, index, replies) == Step(c, log, Rejected(InvalidUrl(url)))
    ensures env.br.absolutize(url).Some? && StartsWith(env.br.absolutize(url).value, env.serverUrl) ==>
      ResolveMedia(env, c, log, url, index, replies) == Step(c, log, SameOrigin(env.br.absolutize(url).value))
    ensures env.br.absolutize(url).Some? && !StartsWith(env.br.absolutize(url).value, env.serverUrl) ==>
      var s := ResolveMedia(env, c, log, url, index, replies);
      var abs := env.br.absolutize(url).value;
      var key := CacheKey(abs, index);
      (key in c.media ==> s == Step(c, log, Memoized(c.media[key]))) &&
      (key !in c.media ==>
        var inner := ResolveUrl(env, c, log, abs, None, replies.resolve);
        var run := LoadMedia(env, inner.log, abs, Settled(inner.answer), replies);
        s.answer == Memoized(Pending(inner.caches.tickets, run.outcome)) &&
        s.caches == inner.caches.(media := inner.caches.media[key := s.answer.request],
                                  tickets := inner.caches.tickets + 1) &&
        s.log == run.log)
  {
  }

  // ---------------------------------------------------------------------
  // Sequences of calls
  // ---------------------------------------------------------------------

  /** One call of the three operations, with the replies it would get. */
  datatype Call =
    | ResolveUrlCall(url: string, index: Option<nat>, reply: Reply<Resolved>)
    | ResolveMediaCall(url: string, index: Option<nat>, replies: MediaReplies)
    | ContentTypeCall(url: string, replies: MediaReplies)

  datatype Answer = UrlAnswered(u: UrlAnswer) | MediaAnswered(m: MediaAnswer) | TypeAnswered(t: Result<Option<string>, ApiError>)

  function Apply(env: Env, c: Caches, log: seq<Request>, call: Call): Step<Answer> {
    match call
    case ResolveUrlCall(url, index, reply) =>
      var s := ResolveUrl(env, c, log, url, index, reply);
      Step(s.caches, s.log, UrlAnswered(s.answer))
    case ResolveMediaCall(url, index, replies) =>
      var s := ResolveMedia(env, c, log, url, index, replies);
      Step(s.caches, s.log, MediaAnswered(s.answer))
    case ContentTypeCall(url, replies) =>
      var s := GetContentType(env, c, log, url, replies);
      Step(s.caches, s.log, TypeAnswered(s.answer))
  }

  /** The calls made one after another (each settles before the next). */
  function RunCalls(env: Env, c: Caches, log: seq<Request>, calls: seq<Call>): (s: Step<seq<Answer>>)
    ensures |s.answer| == |calls|
    decreases |calls|
  {
    if calls == [] then Step(c, log, [])
    else
      var first := Apply(env, c, log, calls[0]);
      var rest := RunCalls(env, first.caches, first.log, calls[1..]);
      Step(rest.caches, rest.log, [first.answer] + rest.answer)
  }

  lemma ResolveUrlGrows(env: Env, c: Caches, log: seq<Request>, url: string, index: Option<nat>, reply: Reply<Resolved>)
    ensures var s := ResolveUrl(env, c, log, url, index, reply);
      Grows(c, s.caches) && IsPrefix(log, s.log) && (forall k :: |log| <= k < |s.log| ==> s.log[k].ResolvePost?)
  {
    ResolveUrlSpec(env, c, log, url, index, reply);
  }

  lemma ResolveMediaGrows(env: Env, c: Caches, log: seq<Request>, url: string, index: Option<nat>, replies: MediaReplies)
    ensures var s := ResolveMedia(env, c, log, url, index, replies); Grows(c, s.caches) && IsPrefix(log, s.log)
  {
    var abs := env.br.absolutize(url);
    if abs.Some? && !StartsWith(abs.value, env.serverUrl) && CacheKey(abs.value, index) !in c.media {
      var inner := ResolveUrl(env, c, log, abs.value, None, replies.resolve);
      ResolveUrlGrows(env, c, log, abs.value, None, replies.resolve);
      var run := LoadMedia(env, inner.log, abs.value, Settled(inner.answer), replies);
      assert run.log[..|inner.log|][..|log|] == run.log[..|log|];
    }
  }

  lemma GetContentTypeGrows(env: Env, c: Caches, log: seq<Request>, url: string, replies: MediaReplies)
    ensures var s := GetContentType(env, c, log, url, replies); Grows(c, s.caches) && IsPrefix(log, s.log)
  {
    var inner := ResolveUrl(env, c, log, url, None, replies.resolve);
    ResolveUrlGrows(env, c, log, url, None, replies.resolve);
    GetContentTypeSpec(env, c, log, url, replies);
    var s := GetContentType(env, c, log, url, replies);
    assert s.log[..|inner.log|][..|log|] == s.log[..|log|];
  }

  /** One call keeps every cache entry and only appends to the log. */
  lemma ApplyGrows(env: Env, c: Caches, log: seq<Request>, call: Call)
    ensures Grows(c, Apply(env, c, log, call).caches)
    ensures IsPrefix(log, Apply(env, c, log, call).log)
  {
    match call
    case ResolveUrlCall(url, index, reply) => ResolveUrlGrows(env, c, log, url, index, reply);
    case ResolveMediaCall(url, index, replies) => ResolveMediaGrows(env, c, log, url, index, replies);
    case ContentTypeCall(url, replies) => GetContentTypeGrows(env, c, log, url, replies);
  }

  /** Entries, once stored, stay stored with the same request for the
      rest of the session, failed requests included. */
  lemma {:induction false} RunGrows(env: Env, c: Caches, log: seq<Request>, calls: seq<Call>)
    ensures Grows(c, RunCalls(env, c, log, calls).caches)
    ensures IsPrefix(log, RunCalls(env, c, log, calls).log)
    decreases |calls|
  {
    if calls != [] {
      var first := Apply(env, c, log, calls[0]);
      ApplyGrows(env, c, log, calls[0]);
      RunGrows(env, first.caches, first.log, calls[1..]);
      var fin := RunCalls(env, c, log, calls).log;
      assert fin[..|first.log|][..|log|] == fin[..|log|];
    }
  }

  /** A later `resolveUrl` of a stored key gets the stored request back. */
  lemma {:induction false} StoredUrlAnswered(env: Env, c: Caches, log: seq<Request>, calls: seq<Call>, k: nat, key: string)
    requires key in c.urls && k < |calls| && calls[k].ResolveUrlCall?
    requires ShouldCorsProxy(env.cfg, env.br, calls[k].url) && CacheKey(calls[k].url, calls[k].index) == key
    ensures RunCalls(env, c, log, calls).answer[k] == UrlAnswered(Requested(c.urls[key]))
    decreases k
  {
    var first := Apply(env, c, log, calls[0]);
    ApplyGrows(env, c, log, calls[0]);
    if k > 0 {
      StoredUrlAnswered(env, first.caches, first.log, calls[1..], k - 1, key);
    }
  }

  /** A later `resolveMedia` of a stored key gets the stored request back. */
  lemma {:induction false} StoredMediaAnswered(env: Env, c: Caches, log: seq<Request>, calls: seq<Call>, k: nat, key: string)
    requires key in c.media && k < |calls| && calls[k].ResolveMediaCall?
    requires env.br.absolutize(calls[k].url).Some?
    requires !StartsWith(env.br.absolutize(calls[k].url).value, env.serverUrl)
    requires CacheKey(env.br.absolutize(calls[k].url).value, calls[k].index) == key
    ensures RunCalls(env, c, log, calls).answer[k] == MediaAnswered(Memoized(c.media[key]))
    decreases k
  {
    var first := Apply(env, c, log, calls[0]);
    ApplyGrows(env, c, log, calls[0]);
    if k > 0 {
      StoredMediaAnswered(env, first.caches, first.log, calls[1..], k - 1, key);
    }
  }

  /** The answer of call `k` of a run, read off the run of the calls after
      the first. */
  lemma RunCallsAt(env: Env, c: Caches, log: seq<Request>, calls: seq<Call>, k: nat)
    requires k < |calls|
    ensures var first := Apply(env, c, log, calls[0]);
      RunCalls(env, c, log, calls).answer[k] ==
        if k == 0 then first.answer else RunCalls(env, first.caches, first.log, calls[1..]).answer[k - 1]
  {
  }

  /** A `resolveUrl` call that made or found a request leaves it stored
      under its key. */
  lemma ApplyUrlStores(env: Env, c: Caches, log: seq<Request>, call: Call)
    requires call.ResolveUrlCall?
    requires Apply(env, c, log, call).answer.u.Requested?
    ensures var first := Apply(env, c, log, call); var key := CacheKey(call.url, call.index);
      key in first.caches.urls && first.answer == UrlAnswered(Requested(first.caches.urls[key]))
  {
  }

  /** A `resolveMedia` call of a URL that is not same-origin leaves its
      request stored under its key. */
  lemma ApplyMediaStores(env: Env, c: Caches, log: seq<Request>, call: Call)
    requires call.ResolveMediaCall? && env.br.absolutize(call.url).Some?
    requires !StartsWith(env.br.absolutize(call.url).value, env.serverUrl)
    ensures var first := Apply(env, c, log, call); var key := CacheKey(env.br.absolutize(call.url).value, call.index);
      key in first.caches.media && first.answer == MediaAnswered(Memoized(first.caches.media[key]))
  {
  }

  lemma FirstUrlMemoized(env: Env, c: Caches, log: seq<Request>, calls: seq<Call>, j: nat)
    requires 0 < j < |calls| && calls[0].ResolveUrlCall? && calls[j].ResolveUrlCall?
    requires calls[0].url == calls[j].url && calls[0].index == calls[j].index
    requires Apply(env, c, log, calls[0]).answer.u.Requested?
    ensures var first := Apply(env, c, log, calls[0]);
      RunCalls(env, first.caches, first.log, calls[1..]).answer[j - 1] == first.answer
  {
    var first := Apply(env, c, log, calls[0]);
    ApplyUrlStores(env, c, log, calls[0]);
    StoredUrlAnswered(env, first.caches, first.log, calls[1..], j - 1, CacheKey(calls[0].url, calls[0].index));
  }

  lemma FirstMediaMemoized(env: Env, c: Caches, log: seq<Request>, calls: seq<Call>, j: nat)
    requires 0 < j < |calls| && calls[0].ResolveMediaCall? && calls[j].ResolveMediaCall?
    requires calls[0].url == calls[j].url && calls[0].index == calls[j].index
    requires env.br.absolutize(calls[0].url).Some?
    requires !StartsWith(env.br.absolutize(calls[0].url).value, env.serverUrl)
    ensures var first := Apply(env, c, log, calls[0]);
      first.answer.MediaAnswered? && first.answer.m.Memoized? &&
      RunCalls(env, first.caches, first.log, calls[1..]).answer[j - 1] == first.answer
  {
    var first := Apply(env, c, log, calls[0]);
    var rest := calls[1..];
    var key := CacheKey(env.br.absolutize(calls[0].url).value, calls[0].index);
    ApplyMediaStores(env, c, log, calls[0]);
    assert rest[j - 1] == calls[j];
    StoredMediaAnswered(env, first.caches, first.log, rest, j - 1, key);
  }

  /** Two `resolveUrl` calls with the same URL and index: once the first
      has made (or found) a request, the second returns that same request,
      whatever reply it would have had and however the request settled. */
  lemma {:induction false} ResolveUrlMemoized(env: Env, c: Caches, log: seq<Request>, calls: seq<Call>, i: nat, j: nat)
    requires i < j < |calls| && calls[i].ResolveUrlCall? && calls[j].ResolveUrlCall?
    requires calls[i].url == calls[j].url && calls[i].index == calls[j].index
    requires RunCalls(env, c, log, calls).answer[i].UrlAnswered? && RunCalls(env, c, log, calls).answer[i].u.Requested?
    ensures RunCalls(env, c, log, calls).answer[j] == RunCalls(env, c, log, calls).answer[i]
    decreases i, 1
  {
    RunCallsAt(env, c, log, calls, i);
    RunCallsAt(env, c, log, calls, j);
    if i == 0 {
      FirstUrlMemoized(env, c, log, calls, j);
    } else {
      LaterUrlMemoized(env, c, log, calls, i, j);
    }
  }

  /** `ResolveUrlMemoized` when the first call is not the `i`-th: the run
      after the first call has the same pair, one place earlier. */
  lemma {:induction false} LaterUrlMemoized(env: Env, c: Caches, log: seq<Request>, calls: seq<Call>, i: nat, j: nat)
    requires 0 < i < j < |calls| && calls[i].ResolveUrlCall? && calls[j].ResolveUrlCall?
    requires calls[i].url == calls[j].url && calls[i].index == calls[j].index
    requires var first := Apply(env, c, log, calls[0]); var a := RunCalls(env, first.caches, first.log, calls[1..]).answer;
      a[i - 1].UrlAnswered? && a[i - 1].u.Requested?
    ensures var first := Apply(env, c, log, calls[0]); var a := RunCalls(env, first.caches, first.log, calls[1..]).answer;
      a[j - 1] == a[i - 1]
    decreases i, 0
  {
    var first := Apply(env, c, log, calls[0]);
    ResolveUrlMemoized(env, first.caches, first.log, calls[1..], i - 1, j - 1);
  }

  /** The same for `resolveMedia` with the same URL and index, when the URL
      is not same-origin. */
  lemma {:induction false} ResolveMediaMemoized(env: Env, c: Caches, log: seq<Request>, calls: seq<Call>, i: nat, j: nat)
    requires i < j < |calls| && calls[i].ResolveMediaCall? && calls[j].ResolveMediaCall?
    requires calls[i].url == calls[j].url && calls[i].index == calls[j].index
    requires env.br.absolutize(calls[i].url).Some?
    requires !StartsWith(env.br.absolutize(calls[i].url).value, env.serverUrl)
    ensures RunCalls(env, c, log, calls).answer[i].MediaAnswered? && RunCalls(env, c, log, calls).answer[i].m.Memoized?
    ensures RunCalls(env, c, log, calls).answer[j] == RunCalls(env, c, log, calls).answer[i]
    decreases i, 1
  {
    RunCallsAt(env, c, log, calls, i);
    RunCallsAt(env, c, log, calls, j);
    if i == 0 {
      FirstMediaMemoized(env, c, log, calls, j);
    } else {
      LaterMediaMemoized(env, c, log, calls, i, j);
    }
  }

  /** `ResolveMediaMemoized` when the first call is not the `i`-th. */
  lemma {:induction false} LaterMediaMemoized(env: Env, c: Caches, log: seq<Request>, calls: seq<Call>, i: nat, j: nat)
    requires 0 < i < j < |calls| && calls[i].ResolveMediaCall? && calls[j].ResolveMediaCall?
    requires calls[i].url == calls[j].url && calls[i].index == calls[j].index
    requires env.br.absolutize(calls[i].url).Some?
    requires !StartsWith(env.br.absolutize(calls[i].url).value, env.serverUrl)
    ensures var first := Apply(env, c, log, calls[0]); var a := RunCalls(env, first.caches, first.log, calls[1..]).answer;
      a[i - 1].MediaAnswered? && a[i - 1].m.Memoized? && a[j - 1] == a[i - 1]
    decreases i, 0
  {
    var first := Apply(env, c, log, calls[0]);
    ResolveMediaMemoized(env, first.caches, first.log, calls[1..], i - 1, j - 1);
  }

  // ---------------------------------------------------------------------
  // At most one resolve request per key
  // ---------------------------------------------------------------------

  function PostKey(r: Request): string
    requires r.ResolvePost?
  {
    CacheKey(r.url, r.index)
  }

  /** No two resolve POSTs in the log share a key. */
  predicate OnePostPerKey(log: seq<Request>) {
    forall i, j :: 0 <= i < j < |log| && log[i].ResolvePost? && log[j].ResolvePost? ==>
      PostKey(log[i]) != PostKey(log[j])
  }

  /** Every resolve POST in the log has its request stored. */
  predicate PostsCached(c: Caches, log: seq<Request>) {
    forall i :: 0 <= i < |log| && log[i].ResolvePost? ==> PostKey(log[i]) in c.urls
  }

  predicate Consistent(c: Caches, log: seq<Request>) {
    OnePostPerKey(log) && PostsCached(c, log)
  }

  lemma ResolveUrlConsistent(env: Env, c: Caches, log: seq<Request>, url: string, index: Option<nat>, reply: Reply<Resolved>)
    requires Consistent(c, log)
    ensures var s := ResolveUrl(env, c, log, url, index, reply); Consistent(s.caches, s.log)
  {
    var s := ResolveUrl(env, c, log, url, index, reply);
    var key := CacheKey(url, index);
    if ShouldCorsProxy(env.cfg, env.br, url) && key !in c.urls {
      assert s.log[|log|].ResolvePost? && PostKey(s.log[|log|]) == key;
      forall i | 0 <= i < |log| && log[i].ResolvePost? ensures PostKey(log[i]) != key {
        assert PostKey(log[i]) in c.urls;
      }
    }
  }

  /** Appending requests other than resolve POSTs, with caches that only
      grow, keeps the log consistent. */
  lemma ExtendConsistent(c: Caches, log: seq<Request>, c': Caches, log': seq<Request>)
    requires Consistent(c, log) && Grows(c, c') && IsPrefix(log, log')
    requires forall k :: |log| <= k < |log'| ==> !log'[k].ResolvePost?
    ensures Consistent(c', log')
  {
    forall i | 0 <= i < |log'| && log'[i].ResolvePost? ensures i < |log| && log'[i] == log[i] {
      if i < |log| { assert log'[..|log|][i] == log'[i]; }
    }
  }

  lemma ResolveMediaConsistent(env: Env, c: Caches, log: seq<Request>, url: string, index: Option<nat>, replies: MediaReplies)
    requires Consistent(c, log)
    ensures var s := ResolveMedia(env, c, log, url, index, replies); Consistent(s.caches, s.log)
  {
    var abs := env.br.absolutize(url);
    if abs.Some? && !StartsWith(abs.value, env.serverUrl) && CacheKey(abs.value, index) !in c.media {
      var inner := ResolveUrl(env, c, log, abs.value, None, replies.resolve);
      ResolveUrlConsistent(env, c, log, abs.value, None, replies.resolve);
      ResolveMediaSpec(env, c, log, url, index, replies);
      var s := ResolveMedia(env, c, log, url, index, replies);
      ExtendConsistent(inner.caches, inner.log, s.caches, s.log);
    }
  }

  lemma GetContentTypeConsistent(env: Env, c: Caches, log: seq<Request>, url: string, replies: MediaReplies)
    requires Consistent(c, log)
    ensures var s := GetContentType(env, c, log, url, replies); Consistent(s.caches, s.log)
  {
    var inner := ResolveUrl(env, c, log, url, None, replies.resolve);
    ResolveUrlConsistent(env, c, log, url, None, replies.resolve);
    GetContentTypeSpec(env, c, log, url, replies);
    var s := GetContentType(env, c, log, url, replies);
    ExtendConsistent(inner.caches, inner.log, s.caches, s.log);
  }

  lemma ApplyConsistent(env: Env, c: Caches, log: seq<Request>, call: Call)
    requires Consistent(c, log)
    ensures var s := Apply(env, c, log, call); Consistent(s.caches, s.log)
  {
    match call
    case ResolveUrlCall(url, index, reply) => ResolveUrlConsistent(env, c, log, url, index, reply);
    case ResolveMediaCall(url, index, replies) => ResolveMediaConsistent(env, c, log, url, index, replies);
    case ContentTypeCall(url, replies) => GetContentTypeConsistent(env, c, log, url, replies);
  }

  /** Over any sequence of calls the invariant is kept: every logged
      resolve POST is cached, and no two share a key. */
  lemma {:induction false} RunConsistent(env: Env, c: Caches, log: seq<Request>, calls: seq<Call>)
    requires Consistent(c, log)
    ensures var s := RunCalls(env, c, log, calls); Consistent(s.caches, s.log)
    decreases |calls|
  {
    if calls != [] {
      var first := Apply(env, c, log, calls[0]);
      ApplyConsistent(env, c, log, calls[0]);
      RunConsistent(env, first.caches, first.log, calls[1..]);
    }
  }

  lemma OneResolvePostPerKey(env: Env, calls: seq<Call>)
    ensures OnePostPerKey(RunCalls(env, Caches(map[], map[], 0), [], calls).log)
  {
    RunConsistent(env, Caches(map[], map[], 0), [], calls);
  }
}
