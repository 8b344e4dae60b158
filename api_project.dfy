/** The `Project` API client as an object: the shared resolve caches, the
    `lastUploadAssetRequest` timestamp and the log of requests it has
    issued are fields its methods update. Each method is proved to do
    what the step function of the same name in `MediaResolver`,
    `AssetUploads` or `Publishing` describes. */
module ApiClient {
  import opened Strings
  import opened JsValues
  import opened MediaUrls
  import opened Network
  import MediaResolver
  import opened AssetUploads
  import Publishing

  /** The module-level `resolveUrlCache` and `resolveMediaCache`, shared by
      every client. */
  class MediaCaches {
    var urls: map<string, Pending<MediaResolver.Resolved>>
    var media: map<string, Pending<MediaResolver.Media>>
    var tickets: nat

    constructor()
      ensures urls == map[] && media == map[] && tickets == 0
    {
      urls := map[];
      media := map[];
      tickets := 0;
    }

    function Snapshot(): MediaResolver.Caches
      reads this
    {
      MediaResolver.Caches(urls, media, tickets)
    }
  }

  class Project {
    const env: MediaResolver.Env
    const caches: MediaCaches
    var log: seq<Request>
    var lastUploadAssetRequest: int

    /** A client over the shared caches; `serverUrl` is the page's
        protocol and host. */
    constructor(cfg: Config, br: Browser, serverUrl: string, caches: MediaCaches)
      ensures env == MediaResolver.Env(cfg, br, serverUrl) && this.caches == caches
      ensures log == [] && lastUploadAssetRequest == 0
    {
      env := MediaResolver.Env(cfg, br, serverUrl);
      this.caches := caches;
      log := [];
      lastUploadAssetRequest := 0;
    }

    /** `RETICULUM_SERVER` */
    function Server(): string {
      ReticulumServer(env.cfg, env.br)
    }

    // -------------------------------------------------------------------
    // URL helpers
    // -------------------------------------------------------------------

    /** `unproxyUrl(baseUrl, url)` */
    method UnproxyUrl(baseUrl: string, url: string) returns (r: string)
      ensures r == UnproxiedUrl(env.cfg, env.br, baseUrl, url)
    {
      var base, u := baseUrl, url;
      if IsSet(env.cfg.corsProxyServer) {
        var prefix := env.cfg.corsProxyServer.value;
        if StartsWith(base, prefix) {
          base := base[|prefix|..];
        }
        if StartsWith(u, prefix) {
          u := u[|prefix|..];
        }
      }
      if !StartsWith(u, "http") {
        u := env.br.buildAbsolute(base, if StartsWith(u, "/") then u else "/" + u);
      }
      r := ProxiedUrlFor(env.cfg, env.br, u);
    }

    // -------------------------------------------------------------------
    // Resolution
    // -------------------------------------------------------------------

    /** `resolveUrl(url, index)` */
    method ResolveUrl(url: string, index: Option<nat>, reply: Reply<MediaResolver.Resolved>)
      returns (a: MediaResolver.UrlAnswer)
      modifies this, caches
      ensures var s := MediaResolver.ResolveUrl(env, old(caches.Snapshot()), old(log), url, index, reply);
        a == s.answer && caches.Snapshot() == s.caches && log == s.log
      ensures lastUploadAssetRequest == old(lastUploadAssetRequest)
    {
      if !ShouldCorsProxy(env.cfg, env.br, url) {
        return MediaResolver.Direct(url);
      }
      var key := MediaResolver.CacheKey(url, index);
      if key in caches.urls {
        return MediaResolver.Requested(caches.urls[key]);
      }
      var endpoint := MediaResolver.ResolveEndpoint(env, url);
      var request := Pending(caches.tickets, FetchJson(endpoint, reply));
      log := log + [ResolvePost(endpoint, url, index, !Contains(url, MediaResolver.SketchfabPrefix))];
      caches.urls := caches.urls[key := request];
      caches.tickets := caches.tickets + 1;
      return MediaResolver.Requested(request);
    }

    /** `getContentType(url)` */
    method GetContentType(url: string, replies: MediaResolver.MediaReplies)
      returns (r: Result<Option<string>, ApiError>)
      modifies this, caches
      ensures var s := MediaResolver.GetContentType(env, old(caches.Snapshot()), old(log), url, replies);
        r == s.answer && caches.Snapshot() == s.caches && log == s.log
      ensures lastUploadAssetRequest == old(lastUploadAssetRequest)
    {
      var result := ResolveUrl(url, None, replies.resolve);
      match MediaResolver.Settled(result)
      case Err(e) =>
        return Err(e);
      case Ok(resolved) =>
        var accessible := ProxiedUrlFor(env.cfg, env.br, resolved.origin);
        var t := MediaResolver.ChooseContentType(env.br, resolved.meta, resolved.origin, accessible, replies.head);
        if t.headSent {
          log := log + [HeadRequest(accessible)];
        }
        return t.contentType;
    }

    /** `resolveMedia(url, index)` */
    method ResolveMedia(url: string, index: Option<nat>, replies: MediaResolver.MediaReplies)
      returns (a: MediaResolver.MediaAnswer)
      modifies this, caches
      ensures var s := MediaResolver.ResolveMedia(env, old(caches.Snapshot()), old(log), url, index, replies);
        a == s.answer && caches.Snapshot() == s.caches && log == s.log
      ensures lastUploadAssetRequest == old(lastUploadAssetRequest)
    {
      var absolute := env.br.absolutize(url);
      if absolute.None? {
        return MediaResolver.Rejected(InvalidUrl(url));
      }
      var abs := absolute.value;
      if StartsWith(abs, env.serverUrl) {
        return MediaResolver.SameOrigin(abs);
      }
      var key := MediaResolver.CacheKey(abs, index);
      if key in caches.media {
        return MediaResolver.Memoized(caches.media[key]);
      }
      var result := ResolveUrl(abs, None, replies.resolve);
      var run := MediaResolver.LoadMedia(env, log, abs, MediaResolver.Settled(result), replies);
      log := run.log;
      var request := Pending(caches.tickets, run.outcome);
      caches.media := caches.media[key := request];
      caches.tickets := caches.tickets + 1;
      return MediaResolver.Memoized(request);
    }

    // -------------------------------------------------------------------
    // Asset uploads
    // -------------------------------------------------------------------

    function UploadStateNow(): UploadState
      reads this
    {
      UploadState(log, lastUploadAssetRequest)
    }

    /** `_uploadAsset(endpoint, editor, file, onProgress, signal)` */
    method UploadAsset(endpoint: string, file: File, r: AssetReplies) returns (result: Result<Asset, ApiError>)
      modifies this
      ensures var u := AssetUploads.UploadAsset(endpoint, old(UploadStateNow()), file, r);
        UploadStateNow() == u.state && result == u.outcome
    {
      var thumbId: Option<string> := None;
      var thumbToken: Option<string> := None;
      if !file.isAudio {
        log := log + [Upload(AssetThumbnail(file.name))];
        if r.thumbnail.UploadFailed? {
          return Err(UploadError(AssetThumbnail(file.name)));
        }
        thumbId := Some(r.thumbnail.fileId);
        thumbToken := Some(r.thumbnail.accessToken);
      }
      log := log + [Upload(AssetFile(file.name))];
      if r.file.UploadFailed? {
        return Err(UploadError(AssetFile(file.name)));
      }
      var delta := r.now - lastUploadAssetRequest;
      var at := r.now;
      if delta < AssetSpacing {
        at := r.now + (AssetSpacing - delta) + r.lateness;
      }
      log := log + [AssetPost(endpoint, at, AssetRecord(file.name, r.file.fileId, r.file.accessToken, thumbId, thumbToken))];
      var json := FetchJson(endpoint, r.post);
      if json.Err? {
        return Err(json.error);
      }
      lastUploadAssetRequest := at + r.latency;
      if |json.value| == 0 {
        return Err(BadResponse);
      }
      return Ok(json.value[0]);
    }

    /** `_uploadAssets(endpoint, editor, files, onProgress, signal)`:
        `replies[i]` is what the upload of `files[i]` meets. */
    method UploadAssets(endpoint: string, files: seq<File>, replies: seq<AssetReplies>, sig: Signal)
      returns (result: Result<seq<Asset>, ApiError>)
      requires |replies| == |files|
      modifies this
      ensures var u := AssetUploads.UploadAssets(endpoint, old(UploadStateNow()), files, replies, sig);
        UploadStateNow() == u.state && result == u.outcome
    {
      ghost var spec := AssetUploads.UploadAssets(endpoint, UploadStateNow(), files, replies, sig);
      var assets: seq<Asset> := [];
      var i := 0;
      var stopped := false;
      while i < |files| && !stopped
        invariant 0 <= i <= |files|
        invariant !stopped ==> UploadFrom(endpoint, UploadStateNow(), files, replies, sig, i, assets) == spec
        invariant stopped ==> spec == Done(UploadStateNow(), Ok(assets))
        decreases |files| - i, !stopped
      {
        if SeesAbort(sig, 2 * i) {
          stopped := true;
        } else {
          var asset := UploadAsset(endpoint, files[i], replies[i]);
          if asset.Err? {
            return Err(asset.error);
          }
          assets := assets + [asset.value];
          if SeesAbort(sig, 2 * i + 1) {
            stopped := true;
          } else {
            i := i + 1;
          }
        }
      }
      return Ok(assets);
    }

    // -------------------------------------------------------------------
    // Projects
    // -------------------------------------------------------------------

    /** `saveProject(projectId, editor, signal)` */
    method SaveProject(projectId: string, scene: Publishing.SceneInfo, r: Publishing.SaveReplies, sig: Signal, base: nat)
      returns (result: Result<Publishing.ProjectJson, ApiError>)
      modifies this
      ensures var t := Publishing.SaveProject(Server(), old(log), projectId, scene, r, sig, base);
        log == t.log && result == t.outcome
      ensures lastUploadAssetRequest == old(lastUploadAssetRequest)
    {
      if SeesAbort(sig, base) { return Err(SaveAborted); }
      if SeesAbort(sig, base + 1) { return Err(SaveAborted); }
      log := log + [Upload(ProjectThumbnail)];
      if r.thumbnail.UploadFailed? { return Err(UploadError(ProjectThumbnail)); }
      if SeesAbort(sig, base + 2) { return Err(SaveAborted); }
      log := log + [Upload(ProjectFile)];
      if r.projectFile.UploadFailed? { return Err(UploadError(ProjectFile)); }
      if SeesAbort(sig, base + 3) { return Err(SaveAborted); }
      var project := ProjectRecord(scene.name, r.thumbnail.fileId, r.thumbnail.accessToken,
                                   r.projectFile.fileId, r.projectFile.accessToken, None, None);
      if Truthy(scene.metadataSceneId) {
        project := project.(sceneId := Some(scene.metadataSceneId));
      }
      var endpoint := Publishing.ProjectsEndpoint(Server()) + "/" + projectId;
      log := log + [ProjectPatch(projectId, project)];
      var resp := Fetch(endpoint, r.response);
      if resp.Err? { return Err(resp.error); }
      if resp.value.body.None? { return Err(BadResponse); }
      if SeesAbort(sig, base + 4) { return Err(SaveAborted); }
      if resp.value.status != 200 { return Err(BodyAlreadyRead(endpoint)); }
      return Ok(resp.value.body.value);
    }

    /** `createProject(scene, parentSceneId, thumbnailBlob, signal)` */
    method CreateProject(scene: Publishing.SceneInfo, parentSceneId: Value, r: Publishing.SaveReplies, sig: Signal)
      returns (result: Result<Publishing.ProjectJson, ApiError>)
      modifies this
      ensures var t := Publishing.CreateProject(Server(), old(log), scene, parentSceneId, r, sig);
        log == t.log && result == t.outcome
      ensures lastUploadAssetRequest == old(lastUploadAssetRequest)
    {
      if SeesAbort(sig, 0) { return Err(SaveAborted); }
      log := log + [Upload(ProjectThumbnail)];
      if r.thumbnail.UploadFailed? { return Err(UploadError(ProjectThumbnail)); }
      if SeesAbort(sig, 1) { return Err(SaveAborted); }
      log := log + [Upload(ProjectFile)];
      if r.projectFile.UploadFailed? { return Err(UploadError(ProjectFile)); }
      if SeesAbort(sig, 2) { return Err(SaveAborted); }
      var project := ProjectRecord(scene.name, r.thumbnail.fileId, r.thumbnail.accessToken,
                                   r.projectFile.fileId, r.projectFile.accessToken, None, None);
      if Truthy(parentSceneId) {
        project := project.(parentSceneId := Some(parentSceneId));
      }
      var endpoint := Publishing.ProjectsEndpoint(Server());
      log := log + [ProjectPost(project)];
      var resp := Fetch(endpoint, r.response);
      if resp.Err? { return Err(resp.error); }
      if SeesAbort(sig, 3) { return Err(SaveAborted); }
      if resp.value.status != 200 { return Err(RequestFailed(endpoint, resp.value.status)); }
      if resp.value.body.None? { return Err(BadResponse); }
      return Ok(resp.value.body.value);
    }

    /** `publishProject(project, editor)` */
    method PublishProject(project: Publishing.ProjectJson, editor: Publishing.Editor, userInfo: Value,
                          r: Publishing.PublishReplies, sig: Signal)
      returns (result: Result<Value, ApiError>)
      modifies this
      ensures var t := Publishing.PublishProject(Server(), old(log), project, editor, userInfo, r, sig);
        log == t.log && result == t.outcome
      ensures lastUploadAssetRequest == old(lastUploadAssetRequest)
    {
      var current := project;
      if editor.sceneModified {
        var saved := SaveProject(current.projectId, editor.scene, r.save, sig, 0);
        if saved.Err? { return Err(saved.error); }
        current := saved.value;
        if SeesAbort(sig, 5) { return Err(Publishing.Aborted); }
      }
      result := PublishSaved(current, editor, userInfo, r, sig);
    }

    /** `publishProject` once any save is done: the dialogs, the export and
        the size gate, then the uploads. */
    method PublishSaved(current: Publishing.ProjectJson, editor: Publishing.Editor, userInfo: Value,
                        r: Publishing.PublishReplies, sig: Signal)
      returns (result: Result<Value, ApiError>)
      modifies this
      ensures var t := Publishing.PublishSaved(Server(), old(log), current, editor, userInfo, r, sig);
        log == t.log && result == t.outcome
      ensures lastUploadAssetRequest == old(lastUploadAssetRequest)
    {
      if SeesAbort(sig, 6) { return Err(Publishing.Aborted); }
      var initial := Publishing.InitialSceneParams(current, editor, userInfo);
      if initial.Err? { return Err(initial.error); }
      if r.dialog.None? { return Err(Publishing.Aborted); }
      var params := r.dialog.value;
      if r.exported.ExportError? { return Err(ExportFailed); }
      var size := r.exported.glbSize;
      if SeesAbort(sig, 7) { return Err(Publishing.Aborted); }
      if !r.performanceConfirmed { return Err(PublishAborted(true)); }
      if Publishing.TooLarge(size) { return Err(SceneTooLarge(size)); }
      result := PublishUploads(current, params, size, r, sig);
    }

    /** The uploads of `publishProject` and the publish POST. */
    method PublishUploads(current: Publishing.ProjectJson, params: Publishing.PublishParams, size: nat,
                          r: Publishing.PublishReplies, sig: Signal)
      returns (result: Result<Value, ApiError>)
      modifies this
      ensures var t := Publishing.PublishUploads(Server(), old(log), current, params, size, r, sig);
        log == t.log && result == t.outcome
      ensures lastUploadAssetRequest == old(lastUploadAssetRequest)
    {
      log := log + [Upload(PublishScreenshot)];
      if r.screenshot.UploadFailed? { return Err(UploadError(PublishScreenshot)); }
      if SeesAbort(sig, 8) { return Err(Publishing.Aborted); }
      log := log + [Upload(GlbModel(size))];
      if r.glb.UploadFailed? { return Err(UploadError(GlbModel(size))); }
      if SeesAbort(sig, 9) { return Err(Publishing.Aborted); }
      log := log + [Upload(SceneFile)];
      if r.sceneFile.UploadFailed? { return Err(UploadError(SceneFile)); }
      if SeesAbort(sig, 10) { return Err(Publishing.Aborted); }
      var scene := Publishing.PublishedRecord(r, params);
      var endpoint := Publishing.ProjectsEndpoint(Server()) + "/" + current.projectId + "/publish";
      log := log + [PublishPost(current.projectId, scene)];
      var resp := Fetch(endpoint, r.response);
      if resp.Err? { return Err(resp.error); }
      if SeesAbort(sig, 11) { return Err(Publishing.Aborted); }
      if resp.value.status != 200 { return Err(RequestFailed(endpoint, resp.value.status)); }
      if resp.value.body.None? { return Err(BadResponse); }
      var json := resp.value.body.value;
      if !Destructurable(Field(json, "scene")) { return Err(BadResponse); }
      return Ok(json);
    }

    /** `deleteProject(projectId)` */
    method DeleteProject(projectId: string, reply: Reply<Value>) returns (result: Result<bool, ApiError>)
      modifies this
      ensures var t := Publishing.DeleteProject(Server(), old(log), projectId, reply);
        log == t.log && result == t.outcome
      ensures lastUploadAssetRequest == old(lastUploadAssetRequest)
    {
      var endpoint := Publishing.ProjectsEndpoint(Server()) + "/" + projectId;
      log := log + [DeleteRequest(endpoint)];
      result := Publishing.DeleteOutcome(endpoint, reply);
    }

    /** `deleteAsset(assetId)` */
    method DeleteAsset(assetId: string, reply: Reply<Value>) returns (result: Result<bool, ApiError>)
      modifies this
      ensures var t := Publishing.DeleteAsset(Server(), old(log), assetId, reply);
        log == t.log && result == t.outcome
      ensures lastUploadAssetRequest == old(lastUploadAssetRequest)
    {
      var endpoint := Server() + "/api/v1/assets/" + assetId;
      log := log + [DeleteRequest(endpoint)];
      result := Publishing.DeleteOutcome(endpoint, reply);
    }
  }
}
