/** What the API client sends to its servers, what comes back, and the
    errors it throws. The servers themselves are not part of this model:
    every reply is an input of the operation that waits for it. */
module Network {
  import opened Strings
  import opened JsValues

  /** What a blob uploaded with `upload` holds. */
  datatype Blob =
    | ProjectThumbnail          // screenshot or thumbnail saved with a project
    | ProjectFile               // the serialized scene saved with a project
    | PublishScreenshot         // screenshot taken for publishing
    | GlbModel(size: nat)       // exported scene, size in bytes
    | SceneFile                 // serialized scene uploaded when publishing
    | AssetThumbnail(file: string)
    | AssetFile(file: string)

  /** The `project` object of a project POST or PATCH. */
  datatype ProjectRecord = ProjectRecord(
    name: Value,
    thumbnailFileId: string,
    thumbnailFileToken: string,
    projectFileId: string,
    projectFileToken: string,
    parentSceneId: Option<Value>,   // present only when truthy
    sceneId: Option<Value>)         // present only when truthy

  /** The `asset` object of an asset POST. */
  datatype AssetRecord = AssetRecord(
    name: string,
    fileId: string,
    accessToken: string,
    thumbnailFileId: Option<string>,      // null for audio files
    thumbnailAccessToken: Option<string>)

  /** The `scene` object of a publish POST. */
  datatype SceneRecord = SceneRecord(
    screenshotFileId: string,
    screenshotFileToken: string,
    modelFileId: string,
    modelFileToken: string,
    sceneFileId: string,
    sceneFileToken: string,
    allowRemixing: Value,
    allowPromotion: Value,
    name: Value,
    creator: Value,
    content: Value)

  /** One network request, as the client issues it. */
  datatype Request =
    | ResolvePost(endpoint: string, url: string, index: Option<nat>, withAuth: bool)
    | HeadRequest(url: string)
    | ZipLoad(url: string)
    | Upload(blob: Blob)
    | AssetPost(endpoint: string, at: int, asset: AssetRecord)
    | ProjectPost(project: ProjectRecord)
    | ProjectPatch(projectId: string, project: ProjectRecord)
    | PublishPost(projectId: string, scene: SceneRecord)
    | DeleteRequest(endpoint: string)

  /** `log'` extends `log`: requests once issued stay issued. */
  predicate IsPrefix(log: seq<Request>, log': seq<Request>) {
    |log| <= |log'| && log'[..|log|] == log
  }

  /** A reply to `fetch`: no response at all (a network or CORS failure),
      or a status with a body that parses as JSON (`Some`) or does not. */
  datatype Reply<T> = NoResponse | Response(status: nat, body: Option<T>)

  /** `response.ok` */
  predicate IsOk(status: nat) {
    200 <= status <= 299
  }

  /** The reply to an `upload`: a file id and access token, or a failure
      (`upload` uses the raw `fetch` and reads `meta.access_token` of
      whatever JSON comes back, so a failure is any reply without them). */
  datatype UploadReply = UploadFailed | Uploaded(fileId: string, accessToken: string)

  /** The errors the client throws. */
  datatype ApiError =
    | FetchFailed(url: string, status: Option<nat>)  // `this.fetch`: no response or status not ok
    | BadResponse                                   // a body that is not the expected JSON
    | InvalidUrl(url: string)                       // TypeError of `new URL`
    | MediaResolutionFailed(url: string, cause: ApiError) // "Error resolving media"
    | SketchfabLoadFailed(url: string, cause: ApiError)   // "Error loading Sketchfab model"
    | ZipUnreadable                                 // the Sketchfab zip loader failed
    | MissingSceneFile                              // TypeError: no "scene.gtlf" entry in the zip
    | MissingMetadata                               // TypeError: `scene.metadata` is undefined or null
    | UploadError(blob: Blob)
    | SaveAborted                                   // "Save project aborted", not tagged
    | PublishAborted(canceled: bool)                // tagged `aborted = true`
    | ExportFailed
    | SceneTooLarge(size: nat)
    | RequestFailed(url: string, code: nat)         // a 2xx status other than 200
    | BodyAlreadyRead(url: string)                  // `resp.text()` after `resp.json()`
    | NotAuthenticated                              // "Not authenticated"

  /** The `aborted` tag that tells the editor not to report the error. */
  predicate TaggedAborted(e: ApiError) {
    e.PublishAborted?
  }

  /** `this.fetch(url)`: rejects unless the response is ok, so no status
      outside 200..299 ever reaches its caller. */
  function Fetch<T>(url: string, reply: Reply<T>): (r: Result<Reply<T>, ApiError>)
    ensures r.Ok? <==> reply.Response? && IsOk(reply.status)
    ensures r.Ok? ==> r.value == reply
    ensures r.Err? ==> r.error.FetchFailed? && r.error.url == url
  {
    match reply
    case NoResponse => Err(FetchFailed(url, None))
    case Response(status, _) =>
      if IsOk(status) then Ok(reply) else Err(FetchFailed(url, Some(status)))
  }

  /** `this.fetch(url)` followed by `response.json()`. */
  function FetchJson<T>(url: string, reply: Reply<T>): Result<T, ApiError> {
    match Fetch(url, reply)
    case Err(e) => Err(e)
    case Ok(resp) => if resp.body.Some? then Ok(resp.body.value) else Err(BadResponse)
  }

  /** The request log after an operation, and what it settled to. */
  datatype Traced<T> = Traced(log: seq<Request>, outcome: Result<T, ApiError>)

  /** An abort signal, as the checks of `signal.aborted` see it: the checks
      an operation makes are numbered in order, and a signal aborted in
      time for check `check` is seen by that check and every later one. */
  datatype Signal = Never | AbortedAt(check: nat)

  predicate SeesAbort(sig: Signal, check: nat) {
    sig.AbortedAt? && sig.check <= check
  }

  /** A promise the client keeps: `ticket` tells promises apart, `outcome`
      is what it settles to. */
  datatype Pending<T> = Pending(ticket: nat, outcome: Result<T, ApiError>)
}
