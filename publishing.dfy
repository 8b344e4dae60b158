/** Saving, creating, publishing and deleting projects. Each operation is
    the sequence of steps the client takes, with the abort signal checked
    between steps; the uploads, the server replies, the editor's export and
    the user's answers to the dialogs are inputs. */
module Publishing {
  import opened Strings
  import opened JsValues
  import opened Network

  /** `this.maxUploadSize`, in MB. */
  const MaxUploadSize := 128
  const Mebibyte := 1048576

  /** The project object the server answers with, as far as the client
      reads it. */
  datatype ProjectJson = ProjectJson(projectId: string, scene: Value)

  /** What a save reads from the editor's scene: its name and
      `metadata.sceneId` (`Undefined` when there is no metadata). */
  datatype SceneInfo = SceneInfo(name: Value, metadataSceneId: Value)

  /** The replies a save or a creation meets: the two uploads and the
      reply to the project PATCH or POST. */
  datatype SaveReplies = SaveReplies(thumbnail: UploadReply, projectFile: UploadReply, response: Reply<ProjectJson>)

  /** `${RETICULUM_SERVER}/api/v1/projects` */
  function ProjectsEndpoint(server: string): string {
    server + "/api/v1/projects"
  }

  /** An optional property that is set only when its value is truthy. */
  function IfTruthy(v: Value): (r: Option<Value>)
    ensures r.Some? <==> Truthy(v)
    ensures r.Some? ==> r.value == v
  {
    if Truthy(v) then Some(v) else None
  }

  // ---------------------------------------------------------------------
  // saveProject
  // ---------------------------------------------------------------------

  /** `saveProject(projectId, editor, signal)`, checking the signal at
      checks `base` to `base + 4`. The login gate is left out: the client
      always counts as authenticated. */
  function SaveProject(server: string, log: seq<Request>, projectId: string, scene: SceneInfo,
                       r: SaveReplies, sig: Signal, base: nat): Traced<ProjectJson>
  {
    if SeesAbort(sig, base) then Traced(log, Err(SaveAborted))
    // the screenshot is taken here
    else if SeesAbort(sig, base + 1) then Traced(log, Err(SaveAborted))
    else
      var log1 := log + [Upload(ProjectThumbnail)];
      match r.thumbnail
      case UploadFailed => Traced(log1, Err(UploadError(ProjectThumbnail)))
      case Uploaded(thumbId, thumbToken) =>
        if SeesAbort(sig, base + 2) then Traced(log1, Err(SaveAborted))
        else
          var log2 := log1 + [Upload(ProjectFile)];
          match r.projectFile
          case UploadFailed => Traced(log2, Err(UploadError(ProjectFile)))
          case Uploaded(fileId, fileToken) =>
            if SeesAbort(sig, base + 3) then Traced(log2, Err(SaveAborted))
            else
              var record := ProjectRecord(scene.name, thumbId, thumbToken, fileId, fileToken,
                                          None, IfTruthy(scene.metadataSceneId));
              var endpoint := ProjectsEndpoint(server) + "/" + projectId;
              var log3 := log2 + [ProjectPatch(projectId, record)];
              match Fetch(endpoint, r.response)
              case Err(e) => Traced(log3, Err(e))
              case Ok(resp) =>
                if resp.body.None? then Traced(log3, Err(BadResponse))
                else if SeesAbort(sig, base + 4) then Traced(log3, Err(SaveAborted))
                else if resp.status != 200 then Traced(log3, Err(BodyAlreadyRead(endpoint)))
                else Traced(log3, Ok(resp.body.value))
  }

  /** A successful save uploads the thumbnail, then the project file, then
      PATCHes the project with both, with `scene_id` present exactly when
      the scene's metadata holds a truthy one. Only a 200 reply succeeds: a
      401 (or any status outside 200..299) is a fetch error, with no login
      retry, and another 2xx status fails when the body is read a second
      time. */
  lemma SaveProjectSpec(server: string, log: seq<Request>, projectId: string, scene: SceneInfo,
                        r: SaveReplies, sig: Signal, base: nat)
    ensures var t := SaveProject(server, log, projectId, scene, r, sig, base);
      IsPrefix(log, t.log) &&
      (t.outcome.Ok? ==>
        !SeesAbort(sig, base + 4) &&
        r.thumbnail.Uploaded? && r.projectFile.Uploaded? &&
        r.response == Response(200, Some(t.outcome.value)) &&
        t.log == log + [Upload(ProjectThumbnail), Upload(ProjectFile),
                        ProjectPatch(projectId, ProjectRecord(scene.name,
                          r.thumbnail.fileId, r.thumbnail.accessToken,
                          r.projectFile.fileId, r.projectFile.accessToken,
                          None, IfTruthy(scene.metadataSceneId)))]) &&
      (r.response.Response? && r.response.status == 401 && t.log != log && |t.log| == |log| + 3 ==>
        t.outcome == Err(FetchFailed(ProjectsEndpoint(server) + "/" + projectId, Some(401)))) &&
      (r.response.Response? && IsOk(r.response.status) && r.response.status != 200 &&
       r.response.body.Some? && !SeesAbort(sig, base + 4) && |t.log| == |log| + 3 ==>
        t.outcome == Err(BodyAlreadyRead(ProjectsEndpoint(server) + "/" + projectId)))
  {
  }

  // ---------------------------------------------------------------------
  // createProject
  // ---------------------------------------------------------------------

  /** `createProject(scene, parentSceneId, thumbnailBlob, signal)`, checking
      the signal at checks 0 to 3. */
  function CreateProject(server: string, log: seq<Request>, scene: SceneInfo, parentSceneId: Value,
                         r: SaveReplies, sig: Signal): Traced<ProjectJson>
  {
    if SeesAbort(sig, 0) then Traced(log, Err(SaveAborted))
    else
      var log1 := log + [Upload(ProjectThumbnail)];
      match r.thumbnail
      case UploadFailed => Traced(log1, Err(UploadError(ProjectThumbnail)))
      case Uploaded(thumbId, thumbToken) =>
        if SeesAbort(sig, 1) then Traced(log1, Err(SaveAborted))
        else
          var log2 := log1 + [Upload(ProjectFile)];
          match r.projectFile
          case UploadFailed => Traced(log2, Err(UploadError(ProjectFile)))
          case Uploaded(fileId, fileToken) =>
            if SeesAbort(sig, 2) then Traced(log2, Err(SaveAborted))
            else
              var record := ProjectRecord(scene.name, thumbId, thumbToken, fileId, fileToken,
                                          IfTruthy(parentSceneId), None);
              var endpoint := ProjectsEndpoint(server);
              var log3 := log2 + [ProjectPost(record)];
              match Fetch(endpoint, r.response)
              case Err(e) => Traced(log3, Err(e))
              case Ok(resp) =>
                if SeesAbort(sig, 3) then Traced(log3, Err(SaveAborted))
                else if resp.status != 200 then Traced(log3, Err(RequestFailed(endpoint, resp.status)))
                else if resp.body.None? then Traced(log3, Err(BadResponse))
                else Traced(log3, Ok(resp.body.value))
  }

  /** A successful creation uploads the thumbnail and the project file,
      then POSTs a project with the scene's name, both uploads' ids and
      tokens, and `parent_scene_id` exactly when the given one is truthy; another 2xx status than 200 is "Project creation
      failed." */
  lemma CreateProjectSpec(server: string, log: seq<Request>, scene: SceneInfo, parentSceneId: Value,
                          r: SaveReplies, sig: Signal)
    ensures var t := CreateProject(server, log, scene, parentSceneId, r, sig);
      IsPrefix(log, t.log) &&
      (t.outcome.Ok? ==>
        !SeesAbort(sig, 3) &&
        r.response == Response(200, Some(t.outcome.value)) &&
        r.thumbnail.Uploaded? && r.projectFile.Uploaded? &&
        t.log == log + [Upload(ProjectThumbnail), Upload(ProjectFile),
                        ProjectPost(ProjectRecord(scene.name, r.thumbnail.fileId, r.thumbnail.accessToken,
                                                  r.projectFile.fileId, r.projectFile.accessToken,
                                                  IfTruthy(parentSceneId), None))]) &&
      (r.response.Response? && IsOk(r.response.status) && r.response.status != 200 &&
       !SeesAbort(sig, 3) && |t.log| == |log| + 3 ==>
        t.outcome == Err(RequestFailed(ProjectsEndpoint(server), r.response.status)))
  {
  }

  /** An abort stops a save or a creation early: its requests are the
      first ones the same call makes unaborted, and it fails with the
      untagged "Save project aborted" unless it had already ended. */
  lemma {:induction false} SaveAbortTruncates(server: string, log: seq<Request>, projectId: string, scene: SceneInfo,
                                              r: SaveReplies, check: nat, base: nat)
    ensures var a := SaveProject(server, log, projectId, scene, r, AbortedAt(check), base);
      var n := SaveProject(server, log, projectId, scene, r, Never, base);
      a == n || (IsPrefix(a.log, n.log) && a.outcome == Err(SaveAborted))
    ensures var a := SaveProject(server, log, projectId, scene, r, AbortedAt(check), base);
      var n := SaveProject(server, log, projectId, scene, r, Never, base);
      n.outcome.Ok? && check <= base + 4 ==> a.outcome == Err(SaveAborted)
  {
    var a := SaveProject(server, log, projectId, scene, r, AbortedAt(check), base);
    var n := SaveProject(server, log, projectId, scene, r, Never, base);
    if a != n {
      assert IsPrefix(log, n.log) && |n.log| <= |log| + 3;
      assert n.log[..|log|] == log;
      if |n.log| >= |log| + 1 { assert n.log[..|log| + 1] == log + [Upload(ProjectThumbnail)]; }
      if |n.log| >= |log| + 2 { assert n.log[..|log| + 2] == log + [Upload(ProjectThumbnail), Upload(ProjectFile)]; }
    }
  }

  lemma {:induction false} CreateAbortTruncates(server: string, log: seq<Request>, scene: SceneInfo, parentSceneId: Value,
                                                r: SaveReplies, check: nat)
    ensures var a := CreateProject(server, log, scene, parentSceneId, r, AbortedAt(check));
      var n := CreateProject(server, log, scene, parentSceneId, r, Never);
      a == n || (IsPrefix(a.log, n.log) && a.outcome == Err(SaveAborted))
    ensures var a := CreateProject(server, log, scene, parentSceneId, r, AbortedAt(check));
      var n := CreateProject(server, log, scene, parentSceneId, r, Never);
      n.outcome.Ok? && check <= 3 ==> a.outcome == Err(SaveAborted)
  {
    var a := CreateProject(server, log, scene, parentSceneId, r, AbortedAt(check));
    var n := CreateProject(server, log, scene, parentSceneId, r, Never);
    if a != n {
      assert n.log[..|log|] == log;
      if |n.log| >= |log| + 1 { assert n.log[..|log| + 1] == log + [Upload(ProjectThumbnail)]; }
      if |n.log| >= |log| + 2 { assert n.log[..|log| + 2] == log + [Upload(ProjectThumbnail), Upload(ProjectFile)]; }
    }
  }

  // ---------------------------------------------------------------------
  // deleteProject / deleteAsset
  // ---------------------------------------------------------------------

  /** The status mapping of `deleteProject` and `deleteAsset`. */
  function DeleteOutcome(endpoint: string, reply: Reply<Value>): Result<bool, ApiError> {
    match Fetch(endpoint, reply)
    case Err(e) => Err(e)
    case Ok(resp) =>
      if resp.status == 401 then Err(NotAuthenticated)   // never reached: `this.fetch` rejects a 401
      else if resp.status != 200 then Err(RequestFailed(endpoint, resp.status))
      else Ok(true)
  }

  /** `deleteProject(projectId)` */
  function DeleteProject(server: string, log: seq<Request>, projectId: string, reply: Reply<Value>): Traced<bool> {
    var endpoint := ProjectsEndpoint(server) + "/" + projectId;
    Traced(log + [DeleteRequest(endpoint)], DeleteOutcome(endpoint, reply))
  }

  /** `deleteAsset(assetId)` */
  function DeleteAsset(server: string, log: seq<Request>, assetId: string, reply: Reply<Value>): Traced<bool> {
    var endpoint := server + "/api/v1/assets/" + assetId;
    Traced(log + [DeleteRequest(endpoint)], DeleteOutcome(endpoint, reply))
  }

  /** A delete returns true exactly on a 200 reply; a 401 is rejected by
      `this.fetch` before the "Not authenticated" branch, so that error is
      never thrown; any other 2xx status is "deletion failed". */
  lemma DeleteOutcomeSpec(endpoint: string, reply: Reply<Value>)
    ensures DeleteOutcome(endpoint, reply) == Ok(true) <==> reply.Response? && reply.status == 200
    ensures DeleteOutcome(endpoint, reply).Ok? ==> DeleteOutcome(endpoint, reply).value
    ensures reply.Response? && reply.status == 401 ==>
      DeleteOutcome(endpoint, reply) == Err(FetchFailed(endpoint, Some(401)))
    ensures reply.Response? && IsOk(reply.status) && reply.status != 200 ==>
      DeleteOutcome(endpoint, reply) == Err(RequestFailed(endpoint, reply.status))
    ensures reply.NoResponse? ==> DeleteOutcome(endpoint, reply) == Err(FetchFailed(endpoint, None))
    ensures DeleteOutcome(endpoint, reply) != Err(NotAuthenticated)
  {
  }

  // ---------------------------------------------------------------------
  // publishProject
  // ---------------------------------------------------------------------

  /** What publishing reads from the editor: `metadata` is `scene.metadata`,
      whose `name`, `creatorAttribution`, `allowRemixing` and
      `allowPromotion` the publish dialog starts from. */
  datatype Editor = Editor(sceneModified: bool, scene: SceneInfo, metadata: Value)

  /** The `initialSceneParams` shown in the publish dialog. */
  datatype InitialParams = InitialParams(name: Value, creatorAttribution: Value, allowRemixing: Value, allowPromotion: Value)

  /** What the user submits in the publish dialog. */
  datatype PublishParams = PublishParams(
    name: Value,
    creatorAttribution: string,
    allowRemixing: Value,
    allowPromotion: Value,
    contentAttributions: Value)

  datatype ExportReply = ExportError | Exported(glbSize: nat)

  /** Everything publishing waits for. */
  datatype PublishReplies = PublishReplies(
    save: SaveReplies,                  // when the scene was modified
    dialog: Option<PublishParams>,      // None: the user cancelled
    exported: ExportReply,
    performanceConfirmed: bool,
    screenshot: UploadReply,
    glb: UploadReply,
    sceneFile: UploadReply,
    response: Reply<Value>)

  /** `typeof v !== "undefined" ? v : false` */
  function DefaultFalse(v: Value): (r: Value)
    ensures v.Undefined? ==> r == Bool(false)
    ensures !v.Undefined? ==> r == v
  {
    if v.Undefined? then Bool(false) else v
  }

  /** The initial parameters of the publish dialog. The metadata is
      destructured first, so it must be an object. The name is the
      published scene's name, else the metadata's, else the scene's. A
      project with a published scene supplies the flags and the creator
      (its `attributions` must be an object); otherwise an empty metadata
      creator is filled from the stored user info. */
  function InitialSceneParams(project: ProjectJson, editor: Editor, userInfo: Value): Result<InitialParams, ApiError> {
    var m := editor.metadata;
    var ps := project.scene;
    var name := Or(Or(And(ps, Field(ps, "name")), Field(m, "name")), editor.scene.name);
    if !Destructurable(m) then Err(MissingMetadata)
    else if Truthy(ps) then
      var attributions := Field(ps, "attributions");
      if !Destructurable(attributions) then Err(BadResponse)
      else
        var creator := Or(Field(attributions, "creator"), Str(""));
        Ok(InitialParams(name, Or(creator, Str("")),
                         DefaultFalse(Field(ps, "allow_remixing")), DefaultFalse(Field(ps, "allow_promotion"))))
    else
      var metaCreator := Field(m, "creatorAttribution");
      var empty := !Truthy(metaCreator) || Field(metaCreator, "length") == Num(0.0);
      var fromUser := And(userInfo, Field(userInfo, "creatorAttribution"));
      var creator := if empty && Truthy(fromUser) then fromUser else metaCreator;
      Ok(InitialParams(name, Or(creator, Str("")),
                       DefaultFalse(Field(m, "allowRemixing")), DefaultFalse(Field(m, "allowPromotion"))))
  }

  /** `allowRemixing` and `allowPromotion` start as false only when they
      are undefined, and the creator attribution is never falsy-but-not-"".
      Only metadata that is not an object, or a published scene whose
      `attributions` is not one, throws. */
  lemma InitialSceneParamsDefaults(project: ProjectJson, editor: Editor, userInfo: Value)
    ensures var p := InitialSceneParams(project, editor, userInfo);
      p.Ok? ==>
        var source := if Truthy(project.scene) then project.scene else Undefined;
        var remix := if Truthy(project.scene) then Field(project.scene, "allow_remixing") else Field(editor.metadata, "allowRemixing");
        var promo := if Truthy(project.scene) then Field(project.scene, "allow_promotion") else Field(editor.metadata, "allowPromotion");
        (remix.Undefined? ==> p.value.allowRemixing == Bool(false)) &&
        (!remix.Undefined? ==> p.value.allowRemixing == remix) &&
        (promo.Undefined? ==> p.value.allowPromotion == Bool(false)) &&
        (!promo.Undefined? ==> p.value.allowPromotion == promo) &&
        (Truthy(p.value.creatorAttribution) || p.value.creatorAttribution == Str(""))
    ensures InitialSceneParams(project, editor, userInfo).Err? <==>
      !Destructurable(editor.metadata) ||
      (Truthy(project.scene) && !Destructurable(Field(project.scene, "attributions")))
    ensures !Destructurable(editor.metadata) ==> InitialSceneParams(project, editor, userInfo) == Err(MissingMetadata)
  {
  }

  /** `glbBlob.size / 1024 / 1024 > this.maxUploadSize`, on whole bytes. */
  predicate TooLarge(glbSize: nat) {
    glbSize > MaxUploadSize * Mebibyte
  }

  /** Comparing the size in MB, as a real quotient, is the same as
      comparing the byte count with 128 MiB. */
  lemma TooLargeInMegabytes(glbSize: nat)
    ensures (glbSize as real) / 1024.0 / 1024.0 > MaxUploadSize as real <==> TooLarge(glbSize)
  {
    assert (glbSize as real) / 1024.0 / 1024.0 == (glbSize as real) / (Mebibyte as real);
  }

  /** The tagged error of every abort the publish flow itself notices. */
  const Aborted := PublishAborted(false)

  /** `publishProject(project, editor)`: checks 0 to 4 are those of the
      save a modified scene gets first, checks 5 to 11 the flow's own. */
  function PublishProject(server: string, log: seq<Request>, project: ProjectJson, editor: Editor,
                          userInfo: Value, r: PublishReplies, sig: Signal): Traced<Value>
  {
    if editor.sceneModified then
      var saved := SaveProject(server, log, project.projectId, editor.scene, r.save, sig, 0);
      match saved.outcome
      case Err(e) => Traced(saved.log, Err(e))
      case Ok(p) =>
        if SeesAbort(sig, 5) then Traced(saved.log, Err(Aborted))
        else PublishSaved(server, saved.log, p, editor, userInfo, r, sig)
    else PublishSaved(server, log, project, editor, userInfo, r, sig)
  }

  /** The publish flow once the project is saved: screenshot, dialog,
      export, performance check, size gate, the three uploads, the POST. */
  function PublishSaved(server: string, log: seq<Request>, project: ProjectJson, editor: Editor,
                        userInfo: Value, r: PublishReplies, sig: Signal): Traced<Value>
  {
    // the screenshot is taken here
    if SeesAbort(sig, 6) then Traced(log, Err(Aborted))
    else match InitialSceneParams(project, editor, userInfo)
    case Err(e) => Traced(log, Err(e))
    case Ok(_) =>
      match r.dialog
      case None => Traced(log, Err(Aborted))
      case Some(params) =>
        match r.exported
        case ExportError => Traced(log, Err(ExportFailed))
        case Exported(size) =>
          if SeesAbort(sig, 7) then Traced(log, Err(Aborted))
          else if !r.performanceConfirmed then Traced(log, Err(PublishAborted(true)))
          else if TooLarge(size) then Traced(log, Err(SceneTooLarge(size)))
          else PublishUploads(server, log, project, params, size, r, sig)
  }

  /** The three uploads and the publish POST. */
  function PublishUploads(server: string, log: seq<Request>, project: ProjectJson, params: PublishParams,
                          size: nat, r: PublishReplies, sig: Signal): Traced<Value>
  {
    var log1 := log + [Upload(PublishScreenshot)];
    match r.screenshot
    case UploadFailed => Traced(log1, Err(UploadError(PublishScreenshot)))
    case Uploaded(_, _) =>
      if SeesAbort(sig, 8) then Traced(log1, Err(Aborted))
      else
        var log2 := log1 + [Upload(GlbModel(size))];
        match r.glb
        case UploadFailed => Traced(log2, Err(UploadError(GlbModel(size))))
        case Uploaded(_, _) =>
          if SeesAbort(sig, 9) then Traced(log2, Err(Aborted))
          else
            var log3 := log2 + [Upload(SceneFile)];
            match r.sceneFile
            case UploadFailed => Traced(log3, Err(UploadError(SceneFile)))
            case Uploaded(_, _) =>
              if SeesAbort(sig, 10) then Traced(log3, Err(Aborted))
              else
                var record := PublishedRecord(r, params);
                var endpoint := ProjectsEndpoint(server) + "/" + project.projectId + "/publish";
                var log4 := log3 + [PublishPost(project.projectId, record)];
                match Fetch(endpoint, r.response)
                case Err(e) => Traced(log4, Err(e))
                case Ok(resp) =>
                  if SeesAbort(sig, 11) then Traced(log4, Err(Aborted))
                  else if resp.status != 200 then Traced(log4, Err(RequestFailed(endpoint, resp.status)))
                  else if resp.body.None? then Traced(log4, Err(BadResponse))
                  else if !Destructurable(Field(resp.body.value, "scene")) then Traced(log4, Err(BadResponse))
                  else Traced(log4, Ok(resp.body.value))
  }

  /** The requests of a save that comes first, or none. */
  function SaveLog(server: string, log: seq<Request>, project: ProjectJson, editor: Editor,
                   r: PublishReplies, sig: Signal): seq<Request>
  {
    if editor.sceneModified then SaveProject(server, log, project.projectId, editor.scene, r.save, sig, 0).log else log
  }

  /** A glb over 128 MiB stops the flow before anything is uploaded: the
      only requests are those of the save. */
  lemma SizeGateBeforeUploads(server: string, log: seq<Request>, project: ProjectJson, editor: Editor,
                              userInfo: Value, r: PublishReplies, sig: Signal)
    requires r.exported.Exported? && TooLarge(r.exported.glbSize)
    ensures var t := PublishProject(server, log, project, editor, userInfo, r, sig);
      t.log == SaveLog(server, log, project, editor, r, sig) && t.outcome.Err?
  {
  }

  /** The scene a successful publish POSTs: the ids and tokens of the three
      uploads and the dialog's answers, the creator attribution trimmed. */
  function PublishedRecord(r: PublishReplies, params: PublishParams): SceneRecord
    requires r.screenshot.Uploaded? && r.glb.Uploaded? && r.sceneFile.Uploaded?
  {
    SceneRecord(r.screenshot.fileId, r.screenshot.accessToken, r.glb.fileId, r.glb.accessToken,
                r.sceneFile.fileId, r.sceneFile.accessToken,
                params.allowRemixing, params.allowPromotion, params.name,
                Str(Trim(params.creatorAttribution)), params.contentAttributions)
  }

  /** The uploads and the POST, when they succeed. */
  lemma PublishUploadsOk(server: string, log: seq<Request>, project: ProjectJson, params: PublishParams,
                         size: nat, r: PublishReplies, sig: Signal)
    ensures var t := PublishUploads(server, log, project, params, size, r, sig);
      t.outcome.Ok? ==>
        !SeesAbort(sig, 11) &&
        r.response == Response(200, Some(t.outcome.value)) &&
        r.screenshot.Uploaded? && r.glb.Uploaded? && r.sceneFile.Uploaded? &&
        t.log == log + [Upload(PublishScreenshot), Upload(GlbModel(size)), Upload(SceneFile),
                        PublishPost(project.projectId, PublishedRecord(r, params))]
  {
  }

  /** A successful publish uploads the screenshot, the glb and the scene
      file, in that order, and then POSTs once; the scene's creator is the
      trimmed attribution the user entered. */
  lemma PublishSuccessOrder(server: string, log: seq<Request>, project: ProjectJson, editor: Editor,
                            userInfo: Value, r: PublishReplies, sig: Signal)
    ensures var t := PublishProject(server, log, project, editor, userInfo, r, sig);
      var before := SaveLog(server, log, project, editor, r, sig);
      t.outcome.Ok? ==>
        !SeesAbort(sig, 11) &&
        r.dialog.Some? && r.exported.Exported? && !TooLarge(r.exported.glbSize) && r.performanceConfirmed &&
        r.response == Response(200, Some(t.outcome.value)) &&
        (editor.sceneModified ==> r.save.response.Response? && r.save.response.body.Some?) &&
        r.screenshot.Uploaded? && r.glb.Uploaded? && r.sceneFile.Uploaded? &&
        t.log == before + [Upload(PublishScreenshot), Upload(GlbModel(r.exported.glbSize)), Upload(SceneFile),
                           PublishPost((if editor.sceneModified then r.save.response.body.value else project).projectId,
                                       PublishedRecord(r, r.dialog.value))]
  {
    var t := PublishProject(server, log, project, editor, userInfo, r, sig);
    var before := SaveLog(server, log, project, editor, r, sig);
    if t.outcome.Ok? {
      var p := if editor.sceneModified then SaveProject(server, log, project.projectId, editor.scene, r.save, sig, 0).outcome.value
               else project;
      assert t == PublishSaved(server, before, p, editor, userInfo, r, sig);
      assert t == PublishUploads(server, before, p, r.dialog.value, r.exported.glbSize, r, sig);
      PublishUploadsOk(server, before, p, r.dialog.value, r.exported.glbSize, r, sig);
    }
  }

  /** Cancelling the publish dialog and declining the performance check
      both fail with an error tagged `aborted` (the latter marked as a
      cancel), before any upload. */
  lemma PublishCancelsTagged(server: string, log: seq<Request>, project: ProjectJson, editor: Editor,
                             userInfo: Value, r: PublishReplies, sig: Signal)
    requires !SeesAbort(sig, 6) && InitialSceneParams(project, editor, userInfo).Ok?
    ensures r.dialog.None? ==> PublishSaved(server, log, project, editor, userInfo, r, sig) == Traced(log, Err(Aborted))
    ensures r.dialog.Some? && r.exported.Exported? && !SeesAbort(sig, 7) && !r.performanceConfirmed ==>
      PublishSaved(server, log, project, editor, userInfo, r, sig) == Traced(log, Err(PublishAborted(true)))
    ensures TaggedAborted(Aborted) && TaggedAborted(PublishAborted(true)) && !TaggedAborted(SaveAborted)
  {
  }

  /** The error an abort seen by check `check` raises. */
  function AbortError(editor: Editor, check: nat): ApiError {
    if editor.sceneModified && check <= 4 then SaveAborted else Aborted
  }

  lemma {:induction false} PublishUploadsAbortTruncates(server: string, log: seq<Request>, project: ProjectJson,
                                                        params: PublishParams, size: nat, r: PublishReplies, check: nat)
    requires check >= 8
    ensures var a := PublishUploads(server, log, project, params, size, r, AbortedAt(check));
      var n := PublishUploads(server, log, project, params, size, r, Never);
      a == n || (IsPrefix(a.log, n.log) && a.outcome == Err(Aborted))
    ensures var a := PublishUploads(server, log, project, params, size, r, AbortedAt(check));
      var n := PublishUploads(server, log, project, params, size, r, Never);
      n.outcome.Ok? && check <= 11 ==> a.outcome == Err(Aborted)
  {
    var a := PublishUploads(server, log, project, params, size, r, AbortedAt(check));
    var n := PublishUploads(server, log, project, params, size, r, Never);
    if a != n {
      assert n.log[..|log| + 1] == log + [Upload(PublishScreenshot)];
      if |n.log| >= |log| + 2 { assert n.log[..|log| + 2] == log + [Upload(PublishScreenshot), Upload(GlbModel(size))]; }
      if |n.log| >= |log| + 3 {
        assert n.log[..|log| + 3] == log + [Upload(PublishScreenshot), Upload(GlbModel(size)), Upload(SceneFile)];
      }
    }
  }

  lemma {:induction false} PublishSavedAbortTruncates(server: string, log: seq<Request>, project: ProjectJson, editor: Editor,
                                                      userInfo: Value, r: PublishReplies, check: nat)
    requires check >= 6
    ensures var a := PublishSaved(server, log, project, editor, userInfo, r, AbortedAt(check));
      var n := PublishSaved(server, log, project, editor, userInfo, r, Never);
      a == n || (IsPrefix(a.log, n.log) && a.outcome == Err(Aborted))
    ensures var a := PublishSaved(server, log, project, editor, userInfo, r, AbortedAt(check));
      var n := PublishSaved(server, log, project, editor, userInfo, r, Never);
      n.outcome.Ok? && check <= 11 ==> a.outcome == Err(Aborted)
  {
    if check >= 8 && InitialSceneParams(project, editor, userInfo).Ok? && r.dialog.Some? && r.exported.Exported? {
      PublishUploadsAbortTruncates(server, log, project, r.dialog.value, r.exported.glbSize, r, check);
    }
  }

  /** An abort only cuts the flow short: the requests made are the first
      ones the same publish makes unaborted, and unless the flow had
      already ended it fails with the abort error of the check that saw it
      (tagged, except inside the save). */
  lemma {:induction false} PublishAbortTruncates(server: string, log: seq<Request>, project: ProjectJson, editor: Editor,
                                                 userInfo: Value, r: PublishReplies, check: nat)
    ensures var a := PublishProject(server, log, project, editor, userInfo, r, AbortedAt(check));
      var n := PublishProject(server, log, project, editor, userInfo, r, Never);
      a == n || (IsPrefix(a.log, n.log) && a.outcome == Err(AbortError(editor, check)))
    ensures var a := PublishProject(server, log, project, editor, userInfo, r, AbortedAt(check));
      var n := PublishProject(server, log, project, editor, userInfo, r, Never);
      n.outcome.Ok? && check <= 11 ==> a.outcome == Err(AbortError(editor, check))
  {
    var a := PublishProject(server, log, project, editor, userInfo, r, AbortedAt(check));
    var n := PublishProject(server, log, project, editor, userInfo, r, Never);
    if editor.sceneModified {
      var sa := SaveProject(server, log, project.projectId, editor.scene, r.save, AbortedAt(check), 0);
      var sn := SaveProject(server, log, project.projectId, editor.scene, r.save, Never, 0);
      SaveAbortTruncates(server, log, project.projectId, editor.scene, r.save, check, 0);
      if sa != sn {
        assert a.log == sa.log && a.outcome == Err(SaveAborted);
        assert IsPrefix(sn.log, n.log) by {
          if sn.outcome.Ok? {
            var p := sn.outcome.value;
            PublishSavedLog(server, sn.log, p, editor, userInfo, r, Never);
          }
        }
        assert n.log[..|sn.log|][..|sa.log|] == n.log[..|sa.log|];
      } else if sn.outcome.Ok? && check == 5 {
        PublishSavedLog(server, sn.log, sn.outcome.value, editor, userInfo, r, Never);
        assert sn.log == n.log[..|sn.log|];
      } else if sn.outcome.Ok? {
        var p := sn.outcome.value;
        if check >= 6 {
          PublishSavedAbortTruncates(server, sn.log, p, editor, userInfo, r, check);
        }
      }
    } else {
      if check >= 6 {
        PublishSavedAbortTruncates(server, log, project, editor, userInfo, r, check);
      } else {
        PublishSavedLog(server, log, project, editor, userInfo, r, Never);
        assert log == n.log[..|log|];
      }
    }
  }

  lemma PublishSavedLog(server: string, log: seq<Request>, project: ProjectJson, editor: Editor,
                        userInfo: Value, r: PublishReplies, sig: Signal)
    ensures IsPrefix(log, PublishSaved(server, log, project, editor, userInfo, r, sig).log)
  {
    var t := PublishSaved(server, log, project, editor, userInfo, r, sig);
    assert t.log[..|log|] == log;
  }
}
