# A verified model of the Spoke editor's API client and two scene nodes

This project models, in Dafny, the core of the scene editor's client for its
Reticulum back end (`src/api/Api.js`) and two of the editor's scene nodes
(`src/editor/nodes/ImageNode.js`, `src/editor/nodes/SharedScreenNode.js`).

* **URL helpers** (`MediaUrls`, `Farspark`): the CORS-proxy decision over
  `NON_CORS_PROXY_DOMAINS`, `proxiedUrlFor`, the thumbnail URL with its
  base64url-encoded segment (RFC 4648 sections 4 and 5, padding dropped as
  section 3.2 allows), `guessContentType`, and `unproxyUrl`.
* **Media resolution** (`MediaResolver`): `resolveUrl`, `getContentType`
  and `resolveMedia` as step functions over the two module-level caches and
  a log of the requests sent. Server replies are inputs. Lemmas cover any
  sequence of calls: the caches only grow, a cached key answers every later
  call with the same promise, and there is never more than one resolve POST
  per key.
* **Asset uploads** (`AssetUploads`): `_uploadAsset` with its 1100 ms
  spacing between asset POSTs, and the `_uploadAssets` loop with its abort
  checks.
* **Projects** (`Publishing`): the step sequences of `createProject`,
  `saveProject` and `publishProject`, with every `signal.aborted` check, and
  the status handling of `deleteProject` and `deleteAsset`.
* **The client object** (`ApiClient`): the class `Project` holds the
  request log and `lastUploadAssetRequest`. The shared class `MediaCaches`
  holds the two caches. Each method runs the source's steps imperatively
  and is proved to end in the state and result of the matching step
  function.
* **Scene nodes** (`ImageNodes`, `SharedScreenNodes`): classes whose setters,
  `load`, `copy` and `deserialize` update fields in place. Pure functions
  model `serialize` and `prepareForExport`, and lemmas prove the round
  trips.

Abort signals are modelled as latches. A run numbers its `signal.aborted`
checks in order, and a signal aborted "at check k" is seen by check k and
by every later check. Values read from JSON are dynamic JavaScript values
(`JsValues.Value`), with JavaScript truthiness, `||`, `&&` and
destructuring.

Behaviours of the code as written that the model keeps:

* `this.fetch` rejects every response whose status is not ok. So the
  `status === 401` branches after it (in `createProject`, `saveProject`,
  `publishProject`, `deleteProject` and `deleteAsset`) are never reached. A
  401 surfaces as the fetch failure.
* The 401 branch of `publishProject` calls `this.publish`, which does not
  exist. That branch is dead for the same reason.
* `saveProject` reads `resp.json()` before it checks the status. So for a
  2xx status other than 200, the later `resp.text()` fails on an
  already-read body (`BodyAlreadyRead`) instead of reporting "Saving
  project failed".
* When `publishProject` saves first, an abort seen inside `saveProject`
  throws "Save project aborted" without the `aborted` tag.
* `resolveMedia` calls `resolveUrl(absoluteUrl)` without an index, so its
  resolve request is cached under the key `"<url>|undefined"`.
* An empty entry in `NON_CORS_PROXY_DOMAINS` matches every host name. Since
  `find` returns that falsy entry, it shadows every later entry. An unset
  list splits into `[""]`, so nothing is exempt from proxying.
* `_uploadAsset` updates `lastUploadAssetRequest` before it reads the first
  returned asset. So an empty `assets` list still moves the timestamp.
* `upload` ignores its progress and signal arguments, so `_uploadAssets`
  never reports progress.
* A changeable image node that is deserialized sets `changeable` before
  `changeableSrc`. The first setter therefore asks for a reload of the empty
  `changeableSrc` that a new node starts with.

## Model

| member | source | states |
|---|---|---|
| `Strings.SplitJoin` | src/api/Api.js:53 | Splitting at a separator and joining back gives the string again; there are one more pieces than separators, and no piece holds a separator |
| `Strings.LastPiece` | src/api/Api.js:100 | The last piece of a split holds no separator and ends the string; it is the whole string or follows a separator |
| `Strings.TrimSpec` | src/api/Api.js:865 | `trim` returns the slice between a leading and a trailing run of white space, and starts and ends with a non-space character |
| `Strings.NatToStringValue` | src/api/Api.js:85 | The decimal text of a width or height reads back as that number |
| `Farspark.PercentDecodedIsUtf8` | src/api/Api.js:37-42 | Replacing the %XX escapes of `encodeURIComponent(str)` with raw characters gives the UTF-8 bytes of `str` as one-byte characters |
| `Farspark.B64EncodeUnicode` | src/api/Api.js:37-42 | `b64EncodeUnicode` never throws on a string of Unicode scalar values and equals the RFC 4648 section 4 base64 of the UTF-8 bytes |
| `Farspark.PaddingStripped` | src/api/Api.js:47-50 | Removing trailing '=' and mapping '+' to '-' and '/' to '_' turns that base64 into unpadded base64url |
| `Farspark.FarsparkEncodeUrl` | src/api/Api.js:44-51 | The result is the unpadded RFC 4648 section 5 base64url of the URL's UTF-8 bytes, and contains no '=', '+' or '/' |
| `Farspark.FarsparkRoundTrip` | src/api/Api.js:44-51 | Decoding the encoded segment recovers exactly the URL's UTF-8 bytes |
| `MediaUrls.FirstSuffix` | src/api/Api.js:62 | `find` returns the first domain that ends the host name, or none when no domain does |
| `MediaUrls.ShouldCorsProxyExempt` | src/api/Api.js:58-68 | A URL skips the proxy iff it parses and the first domain that ends its host name is non-empty |
| `MediaUrls.EmptyDomainShadows` | src/api/Api.js:53-62 | Past an empty entry of the list, no domain can exempt a URL |
| `MediaUrls.UnsetDomainsProxyEverything` | src/api/Api.js:53-56 | With `NON_CORS_PROXY_DOMAINS` unset or empty, every URL is proxied |
| `MediaUrls.ProxiedUrlForCases` | src/api/Api.js:70-78 | A URL is returned unchanged iff it is not http(s) or is exempt; otherwise it is the proxy server, "/" and the URL |
| `MediaUrls.ThumbnailUrlCarriesUrl` | src/api/Api.js:80-86 | Outside hubs.local, the thumbnail URL is the server, "/thumbnail/", a base64url segment decoding to the URL's bytes, and the width and height |
| `MediaUrls.GuessContentTypeSpec` | src/api/Api.js:88-102 | The guess throws iff the URL does not parse. Otherwise it is the table entry for the text after the path's last ".", or undefined |
| `MediaUrls.UnproxyOfProxiedResolvesAgainstBase` | src/api/Api.js:327-347 | As written, un-proxying a proxied absolute URL resolves "/" + URL against the base URL |
| `MediaUrls.UnproxyCounterexample` | src/api/Api.js:327-347 | A concrete proxied URL that `unproxyUrl` does not give back |
| `MediaUrls.UnproxyFixedRoundTrip` | src/api/Api.js:327-347 | With the slash after the proxy prefix also removed, un-proxying a proxied absolute URL gives it back |
| `Network.Fetch` | src/api/Api.js:1119-1137 | `this.fetch` resolves, with the response itself, iff there is a response and its status is ok (2xx); otherwise it rejects with a failure naming the URL |
| `MediaResolver.CacheKeyInjective` | src/api/Api.js:230 | Two cache keys are equal only for equal URL and index, undefined included |
| `MediaResolver.ResolveUrlSpec` | src/api/Api.js:225-256 | An exempt URL is answered directly. A cached key returns the stored promise. Otherwise one resolve POST goes to MEDIA_SERVER (Sketchfab) or Reticulum, and its promise is cached |
| `MediaResolver.ChooseContentType` | src/api/Api.js:294-297 | The expected type wins, then the guess, and a URL the guess cannot parse is an invalid-URL error. A HEAD request is sent iff neither gives a type, and only then does its reply decide |
| `MediaResolver.GetContentTypeSpec` | src/api/Api.js:262-272 | Resolves without an index, then returns the chosen type of the origin; a failed resolve is the error |
| `MediaResolver.LoadMedia` | src/api/Api.js:285-316 | A failed resolve becomes "Error resolving media". A zip type gives the zip's scene entry as the accessible URL. Otherwise the accessible URL is the proxied origin. Only HEAD and zip requests are added |
| `MediaResolver.ResolveMediaSpec` | src/api/Api.js:274-321 | An invalid URL rejects. A same-origin URL is answered directly. A cached key returns the stored promise. Otherwise the load's promise is stored under the URL and index |
| `MediaResolver.RunGrows` | src/api/Api.js:253 | Over any sequence of calls the caches only gain entries and the request log only grows |
| `MediaResolver.StoredUrlAnswered` | src/api/Api.js:231 | A stored resolve promise answers every later proxied call with its key |
| `MediaResolver.StoredMediaAnswered` | src/api/Api.js:283 | A stored media promise answers every later call with its key |
| `MediaResolver.ResolveUrlMemoized` | src/api/Api.js:230-231 | Two resolveUrl calls with the same URL and index get the same promise |
| `MediaResolver.ResolveMediaMemoized` | src/api/Api.js:281-283 | Two resolveMedia calls with the same URL and index get the same promise |
| `MediaResolver.RunConsistent` | src/api/Api.js:230-253 | Every call keeps the invariant: each logged resolve POST is cached, and no two share a key |
| `MediaResolver.OneResolvePostPerKey` | src/api/Api.js:230-253 | From empty caches, no URL and index is ever resolved by POST twice |
| `AssetUploads.SendTime` | src/api/Api.js:1043-1047 | The asset POST is sent no earlier than now and at least 1100 ms after the previous completion |
| `AssetUploads.UploadAssetRequests` | src/api/Api.js:1025-1059 | A successful upload sends the thumbnail upload (not for audio), then the file upload, then the asset POST |
| `AssetUploads.UploadAssetSpacing` | src/api/Api.js:1025-1065 | The one asset POST names the file, has null thumbnail ids exactly for audio, and keeps the spacing. The timestamp moves, to no earlier than the POST, exactly when the POST got JSON back |
| `AssetUploads.UploadAssetGives` | src/api/Api.js:1061-1076 | A returned asset is the first entry of the reply's `assets` |
| `AssetUploads.UploadFromResult` | src/api/Api.js:981-1004 | From any point of the loop, a successful run returns one asset per file reached before the abort, in order |
| `AssetUploads.UploadAssetsResult` | src/api/Api.js:978-1007 | A successful batch returns, in file order, the asset of every file uploaded before the abort was seen |
| `AssetUploads.AbortedBatchSendsNothing` | src/api/Api.js:982-984 | A batch whose signal is already aborted sends nothing and returns no assets |
| `AssetUploads.UploadFromSpaced` | src/api/Api.js:981-1004 | The loop keeps every asset POST at least 1100 ms after its predecessor |
| `AssetUploads.UploadAssetsSpaced` | src/api/Api.js:978-1007 | Consecutive asset POSTs of a batch are at least 1100 ms apart, and the first is at least 1100 ms after the last earlier one |
| `Publishing.IfTruthy` | src/api/Api.js:463-465 | An optional project property is present iff its value is truthy, and then it is that value |
| `Publishing.SaveProjectSpec` | src/api/Api.js:526-619 | Success means no abort was seen at any of the save's checks, both uploads, then the PATCH with `scene_id` only when truthy, and a 200 reply. A 401 surfaces as the fetch failure. A non-200 2xx reply fails on the already-read body |
| `Publishing.SaveAbortTruncates` | src/api/Api.js:538-595 | An abort only cuts the save short: same result, or a prefix of its requests and "Save project aborted". When the unaborted save succeeds, an abort at any of its checks makes it fail with "Save project aborted" |
| `Publishing.CreateProjectSpec` | src/api/Api.js:418-508 | Success means no abort was seen at any of the creation's checks, two uploads, then a POST with the scene's name, both uploads' ids and tokens, and `parent_scene_id` iff truthy, and a 200 reply. A non-200 2xx reply is "Project creation failed" |
| `Publishing.CreateAbortTruncates` | src/api/Api.js:430-475 | An abort only cuts the creation short, with "Save project aborted". When the unaborted creation succeeds, an abort at any of its checks makes it fail that way |
| `Publishing.DeleteOutcomeSpec` | src/api/Api.js:510-524 | A delete returns true iff the reply is 200. A 401 or no response is the fetch failure, so "Not authenticated" is never thrown. Any other 2xx is "deletion failed" |
| `Publishing.DefaultFalse` | src/api/Api.js:720-721 | An undefined permission becomes false, and any other value is kept |
| `Publishing.InitialSceneParamsDefaults` | src/api/Api.js:695-722 | The permissions come from the published scene or the metadata, defaulting to false. The creator is never falsy except "". Only undefined or null `scene.metadata`, or a published scene without destructurable attributions, throws |
| `Publishing.TooLargeInMegabytes` | src/api/Api.js:793-797 | Comparing bytes/1024/1024 with 128 is the same as comparing bytes with 128 MiB |
| `Publishing.SizeGateBeforeUploads` | src/api/Api.js:793-812 | A scene that is too large fails before anything is uploaded |
| `Publishing.PublishUploadsOk` | src/api/Api.js:808-903 | Success means no abort was seen at the checks, and the requests are exactly the screenshot, model and scene-file uploads, then the POST. The POSTed scene holds the three uploads' ids and tokens, the dialog's answers and the trimmed creator. The reply is 200 |
| `Publishing.PublishSuccessOrder` | src/api/Api.js:639-921 | A successful publish had the dialog confirmed, the export done, the size within bounds and the performance check confirmed. No abort was seen at any check. After any save it sends exactly the three uploads and the publish POST. The POST goes to the project the save returned, or to the given project when there was no save. It carries the uploads' ids and tokens, the dialog's answers and the trimmed creator |
| `Publishing.PublishCancelsTagged` | src/api/Api.js:728-778 | Cancelling the publish dialog or the performance check throws a tagged abort before anything is sent; save aborts are untagged |
| `Publishing.PublishUploadsAbortTruncates` | src/api/Api.js:808-882 | An abort during the uploads only cuts them short, with a tagged abort. When the unaborted uploads succeed, an abort at any of their checks makes them fail with that error |
| `Publishing.PublishSavedAbortTruncates` | src/api/Api.js:686-882 | An abort after the save only cuts the publish short, with a tagged abort. When the unaborted flow succeeds, an abort at any of its checks makes it fail with that error |
| `Publishing.PublishAbortTruncates` | src/api/Api.js:639-882 | An abort anywhere only cuts the publish short. The error is untagged inside the save and tagged after it. When the unaborted publish succeeds, an abort at any check up to the last makes it fail with that check's error |
| `Publishing.PublishSavedLog` | src/api/Api.js:686-903 | The publish steps after the save only add requests to the log |
| `ApiClient.MediaCaches.constructor` | src/api/Api.js:21-22 | The shared caches start empty |
| `ApiClient.Project.constructor` | src/api/Api.js:107-119 | A client starts with no requests sent and `lastUploadAssetRequest` 0, over the given configuration, page origin and shared caches |
| `ApiClient.Project.UnproxyUrl` | src/api/Api.js:327-347 | Computes `unproxyUrl` as written |
| `ApiClient.Project.ResolveUrl` | src/api/Api.js:225-256 | Updates the shared cache and the log, and returns what `MediaResolver.ResolveUrl` computes; `lastUploadAssetRequest` is unchanged |
| `ApiClient.Project.GetContentType` | src/api/Api.js:258-272 | Ends in the state and result `MediaResolver.GetContentType` computes; `lastUploadAssetRequest` is unchanged |
| `ApiClient.Project.ResolveMedia` | src/api/Api.js:274-321 | Ends in the state and result `MediaResolver.ResolveMedia` computes; `lastUploadAssetRequest` is unchanged |
| `ApiClient.Project.UploadAsset` | src/api/Api.js:1025-1077 | Ends in the log, timestamp and result `AssetUploads.UploadAsset` specifies |
| `ApiClient.Project.UploadAssets` | src/api/Api.js:978-1007 | The loop, with its abort checks before and after each file, ends where `AssetUploads.UploadAssets` specifies |
| `ApiClient.Project.SaveProject` | src/api/Api.js:526-619 | Ends in the log and result `Publishing.SaveProject` specifies; `lastUploadAssetRequest` is unchanged |
| `ApiClient.Project.CreateProject` | src/api/Api.js:418-508 | Ends in the log and result `Publishing.CreateProject` specifies; `lastUploadAssetRequest` is unchanged |
| `ApiClient.Project.PublishProject` | src/api/Api.js:639-921 | Ends in the log and result `Publishing.PublishProject` specifies; `lastUploadAssetRequest` is unchanged |
| `ApiClient.Project.PublishSaved` | src/api/Api.js:686-921 | After any save: ends in the log and result `Publishing.PublishSaved` specifies; `lastUploadAssetRequest` is unchanged |
| `ApiClient.Project.PublishUploads` | src/api/Api.js:808-921 | The three uploads and the publish POST end in the log and result `Publishing.PublishUploads` specifies; `lastUploadAssetRequest` is unchanged |
| `ApiClient.Project.DeleteProject` | src/api/Api.js:510-524 | Sends one DELETE to the project's URL; the result is as `Publishing.DeleteOutcome` maps the reply; `lastUploadAssetRequest` is unchanged |
| `ApiClient.Project.DeleteAsset` | src/api/Api.js:1079-1093 | Sends one DELETE to the asset's URL; the result is as `Publishing.DeleteOutcome` maps the reply; `lastUploadAssetRequest` is unchanged |
| `ImageNodes.ImageNode.constructor` | src/editor/nodes/ImageNode.js:55-64 | A new node is not changeable, has empty `changeableSrc`, URL and link, shows controls, is not a billboard, and has no issues |
| `ImageNodes.ImageNode.SetChangeableSrc` | src/editor/nodes/ImageNode.js:82-88 | Stores the value, and asks for a reload of it only while the node is changeable |
| `ImageNodes.ImageNode.SetChangeable` | src/editor/nodes/ImageNode.js:90-96 | Stores the value, and asks for a reload of `changeableSrc` only when the value is truthy |
| `ImageNodes.ImageNode.Load` | src/editor/nodes/ImageNode.js:106-156 | No-op when `src || ""` equals the current non-empty URL. Otherwise it stores `src || ""`. Success keeps the performance issues; failure leaves exactly one error issue and reports the URL to `onError` if given. Both tell the editor `objectsChanged` then `selectionChanged` |
| `ImageNodes.ImageNode.SetSrc` | src/editor/nodes/ImageNode.js:78-80 | Setting `src` runs `load` without `onError`: nothing changes when `src`, or "" for a falsy one, is the current non-empty URL; otherwise it becomes the URL, the issues are those of the load, and the editor is told `objectsChanged` then `selectionChanged`. A truthy value becomes the URL |
| `ImageNodes.ImageNode.Copy` | src/editor/nodes/ImageNode.js:158-171 | Copies exactly the eight image fields from the source as they were, asks for no reload, and returns the node itself |
| `ImageNodes.ImageNode.FinishDeserialize` | src/editor/nodes/ImageNode.js:29-44 | The deferred part loads the props' `src`, or the fetched one when changeable. It then sets the fields through the setters with the defaults `controls` false, alpha mode Blend and cutoff 0.5. Nothing happens when the fetch failed |
| `ImageNodes.ImageNode.MarkBillboard` | src/editor/nodes/ImageNode.js:25-27 | A `billboard` component anywhere among the entity's components turns the billboard on; nothing else changes |
| `ImageNodes.ImageNode.ReadLink` | src/editor/nodes/ImageNode.js:46-50 | The first `link` component sets `href` from its props, and props that cannot be destructured throw; without a link the node is unchanged |
| `ImageNodes.ImageNode.Restore` | src/editor/nodes/ImageNode.js:21-50 | Reads the image props, marks the billboard, runs the deferred part and reads the link, ending in the state, reloads, issues and editor events `ImageNodes.Deserialized` specifies, or in its error |
| `ImageNodes.ImageNode.Deserialize` | src/editor/nodes/ImageNode.js:18-53 | Builds a new node in the state `ImageNodes.Deserialized` specifies. It throws when the image or link component has no props; a billboard component turns the billboard on |
| `ImageNodes.SerializeFinds` | src/editor/nodes/ImageNode.js:173-195 | `serialize` emits the image component first, a billboard iff `billboard` is truthy, and a link iff `href` is truthy |
| `ImageNodes.SerializedLayout` | src/editor/nodes/ImageNode.js:173-195 | Behind an entity's other components, `find` still meets the image, billboard and link components as emitted, and the link carries `href` |
| `ImageNodes.SerializeRoundTrip` | src/editor/nodes/ImageNode.js:18-53 | Deserializing a serialization restores `changeable`, `changeableSrc` and `projection`. `controls`, alpha mode and cutoff come back unless falsy or undefined. `billboard` and `href` come back as their truthiness decides, and so does the URL of a node that is not changeable |
| `ImageNodes.SettledRoundTrip` | src/editor/nodes/ImageNode.js:18-53 | A node with boolean flags, string URL and link and set alpha values that is not changeable is restored exactly |
| `ImageNodes.ExportComponentsSpec` | src/editor/nodes/ImageNode.js:197-228 | The export always has the image, whose props carry the node's serialized values, and `networked` with the node's uuid. The cutoff is exported iff the mode is Mask. Billboard and link are exported iff set on a flat image, the link with the node's `href` |
| `SharedScreenNodes.SharedScreenNode.constructor` | src/editor/nodes/SharedScreenNode.js:20-25 | A new node has colour "#31343A" and opacity 1 |
| `SharedScreenNodes.SharedScreenNode.Copy` | src/editor/nodes/SharedScreenNode.js:27-31 | `copy` changes neither colour nor opacity and returns the node itself |
| `SharedScreenNodes.SharedScreenNode.Deserialize` | src/editor/nodes/SharedScreenNode.js:9-18 | Builds a new node with the colour and opacity `SharedScreenNodes.Deserialized` reads, or throws when there are no props |
| `SharedScreenNodes.SerializeRoundTrip` | src/editor/nodes/SharedScreenNode.js:33-40 | Deserializing a serialization gives back colour and opacity whatever they hold |
| `SharedScreenNodes.FirstComponentWins` | src/editor/nodes/SharedScreenNode.js:12 | Only the first "shared-screen" component is read |
| `SharedScreenNodes.ExportComponentsSpec` | src/editor/nodes/SharedScreenNode.js:42-46 | The export is the one "shared-screen" component, with no colour or opacity |

## Left out

- Authentication: the login dialogs, `authenticate`, tokens and the `HEADERS` authorization value. The client is assumed authenticated.
- The `emit` events of the client (`project-saving`, `project-saved`, `project-published`) and every `showDialog`/`hideDialog` call other than the publish and performance dialogs' answers, which are inputs. They are UI.
- `scene.setMetadata`, `setUserInfo`/`getUserInfo` storage, `custom_data` and the screenshot object URL. `userInfo` is an input. These are side channels that do not change what is sent or returned.
- The screenshot, the scene export, `getContentAttributions`, `generateFileThumbnail`, blob serialization and the upload transport. They are oracles: each upload is one reply, a file id and token or a failure.
- `maxUploadSize` is the constant `Publishing.MaxUploadSize` (128). The constructor sets it and nothing changes it.
- Farspark.B64EncodeUnicode and Farspark.FarsparkEncodeUrl: strings are sequences of Unicode scalar values, so the URIError `encodeURIComponent` throws on a lone surrogate (src/api/Api.js:41) is not modelled.
- Publishing.TooLargeInMegabytes: the gate is compared on exact reals, so floating-point rounding of `size / 1024 / 1024` for sizes near 2^53 bytes is not modelled.
- The abort signal reaching `fetch`: `createProject`, `saveProject` and `_uploadAsset` pass the signal to their POST or PATCH (for `_uploadAsset`, the per-file controller of `_uploadAssets`), so an abort while that request is in flight rejects it with the fetch failure (`FetchFailed`), not "Save project aborted", and rejects an asset batch instead of ending it. Replies are inputs independent of the signal, so `Publishing.SaveAbortTruncates`, `Publishing.CreateAbortTruncates`, `Publishing.PublishAbortTruncates` and `AssetUploads.UploadAssetsResult` cover only aborts seen at the `signal.aborted` checks between steps.
- Concurrency: calls to the client are run one after another, each settling before the next. Interleavings of pending promises are not modelled.
- `guessContentType` on extensions that name `Object.prototype` members (`constructor` and the like), which return functions in the source. The table is modelled as a plain map.
- Resolve replies whose `origin` is not a string, and project replies whose `project_id` is not a string. Both are modelled as strings.
- Asset replies without an `assets` array are modelled as a reply that is not JSON.
- Upload replies that carry `meta` but no `file_id`: the source carries on with an undefined file id, while the model treats every upload reply as either an id and token or a failure (`Network.UploadReply`).
- The `RethrownError` message texts, `console.error` and the error icon, loading cube and mesh visibility of the image node. Errors are modelled by kind.
- `ImageNode`'s `meta`, `updateAttribution`, texture loading, `performance.getEntriesByName` and the performance-issue helpers. The issues of a successful load are an input.
- `getRuntimeResourcesForStats`, `onChange` and the `Image` and `SharedScreen` objects and `EditorNodeMixin`. These are not part of this model. Their starting alpha mode, cutoff and projection are inputs; the alpha-mode strings "blend" and "mask" are those of `ImageAlphaMode`.
- ImageNodes.ImageNode.Copy and SharedScreenNodes.SharedScreenNode.Copy: what the base classes' `copy` does is not modelled. Fields outside the node's own are kept as they were.
- Reloads that the image setters ask for are recorded, not run: `getSrcFromJSON` and the later `load` depend on the network.
- `===` between object values is compared structurally, not by reference.
- `searchMedia`, `getProjects`, `getProject`, `getScene`, `getSceneUrl`, `publishGLBScene`, `uploadProjectAsset`, `deleteProjectAsset` and `proxyUrl` are outside the modelled core.

## Findings

| source | as written | input that shows it | evidently intended | confidence | as-written member | corrected member |
|---|---|---|---|---|---|---|
| src/api/Api.js:327-347 | `unproxyUrl` strips `CORS_PROXY_SERVER` without the "/" that `proxiedUrlFor` puts after it. What remains of a proxied absolute URL starts with "/", so it is resolved as a path below the base URL | proxy `https://proxy.example`, base `https://a.example/x.m3u8`, url `https://proxy.example/https://b.example/s.ts`: the result is `https://proxy.example/https://a.example/https://b.example/s.ts` | strip the prefix with its slash, so that the proxied URL comes back unchanged | medium, not executed | `MediaUrls.UnproxyCounterexample` | `MediaUrls.UnproxyFixedRoundTrip` |

`ApiClient.Project.UnproxyUrl` computes the source as written
(`MediaUrls.UnproxiedUrl`). `MediaUrls.UnproxiedUrlFixed` is the corrected
definition, and the round trip is proved about it.
