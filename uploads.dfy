/** Asset uploads: `_uploadAsset`, which spaces asset POSTs at least
    1100 ms after the last one that completed, and `_uploadAssets`, which
    uploads a list of files one at a time until the abort signal is seen.
    The uploads, the asset endpoint, the clock and the timer are inputs. */
module AssetUploads {
  import opened Strings
  import opened Network

  /** Minimum time in milliseconds between the completion of one asset
      POST and the sending of the next. */
  const AssetSpacing := 1100

  /** A file to upload, and whether it matches the audio file types. */
  datatype File = File(name: string, isAudio: bool)

  /** The asset `_uploadAsset` returns, built from the first entry of the
      reply's `assets` (id, name, file URL, type, thumbnail URL). */
  datatype Asset = Asset(id: string, name: string, url: string, kind: string, previewUrl: string)

  /** What one asset upload meets: the two uploads, the clock when they
      are done, how late the spacing timer fires, the reply to the asset
      POST (its `assets` array) and the time that reply takes. */
  datatype AssetReplies = AssetReplies(
    thumbnail: UploadReply,
    file: UploadReply,
    now: int,
    lateness: nat,
    post: Reply<seq<Asset>>,
    latency: nat)

  /** Request log and `lastUploadAssetRequest`. */
  datatype UploadState = UploadState(log: seq<Request>, last: int)

  /** State and outcome after an upload. */
  datatype Done<T> = Done(state: UploadState, outcome: Result<T, ApiError>)

  /** When the asset POST goes out: at once when `delta >= 1100`, otherwise
      after a timer of `1100 - delta` that may fire late. */
  function SendTime(now: int, last: int, lateness: nat): (at: int)
    ensures at >= last + AssetSpacing
    ensures at >= now
  {
    var delta := now - last;
    if delta < AssetSpacing then now + (AssetSpacing - delta) + lateness else now
  }

  /** The thumbnail ids of an asset record: null for audio files. */
  datatype Thumb = Thumb(fileId: Option<string>, accessToken: Option<string>)

  /** `_uploadAsset(endpoint, editor, file, onProgress, signal)`. */
  function UploadAsset(endpoint: string, s: UploadState, file: File, r: AssetReplies): Done<Asset> {
    var log1 := if file.isAudio then s.log else s.log + [Upload(AssetThumbnail(file.name))];
    var thumb: Result<Thumb, ApiError> :=
      if file.isAudio then Ok(Thumb(None, None))
      else match r.thumbnail
        case UploadFailed => Err(UploadError(AssetThumbnail(file.name)))
        case Uploaded(id, token) => Ok(Thumb(Some(id), Some(token)));
    match thumb
    case Err(e) => Done(UploadState(log1, s.last), Err(e))
    case Ok(t) =>
      var log2 := log1 + [Upload(AssetFile(file.name))];
      match r.file
      case UploadFailed => Done(UploadState(log2, s.last), Err(UploadError(AssetFile(file.name))))
      case Uploaded(fileId, token) =>
        var at := SendTime(r.now, s.last, r.lateness);
        var log3 := log2 + [AssetPost(endpoint, at, AssetRecord(file.name, fileId, token, t.fileId, t.accessToken))];
        match FetchJson(endpoint, r.post)
        case Err(e) => Done(UploadState(log3, s.last), Err(e))
        case Ok(assets) =>
          // the timestamp is taken before the first asset is read
          var s' := UploadState(log3, at + r.latency);
          if |assets| == 0 then Done(s', Err(BadResponse)) else Done(s', Ok(assets[0]))
  }

  /** The requests one asset upload makes, in order: the thumbnail upload
      (not for audio files), the file upload, then the asset POST. */
  lemma UploadAssetRequests(endpoint: string, s: UploadState, file: File, r: AssetReplies)
    ensures var u := UploadAsset(endpoint, s, file, r);
      var pre := if file.isAudio then [] else [Upload(AssetThumbnail(file.name))];
      IsPrefix(s.log, u.state.log) &&
      (u.outcome.Ok? ==>
        |u.state.log| == |s.log| + |pre| + 2 &&
        u.state.log[|s.log|..|u.state.log| - 1] == pre + [Upload(AssetFile(file.name))] &&
        u.state.log[|u.state.log| - 1].AssetPost?)
  {
  }

  /** The asset POST goes out at least 1100 ms after the previous one
      completed, names the file, and carries null thumbnail ids exactly for
      audio files; `lastUploadAssetRequest` moves, to no earlier than the
      POST's time, exactly when the POST was answered with JSON, which is
      always so when an asset is returned. */
  lemma {:induction false} UploadAssetSpacing(endpoint: string, s: UploadState, file: File, r: AssetReplies)
    ensures var u := UploadAsset(endpoint, s, file, r);
      IsPrefix(s.log, u.state.log) &&
      (forall k :: |s.log| <= k < |u.state.log| && u.state.log[k].AssetPost? ==>
        k == |u.state.log| - 1 &&
        u.state.log[k].endpoint == endpoint &&
        u.state.log[k].at >= s.last + AssetSpacing &&
        u.state.log[k].asset.name == file.name &&
        (u.state.log[k].asset.thumbnailFileId.None? <==> file.isAudio) &&
        (u.state.last != s.last ==> u.state.last >= u.state.log[k].at)) &&
      (u.state.last != s.last <==>
        |u.state.log| > |s.log| && u.state.log[|u.state.log| - 1].AssetPost? && FetchJson(endpoint, r.post).Ok?) &&
      (u.state.last == s.last || u.state.last >= s.last + AssetSpacing) &&
      (u.outcome.Ok? ==> u.state.last >= s.last + AssetSpacing)
  {
    var u := UploadAsset(endpoint, s, file, r);
    var log1 := if file.isAudio then s.log else s.log + [Upload(AssetThumbnail(file.name))];
    assert forall k :: |s.log| <= k < |log1| ==> log1[k].Upload?;
    if !file.isAudio && r.thumbnail.UploadFailed? {
    } else if r.file.UploadFailed? {
      assert u.state.log == log1 + [Upload(AssetFile(file.name))];
    } else {
      var t := if file.isAudio then Thumb(None, None) else Thumb(Some(r.thumbnail.fileId), Some(r.thumbnail.accessToken));
      var at := SendTime(r.now, s.last, r.lateness);
      var post := AssetPost(endpoint, at, AssetRecord(file.name, r.file.fileId, r.file.accessToken, t.fileId, t.accessToken));
      assert u.state.log == log1 + [Upload(AssetFile(file.name))] + [post];
    }
  }

  // ---------------------------------------------------------------------
  // Batches
  // ---------------------------------------------------------------------

  // The batch checks the signal before file `i` (check `2 * i`) and after
  // it (check `2 * i + 1`).

  /** The loop of `_uploadAssets` from file `i` on, with the assets of the
      files before `i` already collected. */
  function UploadFrom(endpoint: string, s: UploadState, files: seq<File>, replies: seq<AssetReplies>,
                      sig: Signal, i: nat, assets: seq<Asset>): Done<seq<Asset>>
    requires |replies| == |files| && i <= |files|
    decreases |files| - i
  {
    if i == |files| || SeesAbort(sig, 2 * i) then Done(s, Ok(assets))
    else
      var u := UploadAsset(endpoint, s, files[i], replies[i]);
      match u.outcome
      case Err(e) => Done(u.state, Err(e))
      case Ok(a) =>
        if SeesAbort(sig, 2 * i + 1) then Done(u.state, Ok(assets + [a]))
        else UploadFrom(endpoint, u.state, files, replies, sig, i + 1, assets + [a])
  }

  /** `_uploadAssets(endpoint, editor, files, onProgress, signal)`:
      `replies[i]` is what the upload of `files[i]` meets. */
  function UploadAssets(endpoint: string, s: UploadState, files: seq<File>, replies: seq<AssetReplies>, sig: Signal)
    : Done<seq<Asset>>
    requires |replies| == |files|
  {
    UploadFrom(endpoint, s, files, replies, sig, 0, [])
  }

  /** The number of files the batch reaches before it sees the signal. */
  function Reached(n: nat, sig: Signal): (m: nat)
    ensures m <= n
  {
    match sig
    case Never => n
    case AbortedAt(check) => if (check + 1) / 2 < n then (check + 1) / 2 else n
  }

  /** The asset the reply to a file's POST gives. */
  predicate Gives(r: AssetReplies, a: Asset) {
    r.post.Response? && r.post.body.Some? && |r.post.body.value| > 0 && r.post.body.value[0] == a
  }

  lemma UploadAssetGives(endpoint: string, s: UploadState, file: File, r: AssetReplies)
    ensures var u := UploadAsset(endpoint, s, file, r); u.outcome.Ok? ==> Gives(r, u.outcome.value)
  {
  }

  lemma {:induction false} UploadFromResult(endpoint: string, s: UploadState, files: seq<File>, replies: seq<AssetReplies>,
                                            sig: Signal, i: nat, assets: seq<Asset>)
    requires |replies| == |files| && i <= |files| && |assets| == i
    requires i == 0 || !SeesAbort(sig, 2 * i - 1)
    requires forall k :: 0 <= k < i ==> Gives(replies[k], assets[k])
    ensures var u := UploadFrom(endpoint, s, files, replies, sig, i, assets);
      u.outcome.Ok? ==>
        |u.outcome.value| == Reached(|files|, sig) &&
        forall k :: 0 <= k < |u.outcome.value| ==> Gives(replies[k], u.outcome.value[k])
    decreases |files| - i
  {
    if i < |files| && !SeesAbort(sig, 2 * i) {
      var u := UploadAsset(endpoint, s, files[i], replies[i]);
      UploadAssetGives(endpoint, s, files[i], replies[i]);
      if u.outcome.Ok? && !SeesAbort(sig, 2 * i + 1) {
        UploadFromResult(endpoint, u.state, files, replies, sig, i + 1, assets + [u.outcome.value]);
      }
    }
  }

  /** Files are uploaded in input order: when the batch succeeds, its
      `k`-th asset is the one the `k`-th file's POST returned, and it holds
      one asset for every file reached before the signal was seen (all of
      them when the signal is never aborted, none when it is aborted from
      the start). */
  lemma UploadAssetsResult(endpoint: string, s: UploadState, files: seq<File>, replies: seq<AssetReplies>, sig: Signal)
    requires |replies| == |files|
    ensures var u := UploadAssets(endpoint, s, files, replies, sig);
      u.outcome.Ok? ==>
        |u.outcome.value| == Reached(|files|, sig) &&
        forall k :: 0 <= k < |u.outcome.value| ==> Gives(replies[k], u.outcome.value[k])
  {
    UploadFromResult(endpoint, s, files, replies, sig, 0, []);
  }

  /** A signal aborted before the first file means no request at all. */
  lemma AbortedBatchSendsNothing(endpoint: string, s: UploadState, files: seq<File>, replies: seq<AssetReplies>)
    requires |replies| == |files|
    ensures UploadAssets(endpoint, s, files, replies, AbortedAt(0)) == Done(s, Ok([]))
  {
  }

  /** The asset POSTs in `log` from position `from` on: each is at least
      1100 ms after `last` and after every earlier one. */
  predicate Spaced(log: seq<Request>, from: nat, last: int) {
    (forall p :: from <= p < |log| && log[p].AssetPost? ==> log[p].at >= last + AssetSpacing) &&
    (forall p, q :: from <= p < q < |log| && log[p].AssetPost? && log[q].AssetPost? ==>
      log[q].at >= log[p].at + AssetSpacing)
  }

  lemma {:induction false} UploadFromSpaced(endpoint: string, s: UploadState, files: seq<File>, replies: seq<AssetReplies>,
                                            sig: Signal, i: nat, assets: seq<Asset>, from: nat, last0: int)
    requires |replies| == |files| && i <= |files| && from <= |s.log|
    requires Spaced(s.log, from, last0) && s.last >= last0
    requires forall p :: from <= p < |s.log| && s.log[p].AssetPost? ==> s.last >= s.log[p].at
    ensures var u := UploadFrom(endpoint, s, files, replies, sig, i, assets);
      IsPrefix(s.log, u.state.log) && Spaced(u.state.log, from, last0)
    decreases |files| - i
  {
    if i < |files| && !SeesAbort(sig, 2 * i) {
      var u := UploadAsset(endpoint, s, files[i], replies[i]);
      UploadAssetSpacing(endpoint, s, files[i], replies[i]);
      var log := u.state.log;
      assert forall p :: from <= p < |s.log| ==> log[p] == s.log[p] by {
        forall p | from <= p < |s.log| ensures log[p] == s.log[p] {
          assert log[..|s.log|][p] == log[p];
        }
      }
      assert Spaced(log, from, last0);
      if u.outcome.Ok? && !SeesAbort(sig, 2 * i + 1) {
        UploadFromSpaced(endpoint, u.state, files, replies, sig, i + 1, assets + [u.outcome.value], from, last0);
        var fin := UploadFrom(endpoint, u.state, files, replies, sig, i + 1, assets + [u.outcome.value]).state.log;
        assert fin[..|log|][..|s.log|] == fin[..|s.log|];
      }
    }
  }

  /** Within a batch, every asset POST goes out at least 1100 ms after
      `lastUploadAssetRequest` as it stood and at least 1100 ms after every
      earlier POST of the batch, however the clock and the timers behave. */
  lemma UploadAssetsSpaced(endpoint: string, s: UploadState, files: seq<File>, replies: seq<AssetReplies>, sig: Signal)
    requires |replies| == |files|
    ensures var u := UploadAssets(endpoint, s, files, replies, sig);
      IsPrefix(s.log, u.state.log) && Spaced(u.state.log, |s.log|, s.last)
  {
    UploadFromSpaced(endpoint, s, files, replies, sig, 0, [], |s.log|, s.last);
  }
}
