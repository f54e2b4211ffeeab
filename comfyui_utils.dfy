/**
 * comfyui_utils.py: staging the optional reference images of an image
 * generation job to local files and removing them again, uploading the
 * generated images to the bucket behind the CDN, and the webhook notifier.
 */
module ComfyUtils {
  import opened Common
  import opened FileStore
  import opened Webhook

  // ---------------------------------------------------------------------
  // download_and_save_images

  /**
   * Iteration i of download_and_save_images: the id and the format are read
   * first, a falsy id skips the index, a response other than 200 is logged
   * and skipped, and a 200 response is written to the image's path.
   */
  function SaveImageStep(uris: seq<string>, ids: seq<Text>, formats: seq<Text>, root: string,
                         fetch: string -> Response, i: nat): Step
  {
    if i >= |ids| || i >= |formats| then Raise(IndexError)
    else if !Truthy(ids[i]) then Skip
    else if i >= |uris| then Raise(IndexError)
    else
      match fetch(uris[i])
      case Unreachable => Raise(ConnectionError)
      case Response(status, body) =>
        if status == 200 then Act(Write(StagePath(root, ids[i], formats[i]), body)) else Skip
  }

  /** The loop `for i in range(2)`: indices 0 and 1, whatever the lengths of the lists. */
  function SaveImagesSteps(uris: seq<string>, ids: seq<Text>, formats: seq<Text>, root: string,
                           fetch: string -> Response): (s: seq<Step>)
    ensures WriteOnly(s)
  {
    [SaveImageStep(uris, ids, formats, root, fetch, 0), SaveImageStep(uris, ids, formats, root, fetch, 1)]
  }

  method DownloadAndSaveImages(uris: seq<string>, ids: seq<Text>, formats: seq<Text>, root: string,
                               fetch: string -> Response, fs: FileMap) returns (run: Run)
    ensures run == Perform(fs, SaveImagesSteps(uris, ids, formats, root, fetch))
  {
    ghost var steps := SaveImagesSteps(uris, ids, formats, root, fetch);
    var files := fs;
    for i := 0 to 2
      invariant forall j :: 0 <= j < i ==> !steps[j].Raise?
      invariant Perform(fs, steps[..i]) == Run(files, None)
    {
      assert steps[..i + 1][..i] == steps[..i];
      if i >= |ids| || i >= |formats| {
        PerformRaisesAt(fs, steps, i);
        return Run(files, Some(IndexError));
      }
      var imageId, imageFormat := ids[i], formats[i];
      if Truthy(imageId) {
        var imagePath := Join(root, FileName(imageId, imageFormat));
        if i >= |uris| {
          PerformRaisesAt(fs, steps, i);
          return Run(files, Some(IndexError));
        }
        var response := fetch(uris[i]);
        match response {
          case Unreachable =>
            PerformRaisesAt(fs, steps, i);
            return Run(files, Some(ConnectionError));
          case Response(status, body) =>
            if status == 200 {
              files := files[imagePath := body];
            }
        }
      }
    }
    assert steps[..2] == steps;
    run := Run(files, None);
  }

  // ---------------------------------------------------------------------
  // remove_images

  /**
   * Iteration i of remove_images: the id is read first and a falsy id skips
   * the index without reading the format; a missing file is swallowed.
   */
  function RemoveImageStep(ids: seq<Text>, formats: seq<Text>, root: string, i: nat): Step
  {
    if i >= |ids| then Raise(IndexError)
    else if !Truthy(ids[i]) then Skip
    else if i >= |formats| then Raise(IndexError)
    else Act(Delete(StagePath(root, ids[i], formats[i])))
  }

  function RemoveImagesSteps(ids: seq<Text>, formats: seq<Text>, root: string): (s: seq<Step>)
    ensures DeleteOnly(s)
  {
    [RemoveImageStep(ids, formats, root, 0), RemoveImageStep(ids, formats, root, 1)]
  }

  method RemoveImages(ids: seq<Text>, formats: seq<Text>, root: string, fs: FileMap) returns (run: Run)
    ensures run == Perform(fs, RemoveImagesSteps(ids, formats, root))
    ensures run.files == fs - Deleted(Executed(RemoveImagesSteps(ids, formats, root)))
  {
    ghost var steps := RemoveImagesSteps(ids, formats, root);
    CleanupRemoves(fs, steps);
    var files := fs;
    for i := 0 to 2
      invariant forall j :: 0 <= j < i ==> !steps[j].Raise?
      invariant Perform(fs, steps[..i]) == Run(files, None)
    {
      assert steps[..i + 1][..i] == steps[..i];
      if i >= |ids| {
        PerformRaisesAt(fs, steps, i);
        return Run(files, Some(IndexError));
      }
      var imageId := ids[i];
      if Truthy(imageId) {
        if i >= |formats| {
          PerformRaisesAt(fs, steps, i);
          return Run(files, Some(IndexError));
        }
        var imagePath := Join(root, FileName(imageId, formats[i]));
        files := files - {imagePath};
      }
    }
    assert steps[..2] == steps;
    run := Run(files, None);
  }

  // ---------------------------------------------------------------------
  // What staging and clean-up promise

  /** The paths both routines consider: indices 0 and 1 with a truthy id and a format. */
  function StagedPaths(ids: seq<Text>, formats: seq<Text>, root: string): set<Path>
  {
    set i | 0 <= i < 2 && i < |ids| && i < |formats| && Truthy(ids[i]) :: StagePath(root, ids[i], formats[i])
  }

  function Take2<T>(s: seq<T>): seq<T>
  {
    if |s| <= 2 then s else s[..2]
  }

  /** Entries beyond the second of any of the three lists are never read. */
  lemma StagingReadsTwoEntries(uris: seq<string>, ids: seq<Text>, formats: seq<Text>, root: string,
                               fetch: string -> Response)
    ensures SaveImagesSteps(uris, ids, formats, root, fetch)
         == SaveImagesSteps(Take2(uris), Take2(ids), Take2(formats), root, fetch)
    ensures RemoveImagesSteps(ids, formats, root) == RemoveImagesSteps(Take2(ids), Take2(formats), root)
  {
  }

  /**
   * An index writes a file exactly when its id is truthy and the download
   * answers 200, and then to join(root, id + "." + format) with the body;
   * a falsy id writes nothing and any other status writes nothing.
   */
  lemma SaveImageWritesIff(uris: seq<string>, ids: seq<Text>, formats: seq<Text>, root: string,
                           fetch: string -> Response, i: nat, p: Path, body: Bytes)
    ensures SaveImageStep(uris, ids, formats, root, fetch, i) == Act(Write(p, body)) <==>
      && i < |ids| && i < |formats| && i < |uris| && Truthy(ids[i])
      && fetch(uris[i]) == Response(200, body)
      && p == Join(root, Show(ids[i]) + "." + Show(formats[i]))
    ensures i < |ids| && i < |formats| && !Truthy(ids[i]) ==>
      SaveImageStep(uris, ids, formats, root, fetch, i) == Skip
  {
  }

  /**
   * remove_images deletes exactly the paths download_and_save_images
   * considers, and the download writes no path outside them.
   */
  lemma RemovalMatchesStaging(uris: seq<string>, ids: seq<Text>, formats: seq<Text>, root: string,
                              fetch: string -> Response)
    ensures Deleted(RemoveImagesSteps(ids, formats, root)) == StagedPaths(ids, formats, root)
    ensures Written(SaveImagesSteps(uris, ids, formats, root, fetch)) <= StagedPaths(ids, formats, root)
  {
    var d, r := SaveImagesSteps(uris, ids, formats, root, fetch), RemoveImagesSteps(ids, formats, root);
    forall p | p in StagedPaths(ids, formats, root) ensures p in Deleted(r) {
      var i :| 0 <= i < 2 && i < |ids| && i < |formats| && Truthy(ids[i]) && p == StagePath(root, ids[i], formats[i]);
      assert DeletesAt(r, i, p);
    }
    forall p | p in Written(d) ensures p in StagedPaths(ids, formats, root) {
      var i :| 0 <= i < |d| && d[i].Act? && d[i].action.Write? && d[i].action.path == p;
      assert i < |ids| && i < |formats| && Truthy(ids[i]) && p == StagePath(root, ids[i], formats[i]);
    }
  }

  /** Every image the download wrote is among the paths the removal deletes before it can raise. */
  lemma {:induction false} SavedImagesAreRemoved(uris: seq<string>, ids: seq<Text>, formats: seq<Text>, root: string,
                                                 fetch: string -> Response)
    ensures Written(Executed(SaveImagesSteps(uris, ids, formats, root, fetch)))
         <= Deleted(Executed(RemoveImagesSteps(ids, formats, root)))
  {
    var d, r := SaveImagesSteps(uris, ids, formats, root, fetch), RemoveImagesSteps(ids, formats, root);
    var e, f := Executed(d), Executed(r);
    forall p | p in Written(e) ensures p in Deleted(f) {
      var j :| 0 <= j < |e| && e[j].Act? && e[j].action.Write? && e[j].action.path == p;
      assert e[j] == d[j];
      assert j < |ids| && j < |formats| && Truthy(ids[j]);
      assert forall k :: 0 <= k <= j ==> !r[k].Raise?;
      assert j < FirstRaise(r);
      assert f[j] == r[j];
      assert DeletesAt(f, j, p);
    }
  }

  /**
   * Staging then clean-up, whichever of them raises: no image the download
   * wrote is left on disk, and every path neither touches is as it was.
   */
  lemma StagedImagesCleanedUp(uris: seq<string>, ids: seq<Text>, formats: seq<Text>, root: string,
                              fetch: string -> Response, fs: FileMap)
    ensures var d := SaveImagesSteps(uris, ids, formats, root, fetch);
            var r := RemoveImagesSteps(ids, formats, root);
            var final := Perform(Perform(fs, d).files, r).files;
            && (forall p :: p in Written(Executed(d)) ==> p !in final)
            && (forall p :: !Touches(d, p) && !Touches(r, p) ==>
                  (p in final <==> p in fs) && (p in fs ==> final[p] == fs[p]))
  {
    var d := SaveImagesSteps(uris, ids, formats, root, fetch);
    var r := RemoveImagesSteps(ids, formats, root);
    SavedImagesAreRemoved(uris, ids, formats, root, fetch);
    StageThenCleanup(fs, d, r);
  }

  /** Calling remove_images twice is harmless: the second call changes nothing and raises alike. */
  lemma RemoveImagesIdempotent(ids: seq<Text>, formats: seq<Text>, root: string, fs: FileMap)
    ensures var r := RemoveImagesSteps(ids, formats, root);
            Perform(Perform(fs, r).files, r) == Perform(fs, r)
  {
    CleanupIdempotent(fs, RemoveImagesSteps(ids, formats, root));
  }

  // ---------------------------------------------------------------------
  // upload_images_to_s3

  /** str(uuid.uuid4()) + '.png', for the uuid drawn for image i. */
  function ImageKey(uuid: string): string
  {
    uuid + ".png"
  }

  /** f"{os.getenv('CDN_URL')}/{image_key}" */
  function CdnUri(cdn: Text, key: string): string
  {
    Show(cdn) + "/" + key
  }

  /** The temporary files of the first n images, named by their keys in the working directory. */
  function TempKeys(uuid: nat -> string, n: nat): set<Path>
  {
    set i | 0 <= i < n :: ImageKey(uuid(i))
  }

  /** The bucket after the first n images are uploaded under their keys. */
  function Uploaded(bucket: Bucket, images: seq<Bytes>, uuid: nat -> string,
                    encode: Bytes -> Option<Bytes>, n: nat): Bucket
    requires n <= |images|
  {
    if n == 0 then bucket
    else
      var b := Uploaded(bucket, images, uuid, encode, n - 1);
      match encode(images[n - 1])
      case None => b
      case Some(png) => b[ImageKey(uuid(n - 1)) := png]
  }

  /** Image i stops the loop: its bytes are no image, or its transfer to the bucket raises. */
  predicate UploadFails(images: seq<Bytes>, encode: Bytes -> Option<Bytes>,
                        transfer: nat -> Option<PyError>, i: nat)
    requires i < |images|
  {
    encode(images[i]).None? || transfer(i).Some?
  }

  /** The first image from i on whose upload raises, or |images| when none does. */
  function FirstFailureFrom(images: seq<Bytes>, encode: Bytes -> Option<Bytes>,
                            transfer: nat -> Option<PyError>, i: nat): (k: nat)
    requires i <= |images|
    ensures i <= k <= |images|
    ensures forall j :: i <= j < k ==> !UploadFails(images, encode, transfer, j)
    ensures k < |images| ==> UploadFails(images, encode, transfer, k)
    decreases |images| - i
  {
    if i == |images| || UploadFails(images, encode, transfer, i) then i
    else FirstFailureFrom(images, encode, transfer, i + 1)
  }

  /** How many images upload_images_to_s3 gets through before it raises. */
  function FirstFailure(images: seq<Bytes>, encode: Bytes -> Option<Bytes>,
                        transfer: nat -> Option<PyError>): nat
  {
    FirstFailureFrom(images, encode, transfer, 0)
  }

  /** The exception that leaves upload_images_to_s3, if any. */
  function UploadError(images: seq<Bytes>, encode: Bytes -> Option<Bytes>,
                       transfer: nat -> Option<PyError>): Option<PyError>
  {
    var k := FirstFailure(images, encode, transfer);
    if k == |images| then None
    else if encode(images[k]).None? then Some(ImageCodecError)
    else transfer(k)
  }

  /**
   * The working directory afterwards: the temporary files of the images
   * got through are gone, and an image whose transfer raised keeps its
   * temporary PNG, since the removal after the transfer never runs.
   */
  function UploadDisk(fs: FileMap, images: seq<Bytes>, uuid: nat -> string, encode: Bytes -> Option<Bytes>,
                      transfer: nat -> Option<PyError>): FileMap
  {
    var k := FirstFailure(images, encode, transfer);
    var kept := fs - TempKeys(uuid, k);
    if k < |images| && encode(images[k]).Some? then kept[ImageKey(uuid(k)) := encode(images[k]).value]
    else kept
  }

  /** The CDN URIs of the first n images. */
  function CdnUris(cdn: Text, uuid: nat -> string, n: nat): seq<string>
  {
    seq(n, i requires 0 <= i => CdnUri(cdn, ImageKey(uuid(i))))
  }

  /**
   * Image i gets the key of the i-th fresh uuid; it is decoded and
   * re-encoded as PNG (`encode`, failing when the bytes are no image),
   * written to that key in the working directory, put in the bucket under
   * the key (`transfer(i)` is the exception upload_fileobj raises, if
   * any), its CDN URI appended, and the temporary file removed.
   */
  method UploadImagesToS3(images: seq<Bytes>, uuid: nat -> string, encode: Bytes -> Option<Bytes>,
                          transfer: nat -> Option<PyError>, cdn: Text, fs: FileMap, bucket: Bucket)
    returns (uris: seq<string>, files: FileMap, objects: Bucket, error: Option<PyError>)
    ensures |uris| == FirstFailure(images, encode, transfer)
    ensures uris == CdnUris(cdn, uuid, |uris|)
    ensures error == UploadError(images, encode, transfer)
    ensures error.None? <==> |uris| == |images|
    ensures files == UploadDisk(fs, images, uuid, encode, transfer)
    ensures objects == Uploaded(bucket, images, uuid, encode, |uris|)
  {
    uris, files, objects, error := [], fs, bucket, None;
    var i := 0;
    while i < |images|
      invariant i <= |images| && uris == CdnUris(cdn, uuid, i)
      invariant FirstFailureFrom(images, encode, transfer, i) == FirstFailure(images, encode, transfer)
      invariant files == fs - TempKeys(uuid, i)
      invariant objects == Uploaded(bucket, images, uuid, encode, i)
    {
      var imageKey := ImageKey(uuid(i));
      var png := encode(images[i]);
      if png.None? {
        error := Some(ImageCodecError);
        return;
      }
      files := files[imageKey := png.value];
      if transfer(i).Some? {
        error := transfer(i);
        return;
      }
      objects := objects[imageKey := png.value];
      uris := uris + [CdnUri(cdn, imageKey)];
      files := files - {imageKey};
      assert TempKeys(uuid, i + 1) == TempKeys(uuid, i) + {imageKey};
      i := i + 1;
    }
  }

  /** The upload raises nothing exactly when every image encodes and transfers. */
  lemma UploadSucceedsIff(images: seq<Bytes>, encode: Bytes -> Option<Bytes>, transfer: nat -> Option<PyError>)
    ensures UploadError(images, encode, transfer).None? <==>
            forall i :: 0 <= i < |images| ==> encode(images[i]).Some? && transfer(i).None?
  {
    var k := FirstFailure(images, encode, transfer);
    if k < |images| {
      assert UploadFails(images, encode, transfer, k);
      assert UploadError(images, encode, transfer).Some?;
      assert !(encode(images[k]).Some? && transfer(k).None?);
    } else {
      forall i | 0 <= i < |images|
        ensures encode(images[i]).Some? && transfer(i).None?
      {
        assert !UploadFails(images, encode, transfer, i);
      }
    }
  }

  /**
   * An image whose transfer raises, after every earlier one went through:
   * that exception leaves the function and the image's temporary PNG stays
   * in the working directory.
   */
  lemma TransferFailureLeaks(fs: FileMap, images: seq<Bytes>, uuid: nat -> string,
                             encode: Bytes -> Option<Bytes>, transfer: nat -> Option<PyError>, k: nat)
    requires k < |images| && encode(images[k]).Some? && transfer(k).Some?
    requires forall j :: 0 <= j < k ==> encode(images[j]).Some? && transfer(j).None?
    ensures UploadError(images, encode, transfer) == transfer(k)
    ensures var disk := UploadDisk(fs, images, uuid, encode, transfer);
            ImageKey(uuid(k)) in disk && disk[ImageKey(uuid(k))] == encode(images[k]).value
  {
    assert UploadFails(images, encode, transfer, k);
  }

  /** A file that is no image key is neither written nor removed by the upload. */
  lemma UploadDiskFrame(fs: FileMap, images: seq<Bytes>, uuid: nat -> string,
                        encode: Bytes -> Option<Bytes>, transfer: nat -> Option<PyError>, p: Path)
    requires forall i: nat :: p != ImageKey(uuid(i))
    ensures var disk := UploadDisk(fs, images, uuid, encode, transfer);
            (p in disk <==> p in fs) && (p in fs ==> disk[p] == fs[p])
  {
    var k := FirstFailure(images, encode, transfer);
    assert p !in TempKeys(uuid, k);
  }

  /** A successful upload leaves no temporary file behind: the disk is as it was before. */
  lemma UploadCleansUp(fs: FileMap, images: seq<Bytes>, uuid: nat -> string,
                       encode: Bytes -> Option<Bytes>, transfer: nat -> Option<PyError>)
    requires UploadError(images, encode, transfer).None?
    requires forall i: nat :: ImageKey(uuid(i)) !in fs
    ensures UploadDisk(fs, images, uuid, encode, transfer) == fs
  {
    var k := FirstFailure(images, encode, transfer);
    assert k == |images|;
    forall p | p in TempKeys(uuid, k)
      ensures p !in fs
    {
      var i :| 0 <= i < k && p == ImageKey(uuid(i));
    }
  }

  lemma KeysDiffer(a: string, b: string)
    requires a != b
    ensures ImageKey(a) != ImageKey(b)
  {
    if |a| == |b| {
      assert ImageKey(a)[..|a|] == a;
      assert ImageKey(b)[..|b|] == b;
    }
  }

  /** With distinct uuids each uploaded image stays in the bucket under its own key. */
  lemma {:induction false} UploadedHolds(bucket: Bucket, images: seq<Bytes>, uuid: nat -> string,
                                         encode: Bytes -> Option<Bytes>, n: nat, i: nat)
    requires i < n <= |images|
    requires forall j, k :: 0 <= j < k < n ==> uuid(j) != uuid(k)
    requires encode(images[i]).Some?
    ensures ImageKey(uuid(i)) in Uploaded(bucket, images, uuid, encode, n)
    ensures Uploaded(bucket, images, uuid, encode, n)[ImageKey(uuid(i))] == encode(images[i]).value
  {
    if i < n - 1 {
      UploadedHolds(bucket, images, uuid, encode, n - 1, i);
      KeysDiffer(uuid(i), uuid(n - 1));
    }
  }

  /**
   * Round trip: the part of each returned URI after the CDN prefix is a
   * key of the bucket holding that image's PNG encoding.
   */
  lemma UploadRoundTrip(bucket: Bucket, images: seq<Bytes>, uuid: nat -> string,
                        encode: Bytes -> Option<Bytes>, cdn: Text, i: nat)
    requires i < |images|
    requires forall j, k :: 0 <= j < k < |images| ==> uuid(j) != uuid(k)
    requires encode(images[i]).Some?
    ensures var uri := CdnUri(cdn, ImageKey(uuid(i)));
            var key := uri[|Show(cdn)| + 1..];
            key in Uploaded(bucket, images, uuid, encode, |images|) &&
            Uploaded(bucket, images, uuid, encode, |images|)[key] == encode(images[i]).value
  {
    var uri := CdnUri(cdn, ImageKey(uuid(i)));
    assert uri[|Show(cdn)| + 1..] == ImageKey(uuid(i));
    UploadedHolds(bucket, images, uuid, encode, |images|, i);
  }

  // ---------------------------------------------------------------------
  // send_webhook_acknowledgment

  /**
   * The names the notifier and its Message model use: the parameters of
   * send_webhook_acknowledgment and the fields of the JSON body.
   */
  datatype Key = UserId | Status | UploadcareUris | CreatedAt | MessageId | SettingsId | S3Uris | WebhookUrl

  /** (user_id, message_id, settings_id, status, webhook_url, s3_uris=None) */
  const Notifier := Signature([UserId, MessageId, SettingsId, Status, WebhookUrl, S3Uris], 5)

  /** The Message model: every field is optional and defaults to None. */
  const MessageModel: map<Key, PyValue> := map[
    UserId := PyNone, Status := PyNone, UploadcareUris := PyNone, CreatedAt := PyNone,
    MessageId := PyNone, SettingsId := PyNone, S3Uris := PyNone]

  /** The message_fields dictionary: four fields always, s3_uris only when it is not None. */
  method MessageFields(params: map<Key, PyValue>) returns (fields: map<Key, PyValue>)
    requires {UserId, MessageId, SettingsId, Status, S3Uris} <= params.Keys
    ensures fields.Keys == {UserId, MessageId, SettingsId, Status} +
                           (if params[S3Uris] != PyNone then {S3Uris} else {})
    ensures forall k :: k in fields ==> fields[k] == params[k]
  {
    fields := map[
      UserId := params[UserId],
      MessageId := params[MessageId],
      SettingsId := params[SettingsId],
      Status := params[Status]];
    if params[S3Uris] != PyNone {
      fields := fields[S3Uris := params[S3Uris]];
    }
  }

  /** The envelope posted for a call with five or six positional arguments. */
  function Envelope(args: seq<PyValue>): map<Key, PyValue>
    requires 5 <= |args| <= 6
  {
    map[
      UserId := args[0], Status := args[3], UploadcareUris := PyNone, CreatedAt := PyNone,
      MessageId := args[1], SettingsId := args[2],
      S3Uris := if |args| == 6 then args[5] else PyNone]
  }

  /** Dumping the dictionary built from the bound parameters gives the envelope. */
  lemma EnvelopeOfFields(args: seq<PyValue>, fields: map<Key, PyValue>)
    requires 5 <= |args| <= 6
    requires fields.Keys == {UserId, MessageId, SettingsId, Status} +
                            (if |args| == 6 && args[5] != PyNone then {S3Uris} else {})
    requires UserId in fields && fields[UserId] == args[0]
    requires MessageId in fields && fields[MessageId] == args[1]
    requires SettingsId in fields && fields[SettingsId] == args[2]
    requires Status in fields && fields[Status] == args[3]
    requires S3Uris in fields ==> fields[S3Uris] == args[5]
    ensures Dump(MessageModel, fields) == Envelope(args)
  {
    var m, e := Dump(MessageModel, fields), Envelope(args);
    assert m.Keys == e.Keys;
    forall k | k in m ensures m[k] == e[k] {
      match k
      case UserId =>
      case Status =>
      case MessageId =>
      case SettingsId =>
      case S3Uris =>
      case UploadcareUris | CreatedAt => assert k !in fields;
      case WebhookUrl => assert false;
    }
  }

  /**
   * A call `send_webhook_acknowledgment(*args)`. With five or six arguments
   * the envelope is built and posted to the fifth; a fifth argument that is
   * not a string makes the post raise, which the body swallows. It never
   * raises out of its body; only a call with the wrong number of arguments
   * raises, and before the body runs.
   */
  method SendWebhookAcknowledgment(args: seq<PyValue>) returns (d: Delivery<Key>)
    ensures d.CallRaised? <==> !(5 <= |args| <= 6)
    ensures d.CallRaised? ==> d.error == TypeError
    ensures d.Posted? <==> 5 <= |args| <= 6 && args[4].PyStr?
    ensures d.Posted? ==> d.post == Post(args[4].s, Envelope(args))
  {
    var bound := Bind(Notifier, args);
    if bound.Failure? {
      return CallRaised(bound.error);
    }
    var params := bound.value;
    assert Notifier.params[0] in params && Notifier.params[1] in params && Notifier.params[2] in params;
    assert Notifier.params[3] in params && Notifier.params[4] in params && Notifier.params[5] in params;
    assert params[UserId] == args[0] && params[MessageId] == args[1] && params[SettingsId] == args[2];
    assert params[Status] == args[3] && params[WebhookUrl] == args[4];
    assert params[S3Uris] == if |args| == 6 then args[5] else PyNone;
    var fields := MessageFields(params);
    var message := Dump(MessageModel, fields);
    EnvelopeOfFields(args, fields);
    match params[WebhookUrl] {
      case PyStr(url) => d := Posted(Post(url, message));
      case _ => d := Swallowed;
    }
  }
}
