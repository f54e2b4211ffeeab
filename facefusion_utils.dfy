/**
 * facefusion_utils.py: staging the files of a face-swap job (every index,
 * no truthiness check, a failed download fatal, the body written in chunks),
 * removing them, the destination key of the fast upload, and the
 * deepfake backend's webhook notifier.
 */
module FacefusionUtils {
  import opened Common
  import opened FileStore
  import opened Webhook

  // ---------------------------------------------------------------------
  // The chunked write

  /** `iter_content(chunk_size=8192)` */
  const ChunkSize: nat := 8192

  /** A body cut into consecutive pieces of n bytes, the last one possibly shorter. */
  function Chunks(b: Bytes, n: nat): (cs: seq<Bytes>)
    requires n > 0
    ensures forall k :: 0 <= k < |cs| ==> 0 < |cs[k]| <= n
    ensures forall k :: 0 <= k < |cs| - 1 ==> |cs[k]| == n
    decreases |b|
  {
    if b == [] then []
    else if |b| <= n then [b]
    else [b[..n]] + Chunks(b[n..], n)
  }

  /** The bytes of a sequence of chunks written one after another. */
  function Flatten(cs: seq<Bytes>): Bytes
  {
    if cs == [] then [] else cs[0] + Flatten(cs[1..])
  }

  lemma {:induction false} FlattenSnoc(cs: seq<Bytes>, c: Bytes)
    ensures Flatten(cs + [c]) == Flatten(cs) + c
    decreases |cs|
  {
    if cs == [] {
      assert [] + [c] == [c];
    } else {
      assert (cs + [c])[1..] == cs[1..] + [c];
      FlattenSnoc(cs[1..], c);
    }
  }

  /** Writing the chunks in order reproduces the body. */
  lemma {:induction false} ChunksFlatten(b: Bytes, n: nat)
    requires n > 0
    ensures Flatten(Chunks(b, n)) == b
    decreases |b|
  {
    if b != [] && |b| > n {
      ChunksFlatten(b[n..], n);
      assert b[..n] + b[n..] == b;
    } else if b != [] {
      assert b + [] == b;
    }
  }

  /**
   * `with open(path, 'wb')`: the file is truncated, then each chunk of the
   * body is appended in order; the file ends up holding exactly the body.
   */
  method WriteChunked(fs: FileMap, path: Path, body: Bytes) returns (files: FileMap)
    ensures files == fs[path := body]
  {
    var chunks := Chunks(body, ChunkSize);
    var content: Bytes := [];
    files := fs[path := content];
    for k := 0 to |chunks|
      invariant content == Flatten(chunks[..k])
      invariant files == fs[path := content]
    {
      FlattenSnoc(chunks[..k], chunks[k]);
      assert chunks[..k + 1] == chunks[..k] + [chunks[k]];
      content := content + chunks[k];
      files := files[path := content];
    }
    assert chunks[..|chunks|] == chunks;
    ChunksFlatten(body, ChunkSize);
  }

  // ---------------------------------------------------------------------
  // download_and_save_files

  /**
   * Iteration i of download_and_save_files: uri, id and format are read in
   * that order, a transport failure or a 4xx/5xx status (`raise_for_status`)
   * raises, and any other status writes the body, with no check on the id.
   */
  function SaveFileStep(uris: seq<string>, ids: seq<Text>, formats: seq<Text>, root: string,
                        fetch: string -> Response, i: nat): Step
    requires i < |ids|
  {
    if i >= |uris| || i >= |formats| then Raise(IndexError)
    else
      match fetch(uris[i])
      case Unreachable => Raise(ConnectionError)
      case Response(status, body) =>
        if 400 <= status < 600 then Raise(HTTPError(status))
        else Act(Write(StagePath(root, ids[i], formats[i]), body))
  }

  /** The loop `for i in range(len(file_ids))`. */
  function SaveFilesSteps(uris: seq<string>, ids: seq<Text>, formats: seq<Text>, root: string,
                          fetch: string -> Response): (s: seq<Step>)
    ensures |s| == |ids|
  {
    seq(|ids|, i requires 0 <= i < |ids| => SaveFileStep(uris, ids, formats, root, fetch, i))
  }

  method DownloadAndSaveFiles(uris: seq<string>, ids: seq<Text>, formats: seq<Text>, root: string,
                              fetch: string -> Response, fs: FileMap) returns (run: Run)
    ensures run == Perform(fs, SaveFilesSteps(uris, ids, formats, root, fetch))
  {
    ghost var steps := SaveFilesSteps(uris, ids, formats, root, fetch);
    var files := fs;
    for i := 0 to |ids|
      invariant forall j :: 0 <= j < i ==> !steps[j].Raise?
      invariant Perform(fs, steps[..i]) == Run(files, None)
    {
      PerformSnoc(fs, steps, i);
      assert steps[i] == SaveFileStep(uris, ids, formats, root, fetch, i);
      if i >= |uris| {
        PerformRaisesAt(fs, steps, i);
        return Run(files, Some(IndexError));
      }
      var fileUri, fileId := uris[i], ids[i];
      if i >= |formats| {
        PerformRaisesAt(fs, steps, i);
        return Run(files, Some(IndexError));
      }
      var filePath := Join(root, FileName(fileId, formats[i]));
      var response := fetch(fileUri);
      match response {
        case Unreachable =>
          PerformRaisesAt(fs, steps, i);
          return Run(files, Some(ConnectionError));
        case Response(status, body) =>
          if 400 <= status < 600 {
            PerformRaisesAt(fs, steps, i);
            return Run(files, Some(HTTPError(status)));
          }
          files := WriteChunked(files, filePath, body);
      }
    }
    assert steps[..|ids|] == steps;
    run := Run(files, None);
  }

  // ---------------------------------------------------------------------
  // remove_files

  /** Iteration i of remove_files: every index is deleted, a missing file swallowed. */
  function RemoveFileStep(ids: seq<Text>, formats: seq<Text>, root: string, i: nat): Step
    requires i < |ids|
  {
    if i >= |formats| then Raise(IndexError)
    else Act(Delete(StagePath(root, ids[i], formats[i])))
  }

  function RemoveFilesSteps(ids: seq<Text>, formats: seq<Text>, root: string): (s: seq<Step>)
    ensures |s| == |ids| && DeleteOnly(s)
  {
    seq(|ids|, i requires 0 <= i < |ids| => RemoveFileStep(ids, formats, root, i))
  }

  method RemoveFiles(ids: seq<Text>, formats: seq<Text>, root: string, fs: FileMap) returns (run: Run)
    ensures run == Perform(fs, RemoveFilesSteps(ids, formats, root))
    ensures run.files == fs - Deleted(Executed(RemoveFilesSteps(ids, formats, root)))
  {
    ghost var steps := RemoveFilesSteps(ids, formats, root);
    CleanupRemoves(fs, steps);
    var files := fs;
    for i := 0 to |ids|
      invariant forall j :: 0 <= j < i ==> !steps[j].Raise?
      invariant Perform(fs, steps[..i]) == Run(files, None)
    {
      PerformSnoc(fs, steps, i);
      assert steps[i] == RemoveFileStep(ids, formats, root, i);
      var fileId := ids[i];
      if i >= |formats| {
        PerformRaisesAt(fs, steps, i);
        return Run(files, Some(IndexError));
      }
      var filePath := Join(root, FileName(fileId, formats[i]));
      files := files - {filePath};
    }
    assert steps[..|ids|] == steps;
    run := Run(files, None);
  }

  // ---------------------------------------------------------------------
  // What staging and clean-up promise

  /** The paths of every index that has a format. */
  function StagedPaths(ids: seq<Text>, formats: seq<Text>, root: string): set<Path>
  {
    set i | 0 <= i < |ids| && i < |formats| :: StagePath(root, ids[i], formats[i])
  }

  /**
   * Index i, with a uri and a format, whose download answers `status`:
   * a 4xx or 5xx status raises HTTPError, anything else writes the body to
   * join(root, id + "." + format), a None or empty id included.
   */
  lemma SaveFileStepOutcome(uris: seq<string>, ids: seq<Text>, formats: seq<Text>, root: string,
                            fetch: string -> Response, i: nat, status: int, body: Bytes)
    requires i < |ids| && i < |uris| && i < |formats|
    requires fetch(uris[i]) == Response(status, body)
    ensures SaveFilesSteps(uris, ids, formats, root, fetch)[i] ==
      if 400 <= status < 600 then Raise(HTTPError(status))
      else Act(Write(Join(root, Show(ids[i]) + "." + Show(formats[i])), body))
  {
  }

  /**
   * When the lists are long enough and every download succeeds, every index
   * is visited: the loop completes and writes exactly the staged paths.
   */
  lemma SaveFilesVisitsAll(uris: seq<string>, ids: seq<Text>, formats: seq<Text>, root: string,
                           fetch: string -> Response, fs: FileMap)
    requires |uris| >= |ids| && |formats| >= |ids|
    requires forall i :: 0 <= i < |ids| ==> fetch(uris[i]).Response? && !(400 <= fetch(uris[i]).status < 600)
    ensures Perform(fs, SaveFilesSteps(uris, ids, formats, root, fetch)).error == None
    ensures Written(SaveFilesSteps(uris, ids, formats, root, fetch)) == StagedPaths(ids, formats, root)
  {
    var s := SaveFilesSteps(uris, ids, formats, root, fetch);
    PerformCompletes(fs, s);
    forall p | p in StagedPaths(ids, formats, root) ensures p in Written(s) {
      var i :| 0 <= i < |ids| && i < |formats| && p == StagePath(root, ids[i], formats[i]);
      assert s[i].Act? && s[i].action.Write? && s[i].action.path == p;
    }
  }

  /**
   * A download failing at index i ends the loop with its error, and the files
   * the earlier indices wrote stay on disk.
   */
  lemma SaveFilesFailsAt(uris: seq<string>, ids: seq<Text>, formats: seq<Text>, root: string,
                         fetch: string -> Response, fs: FileMap, i: nat)
    requires i < |ids| && i < |uris| && i < |formats|
    requires fetch(uris[i]).Response? && 400 <= fetch(uris[i]).status < 600
    requires forall j :: 0 <= j < i ==> !SaveFilesSteps(uris, ids, formats, root, fetch)[j].Raise?
    ensures var s := SaveFilesSteps(uris, ids, formats, root, fetch);
            Perform(fs, s) == Run(Perform(fs, s[..i]).files, Some(HTTPError(fetch(uris[i]).status)))
  {
    PerformRaisesAt(fs, SaveFilesSteps(uris, ids, formats, root, fetch), i);
  }

  /** remove_files deletes exactly the staged paths, and the download writes no other path. */
  lemma RemovalMatchesStaging(uris: seq<string>, ids: seq<Text>, formats: seq<Text>, root: string,
                              fetch: string -> Response)
    ensures Deleted(RemoveFilesSteps(ids, formats, root)) == StagedPaths(ids, formats, root)
    ensures Written(SaveFilesSteps(uris, ids, formats, root, fetch)) <= StagedPaths(ids, formats, root)
  {
    var d, r := SaveFilesSteps(uris, ids, formats, root, fetch), RemoveFilesSteps(ids, formats, root);
    forall p | p in StagedPaths(ids, formats, root) ensures p in Deleted(r) {
      var i :| 0 <= i < |ids| && i < |formats| && p == StagePath(root, ids[i], formats[i]);
      assert DeletesAt(r, i, p);
    }
    forall p | p in Written(d) ensures p in StagedPaths(ids, formats, root) {
      var i :| 0 <= i < |d| && d[i].Act? && d[i].action.Write? && d[i].action.path == p;
      assert i < |ids| && i < |formats| && p == StagePath(root, ids[i], formats[i]);
    }
  }

  /** Every file the download wrote is deleted by remove_files before it can raise. */
  lemma {:induction false} SavedFilesAreRemoved(uris: seq<string>, ids: seq<Text>, formats: seq<Text>, root: string,
                                                fetch: string -> Response)
    ensures Written(Executed(SaveFilesSteps(uris, ids, formats, root, fetch)))
         <= Deleted(Executed(RemoveFilesSteps(ids, formats, root)))
  {
    var d, r := SaveFilesSteps(uris, ids, formats, root, fetch), RemoveFilesSteps(ids, formats, root);
    var e, f := Executed(d), Executed(r);
    forall p | p in Written(e) ensures p in Deleted(f) {
      var j :| 0 <= j < |e| && e[j].Act? && e[j].action.Write? && e[j].action.path == p;
      assert e[j] == d[j];
      assert j < |ids| && j < |formats|;
      assert forall k :: 0 <= k <= j ==> !r[k].Raise?;
      assert j < FirstRaise(r);
      assert f[j] == r[j];
      assert DeletesAt(f, j, p);
    }
  }

  /**
   * Staging then clean-up, whichever of them raises: no file the download
   * wrote is left on disk, and every path neither touches is as it was.
   */
  lemma StagedFilesCleanedUp(uris: seq<string>, ids: seq<Text>, formats: seq<Text>, root: string,
                             fetch: string -> Response, fs: FileMap)
    ensures var d := SaveFilesSteps(uris, ids, formats, root, fetch);
            var r := RemoveFilesSteps(ids, formats, root);
            var final := Perform(Perform(fs, d).files, r).files;
            && (forall p :: p in Written(Executed(d)) ==> p !in final)
            && (forall p :: !Touches(d, p) && !Touches(r, p) ==>
                  (p in final <==> p in fs) && (p in fs ==> final[p] == fs[p]))
  {
    SavedFilesAreRemoved(uris, ids, formats, root, fetch);
    StageThenCleanup(fs, SaveFilesSteps(uris, ids, formats, root, fetch), RemoveFilesSteps(ids, formats, root));
  }

  /** Calling remove_files twice is the same as calling it once. */
  lemma RemoveFilesIdempotent(ids: seq<Text>, formats: seq<Text>, root: string, fs: FileMap)
    ensures var r := RemoveFilesSteps(ids, formats, root);
            Perform(Perform(fs, r).files, r) == Perform(fs, r)
  {
    CleanupIdempotent(fs, RemoveFilesSteps(ids, formats, root));
  }

  // ---------------------------------------------------------------------
  // fast_upload

  /** os.path.join(s3dir, os.path.basename(filename)) */
  function DestinationKey(s3dir: string, filename: string): string
  {
    Join(s3dir, Basename(filename))
  }

  /**
   * The object keeps the local file's name: the key's basename is the
   * file's, and a non-empty name lands below s3dir.
   */
  lemma DestinationKeyKeepsName(s3dir: string, filename: string)
    ensures Basename(DestinationKey(s3dir, filename)) == Basename(filename)
    ensures Basename(filename) != "" ==>
      var key := DestinationKey(s3dir, filename);
      key[..|s3dir|] == s3dir && key[|key| - |Basename(filename)|..] == Basename(filename)
  {
    var b := Basename(filename);
    BasenameOfJoin(s3dir, b);
    if b != "" {
      assert b[0] in b;
      JoinShape(s3dir, b);
    }
  }

  // ---------------------------------------------------------------------
  // send_webhook_acknowledgment

  /** The notifier's parameters and the fields of the Message model of interfaces.py. */
  datatype Key =
    | UserId | Status | FacefusionSourceUris | FacefusionTargetUri | AkoolSourceUri | AkoolTargetUri
    | JobId | OutputUrl | CreatedAt

  /** (user_id, job_id, status, output_url=None) */
  const Notifier := Signature([UserId, JobId, Status, OutputUrl], 3)

  /**
   * The Message model with its defaults: the trailing comma after the
   * user_id default makes it the tuple (None,), and created_at is the
   * time the message is built.
   */
  function MessageModel(now: string): map<Key, PyValue>
  {
    map[
      UserId := PyTuple([PyNone]), Status := PyNone, FacefusionSourceUris := PyNone,
      FacefusionTargetUri := PyNone, AkoolSourceUri := PyNone, AkoolTargetUri := PyNone,
      JobId := PyNone, OutputUrl := PyNone, CreatedAt := PyStr(now)]
  }

  /** f"{os.getenv('FACEFUSION_BACKEND_URL')}/facefusion-deepfake/webhook" */
  function WebhookUrl(backend: Text): string
  {
    Show(backend) + "/facefusion-deepfake/webhook"
  }

  /** The message_fields dictionary: three fields always, output_url only when it is not None. */
  method MessageFields(params: map<Key, PyValue>) returns (fields: map<Key, PyValue>)
    requires {UserId, JobId, Status, OutputUrl} <= params.Keys
    ensures fields.Keys == {UserId, JobId, Status} + (if params[OutputUrl] != PyNone then {OutputUrl} else {})
    ensures forall k :: k in fields ==> fields[k] == params[k]
  {
    fields := map[UserId := params[UserId], JobId := params[JobId], Status := params[Status]];
    if params[OutputUrl] != PyNone {
      fields := fields[OutputUrl := params[OutputUrl]];
    }
  }

  /** The body posted for a call with three or four positional arguments, built at time `now`. */
  function Envelope(args: seq<PyValue>, now: string): map<Key, PyValue>
    requires 3 <= |args| <= 4
  {
    MessageModel(now)[UserId := args[0]][JobId := args[1]][Status := args[2]]
      [OutputUrl := if |args| == 4 then args[3] else PyNone]
  }

  /** Dumping the dictionary built from the bound parameters gives the envelope. */
  lemma EnvelopeOfFields(args: seq<PyValue>, now: string, fields: map<Key, PyValue>)
    requires 3 <= |args| <= 4
    requires fields.Keys == {UserId, JobId, Status} + (if |args| == 4 && args[3] != PyNone then {OutputUrl} else {})
    requires UserId in fields && fields[UserId] == args[0]
    requires JobId in fields && fields[JobId] == args[1]
    requires Status in fields && fields[Status] == args[2]
    requires OutputUrl in fields ==> fields[OutputUrl] == args[3]
    ensures Dump(MessageModel(now), fields) == Envelope(args, now)
  {
    var m, e := Dump(MessageModel(now), fields), Envelope(args, now);
    assert m.Keys == e.Keys;
    forall k | k in m ensures m[k] == e[k] {
      match k
      case UserId =>
      case JobId =>
      case Status =>
      case OutputUrl =>
      case _ => assert k !in fields;
    }
  }

  /**
   * A call `send_webhook_acknowledgment(*args)` with the backend URL setting
   * and the time as parameters. The URL is always the backend's webhook
   * route and every exception inside the body is swallowed: a call with
   * three or four arguments posts, and only a call with another number of
   * arguments raises, before the body runs.
   */
  method SendWebhookAcknowledgment(args: seq<PyValue>, backend: Text, now: string) returns (d: Delivery<Key>)
    ensures d.CallRaised? <==> !(3 <= |args| <= 4)
    ensures d.CallRaised? ==> d.error == TypeError
    ensures !d.CallRaised? ==> d == Posted(Post(WebhookUrl(backend), Envelope(args, now)))
  {
    var bound := Bind(Notifier, args);
    if bound.Failure? {
      return CallRaised(bound.error);
    }
    var webhookUrl := Show(backend) + "/facefusion-deepfake/webhook";
    var params := bound.value;
    assert Notifier.params[0] in params && Notifier.params[1] in params;
    assert Notifier.params[2] in params && Notifier.params[3] in params;
    assert params[UserId] == args[0] && params[JobId] == args[1] && params[Status] == args[2];
    assert params[OutputUrl] == if |args| == 4 then args[3] else PyNone;
    var fields := MessageFields(params);
    var message := Dump(MessageModel(now), fields);
    EnvelopeOfFields(args, now, fields);
    d := Posted(Post(webhookUrl, message));
  }

  /** Of the model's defaults only created_at, and output_url when not given, reach the body. */
  lemma EnvelopeKeepsArguments(args: seq<PyValue>, now: string)
    requires 3 <= |args| <= 4
    ensures Envelope(args, now).Keys == MessageModel(now).Keys
    ensures Envelope(args, now)[UserId] == args[0] && Envelope(args, now)[JobId] == args[1]
    ensures Envelope(args, now)[Status] == args[2] && Envelope(args, now)[CreatedAt] == PyStr(now)
    ensures Envelope(args, now)[OutputUrl] == if |args| == 4 then args[3] else PyNone
  {
  }
}
