/**
 * facefusion.py, the earlier face-swap endpoint kept in the repository as
 * commented-out code: zip-paired staging and removal, the command line of
 * the batch face-swap run, the upload of its output, its notifier, and the
 * job controller that strings them together.
 */
module Facefusion {
  import opened Common
  import opened FileStore
  import opened Webhook

  /** The staging directory of the controller. */
  const Root := "C:\\Users\\Shadow\\Desktop"

  /** The webhook the controller reports to, fixed in the code. */
  const HookUrl := "https://garfish-cute-typically.ngrok-free.app/deepfake/ff-webhook"

  /** The bucket the output is uploaded to. */
  const BucketName := "magicalcurie"

  function Min(a: int, b: int): int
  {
    if a <= b then a else b
  }

  // ---------------------------------------------------------------------
  // download_and_save_files and remove_files: zip pairing

  /** `zip(uploadcare_uris, file_ids, file_formats)` stops at the shortest list. */
  function ZipLength(uris: seq<string>, ids: seq<Text>, formats: seq<Text>): nat
  {
    Min(|uris|, Min(|ids|, |formats|))
  }

  /**
   * Iteration i of the zip download: a falsy id is skipped, a status other
   * than 200 is only logged, and a transport failure raises.
   */
  function SaveStep(uris: seq<string>, ids: seq<Text>, formats: seq<Text>, root: string,
                    fetch: string -> Response, i: nat): Step
    requires i < ZipLength(uris, ids, formats)
  {
    if !Truthy(ids[i]) then Skip
    else
      match fetch(uris[i])
      case Unreachable => Raise(ConnectionError)
      case Response(status, body) =>
        if status == 200 then Act(Write(StagePath(root, ids[i], formats[i]), body)) else Skip
  }

  function SaveSteps(uris: seq<string>, ids: seq<Text>, formats: seq<Text>, root: string,
                     fetch: string -> Response): (s: seq<Step>)
    ensures |s| == ZipLength(uris, ids, formats)
  {
    seq(ZipLength(uris, ids, formats), i requires 0 <= i < ZipLength(uris, ids, formats) =>
      SaveStep(uris, ids, formats, root, fetch, i))
  }

  method DownloadAndSaveFiles(uris: seq<string>, ids: seq<Text>, formats: seq<Text>, root: string,
                              fetch: string -> Response, fs: FileMap) returns (run: Run)
    ensures run == Perform(fs, SaveSteps(uris, ids, formats, root, fetch))
  {
    ghost var steps := SaveSteps(uris, ids, formats, root, fetch);
    var n := Min(|uris|, Min(|ids|, |formats|));
    var files := fs;
    for i := 0 to n
      invariant forall j :: 0 <= j < i ==> !steps[j].Raise?
      invariant Perform(fs, steps[..i]) == Run(files, None)
    {
      PerformSnoc(fs, steps, i);
      assert steps[i] == SaveStep(uris, ids, formats, root, fetch, i);
      var fileUri, fileId, fileFormat := uris[i], ids[i], formats[i];
      if Truthy(fileId) {
        var filePath := Join(root, FileName(fileId, fileFormat));
        var response := fetch(fileUri);
        match response {
          case Unreachable =>
            PerformRaisesAt(fs, steps, i);
            return Run(files, Some(ConnectionError));
          case Response(status, body) =>
            if status == 200 {
              files := files[filePath := body];
            }
        }
      }
    }
    assert steps[..n] == steps;
    run := Run(files, None);
  }

  /** Iteration i of the zip removal: no truthiness check, a missing file swallowed. */
  function RemoveStep(ids: seq<Text>, formats: seq<Text>, root: string, i: nat): Step
    requires i < Min(|ids|, |formats|)
  {
    Act(Delete(StagePath(root, ids[i], formats[i])))
  }

  function RemoveSteps(ids: seq<Text>, formats: seq<Text>, root: string): (s: seq<Step>)
    ensures |s| == Min(|ids|, |formats|) && DeleteOnly(s)
  {
    seq(Min(|ids|, |formats|), i requires 0 <= i < Min(|ids|, |formats|) => RemoveStep(ids, formats, root, i))
  }

  method RemoveFiles(ids: seq<Text>, formats: seq<Text>, root: string, fs: FileMap) returns (run: Run)
    ensures run == Perform(fs, RemoveSteps(ids, formats, root))
    ensures run == Run(fs - Deleted(RemoveSteps(ids, formats, root)), None)
  {
    ghost var steps := RemoveSteps(ids, formats, root);
    PerformDeletes(fs, steps);
    var n := Min(|ids|, |formats|);
    var files := fs;
    for i := 0 to n
      invariant Perform(fs, steps[..i]) == Run(files, None)
    {
      PerformSnoc(fs, steps, i);
      assert steps[i] == RemoveStep(ids, formats, root, i);
      var filePath := Join(root, FileName(ids[i], formats[i]));
      files := files - {filePath};
    }
    assert steps[..n] == steps;
    run := Run(files, None);
  }

  /**
   * The shortest list decides: an index past it is never visited, and each
   * visited index with a truthy id writes exactly when the download answers 200.
   */
  lemma SaveStepOutcome(uris: seq<string>, ids: seq<Text>, formats: seq<Text>, root: string,
                        fetch: string -> Response, i: nat, status: int, body: Bytes)
    requires i < ZipLength(uris, ids, formats)
    requires fetch(uris[i]) == Response(status, body)
    ensures SaveSteps(uris, ids, formats, root, fetch)[i] ==
      if Truthy(ids[i]) && status == 200 then Act(Write(Join(root, Show(ids[i]) + "." + Show(formats[i])), body))
      else Skip
  {
  }

  /** Every file the download wrote is among the paths the removal deletes. */
  lemma {:induction false} SavedFilesAreRemoved(uris: seq<string>, ids: seq<Text>, formats: seq<Text>, root: string,
                                                fetch: string -> Response)
    ensures Written(SaveSteps(uris, ids, formats, root, fetch)) <= Deleted(RemoveSteps(ids, formats, root))
  {
    var d, r := SaveSteps(uris, ids, formats, root, fetch), RemoveSteps(ids, formats, root);
    forall p | p in Written(d) ensures p in Deleted(r) {
      var j :| 0 <= j < |d| && d[j].Act? && d[j].action.Write? && d[j].action.path == p;
      assert j < Min(|ids|, |formats|);
      assert r[j] == RemoveStep(ids, formats, root, j);
      assert DeletesAt(r, j, p);
    }
  }

  /**
   * Staging then clean-up: the removal never raises, no file the download
   * wrote survives it, and every path neither touches is as it was.
   */
  lemma StagedFilesCleanedUp(uris: seq<string>, ids: seq<Text>, formats: seq<Text>, root: string,
                             fetch: string -> Response, fs: FileMap)
    ensures var d := SaveSteps(uris, ids, formats, root, fetch);
            var r := RemoveSteps(ids, formats, root);
            var final := Perform(Perform(fs, d).files, r);
            && final.error == None
            && (forall p :: p in Written(d) ==> p !in final.files)
            && (forall p :: !Touches(d, p) && !Touches(r, p) ==>
                  (p in final.files <==> p in fs) && (p in fs ==> final.files[p] == fs[p]))
  {
    var d, r := SaveSteps(uris, ids, formats, root, fetch), RemoveSteps(ids, formats, root);
    SavedFilesAreRemoved(uris, ids, formats, root, fetch);
    PerformDeletes(Perform(fs, d).files, r);
    forall p | !Touches(d, p) && !Touches(r, p)
      ensures var final := Perform(Perform(fs, d).files, r).files;
              (p in final <==> p in fs) && (p in fs ==> final[p] == fs[p])
    {
      PerformFrame(fs, d, p);
      PerformFrame(Perform(fs, d).files, r, p);
    }
  }

  /** Calling remove_files twice is the same as calling it once. */
  lemma RemoveFilesIdempotent(ids: seq<Text>, formats: seq<Text>, root: string, fs: FileMap)
    ensures var r := RemoveSteps(ids, formats, root);
            Perform(Perform(fs, r).files, r) == Perform(fs, r)
  {
    CleanupIdempotent(fs, RemoveSteps(ids, formats, root));
  }

  // ---------------------------------------------------------------------
  // run_facefusion: the command line

  /** The batch run's fixed part: interpreter, script, headless flag and the three settings. */
  function Prefix(distance: string, model: string, blend: string): seq<string>
  {
    ["python", "C:\\Users\\Shadow\\facefusion\\run.py", "--headless",
     "--reference-face-distance", distance,
     "--face-enhancer-model", model,
     "--frame-enhancer-blend", blend]
  }

  /** The `-s <path>` pairs of the first n (id, format) pairs, in order. */
  function Sources(ids: seq<Text>, formats: seq<Text>, root: string, n: nat): (r: seq<string>)
    requires n <= |ids| && n <= |formats|
    ensures |r| == 2 * n
    ensures forall k :: 0 <= k < n ==> r[2 * k] == "-s" && r[2 * k + 1] == StagePath(root, ids[k], formats[k])
  {
    if n == 0 then []
    else Sources(ids, formats, root, n - 1) + ["-s", StagePath(root, ids[n - 1], formats[n - 1])]
  }

  /** Python's `s[:-1]`: everything but the last element, and [] for []. */
  function AllButLast<T>(s: seq<T>): seq<T>
  {
    if s == [] then [] else s[..|s| - 1]
  }

  /** The number of source pairs: zip(file_ids[:-1], file_formats[:-1]). */
  function SourceCount(ids: seq<Text>, formats: seq<Text>): nat
  {
    Min(|AllButLast(ids)|, |AllButLast(formats)|)
  }

  /** join(predefined_path, f"{id}.{format}") of the last file, the face-swap target. */
  function TargetPath(ids: seq<Text>, formats: seq<Text>, root: string): Path
    requires |ids| > 0 && |formats| > 0
  {
    StagePath(root, ids[|ids| - 1], formats[|formats| - 1])
  }

  /** The output: a fresh id with the target's format, in the staging directory. */
  function OutputPath(formats: seq<Text>, root: string, outputId: string): Path
    requires |formats| > 0
  {
    Join(root, outputId + "." + Show(formats[|formats| - 1]))
  }

  /**
   * The argument vector; `file_ids[-1]` or `file_formats[-1]` of an empty
   * list raises IndexError.
   */
  function Argv(ids: seq<Text>, formats: seq<Text>, distance: string, model: string, blend: string,
                root: string, outputId: string): Result<seq<string>>
  {
    if |ids| == 0 || |formats| == 0 then Failure(IndexError)
    else
      Success(Prefix(distance, model, blend)
              + Sources(AllButLast(ids), AllButLast(formats), root, SourceCount(ids, formats))
              + ["-t", TargetPath(ids, formats, root), "-o", OutputPath(formats, root, outputId)])
  }

  /** Where the three parts of a concatenation sit in it. */
  lemma ConcatParts<T>(p: seq<T>, src: seq<T>, tail: seq<T>)
    ensures (p + src + tail)[..|p|] == p
    ensures (p + src + tail)[|p| + |src|..] == tail
    ensures forall k :: 0 <= k < |src| ==> (p + src + tail)[|p| + k] == src[k]
  {
  }

  /** The command line can only fail, with IndexError, when a list is empty. */
  lemma ArgvFails(ids: seq<Text>, formats: seq<Text>, distance: string, model: string, blend: string,
                  root: string, outputId: string)
    ensures Argv(ids, formats, distance, model, blend, root, outputId).Failure? <==> |ids| == 0 || |formats| == 0
    ensures Argv(ids, formats, distance, model, blend, root, outputId).Failure? ==>
      Argv(ids, formats, distance, model, blend, root, outputId).error == IndexError
  {
  }

  /**
   * The frame of the command line: the nine fixed words first, and last
   * `-t` with the last file and `-o` with the output, with two words per
   * source file between them.
   */
  lemma ArgvLayout(ids: seq<Text>, formats: seq<Text>, distance: string, model: string, blend: string,
                   root: string, outputId: string)
    requires |ids| > 0 && |formats| > 0
    ensures var a := Argv(ids, formats, distance, model, blend, root, outputId).value;
      var m := SourceCount(ids, formats);
      && |a| == 9 + 2 * m + 4
      && a[..9] == ["python", "C:\\Users\\Shadow\\facefusion\\run.py", "--headless",
                    "--reference-face-distance", distance, "--face-enhancer-model", model,
                    "--frame-enhancer-blend", blend]
      && a[9 + 2 * m..] == ["-t", StagePath(root, ids[|ids| - 1], formats[|formats| - 1]),
                            "-o", Join(root, outputId + "." + Show(formats[|formats| - 1]))]
  {
    var a := Argv(ids, formats, distance, model, blend, root, outputId).value;
    var m := SourceCount(ids, formats);
    var p := Prefix(distance, model, blend);
    var src := Sources(AllButLast(ids), AllButLast(formats), root, m);
    var tail := ["-t", TargetPath(ids, formats, root), "-o", OutputPath(formats, root, outputId)];
    assert a == p + src + tail;
    ConcatParts(p, src, tail);
  }

  /** Between the fixed words and the target: one `-s` pair per file but the last, in input order. */
  lemma ArgvSources(ids: seq<Text>, formats: seq<Text>, distance: string, model: string, blend: string,
                    root: string, outputId: string)
    requires |ids| > 0 && |formats| > 0
    ensures var a := Argv(ids, formats, distance, model, blend, root, outputId).value;
      var m := SourceCount(ids, formats);
      && |a| == 9 + 2 * m + 4
      && forall k :: 0 <= k < m ==> a[9 + 2 * k] == "-s" && a[10 + 2 * k] == StagePath(root, ids[k], formats[k])
  {
    var a := Argv(ids, formats, distance, model, blend, root, outputId).value;
    var m := SourceCount(ids, formats);
    var p := Prefix(distance, model, blend);
    var src := Sources(AllButLast(ids), AllButLast(formats), root, m);
    var tail := ["-t", TargetPath(ids, formats, root), "-o", OutputPath(formats, root, outputId)];
    assert a == p + src + tail;
    ConcatParts(p, src, tail);
    forall k | 0 <= k < m
      ensures a[9 + 2 * k] == "-s" && a[10 + 2 * k] == StagePath(root, ids[k], formats[k])
    {
      assert a[9 + 2 * k] == src[2 * k];
      assert a[9 + (2 * k + 1)] == src[2 * k + 1];
      assert AllButLast(ids)[k] == ids[k] && AllButLast(formats)[k] == formats[k];
    }
  }

  /** `" ".join(words)` */
  function JoinSpace(words: seq<string>): string
    requires |words| > 0
  {
    if |words| == 1 then words[0] else words[0] + " " + JoinSpace(words[1..])
  }

  /** The index of the first space, or |s| if there is none. */
  function FirstSpace(s: string): (k: nat)
    ensures k <= |s|
    ensures forall j :: 0 <= j < k ==> s[j] != ' '
    ensures k < |s| ==> s[k] == ' '
  {
    if s == [] || s[0] == ' ' then 0 else 1 + FirstSpace(s[1..])
  }

  /** `s.split(" ")` */
  function SplitSpace(s: string): seq<string>
    decreases |s|
  {
    var k := FirstSpace(s);
    if k == |s| then [s] else [s[..k]] + SplitSpace(s[k + 1..])
  }

  /** The shell line: `"conda activate facefusion && " + " ".join(run_command)`. */
  function ShellCommand(argv: seq<string>): string
    requires |argv| > 0
  {
    "conda activate facefusion && " + JoinSpace(argv)
  }

  /** A word without spaces ends at its first space. */
  lemma FirstSpaceAfterWord(w: string, rest: string)
    requires ' ' !in w
    ensures FirstSpace(w + " " + rest) == |w|
  {
    var s := w + " " + rest;
    assert s[|w|] == ' ';
    assert forall j :: 0 <= j < |w| ==> s[j] == w[j] && w[j] in w;
  }

  /**
   * Round trip: splitting the joined words at spaces gives them back, as
   * long as no word is empty or holds a space, so each argument reaches the
   * shell as one word.
   */
  lemma {:induction false} SplitJoin(words: seq<string>)
    requires |words| > 0
    requires forall i :: 0 <= i < |words| ==> ' ' !in words[i]
    ensures SplitSpace(JoinSpace(words)) == words
    decreases |words|
  {
    if |words| == 1 {
      assert FirstSpace(words[0]) == |words[0]|;
    } else {
      var w, rest := words[0], JoinSpace(words[1..]);
      FirstSpaceAfterWord(w, rest);
      var s := w + " " + rest;
      assert s[..|w|] == w;
      assert s[|w| + 1..] == rest;
      SplitJoin(words[1..]);
      assert [w] + words[1..] == words;
    }
  }

  /** The shell line starts with the environment activation and then the command line. */
  lemma ShellCommandShape(argv: seq<string>)
    requires |argv| > 0
    requires forall i :: 0 <= i < |argv| ==> ' ' !in argv[i]
    ensures var c := ShellCommand(argv);
            c[..29] == "conda activate facefusion && " && SplitSpace(c[29..]) == argv
  {
    var c := ShellCommand(argv);
    assert c[29..] == JoinSpace(argv);
    SplitJoin(argv);
  }

  /**
   * run_facefusion. The command is built by a loop that extends the list;
   * `exit` is the status the shell returns (the run itself is not modelled)
   * and `produced` the output file the run leaves behind when it succeeds.
   * A face enhancer model that is not a string makes `" ".join` raise.
   * Returns the shell line, when it got that far, and the output path.
   */
  method RunFacefusion(ids: seq<Text>, formats: seq<Text>, distance: string, model: Text, blend: string,
                       root: string, outputId: string, exit: int, produced: Bytes, fs: FileMap)
    returns (command: Option<string>, result: Result<Path>, files: FileMap)
    ensures var argv := Argv(ids, formats, distance, Show(model), blend, root, outputId);
      && (argv.Failure? ==> command == None && result == Failure(IndexError) && files == fs)
      && (argv.Success? && model.None? ==> command == None && result == Failure(TypeError) && files == fs)
      && (argv.Success? && model.Some? ==> command == Some(ShellCommand(argv.value)))
      && (argv.Success? && model.Some? && exit != 0 ==> result == Failure(CalledProcessError(exit)) && files == fs)
      && (argv.Success? && model.Some? && exit == 0 ==>
            result == Success(OutputPath(formats, root, outputId)) &&
            files == fs[OutputPath(formats, root, outputId) := produced])
  {
    files := fs;
    var runCommand := Prefix(distance, Show(model), blend);
    var sourceIds, sourceFormats := AllButLast(ids), AllButLast(formats);
    var n := Min(|sourceIds|, |sourceFormats|);
    for k := 0 to n
      invariant runCommand == Prefix(distance, Show(model), blend) + Sources(sourceIds, sourceFormats, root, k)
    {
      var sourcePath := Join(root, FileName(sourceIds[k], sourceFormats[k]));
      runCommand := runCommand + ["-s", sourcePath];
    }
    if |ids| == 0 || |formats| == 0 {
      return None, Failure(IndexError), files;
    }
    var targetPath := Join(root, FileName(ids[|ids| - 1], formats[|formats| - 1]));
    var outputPath := Join(root, outputId + "." + Show(formats[|formats| - 1]));
    runCommand := runCommand + ["-t", targetPath, "-o", outputPath];
    if model.None? {
      return None, Failure(TypeError), files;
    }
    command := Some(ShellCommand(runCommand));
    if exit != 0 {
      return command, Failure(CalledProcessError(exit)), files;
    }
    files := files[outputPath := produced];
    result := Success(outputPath);
  }

  // ---------------------------------------------------------------------
  // upload_file_to_s3

  /** f's3://magicalcurie/{output_path}' */
  function S3Uri(path: Path): string
  {
    "s3://" + BucketName + "/" + path
  }

  /**
   * The local file is read (missing: FileNotFoundError), put in the bucket
   * under its local path as key, then removed; `uploadError` is the failure
   * of the transfer itself, if any, which leaves the local file in place.
   */
  method UploadFileToS3(path: Path, uploadError: Option<PyError>, fs: FileMap, bucket: Bucket)
    returns (result: Result<string>, files: FileMap, objects: Bucket)
    ensures path !in fs ==> result == Failure(FileNotFoundError) && files == fs && objects == bucket
    ensures path in fs && uploadError.Some? ==> result == Failure(uploadError.value) && files == fs && objects == bucket
    ensures path in fs && uploadError.None? ==>
      result == Success(S3Uri(path)) && files == fs - {path} && objects == bucket[path := fs[path]]
  {
    files, objects := fs, bucket;
    if path !in fs {
      return Failure(FileNotFoundError), files, objects;
    }
    var data := fs[path];
    if uploadError.Some? {
      return Failure(uploadError.value), files, objects;
    }
    objects := objects[path := data];
    var s3Uri := "s3://magicalcurie/" + path;
    assert s3Uri == S3Uri(path);
    files := files - {path};
    result := Success(s3Uri);
  }

  /** The URI names the bucket and, after its prefix, the key that holds the uploaded bytes. */
  lemma S3UriNamesObject(path: Path, fs: FileMap, bucket: Bucket)
    requires path in fs
    ensures var u := S3Uri(path);
            u[..18] == "s3://magicalcurie/" && u[18..] in bucket[path := fs[path]] &&
            bucket[path := fs[path]][u[18..]] == fs[path]
  {
    assert S3Uri(path)[18..] == path;
  }

  // ---------------------------------------------------------------------
  // send_webhook_acknowledgment

  /** The notifier's parameters and the fields of this file's Message model. */
  datatype Key =
    | UserId | Status | UploadcareUris | CreatedAt | MessageId
    | ReferenceFaceDistance | FaceEnhancerModel | FrameEnhancerBlend | S3UriField | WebhookUrl

  /** (user_id, message_id, status, webhook_url, s3_uri=None) */
  const Notifier := Signature([UserId, MessageId, Status, WebhookUrl, S3UriField], 4)

  /**
   * The Message model's fields and defaults; user_id has no default, and
   * since every call supplies it the None here never reaches a body.
   */
  function MessageModel(now: string): map<Key, PyValue>
  {
    map[
      UserId := PyNone, Status := PyNone, UploadcareUris := PyNone, CreatedAt := PyStr(now),
      MessageId := PyNone, ReferenceFaceDistance := PyNone, FaceEnhancerModel := PyNone,
      FrameEnhancerBlend := PyNone, S3UriField := PyNone]
  }

  /** The message_fields dictionary: three fields always, s3_uri only when it is not None. */
  method MessageFields(params: map<Key, PyValue>) returns (fields: map<Key, PyValue>)
    requires {UserId, MessageId, Status, S3UriField} <= params.Keys
    ensures fields.Keys == {UserId, MessageId, Status} + (if params[S3UriField] != PyNone then {S3UriField} else {})
    ensures forall k :: k in fields ==> fields[k] == params[k]
  {
    fields := map[UserId := params[UserId], MessageId := params[MessageId], Status := params[Status]];
    if params[S3UriField] != PyNone {
      fields := fields[S3UriField := params[S3UriField]];
    }
  }

  /** The body posted for a call with four or five positional arguments, built at time `now`. */
  function Envelope(args: seq<PyValue>, now: string): map<Key, PyValue>
    requires 4 <= |args| <= 5
  {
    MessageModel(now)[UserId := args[0]][MessageId := args[1]][Status := args[2]]
      [S3UriField := if |args| == 5 then args[4] else PyNone]
  }

  /** Dumping the dictionary built from the bound parameters gives the envelope. */
  lemma EnvelopeOfFields(args: seq<PyValue>, now: string, fields: map<Key, PyValue>)
    requires 4 <= |args| <= 5
    requires fields.Keys == {UserId, MessageId, Status} + (if |args| == 5 && args[4] != PyNone then {S3UriField} else {})
    requires UserId in fields && fields[UserId] == args[0]
    requires MessageId in fields && fields[MessageId] == args[1]
    requires Status in fields && fields[Status] == args[2]
    requires S3UriField in fields ==> fields[S3UriField] == args[4]
    ensures Dump(MessageModel(now), fields) == Envelope(args, now)
  {
    var m, e := Dump(MessageModel(now), fields), Envelope(args, now);
    assert m.Keys == e.Keys;
    forall k | k in m ensures m[k] == e[k] {
      match k
      case UserId =>
      case MessageId =>
      case Status =>
      case S3UriField =>
      case UploadcareUris | CreatedAt | ReferenceFaceDistance | FaceEnhancerModel | FrameEnhancerBlend =>
        assert k !in fields;
      case WebhookUrl => assert false;
    }
  }

  /**
   * A call `send_webhook_acknowledgment(*args)`: four or five arguments
   * post the envelope to the fourth, a fourth that is not a string makes
   * the post raise, which is swallowed; only a wrong number of arguments
   * raises, at the call.
   */
  method SendWebhookAcknowledgment(args: seq<PyValue>, now: string) returns (d: Delivery<Key>)
    ensures d.CallRaised? <==> !(4 <= |args| <= 5)
    ensures d.CallRaised? ==> d.error == TypeError
    ensures d.Posted? <==> 4 <= |args| <= 5 && args[3].PyStr?
    ensures d.Posted? ==> d.post == Post(args[3].s, Envelope(args, now))
  {
    var bound := Bind(Notifier, args);
    if bound.Failure? {
      return CallRaised(bound.error);
    }
    var params := bound.value;
    assert Notifier.params[0] in params && Notifier.params[1] in params && Notifier.params[2] in params;
    assert Notifier.params[3] in params && Notifier.params[4] in params;
    assert params[UserId] == args[0] && params[MessageId] == args[1] && params[Status] == args[2];
    assert params[WebhookUrl] == args[3];
    assert params[S3UriField] == if |args| == 5 then args[4] else PyNone;
    var fields := MessageFields(params);
    var message := Dump(MessageModel(now), fields);
    EnvelopeOfFields(args, now, fields);
    match params[WebhookUrl] {
      case PyStr(url) => d := Posted(Post(url, message));
      case _ => d := Swallowed;
    }
  }

  // ---------------------------------------------------------------------
  // generate_deepfake

  /** The status notification the controller sends, with the s3 URI when there is one. */
  function Notice(userId: PyValue, messageId: PyValue, status: string, s3Uri: Option<string>, now: string): Delivery<Key>
  {
    var args := [userId, messageId, PyStr(status), PyStr(HookUrl)] +
                (if s3Uri.Some? then [PyStr(s3Uri.value)] else []);
    Posted(Post(HookUrl, Envelope(args, now)))
  }

  /** Whether the job gets through staging, the run and the upload. */
  predicate Succeeds(uris: seq<string>, ids: seq<Text>, formats: seq<Text>, model: Text, exit: int,
                     uploadError: Option<PyError>, fetch: string -> Response, fs: FileMap)
  {
    && Perform(fs, SaveSteps(uris, ids, formats, Root, fetch)).error == None
    && |ids| > 0 && |formats| > 0 && model.Some? && exit == 0 && uploadError.None?
  }

  /** The disk after staging, the run and the upload, as far as they get. */
  function AfterAttempt(uris: seq<string>, ids: seq<Text>, formats: seq<Text>, model: Text, outputId: string, exit: int,
                        produced: Bytes, uploadError: Option<PyError>, fetch: string -> Response, fs: FileMap): FileMap
  {
    var staged := Perform(fs, SaveSteps(uris, ids, formats, Root, fetch));
    if staged.error.Some? || |ids| == 0 || |formats| == 0 || model.None? || exit != 0 then staged.files
    else
      var out := OutputPath(formats, Root, outputId);
      if uploadError.Some? then staged.files[out := produced]
      else staged.files[out := produced] - {out}
  }

  /**
   * The body of the controller's try: staging, the run and the upload. The
   * s3 URI comes back exactly when all three succeed; the output file then
   * moves from the disk to the bucket, and the bucket is untouched otherwise.
   */
  method AttemptJob(uris: seq<string>, ids: seq<Text>, formats: seq<Text>, distance: string, model: Text, blend: string,
                    outputId: string, exit: int, produced: Bytes, uploadError: Option<PyError>,
                    fetch: string -> Response, fs: FileMap, bucket: Bucket)
    returns (uploaded: Option<string>, files: FileMap, objects: Bucket)
    ensures uploaded.Some? <==> Succeeds(uris, ids, formats, model, exit, uploadError, fetch, fs)
    ensures uploaded.Some? ==>
      uploaded.value == S3Uri(OutputPath(formats, Root, outputId)) &&
      objects == bucket[OutputPath(formats, Root, outputId) := produced]
    ensures uploaded.None? ==> objects == bucket
    ensures files == AfterAttempt(uris, ids, formats, model, outputId, exit, produced, uploadError, fetch, fs)
  {
    uploaded, objects := None, bucket;
    var staged := DownloadAndSaveFiles(uris, ids, formats, Root, fetch, fs);
    files := staged.files;
    if staged.error.Some? {
      return;
    }
    var command, output, afterRun := RunFacefusion(ids, formats, distance, model, blend, Root, outputId, exit, produced, files);
    ArgvFails(ids, formats, distance, Show(model), blend, Root, outputId);
    files := afterRun;
    if output.Failure? {
      return;
    }
    var s3Uri, afterUpload, bucketAfter := UploadFileToS3(output.value, uploadError, files, objects);
    files, objects := afterUpload, bucketAfter;
    if s3Uri.Success? {
      uploaded := Some(s3Uri.value);
    }
  }

  /**
   * The controller: "in progress" first; then staging, the run and the
   * upload inside one try; "completed" with the s3 URI when they all
   * succeed, "failed" without it otherwise; then the staged files are
   * removed. The notifier and the removal never raise, so neither does the
   * controller. Inputs are the request's fields, the fresh output id, the
   * shell's exit status, the run's output bytes, the transfer's failure,
   * the time, the download oracle, the disk and the bucket.
   */
  method GenerateDeepfake(userId: PyValue, messageId: PyValue, uris: seq<string>, ids: seq<Text>, formats: seq<Text>,
                          distance: string, model: Text, blend: string, outputId: string, exit: int,
                          produced: Bytes, uploadError: Option<PyError>, now: string,
                          fetch: string -> Response, fs: FileMap, bucket: Bucket)
    returns (notices: seq<Delivery<Key>>, files: FileMap, objects: Bucket)
    ensures var ok := Succeeds(uris, ids, formats, model, exit, uploadError, fetch, fs);
      && |notices| == 2
      && notices[0] == Notice(userId, messageId, "in progress", None, now)
      && (ok ==> notices[1] == Notice(userId, messageId, "completed", Some(S3Uri(OutputPath(formats, Root, outputId))), now))
      && (!ok ==> notices[1] == Notice(userId, messageId, "failed", None, now))
    ensures files == AfterAttempt(uris, ids, formats, model, outputId, exit, produced, uploadError, fetch, fs)
                     - Deleted(RemoveSteps(ids, formats, Root))
    ensures Succeeds(uris, ids, formats, model, exit, uploadError, fetch, fs) ==>
      objects == bucket[OutputPath(formats, Root, outputId) := produced]
    ensures !Succeeds(uris, ids, formats, model, exit, uploadError, fetch, fs) ==> objects == bucket
  {
    var webhookUrl := HookUrl;
    var first := SendWebhookAcknowledgment([userId, messageId, PyStr("in progress"), PyStr(webhookUrl)], now);
    notices := [first];
    var uploaded;
    uploaded, files, objects := AttemptJob(uris, ids, formats, distance, model, blend, outputId, exit, produced,
                                           uploadError, fetch, fs, bucket);
    var last;
    if uploaded.Some? {
      last := SendWebhookAcknowledgment([userId, messageId, PyStr("completed"), PyStr(webhookUrl), PyStr(uploaded.value)], now);
    } else {
      last := SendWebhookAcknowledgment([userId, messageId, PyStr("failed"), PyStr(webhookUrl)], now);
    }
    notices := notices + [last];
    var removed := RemoveFiles(ids, formats, Root, files);
    files := removed.files;
  }

  /**
   * What the controller leaves on disk: none of the staged files, and the
   * run's output only when the upload failed after a successful run (and the
   * output path is not one of the staged paths) - it is then never removed.
   */
  lemma ControllerDisk(uris: seq<string>, ids: seq<Text>, formats: seq<Text>, model: Text, outputId: string, exit: int,
                       produced: Bytes, uploadError: Option<PyError>, fetch: string -> Response, fs: FileMap)
    ensures var final := AfterAttempt(uris, ids, formats, model, outputId, exit, produced, uploadError, fetch, fs)
                         - Deleted(RemoveSteps(ids, formats, Root));
      && (forall p :: p in Written(Executed(SaveSteps(uris, ids, formats, Root, fetch))) ==> p !in final)
      && (Succeeds(uris, ids, formats, model, exit, uploadError, fetch, fs) ==> OutputPath(formats, Root, outputId) !in final)
      && (Perform(fs, SaveSteps(uris, ids, formats, Root, fetch)).error == None &&
          |ids| > 0 && |formats| > 0 && model.Some? && exit == 0 && uploadError.Some? &&
          OutputPath(formats, Root, outputId) !in Deleted(RemoveSteps(ids, formats, Root)) ==>
            OutputPath(formats, Root, outputId) in final && final[OutputPath(formats, Root, outputId)] == produced)
  {
    var d, r := SaveSteps(uris, ids, formats, Root, fetch), RemoveSteps(ids, formats, Root);
    SavedFilesAreRemoved(uris, ids, formats, Root, fetch);
    var e := Executed(d);
    forall p | p in Written(e) ensures p in Written(d) {
      var j :| 0 <= j < |e| && e[j].Act? && e[j].action.Write? && e[j].action.path == p;
      assert e[j] == d[j];
    }
  }
}
