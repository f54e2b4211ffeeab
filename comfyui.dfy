/**
 * comfyui.py: the image generation endpoint. It queues a workflow with the
 * local generation server, waits on the server's event stream for the end
 * of the run, reads the run's history and fetches its images, and the
 * request handler strings staging, generation, upload, notification and
 * clean-up together.
 */
module Comfy {
  import opened Common
  import opened FileStore
  import opened Webhook
  import ComfyUtils

  /** The generation server. */
  const ServerAddress := "127.0.0.1:8188"

  /** Where the handler stages the reference images. */
  const Root := "/workspace/images/"

  /** "http://{}/prompt".format(server_address) */
  const PromptUrl := "http://" + ServerAddress + "/prompt"

  /** "ws://{}/ws?clientId={}".format(server_address, client_id) */
  function WsUrl(clientId: string): string
  {
    "ws://" + ServerAddress + "/ws?clientId=" + clientId
  }

  /** f"{os.getenv('COMFYUI_BACKEND_URL')}/image-generation/webhook" */
  function HookUrl(backend: Text): string
  {
    Show(backend) + "/image-generation/webhook"
  }

  /** A key of a decoded JSON object: absent, or present with its value. */
  datatype Lookup<T> = Missing | Has(value: T)

  // ---------------------------------------------------------------------
  // queue_prompt

  /** The JSON object queue_prompt posts: {"prompt": prompt, "client_id": client_id}. */
  datatype Payload = Payload(prompt: string, clientId: string)

  /** The server's answer to the queued prompt: no answer, or a JSON object that may hold "prompt_id". */
  datatype QueueReply = Unanswered | Answered(promptId: Lookup<string>)

  // ---------------------------------------------------------------------
  // The event stream

  /** The JSON of an "executing" event's "data" object. */
  datatype EventData = EventData(node: Lookup<Option<string>>, promptId: Lookup<string>)

  /** A decoded text frame: text that is not JSON, or an object with optional "type" and "data". */
  datatype Message = Malformed | Event(kind: Lookup<string>, data: Lookup<EventData>)

  /** What `ws.recv()` returns: binary previews, or text. */
  datatype Frame = BinaryFrame | TextFrame(message: Message)

  /** What one frame does to the receive loop. */
  datatype Verdict = Continue | Terminal | Fails(error: PyError)

  /**
   * The loop's test of one frame: binary frames are skipped; undecodable
   * text, or a missing key the code reads, raises; only an "executing"
   * event with a null node and the submitted prompt id ends the loop. The
   * prompt id is read only once the node is null.
   */
  function FrameVerdict(f: Frame, promptId: string): Verdict
  {
    match f
    case BinaryFrame => Continue
    case TextFrame(Malformed) => Fails(JSONDecodeError)
    case TextFrame(Event(kind, data)) =>
      match kind
      case Missing => Fails(KeyError)
      case Has(k) =>
        if k != "executing" then Continue
        else
          match data
          case Missing => Fails(KeyError)
          case Has(d) =>
            match d.node
            case Missing => Fails(KeyError)
            case Has(Some(_)) => Continue
            case Has(None) =>
              match d.promptId
              case Missing => Fails(KeyError)
              case Has(p) => if p == promptId then Terminal else Continue
  }

  /** How the receive loop ends: at a terminal frame, by raising at a frame, or never. */
  datatype Wait = Done(at: nat) | Broke(at: nat, error: PyError) | Blocked

  /**
   * The receive loop from frame i on. There is no timeout: once the frames
   * run out without a terminal one, `ws.recv()` waits for ever.
   */
  function AwaitFrom(frames: seq<Frame>, promptId: string, i: nat): Wait
    requires i <= |frames|
    decreases |frames| - i
  {
    if i == |frames| then Blocked
    else
      match FrameVerdict(frames[i], promptId)
      case Continue => AwaitFrom(frames, promptId, i + 1)
      case Terminal => Done(i)
      case Fails(e) => Broke(i, e)
  }

  function Await(frames: seq<Frame>, promptId: string): Wait
  {
    AwaitFrom(frames, promptId, 0)
  }

  /** The `while True` loop over `ws.recv()`. */
  method AwaitExecution(frames: seq<Frame>, promptId: string) returns (w: Wait)
    ensures w == Await(frames, promptId)
  {
    var i := 0;
    while i < |frames|
      invariant i <= |frames|
      invariant AwaitFrom(frames, promptId, i) == Await(frames, promptId)
      decreases |frames| - i
    {
      var out := frames[i];
      if out.TextFrame? {
        var message := out.message;
        if message.Malformed? {
          return Broke(i, JSONDecodeError);
        }
        if message.kind.Missing? {
          return Broke(i, KeyError);
        }
        if message.kind.value == "executing" {
          if message.data.Missing? {
            return Broke(i, KeyError);
          }
          var data := message.data.value;
          if data.node.Missing? {
            return Broke(i, KeyError);
          }
          if data.node.value.None? {
            if data.promptId.Missing? {
              return Broke(i, KeyError);
            }
            if data.promptId.value == promptId {
              return Done(i);
            }
          }
        }
      }
      i := i + 1;
    }
    w := Blocked;
  }

  /** The one frame that ends the loop: {"type": "executing", "data": {"node": null, "prompt_id": <id>}}. */
  lemma TerminalFrameIff(f: Frame, promptId: string)
    ensures FrameVerdict(f, promptId) == Terminal <==>
      f == TextFrame(Event(Has("executing"), Has(EventData(Has(None), Has(promptId)))))
    ensures f == BinaryFrame ==> FrameVerdict(f, promptId) == Continue
    ensures f.TextFrame? && f.message.Event? && f.message.kind.Has? && f.message.kind.value != "executing" ==>
      FrameVerdict(f, promptId) == Continue
  {
    if FrameVerdict(f, promptId) == Terminal {
      var d := f.message.data.value;
      assert d.node == Has(None) && d.promptId == Has(promptId);
      assert d == EventData(Has(None), Has(promptId));
    }
  }

  /** Executing events of another node, or of another prompt, leave the loop running. */
  lemma ForeignEventsContinue(node: Option<string>, other: string, promptId: string)
    ensures node.Some? ==>
      FrameVerdict(TextFrame(Event(Has("executing"), Has(EventData(Has(node), Has(other))))), promptId) == Continue
    ensures other != promptId ==>
      FrameVerdict(TextFrame(Event(Has("executing"), Has(EventData(Has(node), Has(other))))), promptId) == Continue
  {
  }

  /** Frames that leave the loop running are passed over. */
  lemma {:induction false} SkipContinues(frames: seq<Frame>, promptId: string, i: nat, k: nat)
    requires i <= k <= |frames|
    requires forall j :: i <= j < k ==> FrameVerdict(frames[j], promptId) == Continue
    ensures AwaitFrom(frames, promptId, i) == AwaitFrom(frames, promptId, k)
    decreases k - i
  {
    if i < k {
      SkipContinues(frames, promptId, i + 1, k);
    }
  }

  /** The loop stops at the first frame that does not let it continue, and only there. */
  lemma {:induction false} AwaitFromShape(frames: seq<Frame>, promptId: string, i: nat)
    requires i <= |frames|
    ensures AwaitFrom(frames, promptId, i).Done? ==>
      var at := AwaitFrom(frames, promptId, i).at;
      && i <= at < |frames| && FrameVerdict(frames[at], promptId) == Terminal
      && forall j :: i <= j < at ==> FrameVerdict(frames[j], promptId) == Continue
    ensures AwaitFrom(frames, promptId, i).Broke? ==>
      var at := AwaitFrom(frames, promptId, i).at;
      && i <= at < |frames| && FrameVerdict(frames[at], promptId) == Fails(AwaitFrom(frames, promptId, i).error)
      && forall j :: i <= j < at ==> FrameVerdict(frames[j], promptId) == Continue
    ensures AwaitFrom(frames, promptId, i).Blocked? ==>
      forall j :: i <= j < |frames| ==> FrameVerdict(frames[j], promptId) == Continue
    decreases |frames| - i
  {
    if i < |frames| && FrameVerdict(frames[i], promptId) == Continue {
      AwaitFromShape(frames, promptId, i + 1);
    }
  }

  /**
   * The loop ends at frame `at` exactly when that frame is terminal and
   * every earlier frame lets the loop continue.
   */
  lemma AwaitDoneIff(frames: seq<Frame>, promptId: string, at: nat)
    ensures Await(frames, promptId) == Done(at) <==>
      && at < |frames| && FrameVerdict(frames[at], promptId) == Terminal
      && forall j :: 0 <= j < at ==> FrameVerdict(frames[j], promptId) == Continue
  {
    AwaitFromShape(frames, promptId, 0);
    if at < |frames| && forall j :: 0 <= j < at ==> FrameVerdict(frames[j], promptId) == Continue {
      SkipContinues(frames, promptId, 0, at);
    }
  }

  /** The loop never ends exactly when every frame lets it continue: no frame is terminal. */
  lemma AwaitBlockedIff(frames: seq<Frame>, promptId: string)
    ensures Await(frames, promptId) == Blocked <==>
      forall j :: 0 <= j < |frames| ==> FrameVerdict(frames[j], promptId) == Continue
  {
    AwaitFromShape(frames, promptId, 0);
    if forall j :: 0 <= j < |frames| ==> FrameVerdict(frames[j], promptId) == Continue {
      SkipContinues(frames, promptId, 0, |frames|);
    }
  }

  /** Frames after the one that ends the loop are never read. */
  lemma LaterFramesIgnored(frames: seq<Frame>, more: seq<Frame>, promptId: string)
    requires !Await(frames, promptId).Blocked?
    ensures Await(frames + more, promptId) == Await(frames, promptId)
  {
    AwaitFromShape(frames, promptId, 0);
    var at := Await(frames, promptId).at;
    var all := frames + more;
    assert forall j :: 0 <= j <= at ==> all[j] == frames[j];
    SkipContinues(all, promptId, 0, at);
    SkipContinues(frames, promptId, 0, at);
  }

  // ---------------------------------------------------------------------
  // The history manifest

  /** An entry of a node's "images" list: three keys, each possibly absent. */
  datatype ImageRef = ImageRef(filename: Lookup<string>, subfolder: Lookup<string>, folderType: Lookup<string>)

  /** One output node, in the order the manifest lists them; "images" may be absent. */
  datatype NodeOutput = NodeOutput(images: Lookup<seq<ImageRef>>)

  datatype RunStatus = RunStatus(statusStr: Lookup<string>, completed: Lookup<bool>)

  /** The history of one prompt. */
  datatype History = History(status: Lookup<RunStatus>, outputs: Lookup<seq<NodeOutput>>)

  /** `get_history(prompt_id)`: unreadable (request or JSON failure), or a document that may hold the prompt. */
  datatype HistoryReply = Unreadable | Histories(entry: Lookup<History>)

  /** The query of one `get_image` call: filename, subfolder and type. */
  datatype ViewQuery = ViewQuery(filename: string, subfolder: string, folderType: string)

  /** The images a node contributes: its "images" list, or nothing without one. */
  function ImagesOf(o: NodeOutput): seq<ImageRef>
  {
    match o.images
    case Missing => []
    case Has(l) => l
  }

  /** The image entries of the output nodes, in node order and then list order. */
  function Entries(outs: seq<NodeOutput>): seq<ImageRef>
  {
    if outs == [] then [] else Entries(outs[..|outs| - 1]) + ImagesOf(outs[|outs| - 1])
  }

  lemma {:induction false} EntriesAppend(a: seq<NodeOutput>, b: seq<NodeOutput>)
    ensures Entries(a + b) == Entries(a) + Entries(b)
    decreases |b|
  {
    if b == [] {
      assert a + b == a;
    } else {
      var init, last := b[..|b| - 1], b[|b| - 1];
      SnocSplit(a, b);
      assert Entries(a + b) == Entries(a + init) + ImagesOf(last);
      EntriesAppend(a, init);
      assert Entries(b) == Entries(init) + ImagesOf(last);
    }
  }

  /** The last element of a + b, and what comes before it, when b is not empty. */
  lemma SnocSplit<T>(a: seq<T>, b: seq<T>)
    requires |b| > 0
    ensures (a + b)[..|a + b| - 1] == a + b[..|b| - 1]
    ensures (a + b)[|a + b| - 1] == b[|b| - 1]
  {
  }

  /** a + b regrouped around position k of b. */
  lemma SplitAfter<T>(a: seq<T>, b: seq<T>, k: nat)
    requires k <= |b|
    ensures a + b == (a + b[..k]) + b[k..]
  {
    assert b == b[..k] + b[k..];
  }

  /** The query of an entry, if it has all three keys. */
  function Query(r: ImageRef): Option<ViewQuery>
  {
    if r.filename.Missing? || r.subfolder.Missing? || r.folderType.Missing? then None
    else Some(ViewQuery(r.filename.value, r.subfolder.value, r.folderType.value))
  }

  /** An entry that can be fetched: all its keys present and the `/view` request answered. */
  predicate Fetchable(r: ImageRef, view: ViewQuery -> Option<Bytes>)
  {
    Query(r).Some? && view(Query(r).value).Some?
  }

  /**
   * The image bytes of the entries in order; any missing key or failed
   * request makes the whole walk fail.
   */
  function FetchAll(refs: seq<ImageRef>, view: ViewQuery -> Option<Bytes>): (r: Option<seq<Bytes>>)
    ensures r.Some? <==> forall k :: 0 <= k < |refs| ==> Fetchable(refs[k], view)
    ensures r.Some? ==> |r.value| == |refs|
    ensures r.Some? ==> forall k :: 0 <= k < |refs| ==> r.value[k] == view(Query(refs[k]).value).value
    decreases |refs|
  {
    if refs == [] then Some([])
    else
      var init := refs[..|refs| - 1];
      match FetchAll(init, view)
      case None => None
      case Some(prev) =>
        var last := refs[|refs| - 1];
        match Query(last)
        case None => None
        case Some(q) =>
          match view(q)
          case None => None
          case Some(b) => Some(prev + [b])
  }

  /**
   * The manifest walk: images are collected only when the status string is
   * "success" and `completed` is true; any failure on the way, or any other
   * status, gives None.
   */
  function Extract(reply: HistoryReply, view: ViewQuery -> Option<Bytes>): Option<seq<Bytes>>
  {
    match reply
    case Unreadable => None
    case Histories(Missing) => None
    case Histories(Has(h)) =>
      match h.status
      case Missing => None
      case Has(st) =>
        if st.statusStr.Missing? || st.completed.Missing? then None
        else if st.statusStr.value == "success" && st.completed.value then
          match h.outputs
          case Missing => None
          case Has(outs) => FetchAll(Entries(outs), view)
        else None
  }

  /**
   * The walk yields images exactly for a successful, completed run whose
   * every entry can be fetched, and then one result per entry, in order.
   */
  lemma ExtractIff(reply: HistoryReply, view: ViewQuery -> Option<Bytes>)
    ensures Extract(reply, view).Some? <==>
      && reply.Histories? && reply.entry.Has?
      && reply.entry.value.status == Has(RunStatus(Has("success"), Has(true)))
      && reply.entry.value.outputs.Has?
      && forall k :: 0 <= k < |Entries(reply.entry.value.outputs.value)| ==>
           Fetchable(Entries(reply.entry.value.outputs.value)[k], view)
    ensures Extract(reply, view).Some? ==>
      var refs := Entries(reply.entry.value.outputs.value);
      var images := Extract(reply, view).value;
      |images| == |refs| && forall k :: 0 <= k < |refs| ==> images[k] == view(Query(refs[k]).value).value
  {
  }

  /**
   * The try block of get_images: the manifest walk with its nested loops
   * appending to `raw_images_output`; every exception ends in None.
   */
  method ReadHistory(reply: HistoryReply, view: ViewQuery -> Option<Bytes>) returns (r: Option<seq<Bytes>>)
    ensures r == Extract(reply, view)
  {
    if reply.Unreadable? || reply.entry.Missing? {
      return None;
    }
    var history := reply.entry.value;
    if history.status.Missing? || history.status.value.statusStr.Missing? || history.status.value.completed.Missing? {
      return None;
    }
    var status, completed := history.status.value.statusStr.value, history.status.value.completed.value;
    if !(status == "success" && completed) {
      return None;
    }
    if history.outputs.Missing? {
      return None;
    }
    var outs := history.outputs.value;
    var raw: seq<Bytes> := [];
    for i := 0 to |outs|
      invariant FetchAll(Entries(outs[..i]), view) == Some(raw)
    {
      var nodeOutput := outs[i];
      assert outs[..i + 1][..i] == outs[..i];
      assert Entries(outs[..i + 1]) == Entries(outs[..i]) + ImagesOf(nodeOutput);
      if nodeOutput.images.Has? {
        var got := FetchNode(Entries(outs[..i]), nodeOutput.images.value, view, raw);
        if got.None? {
          NodeFails(outs, i, view);
          return None;
        }
        raw := got.value;
      } else {
        assert Entries(outs[..i]) + ImagesOf(nodeOutput) == Entries(outs[..i]);
      }
    }
    assert outs[..|outs|] == outs;
    r := Some(raw);
  }

  /**
   * The inner loop over one node's "images" list: each entry's image is
   * fetched and appended to what the earlier entries gave.
   */
  method FetchNode(ghost done: seq<ImageRef>, images: seq<ImageRef>, view: ViewQuery -> Option<Bytes>,
                   before: seq<Bytes>) returns (r: Option<seq<Bytes>>)
    requires FetchAll(done, view) == Some(before)
    ensures r == FetchAll(done + images, view)
  {
    var raw := before;
    assert done + images[..0] == done;
    for k := 0 to |images|
      invariant FetchAll(done + images[..k], view) == Some(raw)
    {
      var image := images[k];
      assert done + images[..k + 1] == (done + images[..k]) + [image];
      FetchStep(done + images[..k], image, view);
      if image.filename.Missing? || image.subfolder.Missing? || image.folderType.Missing? {
        PrefixFails(done, images, k, view);
        return None;
      }
      var imageData := view(ViewQuery(image.filename.value, image.subfolder.value, image.folderType.value));
      if imageData.None? {
        PrefixFails(done, images, k, view);
        return None;
      }
      raw := raw + [imageData.value];
    }
    assert images[..|images|] == images;
    r := Some(raw);
  }

  /** One more entry: the walk goes on iff the entry can be fetched, and appends its image. */
  lemma FetchStep(prefix: seq<ImageRef>, r: ImageRef, view: ViewQuery -> Option<Bytes>)
    ensures FetchAll(prefix + [r], view) ==
      if FetchAll(prefix, view).None? || !Fetchable(r, view) then None
      else Some(FetchAll(prefix, view).value + [view(Query(r).value).value])
  {
    SnocSplit(prefix, [r]);
  }

  /** A walk whose prefix fails fails as a whole. */
  lemma FetchPrefix(a: seq<ImageRef>, b: seq<ImageRef>, view: ViewQuery -> Option<Bytes>)
    ensures FetchAll(a + b, view).Some? ==> FetchAll(a, view).Some?
  {
    assert forall k :: 0 <= k < |a| ==> (a + b)[k] == a[k];
  }

  /** An entry of a node that cannot be fetched fails the rest of that node. */
  lemma PrefixFails(done: seq<ImageRef>, images: seq<ImageRef>, k: nat, view: ViewQuery -> Option<Bytes>)
    requires k < |images|
    requires FetchAll(done + images[..k + 1], view) == None
    ensures FetchAll(done + images, view) == None
  {
    SplitAfter(done, images, k + 1);
    FetchPrefix(done + images[..k + 1], images[k + 1..], view);
  }

  /** A node whose images cannot all be fetched fails the whole walk. */
  lemma NodeFails(outs: seq<NodeOutput>, i: nat, view: ViewQuery -> Option<Bytes>)
    requires i < |outs|
    requires FetchAll(Entries(outs[..i + 1]), view) == None
    ensures FetchAll(Entries(outs), view) == None
  {
    assert outs == outs[..i + 1] + outs[i + 1..];
    EntriesAppend(outs[..i + 1], outs[i + 1..]);
    FetchPrefix(Entries(outs[..i + 1]), Entries(outs[i + 1..]), view);
  }

  // ---------------------------------------------------------------------
  // get_images

  /** What get_images comes to: it raises, it never returns, or it returns a list or None. */
  datatype Images = Failed(error: PyError) | Hangs | Returned(images: Option<seq<Bytes>>)

  /**
   * get_images: the prompt is queued (outside its try, so a failed request
   * or a reply without "prompt_id" raises), the loop waits for the terminal
   * event (a frame that raises propagates; no terminal event means no return),
   * and the manifest walk decides the result.
   */
  function ImagesOutcome(queue: QueueReply, frames: seq<Frame>, history: HistoryReply,
                         view: ViewQuery -> Option<Bytes>): Images
  {
    match queue
    case Unanswered => Failed(ConnectionError)
    case Answered(Missing) => Failed(KeyError)
    case Answered(Has(promptId)) =>
      match Await(frames, promptId)
      case Blocked => Hangs
      case Broke(_, e) => Failed(e)
      case Done(_) => Returned(Extract(history, view))
  }

  method GetImages(queue: QueueReply, frames: seq<Frame>, history: HistoryReply,
                   view: ViewQuery -> Option<Bytes>) returns (r: Images)
    ensures r == ImagesOutcome(queue, frames, history, view)
  {
    if queue.Unanswered? {
      return Failed(ConnectionError);
    }
    if queue.promptId.Missing? {
      return Failed(KeyError);
    }
    var promptId := queue.promptId.value;
    var w := AwaitExecution(frames, promptId);
    match w {
      case Blocked => return Hangs;
      case Broke(_, e) => return Failed(e);
      case Done(_) =>
        var images := ReadHistory(history, view);
        return Returned(images);
    }
  }

  /** Once the terminal event arrives, get_images never raises: every history failure is None. */
  lemma GetImagesAfterTerminal(queue: QueueReply, frames: seq<Frame>, history: HistoryReply,
                               view: ViewQuery -> Option<Bytes>, at: nat)
    requires queue.Answered? && queue.promptId.Has?
    requires at < |frames| && FrameVerdict(frames[at], queue.promptId.value) == Terminal
    requires forall j :: 0 <= j < at ==> FrameVerdict(frames[j], queue.promptId.value) == Continue
    ensures ImagesOutcome(queue, frames, history, view) == Returned(Extract(history, view))
  {
    AwaitDoneIff(frames, queue.promptId.value, at);
  }

  // ---------------------------------------------------------------------
  // generate

  /** What the handler does that the outside sees, in order. */
  datatype Event =
    | Notified(delivery: Delivery<ComfyUtils.Key>)   // a send_webhook_acknowledgment call
    | Connected(url: string)                          // ws.connect
    | Queued(url: string, payload: Payload)           // the queue_prompt request

  /** How the handler ends: it returns, an exception leaves it, or it never returns. */
  datatype Outcome = Finished | Aborted(error: PyError) | Hung

  /** The try block's result. */
  datatype TryResult = Stuck | Uploaded(s3Uris: seq<string>) | Caught

  /** A status notification with settings_id None, and the URIs only for "completed". */
  function Notice(userId: PyValue, messageId: PyValue, backend: Text, status: string,
                  s3Uris: Option<seq<string>>): Delivery<ComfyUtils.Key>
  {
    var url := HookUrl(backend);
    var args := [userId, messageId, PyNone, PyStr(status), PyStr(url)] +
                (if s3Uris.Some? then [PyList(s3Uris.value)] else []);
    Posted(Post(url, ComfyUtils.Envelope(args)))
  }

  /** get_images returned a non-empty list, so `if images` lets the upload run. */
  predicate HasImages(images: Images)
  {
    images.Returned? && images.images.Some? && |images.images.value| > 0
  }

  /** The images come back as a non-empty list and every one of them is uploaded. */
  predicate Generated(images: Images, encode: Bytes -> Option<Bytes>, transfer: nat -> Option<PyError>)
  {
    HasImages(images) && ComfyUtils.UploadError(images.images.value, encode, transfer).None?
  }

  /**
   * The disk when the try block is left: what staging made of it, and, when
   * the upload ran, without the temporary files it removed and with the one
   * whose transfer raised.
   */
  function AfterTry(staged: Run, images: Images, uuid: nat -> string, encode: Bytes -> Option<Bytes>,
                    transfer: nat -> Option<PyError>): FileMap
  {
    if staged.error.None? && HasImages(images)
    then ComfyUtils.UploadDisk(staged.files, images.images.value, uuid, encode, transfer)
    else staged.files
  }

  /** The bucket when the try block is left: the images the upload got through are in it. */
  function BucketAfterTry(staged: Run, images: Images, uuid: nat -> string, encode: Bytes -> Option<Bytes>,
                          transfer: nat -> Option<PyError>, bucket: Bucket): Bucket
  {
    if staged.error.None? && HasImages(images)
    then ComfyUtils.Uploaded(bucket, images.images.value, uuid, encode,
                             ComfyUtils.FirstFailure(images.images.value, encode, transfer))
    else bucket
  }

  /**
   * The handler's try block: staging, the connection, get_images, the test
   * `if images` (None and [] both raise "GENERATED NO IMAGES"), and the upload.
   */
  method Attempt(workflow: string, uris: seq<string>, ids: seq<Text>, formats: seq<Text>, clientId: string,
                 queue: QueueReply, frames: seq<Frame>, history: HistoryReply, view: ViewQuery -> Option<Bytes>,
                 uuid: nat -> string, encode: Bytes -> Option<Bytes>, transfer: nat -> Option<PyError>, cdn: Text,
                 fetch: string -> Response, fs: FileMap, bucket: Bucket)
    returns (result: TryResult, trail: seq<Event>, files: FileMap, objects: Bucket)
    ensures var staged := Perform(fs, ComfyUtils.SaveImagesSteps(uris, ids, formats, Root, fetch));
      var images := ImagesOutcome(queue, frames, history, view);
      && (staged.error.Some? ==> result == Caught && trail == [])
      && (staged.error.None? ==> trail == [Connected(WsUrl(clientId)), Queued(PromptUrl, Payload(workflow, clientId))])
      && (result == Stuck <==> staged.error.None? && images == Hangs)
      && (result.Uploaded? <==> staged.error.None? && Generated(images, encode, transfer))
      && (result.Uploaded? ==> result.s3Uris == ComfyUtils.CdnUris(cdn, uuid, |images.images.value|))
      && files == AfterTry(staged, images, uuid, encode, transfer)
      && objects == BucketAfterTry(staged, images, uuid, encode, transfer, bucket)
  {
    var staged := ComfyUtils.DownloadAndSaveImages(uris, ids, formats, Root, fetch, fs);
    files, objects, trail := staged.files, bucket, [];
    if staged.error.Some? {
      return Caught, trail, files, objects;
    }
    trail := [Connected(WsUrl(clientId)), Queued(PromptUrl, Payload(workflow, clientId))];
    var images := GetImages(queue, frames, history, view);
    if images.Hangs? {
      return Stuck, trail, files, objects;
    }
    if images.Failed? || images.images.None? || |images.images.value| == 0 {
      return Caught, trail, files, objects;
    }
    var s3Uris, afterUpload, bucketAfter, error :=
      ComfyUtils.UploadImagesToS3(images.images.value, uuid, encode, transfer, cdn, files, bucket);
    files, objects := afterUpload, bucketAfter;
    if error.Some? {
      return Caught, trail, files, objects;
    }
    result := Uploaded(s3Uris);
  }

  /**
   * The handler with its notifier calls made to fit the notifier's
   * signature (settings_id passed as None, status and webhook URL in their
   * places): "in progress" first; then the try block; "completed" with the
   * URIs or "failed"; then remove_images, which may raise IndexError. When
   * get_images never returns, nothing after it happens.
   */
  method Generate(workflow: string, uris: seq<string>, ids: seq<Text>, formats: seq<Text>,
                  messageId: PyValue, userId: PyValue, backend: Text, clientId: string,
                  queue: QueueReply, frames: seq<Frame>, history: HistoryReply, view: ViewQuery -> Option<Bytes>,
                  uuid: nat -> string, encode: Bytes -> Option<Bytes>, transfer: nat -> Option<PyError>, cdn: Text,
                  fetch: string -> Response, fs: FileMap, bucket: Bucket)
    returns (outcome: Outcome, events: seq<Event>, files: FileMap, objects: Bucket)
    ensures var staged := Perform(fs, ComfyUtils.SaveImagesSteps(uris, ids, formats, Root, fetch));
      var images := ImagesOutcome(queue, frames, history, view);
      var ok := staged.error.None? && Generated(images, encode, transfer);
      var removal := ComfyUtils.RemoveImagesSteps(ids, formats, Root);
      && |events| >= 2
      && events[0] == Notified(Notice(userId, messageId, backend, "in progress", None))
      && (staged.error.None? ==>
            |events| >= 3 && events[1] == Connected(WsUrl(clientId)) && events[2] == Queued(PromptUrl, Payload(workflow, clientId)))
      && (outcome == Hung <==> staged.error.None? && images == Hangs)
      && (outcome == Hung ==> |events| == 3 && files == staged.files)
      && (outcome != Hung ==>
            && (forall j :: 0 < j < |events| - 1 ==> !events[j].Notified?)
            && events[|events| - 1] == Notified(
                 if ok then Notice(userId, messageId, backend, "completed",
                                   Some(ComfyUtils.CdnUris(cdn, uuid, |images.images.value|)))
                 else Notice(userId, messageId, backend, "failed", None))
            && outcome == (if Perform(fs, removal).error.Some? then Aborted(IndexError) else Finished)
            && files == AfterTry(staged, images, uuid, encode, transfer) - Deleted(Executed(removal))
            && forall p :: p in Written(Executed(ComfyUtils.SaveImagesSteps(uris, ids, formats, Root, fetch))) ==>
                 p !in files)
      && objects == BucketAfterTry(staged, images, uuid, encode, transfer, bucket)
  {
    var webhookUrl := HookUrl(backend);
    var first := ComfyUtils.SendWebhookAcknowledgment([userId, messageId, PyNone, PyStr("in progress"), PyStr(webhookUrl)]);
    events := [Notified(first)];
    var result, trail;
    result, trail, files, objects := Attempt(workflow, uris, ids, formats, clientId, queue, frames, history, view,
                                             uuid, encode, transfer, cdn, fetch, fs, bucket);
    events := events + trail;
    if result.Stuck? {
      return Hung, events, files, objects;
    }
    var last;
    if result.Uploaded? {
      last := ComfyUtils.SendWebhookAcknowledgment(
        [userId, messageId, PyNone, PyStr("completed"), PyStr(webhookUrl), PyList(result.s3Uris)]);
    } else {
      last := ComfyUtils.SendWebhookAcknowledgment([userId, messageId, PyNone, PyStr("failed"), PyStr(webhookUrl)]);
    }
    events := events + [Notified(last)];
    ghost var beforeRemoval := files;
    var removed := ComfyUtils.RemoveImages(ids, formats, Root, files);
    files := removed.files;
    ErrorIndependentOfDisk(beforeRemoval, fs, ComfyUtils.RemoveImagesSteps(ids, formats, Root));
    ComfyUtils.SavedImagesAreRemoved(uris, ids, formats, Root, fetch);
    PerformShape(beforeRemoval, ComfyUtils.RemoveImagesSteps(ids, formats, Root));
    outcome := if removed.error.Some? then Aborted(removed.error.value) else Finished;
  }

  /**
   * After the handler, a path that neither staging nor clean-up acts on and
   * that is no upload key holds what it held before.
   */
  lemma HandlerKeepsOtherFiles(uris: seq<string>, ids: seq<Text>, formats: seq<Text>, fetch: string -> Response,
                               images: Images, uuid: nat -> string, encode: Bytes -> Option<Bytes>,
                               transfer: nat -> Option<PyError>, fs: FileMap, p: Path)
    requires !Touches(ComfyUtils.SaveImagesSteps(uris, ids, formats, Root, fetch), p)
    requires !Touches(ComfyUtils.RemoveImagesSteps(ids, formats, Root), p)
    requires forall i: nat :: p != ComfyUtils.ImageKey(uuid(i))
    ensures var staged := Perform(fs, ComfyUtils.SaveImagesSteps(uris, ids, formats, Root, fetch));
            var final := AfterTry(staged, images, uuid, encode, transfer)
                         - Deleted(Executed(ComfyUtils.RemoveImagesSteps(ids, formats, Root)));
            (p in final <==> p in fs) && (p in fs ==> final[p] == fs[p])
  {
    var save := ComfyUtils.SaveImagesSteps(uris, ids, formats, Root, fetch);
    var removal := ComfyUtils.RemoveImagesSteps(ids, formats, Root);
    var staged := Perform(fs, save);
    PerformFrame(fs, save, p);
    if staged.error.None? && HasImages(images) {
      ComfyUtils.UploadDiskFrame(staged.files, images.images.value, uuid, encode, transfer, p);
    }
  }

  /**
   * A staged reference image that is no upload key is still on disk when the
   * try block is left, whatever happened inside it.
   */
  lemma StagedImagesSurviveTry(uris: seq<string>, ids: seq<Text>, formats: seq<Text>, fetch: string -> Response,
                               images: Images, uuid: nat -> string, encode: Bytes -> Option<Bytes>,
                               transfer: nat -> Option<PyError>, fs: FileMap, p: Path)
    requires p in Written(Executed(ComfyUtils.SaveImagesSteps(uris, ids, formats, Root, fetch)))
    requires forall i: nat :: p != ComfyUtils.ImageKey(uuid(i))
    ensures p in AfterTry(Perform(fs, ComfyUtils.SaveImagesSteps(uris, ids, formats, Root, fetch)),
                          images, uuid, encode, transfer)
  {
    var save := ComfyUtils.SaveImagesSteps(uris, ids, formats, Root, fetch);
    var staged := Perform(fs, save);
    WrittenKept(fs, save);
    if staged.error.None? && HasImages(images) {
      ComfyUtils.UploadDiskFrame(staged.files, images.images.value, uuid, encode, transfer, p);
    }
  }

  // ---------------------------------------------------------------------
  // The notifier calls as the handler writes them

  /**
   * The handler as written: its first call passes four positional arguments
   * to a notifier that requires five, so the call raises TypeError before
   * the try block. Nothing is posted, staged, generated or removed.
   */
  method GenerateAsWritten(messageId: PyValue, userId: PyValue, backend: Text, fs: FileMap, bucket: Bucket)
    returns (outcome: Outcome, events: seq<Event>, files: FileMap, objects: Bucket)
    ensures outcome == Aborted(TypeError) && events == [] && files == fs && objects == bucket
  {
    var webhookUrl := HookUrl(backend);
    var first := ComfyUtils.SendWebhookAcknowledgment([userId, messageId, PyStr("in progress"), PyStr(webhookUrl)]);
    // the exception of the call leaves the handler
    outcome, events, files, objects := Aborted(first.error), [], fs, bucket;
  }

  /**
   * The three notifier calls as written: "in progress" and "failed" raise
   * TypeError at the call, and "completed" is swallowed, because its URI
   * list lands in webhook_url and posting to a list raises.
   */
  method NoticesAsWritten(userId: PyValue, messageId: PyValue, backend: Text, s3Uris: seq<string>)
    returns (inProgress: Delivery<ComfyUtils.Key>, completed: Delivery<ComfyUtils.Key>, failed: Delivery<ComfyUtils.Key>)
    ensures inProgress == CallRaised(TypeError) && failed == CallRaised(TypeError)
    ensures completed == Swallowed
  {
    var webhookUrl := HookUrl(backend);
    inProgress := ComfyUtils.SendWebhookAcknowledgment([userId, messageId, PyStr("in progress"), PyStr(webhookUrl)]);
    completed := ComfyUtils.SendWebhookAcknowledgment([userId, messageId, PyStr("completed"), PyStr(webhookUrl), PyList(s3Uris)]);
    failed := ComfyUtils.SendWebhookAcknowledgment([userId, messageId, PyStr("failed"), PyStr(webhookUrl)]);
  }

  /**
   * The handler with the "in progress" and "completed" calls fitted to the
   * notifier, but the "failed" call as written: when the try block raises,
   * the handler's except clause raises TypeError in turn, so remove_images
   * never runs and the staged reference images stay on disk.
   */
  method GenerateFailedAsWritten(workflow: string, uris: seq<string>, ids: seq<Text>, formats: seq<Text>,
                                 messageId: PyValue, userId: PyValue, backend: Text, clientId: string,
                                 queue: QueueReply, frames: seq<Frame>, history: HistoryReply,
                                 view: ViewQuery -> Option<Bytes>, uuid: nat -> string,
                                 encode: Bytes -> Option<Bytes>, transfer: nat -> Option<PyError>, cdn: Text,
                                 fetch: string -> Response, fs: FileMap, bucket: Bucket)
    returns (outcome: Outcome, events: seq<Event>, files: FileMap, objects: Bucket)
    ensures var staged := Perform(fs, ComfyUtils.SaveImagesSteps(uris, ids, formats, Root, fetch));
      var images := ImagesOutcome(queue, frames, history, view);
      var caught := (staged.error.Some? || images != Hangs) && !(staged.error.None? && Generated(images, encode, transfer));
      && |events| >= 2
      && (caught ==>
            && outcome == Aborted(TypeError)
            && events[|events| - 1] == Notified(CallRaised(TypeError))
            && files == AfterTry(staged, images, uuid, encode, transfer))
      && objects == BucketAfterTry(staged, images, uuid, encode, transfer, bucket)
  {
    var webhookUrl := HookUrl(backend);
    var first := ComfyUtils.SendWebhookAcknowledgment([userId, messageId, PyNone, PyStr("in progress"), PyStr(webhookUrl)]);
    events := [Notified(first)];
    var result, trail;
    result, trail, files, objects := Attempt(workflow, uris, ids, formats, clientId, queue, frames, history, view,
                                             uuid, encode, transfer, cdn, fetch, fs, bucket);
    events := events + trail;
    if result.Stuck? {
      return Hung, events, files, objects;
    }
    if result.Caught? {
      var failed := ComfyUtils.SendWebhookAcknowledgment([userId, messageId, PyStr("failed"), PyStr(webhookUrl)]);
      events := events + [Notified(failed)];
      // the exception of the call leaves the handler before remove_images
      return Aborted(failed.error), events, files, objects;
    }
    var last := ComfyUtils.SendWebhookAcknowledgment(
      [userId, messageId, PyNone, PyStr("completed"), PyStr(webhookUrl), PyList(result.s3Uris)]);
    events := events + [Notified(last)];
    var removed := ComfyUtils.RemoveImages(ids, formats, Root, files);
    files := removed.files;
    outcome := if removed.error.Some? then Aborted(removed.error.value) else Finished;
  }

  /**
   * Where the "completed" call's arguments land: 'completed' in settings_id,
   * the webhook URL in status, the URI list in webhook_url, and s3_uris None.
   */
  lemma CompletedBindingAsWritten(userId: PyValue, messageId: PyValue, url: string, s3Uris: seq<string>)
    ensures var b := Bind(ComfyUtils.Notifier, [userId, messageId, PyStr("completed"), PyStr(url), PyList(s3Uris)]);
      && b.Success?
      && ComfyUtils.SettingsId in b.value && b.value[ComfyUtils.SettingsId] == PyStr("completed")
      && ComfyUtils.Status in b.value && b.value[ComfyUtils.Status] == PyStr(url)
      && ComfyUtils.WebhookUrl in b.value && b.value[ComfyUtils.WebhookUrl] == PyList(s3Uris)
      && ComfyUtils.S3Uris in b.value && b.value[ComfyUtils.S3Uris] == PyNone
  {
    var b := Bind(ComfyUtils.Notifier, [userId, messageId, PyStr("completed"), PyStr(url), PyList(s3Uris)]);
    assert ComfyUtils.Notifier.params[2] in b.value && ComfyUtils.Notifier.params[3] in b.value;
    assert ComfyUtils.Notifier.params[4] in b.value && ComfyUtils.Notifier.params[5] in b.value;
  }
}
