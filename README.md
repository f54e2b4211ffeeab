# runpod_server job pipeline, modelled in Dafny

The server runs two kinds of GPU job behind HTTP endpoints. The image generation endpoint
(`comfyui.py`) is meant to work in five steps:

1. It stages up to two optional reference images on local disk.
2. It queues a workflow with a local generation server.
3. It waits on the server's event stream until the run ends.
4. It reads the run's history manifest and fetches the generated images.
5. It uploads the images to a bucket behind a CDN, reports progress to a backend webhook, and removes the staged files.

As written, its first webhook call raises at comfyui.py:112 before step 1, and its other two calls do not deliver; see "## Findings". The model states both the handler as written and the handler with those calls fixed.

The face swap endpoint (`facefusion.py`, kept in the repository as commented-out text) and its
helpers (`facefusion_utils.py`) follow the same pattern with a batch command line instead of a
streaming server.

The model keeps the pipeline's decision logic and replaces every outside effect with an input:

- the file system is a map from paths to bytes;
- HTTP downloads are an oracle from URLs to responses;
- the event stream is a finite sequence of frames;
- the history manifest is a datatype;
- the image codec, the fresh uuids, the outcome of each transfer to the bucket, the shell's exit status, the clock and the environment variables are parameters.

Each staging and clean-up loop is a method. It is proved equal to a fold over the steps it takes, which is `FileStore.Perform`. A step writes a file, deletes one, does nothing, or raises and ends the loop. The properties the routines promise are proved about those folds.

Modules, one per source file, plus three shared ones:

- `Common` holds Python values and exceptions, f-string rendering, truthiness, and `posixpath.join`/`basename`.
- `FileStore` holds file maps, steps, the fold and the generic staging and clean-up lemmas.
- `Webhook` holds Python positional argument binding, the pydantic `__dict__` dump and the outcome of a notifier call.
- `ComfyUtils` models `comfyui_utils.py`.
- `FacefusionUtils` models `facefusion_utils.py`.
- `Facefusion` models `facefusion.py`.
- `Comfy` models `comfyui.py`.

## Model

| member | source | states |
|---|---|---|
| Common.Basename | facefusion_utils.py:72 | the base name holds no '/', is a suffix of the path, and is either the whole path or preceded by a '/' |
| Common.BasenameOfJoin | facefusion_utils.py:72 | joining a slash-free name under any directory gives back that name as the base name |
| Common.JoinShape | comfyui_utils.py:74 | a relative name joined to a directory starts with the directory and ends with the name |
| FileStore.PerformShape | comfyui_utils.py:63-87 | a loop whose steps may raise leaves the disk of the steps before the first raise, and reports exactly that exception, or none |
| FileStore.PerformRaisesAt | facefusion_utils.py:47-48 | when step i is the first to raise, the loop ends with the disk of steps 0..i-1 and step i's exception |
| FileStore.PerformCompletes | comfyui_utils.py:63-87 | a loop none of whose steps raises completes |
| FileStore.ErrorIndependentOfDisk | comfyui_utils.py:100-116 | whether a loop raises does not depend on the disk it runs on |
| FileStore.PerformFrame | comfyui_utils.py:111-116 | a path that no step names is untouched: present iff it was, with the same bytes |
| FileStore.PerformDeletes | comfyui_utils.py:111-116 | a delete-only loop that does not raise removes exactly its paths; a missing file is no error |
| FileStore.CleanupRemoves | facefusion_utils.py:102-107 | a delete-only loop removes exactly the paths of the steps it gets to |
| FileStore.CleanupIdempotent | facefusion_utils.py:93-107 | running a clean-up loop a second time on its own result changes nothing and raises nothing new |
| FileStore.StageThenCleanup | comfyui.py:120-141 | when clean-up covers every written path, no written file survives, and paths neither loop names are untouched |
| FileStore.WritesStay | comfyui_utils.py:63-87 | a write-only loop that never raises leaves a file at every path it writes |
| FileStore.WrittenKept | comfyui_utils.py:63-87 | a write-only loop, even one that raises, leaves a file at every path its executed steps write |
| FileStore.FirstRaise | comfyui_utils.py:63-87 | the index of the first raising step: no step before it raises, and the step there does |
| Webhook.Bind | comfyui_utils.py:127-132 | a positional call binds iff the argument count lies between the required and the total parameter count, else TypeError; parameter i gets argument i or None |
| Webhook.DumpFields | comfyui_utils.py:166-170 | the posted body holds every declared model field, with the dictionary's value or the field's default |
| ComfyUtils.DownloadAndSaveImages | comfyui_utils.py:50-87 | the loop over indices 0 and 1 equals the staging fold: list reads raise IndexError, a falsy id is skipped, only status 200 writes |
| ComfyUtils.StagingReadsTwoEntries | comfyui_utils.py:63 | download and removal only ever read the first two entries of the lists |
| ComfyUtils.SaveImageWritesIff | comfyui_utils.py:71-87 | index i writes exactly when its id is truthy and the response is 200, and then writes the body to join(root, id.format); a falsy id writes nothing |
| ComfyUtils.RemoveImages | comfyui_utils.py:89-116 | the loop equals the removal fold, and the new disk is the old one less the paths it reached |
| ComfyUtils.RemovalMatchesStaging | comfyui_utils.py:100-110 | removal targets exactly the paths staging considers (indices 0 and 1 with a truthy id), and staging writes no others |
| ComfyUtils.SavedImagesAreRemoved | comfyui_utils.py:63-116 | every file staging writes before it stops is one the removal loop deletes |
| ComfyUtils.StagedImagesCleanedUp | comfyui_utils.py:50-116 | after staging and removal no staged image is on disk, and other paths keep their contents |
| ComfyUtils.RemoveImagesIdempotent | comfyui_utils.py:111-116 | removing twice is the same as removing once |
| ComfyUtils.FirstFailureFrom | comfyui_utils.py:21-45 | the first image from i on that does not re-encode or whose transfer raises; every image before it passes both |
| ComfyUtils.UploadImagesToS3 | comfyui_utils.py:14-48 | it gets through exactly the images before the first failing one, returning `CDN_URL/<uuid>.png` for each in input order; it raises the codec error or the transfer's exception there; the disk loses the temporary files of the images got through and keeps the PNG whose transfer raised; the bucket gains the keys got through |
| ComfyUtils.UploadSucceedsIff | comfyui_utils.py:21-45 | the upload raises nothing iff every image re-encodes and every transfer succeeds |
| ComfyUtils.TransferFailureLeaks | comfyui_utils.py:31-45 | when the transfer of image k raises after all earlier ones went through, that exception leaves the function and image k's temporary PNG stays on disk |
| ComfyUtils.UploadDiskFrame | comfyui_utils.py:22-45 | a path that is no image key keeps its file, or its absence |
| ComfyUtils.UploadCleansUp | comfyui_utils.py:31-45 | a successful upload, on a disk holding none of the keys, leaves the disk as it was |
| ComfyUtils.KeysDiffer | comfyui_utils.py:22 | distinct uuids give distinct keys |
| ComfyUtils.UploadedHolds | comfyui_utils.py:21-45 | with distinct uuids every uploaded image stays in the bucket under its own key |
| ComfyUtils.UploadRoundTrip | comfyui_utils.py:38-41 | the key in each returned URI names the bucket object that holds that image |
| ComfyUtils.MessageFields | comfyui_utils.py:149-162 | the field dictionary always holds user_id, message_id, settings_id and status, and holds s3_uris iff it is not None, with the parameters' values |
| ComfyUtils.EnvelopeOfFields | comfyui_utils.py:164-170 | the dumped Message of those fields is the posted envelope: every model field, None where unset |
| ComfyUtils.SendWebhookAcknowledgment | comfyui_utils.py:127-176 | the call raises TypeError iff it has fewer than 5 or more than 6 arguments; otherwise it posts the envelope to its fifth argument, or swallows the failure when that argument is not a string |
| FacefusionUtils.Chunks | facefusion_utils.py:52 | every chunk is non-empty and at most 8192 bytes, and all but the last are full |
| FacefusionUtils.ChunksFlatten | facefusion_utils.py:50-53 | the chunks, written in order, are the whole body |
| FacefusionUtils.WriteChunked | facefusion_utils.py:50-53 | writing the body chunk by chunk leaves the file holding exactly the body |
| FacefusionUtils.DownloadAndSaveFiles | facefusion_utils.py:16-55 | the loop over every index of file_ids equals the download fold: short lists raise IndexError, 4xx/5xx raise HTTPError, no truthiness check |
| FacefusionUtils.SaveFileStepOutcome | facefusion_utils.py:41-48 | a response writes join(root, id.format) unless its status is 400..599, which raises |
| FacefusionUtils.SaveFilesVisitsAll | facefusion_utils.py:29-53 | with long enough lists and good responses every index is written, with no id check |
| FacefusionUtils.SaveFilesFailsAt | facefusion_utils.py:47-48 | an error status at index i raises there and the files of earlier indices stay on disk |
| FacefusionUtils.RemoveFiles | facefusion_utils.py:82-107 | the loop equals the removal fold, and the new disk is the old one less the paths reached |
| FacefusionUtils.RemovalMatchesStaging | facefusion_utils.py:93-101 | removal targets every index's path, which are all the paths the download writes |
| FacefusionUtils.SavedFilesAreRemoved | facefusion_utils.py:29-107 | every file the download writes before it stops is deleted by the removal loop |
| FacefusionUtils.StagedFilesCleanedUp | facefusion_utils.py:16-107 | after download and removal no downloaded file remains; other paths are untouched |
| FacefusionUtils.RemoveFilesIdempotent | facefusion_utils.py:102-107 | removing twice is the same as removing once |
| FacefusionUtils.DestinationKeyKeepsName | facefusion_utils.py:72 | the destination key ends in the file's base name, below the s3 directory |
| FacefusionUtils.MessageFields | facefusion_utils.py:134-142 | the dictionary holds user_id, job_id and status, and output_url iff it is not None |
| FacefusionUtils.EnvelopeOfFields | facefusion_utils.py:144-150 | the dumped Message of those fields is the posted envelope |
| FacefusionUtils.SendWebhookAcknowledgment | facefusion_utils.py:110-156 | it raises TypeError iff it is called with fewer than 3 or more than 4 arguments; otherwise it posts the envelope to the backend's `/facefusion-deepfake/webhook` |
| FacefusionUtils.EnvelopeKeepsArguments | interfaces.py:7-16 | the envelope holds every Message field, the call's arguments in their fields, and the creation time |
| Facefusion.DownloadAndSaveFiles | facefusion.py:41-69 | the zip loop equals the fold over the shortest list's length: falsy ids skipped, non-200 not fatal |
| Facefusion.SaveStepOutcome | facefusion.py:55-67 | a zipped index writes join(root, id.format) iff its id is truthy and the status is 200 |
| Facefusion.RemoveFiles | facefusion.py:72-91 | the zip loop never raises and removes exactly its paths from the disk |
| Facefusion.SavedFilesAreRemoved | facefusion.py:55-91 | every path the download writes is one the removal deletes |
| Facefusion.StagedFilesCleanedUp | facefusion.py:41-91 | after download and removal no downloaded file remains; other paths are untouched |
| Facefusion.RemoveFilesIdempotent | facefusion.py:83-91 | removing twice is the same as removing once |
| Facefusion.Sources | facefusion.py:108-111 | one `-s <path>` pair per source, in input order |
| Facefusion.ArgvFails | facefusion.py:109-122 | the argument vector fails iff file_ids or file_formats is empty, with IndexError |
| Facefusion.ArgvLayout | facefusion.py:100-122 | the nine-word prefix in order first, `-t <target> -o <output>` last, two words per source between them |
| Facefusion.ArgvSources | facefusion.py:108-111 | between prefix and target, one `-s <path>` pair per file but the last, in input order |
| Facefusion.FirstSpace | facefusion.py:125 | the index of the first blank, with no blank before it |
| Facefusion.SplitJoin | facefusion.py:125 | joining blank-free words with blanks can be split back into the same words |
| Facefusion.ShellCommandShape | facefusion.py:97-125 | the shell command is the conda prefix followed by the argument vector joined with blanks, and it splits back into it |
| Facefusion.RunFacefusion | facefusion.py:93-133 | it returns the output path join(root, uuid.<last format>) and writes the output only when the argument vector builds, the model is a string and the exit status is 0; otherwise IndexError, TypeError or CalledProcessError |
| Facefusion.UploadFileToS3 | facefusion.py:20-39 | it returns `s3://magicalcurie/<path>`, moves the file from disk into the bucket under the path, and fails without change when the file is missing or the transfer fails |
| Facefusion.S3UriNamesObject | facefusion.py:30-33 | the part of the URI after the bucket prefix is the key the file was stored under |
| Facefusion.MessageFields | facefusion.py:169-177 | the dictionary holds user_id, message_id and status, and s3_uri iff it is not None |
| Facefusion.EnvelopeOfFields | facefusion.py:179-185 | the dumped Message of those fields is the posted envelope |
| Facefusion.SendWebhookAcknowledgment | facefusion.py:146-191 | TypeError iff fewer than 4 or more than 5 arguments; otherwise the envelope is posted to the fourth argument, or the failure is swallowed |
| Facefusion.AttemptJob | facefusion.py:210-222 | the s3 URI comes back iff staging, the run and the upload all succeed; the disk is as far as they got |
| Facefusion.GenerateDeepfake | facefusion.py:193-229 | two notices: "in progress", then "completed" with the s3 URI iff the job succeeded, else "failed"; then the staged files are removed |
| Facefusion.ControllerDisk | facefusion.py:210-229 | no staged file survives the controller; the output is gone after a success but left behind when only the upload failed |
| Comfy.AwaitExecution | comfyui.py:47-62 | the receive loop ends exactly where the frame fold says: at the first terminal frame, at the first frame that raises, or never |
| Comfy.TerminalFrameIff | comfyui.py:47-59 | a frame ends the loop iff it is the text event `executing` with a null node and the submitted prompt id; binary frames and other event types continue |
| Comfy.ForeignEventsContinue | comfyui.py:57 | executing events of a non-null node or of another prompt never end the loop |
| Comfy.SkipContinues | comfyui.py:47-62 | frames that let the loop continue leave its outcome unchanged |
| Comfy.AwaitFromShape | comfyui.py:47-62 | the loop stops only at a terminal or raising frame, every earlier frame continuing; if it never stops, every frame continues |
| Comfy.AwaitDoneIff | comfyui.py:47-59 | the loop ends at frame k iff frame k is terminal and all earlier frames continue |
| Comfy.AwaitBlockedIff | comfyui.py:47-62 | with no timeout, the loop never returns iff no frame ends it and none raises |
| Comfy.LaterFramesIgnored | comfyui.py:47-59 | frames after the one that ends the loop are never read |
| Comfy.EntriesAppend | comfyui.py:75-88 | the flattened entries of two node runs are the entries of the first, then those of the second |
| Comfy.FetchAll | comfyui.py:81-85 | one fetched image per entry, in order, iff every entry has its three keys and every fetch succeeds |
| Comfy.ExtractIff | comfyui.py:64-95 | images come back iff the status is "success" and completed, the outputs exist and every entry is fetched; then exactly one result per entry in node order then image order; every other case is None |
| Comfy.ReadHistory | comfyui.py:64-95 | the nested loops appending to the result equal the manifest walk, and any exception gives None |
| Comfy.FetchNode | comfyui.py:79-85 | the loop over one node's images list appends exactly what the walk over those entries gives, or fails with it |
| Comfy.FetchStep | comfyui.py:81-85 | one more entry keeps the walk going iff it has its three keys and its fetch succeeds, and appends that image |
| Comfy.PrefixFails | comfyui.py:81-85 | an entry that cannot be fetched fails the rest of its node |
| Comfy.NodeFails | comfyui.py:75-95 | a node whose images cannot all be fetched makes the whole walk None |
| Comfy.GetImages | comfyui.py:43-95 | a failed queue request or a reply without prompt_id raises; then the receive loop decides: it raises, never returns, or the walk's result is returned |
| Comfy.GetImagesAfterTerminal | comfyui.py:57-95 | once the terminal event arrives, get_images returns and never raises |
| Comfy.Attempt | comfyui.py:117-136 | after staging, the socket is connected to `ws://127.0.0.1:8188/ws?clientId=<id>` before `{"prompt", "client_id"}` is queued with the same id; the URIs come back iff staging succeeds, get_images returns a non-empty list and every image uploads; None and [] both fail; the disk is the staged disk, changed by the upload only if it ran; the bucket holds exactly the images the upload got through |
| Comfy.Generate | comfyui.py:98-141 | "in progress" first; a hang leaves the staged disk and sends nothing more; otherwise exactly one final notice, "completed" with the URIs iff the upload succeeded, else "failed"; then removal, which raises only IndexError; the final disk is the try block's less the paths removal reached, so no staged image is left; the bucket holds what the upload got through |
| Comfy.HandlerKeepsOtherFiles | comfyui.py:117-141 | a path that staging, removal and the upload keys never name holds what it held before the handler |
| Comfy.StagedImagesSurviveTry | comfyui.py:117-139 | every staged image that is no upload key is still on disk when the try block is left, whatever raised in it |
| Comfy.GenerateAsWritten | comfyui.py:112-115 | as written, the first notifier call has four arguments, raises TypeError, and the handler ends with nothing posted, staged or removed |
| Comfy.NoticesAsWritten | comfyui.py:112-139 | as written, "in progress" and "failed" raise TypeError at the call and "completed" is swallowed inside the notifier |
| Comfy.GenerateFailedAsWritten | comfyui.py:137-141 | with the "failed" call as written, a try block that raises ends the handler with TypeError from the except clause, before remove_images; the disk is the try block's, so the staged images stay |
| Comfy.CompletedBindingAsWritten | comfyui.py:134 | as written, 'completed' lands in settings_id, the webhook URL in status, the URI list in webhook_url, and s3_uris stays None |

## Left out

- Network I/O: the HTTP requests, the WebSocket client and the transfers to the bucket are inputs. A download is an oracle from URL to response. The frames are a finite sequence. A transfer's exception is an optional error: per image in `upload_images_to_s3` (comfyui_utils.py:38), for the one file in `upload_file_to_s3` (facefusion.py).
- `ws.connect` failing and `ws.recv` on a closed socket are not modelled. The connection is recorded as an event.
- The URL encoding of the `/view` query is left out (comfyui.py:29). A query is the triple it encodes.
- A text frame whose JSON is not an object (a list or a number) would raise TypeError at `message['type']`, and an `executing` event whose `data` is null or not an object would raise TypeError at `data['node']` (comfyui.py:55-57). The model's messages and their `data` are objects, or the text is undecodable.
- The image codec (comfyui_utils.py:26-31) is an `encode` parameter that may fail. Image bytes are opaque.
- The subprocess call (facefusion.py:131) is left out. It is an exit status plus the bytes the run leaves at the output path.
- `uuid.uuid4()`, `datetime.now()` and `os.getenv` are parameters.
- Scheduling under async/await is left out.
- The S3 client setup and the transfer configuration are left out. So are the progress callbacks and the rest of `fast_upload` apart from its destination key.
- fileupload.py and main.py are not part of this model. They hold no pipeline logic.
- interfaces.py is mirrored only as the field map that `FacefusionUtils.MessageModel` gives the generic dump.
- Pydantic validation is not modelled. The body is the field dictionary completed with defaults. The trailing comma at interfaces.py:8 is not checked against the type either.
- Facefusion.GenerateDeepfake: posts "completed" with the s3 URI, but as written `upload_file_to_s3` returns a string that is passed as `s3_uri`, declared `Optional[List[str]]` (facefusion.py:144, 224). Pydantic would reject it inside the notifier's `try`, and the notifier would swallow the error, so no "completed" would be posted. That needs validation, which is left out.
- The `{}` defaults of `payload.get` are not modelled. Request fields are strings, None or lists of them.
- `os.path.join` is posix. The Windows staging root in facefusion.py is joined with '/', not with ntpath rules.
- Timeouts and a single-flight lock are not in the code and not in the model. A frame sequence without a terminal frame means the handler never returns (`Hung`).
- FacefusionUtils.DownloadAndSaveFiles follows the code: `raise_for_status` raises for statuses 400 to 599 only, so any other non-200 status is written like a 200.
- Comfy.Generate models the handler with its notifier calls corrected: settings_id is passed as None, and status and webhook URL go in their places. The handler as written is modelled by Comfy.GenerateAsWritten, Comfy.GenerateFailedAsWritten and Comfy.NoticesAsWritten.
- The log output (`print`) is left out.

## Findings

| source | as written | input that shows it | evidently intended | confidence | as-written member | corrected member |
|---|---|---|---|---|---|---|
| comfyui.py:112-115 | the "in progress" call passes 4 positional arguments to a notifier that requires 5, so it raises TypeError before the try; no image is staged, no "failed" is sent and nothing is removed | any request | notify "in progress" with settings_id, status and webhook URL in their places, then run the job | high, not executed | Comfy.GenerateAsWritten | Comfy.Generate |
| comfyui.py:139 | the "failed" call also passes 4 arguments and raises TypeError inside the except handler; that exception leaves the handler before `remove_images` at line 141, so the staged reference images stay on disk | once the first call is fixed: a reference image with a truthy id downloaded with status 200, and get_images returning [] | report "failed" and then remove the staged images | high, not executed | Comfy.GenerateFailedAsWritten | Comfy.Generate |
| comfyui.py:134 | the "completed" call binds 'completed' to settings_id, the webhook URL to status and the URI list to webhook_url; posting to a list raises inside the notifier and is swallowed, so no "completed" is ever delivered | any successful generation | post status "completed" with the s3 URIs to the webhook URL | high, not executed | Comfy.CompletedBindingAsWritten | Comfy.Generate |
