# Chatwork image-reply webhook, modelled in Dafny

This project models the control logic of a small Chatwork bot. It is a single
Express route, `POST /webhook`. The route reads the `webhook_event` of a
Chatwork webhook. It does nothing for one ignored account (10617115), and it
reacts only to a message whose body is exactly `画像送ってみて` ("try sending
an image"). For that message it is meant to take three steps, each awaited
before the next:

1. It downloads a random image from `https://pic.re/image` into
   `/tmp/image_<ms>.jpg`.
2. It uploads that file to the room's Chatwork file endpoint. It deletes the
   temporary file afterwards, whatever the upload did.
3. It posts a reply that quotes the triggering message, names its sender and
   embeds the uploaded file.

As written, step 2 never gets as far as the upload. `fs` is bound to the
promise API (index.js:3), which has no `createReadStream`, so index.js:89
throws a TypeError on every call. The `finally` still deletes the file, and
the route answers 500. Nothing is ever uploaded or posted (see "## Findings").
The model keeps both versions. `Webhook.HandleAsWritten` has the upload as
written. `Webhook.Handle`, on which the other properties are stated, has the
upload as evidently intended, reading the file through the callback `fs`
module.

The route answers 400 for a missing event, and 200 for an ignored or
untriggered message. On the trigger path the intended handler answers 200
when all three steps succeed and 500 at the first failure. Of the log lines outside the `try`,
two interpolate values from the request and can throw: the one for the
trigger (index.js:30) and the one for any other message (index.js:50). When
one of them throws, the handler's promise rejects before any status is sent.

The model is pure. Every external call (download, upload post, unlink, reply
post) is replaced by an outcome that is given as input (`Effects.Outcomes`).
The clock reading that names the temporary file is an input too. The handler
`Webhook.Handle` is a function from the parsed request body and those outcomes
to a `Response`, which holds three things:

- how it settled: a status sent, or an error thrown out of the handler;
- the ordered trace of effects the handler attempted;
- the set of temporary files still on disk when it answers.

JavaScript semantics the handler relies on are stated explicitly in module
`Js`:

- the `!` falsiness test;
- strict equality with the number 10617115, so the string `"10617115"` is not
  ignored;
- property reads and the TypeError on `null`/`undefined`;
- conversion of values to text inside template literals. This conversion
  throws a TypeError for a JSON object with its own `toString` key, and for
  an array that holds one at any depth.

Modules:

- `Decimal`: decimal text of integers and its inverse parse. Used for `${n}`
  and for the `Date.now()` part of the temporary path.
- `Js`: JSON values as `express.json()` delivers them, with truthiness,
  property reads and template conversion.
- `Reply`: the reply template, and a parser that inverts it for decimal
  identifiers.
- `Effects`: outcomes, the effect trace and the world state.
- `Steps`: `downloadRandomImage`, `uploadImageToChatwork` (with its
  `finally`) as written and as intended, and `sendFileReply`.
- `Webhook`: the route handler, as intended and as written, and its routing,
  ordering, short-circuit and cleanup properties.
- `Machine`: the request stages written as an explicit state machine
  (Received → Rejected | Validated → Ignored | NotTriggered | Thrown |
  Triggered → Downloaded → Uploaded → Replied, with Errored after any of the
  three calls). A lemma proves that the intended handler is exactly this
  machine run to a terminal stage.

Two behaviours of the code are worth stating outright:

- An upload response without `file_id` is not an error. Once the upload can
  read its file, the code returns
  `response.data.file_id`, which is then `undefined`. The reply still goes
  out, with `[file:undefined]` in it, and the route answers 200
  (`Webhook.MissingFileIdRepliesUndefined`). Only a `null` or missing
  `response.data` makes the upload fail, with a TypeError (`Steps.FileIdOf`).
- Validation only tests `webhook_event` for truthiness. A truthy non-object
  such as `1` passes that test and is acknowledged with 200
  (`Webhook.TruthyNonObjectEventAccepted`).

## Model

| member | source | states |
|---|---|---|
| Webhook.Handle | index.js:12-52 | with the intended upload, the handler sends 200, 400 or 500, or throws a TypeError out of a log line; when it throws it has attempted nothing; the only temporary file that can remain is this request's `/tmp/image_<now>.jpg` |
| Webhook.Pipeline | index.js:32-46 | with the intended upload, the try block answers 200 or 500, answers 200 only after posting the reply as its fourth effect, and leaves behind no temporary file other than this request's |
| Webhook.PipelineAsWritten | index.js:32-46 | with the upload as written, the try block always answers 500 and leaves no temporary file other than this request's |
| Webhook.AsWrittenNeverReplies | index.js:32-46 | as written, a request that starts the pipeline answers 500 with the trace download, or download then unlink; no request ever uploads or posts anything; a file remains exactly when the download succeeded and the unlink failed; every other request is handled as by the intended handler |
| Webhook.SuccessfulScenarioAsWritten | index.js:89 | as written, the request of the successful scenario with every call succeeding answers 500, downloads and deletes the image, and posts no reply |
| Webhook.InvalidPayloadRejected | index.js:14-18 | the answer is 400 exactly when `webhook_event` is missing or falsy, and then nothing is downloaded, uploaded or posted |
| Webhook.IgnoredSenderAcknowledged | index.js:23-26 | a valid event whose `account_id` is the number 10617115 gets 200 and no effect, whatever its body, the trigger phrase included |
| Webhook.IgnoredIdIsNumeric | index.js:23 | the check is strict equality with a number: account id `"10617115"` as a string still triggers the pipeline, while the number 10617115 does not |
| Webhook.OtherMessageAcknowledged | index.js:49-51 | a valid, non-ignored event whose body is not exactly the trigger phrase causes no effect; it gets 200 when its body converts to text, and otherwise the log line throws a TypeError |
| Webhook.TriggerLogThrows | index.js:29-31 | a trigger whose `room_id` or `account_id` does not convert to text throws in the log line before the `try`: no status and no effect |
| Webhook.UnhandledOnlyFromLogLines | index.js:12-52 | the handler throws instead of answering if and only if one of the two log lines outside the `try` fails to convert a value |
| Webhook.EffectsOnlyWhenTriggered | index.js:14-51 | some outbound effect is attempted if and only if the event is valid, not from the ignored sender, carries the trigger phrase, and its room and account ids convert to text |
| Webhook.TruthyNonObjectEventAccepted | index.js:14-20 | a truthy `webhook_event` that is not an object passes validation (200), while an empty-string one is rejected (400) |
| Webhook.PipelineOrderAndShortCircuit | index.js:32-46 | with the intended upload, on the trigger path the effects are download, then upload of the downloaded path, then unlink of it, then the reply carrying the file id the upload returned; a failed download stops after one effect; a failed upload, or a reply text that cannot be built, stops after three |
| Webhook.TriggeredStatus | index.js:32-46 | with the intended upload, on the trigger path the answer is 200 if and only if download and upload succeed, the reply text can be built and its post succeeds, and otherwise 500, even when the image was already uploaded |
| Webhook.TempFileCleanedUp | index.js:106-114 | with the intended upload, once the temporary file exists it is unlinked exactly once, directly after the upload attempt, whether that attempt succeeded or failed; it is gone afterwards exactly when the unlink succeeded |
| Webhook.NoLeftoverUnlessUnlinkFailed | index.js:106-114 | a request leaves a temporary file behind if and only if it reached the `try`, the download succeeded and the unlink failed |
| Webhook.UnlinkFailureSwallowed | index.js:108-113 | the unlink outcome changes neither how the handler settles nor the effects attempted |
| Webhook.SuccessfulScenario | index.js:128 | with the intended upload, account 1, room "9", message "5", upload answering file id 42: status 200, no leftover file, and the reply text `[rp aid=1 to=9-5][pname:1]さん\n画像です！\n[file:42]` |
| Webhook.MissingFileIdRepliesUndefined | index.js:101-102 | with the intended upload, an upload response without `file_id` is not a failure: the reply is posted with `[file:undefined]` and the answer is 200 |
| Webhook.UnconvertibleRoomIdThrows | index.js:30 | the trigger phrase with room id `{"toString":0}` throws a TypeError, with nothing downloaded |
| Webhook.UnconvertibleBodyThrows | index.js:50 | a message body `{"toString":0}` throws a TypeError in the log line for other messages |
| Webhook.UnconvertibleFileIdFails | index.js:124-145 | with the intended upload, an uploaded file id `{"toString":0}` makes the reply template throw inside the `try`: no reply is posted and the answer is 500 |
| Steps.TempPath | index.js:62 | the temporary path is `/tmp/image_`, then the clock reading in canonical decimal, which parses back to that reading, then `.jpg` |
| Steps.DownloadRandomImage | index.js:60-75 | one download effect on `/tmp/image_<now>.jpg`; on success it returns that path and the file exists; on failure it rethrows the same error and creates no file |
| Steps.TempPathInjective | index.js:62 | two clock readings give the same temporary path if and only if they are equal |
| Steps.FileIdOf | index.js:102 | reading `response.data.file_id` throws a TypeError exactly when the data is null or undefined; otherwise it gives the field, or `undefined` when the field is absent |
| Steps.Cleanup | index.js:106-114 | the finally block appends exactly one unlink of the path; the path survives only if it existed and the unlink failed; no other file is touched |
| Steps.UploadImageToChatwork | index.js:86-114 | the upload as intended: a room id that does not convert to text throws a TypeError before any post, and the file is still unlinked; otherwise one post of the path to the room's file endpoint followed by exactly one unlink of it; a post error is rethrown unchanged; a post success returns the file id |
| Steps.UploadAsWritten | index.js:86-114 | as written, the upload throws a TypeError at index.js:89 for every input, posts nothing, and still unlinks the file exactly once |
| Steps.UploadIgnoresUnlinkOutcome | index.js:102-113 | the upload's result and effects do not depend on whether the unlink failed |
| Steps.SendFileReply | index.js:124-145 | when an identifier does not convert to text it throws a TypeError and posts nothing; otherwise one post of the reply text to the room's message endpoint, succeeding exactly when the post does and otherwise rethrowing its error; files are untouched |
| Reply.ReplyText | index.js:128 | the reply text opens with `[rp aid=A to=R-M]` and closes with `[file:F]`, for the texts of the identifiers the handler holds |
| Reply.MessageShape | index.js:128 | the reply starts with `[rp aid=A to=R-M]`, ends with `[file:F]`, and between them holds `[pname:A]`, the honorific and the caption |
| Reply.ParseMessage | index.js:128 | for decimal identifiers, parsing the reply text recovers account, room, message and file ids |
| Reply.MessageInjective | index.js:128 | for decimal identifiers, two replies are equal if and only if their identifiers are |
| Reply.ParseReplyText | index.js:128 | non-negative numeric or digit-string ids always convert, and the reply text built from them determines their printed forms |
| Js.Truthy | index.js:15 | `!v` is false exactly for values other than `undefined`, `null`, `false`, `0` and `""` |
| Js.TemplateString | index.js:128 | `${v}` throws, always a TypeError, exactly when `v` is or holds at any depth an object with its own `toString` key; it gives a string unchanged, a non-negative number as the canonical decimal that parses back to it, and a negative one as `-` before the decimal of its magnitude |
| Js.Join | index.js:128 | an array converts without throwing exactly when every element does |
| Js.NumbersPrintDistinctly | index.js:128 | two numbers print alike in a template if and only if they are equal |
| Js.ConversionExamples | index.js:30 | `{"toString":0}` and an array nesting one throw; `{"valueOf":0}` prints `[object Object]`; `[null,7,["a",undefined]]` prints `,7,a,` |
| Decimal.NatToString | index.js:62 | the decimal text of a natural number is a non-empty digit string with no superfluous leading zero |
| Decimal.ParsePrinted | index.js:62 | parsing the printed text of a number gives the number back |
| Decimal.PrintParsed | index.js:62 | printing the value of a canonical digit string gives the string back |
| Decimal.IntToString | index.js:128 | an integer prints as the canonical decimal that parses back to it, or for a negative one as `-` before the canonical decimal of its magnitude |
| Decimal.IntToStringInjective | index.js:128 | two integers print alike if and only if they are equal |
| Machine.Next | index.js:12-52 | with the intended upload, each transition moves strictly forward; only the three outbound-call stages can fail or add effects, and only validation can end in a thrown log line |
| Machine.Run | index.js:12-52 | running the stages always ends in a terminal stage |
| Machine.PipelineRunsMachine | index.js:32-46 | from Triggered, the machine settles, attempts effects and leaves files exactly as the handler's `try` block does |
| Machine.HandlerRunsMachine | index.js:12-52 | the handler's answer, effects and leftover files are those of the stage machine run from Received |
| Machine.RepliedMeansReplyPostedLast | index.js:40-42 | with the intended upload, a request that ends in Replied answered 200 and posted the reply as its fourth and last effect |

## Findings

| source | as written | input that shows it | evidently intended | confidence | as-written member | corrected member |
|---|---|---|---|---|---|---|
| index.js:89 | `fs.createReadStream(filePath)`, where `fs` is `require('fs').promises` (index.js:3), which has no `createReadStream`: the call throws a TypeError before the post, so every triggered request downloads, deletes the file and answers 500 | the trigger phrase from account 1 in room "9", message "5", with every call succeeding | the file is streamed with `createReadStream` of the callback `fs` module, posted, and the reply follows with answer 200 | high; not executed | Webhook.AsWrittenNeverReplies | Webhook.TriggeredStatus |

## Left out

- The Express application, `express.json()`, `app.listen`, the port and the
  environment (index.js:1-9, 147-151): these are process plumbing. The
  repository pins no Express version, and the model assumes Express 4 with
  body-parser 1.x. There `req.body` defaults to `{}` and `express.json()` in
  strict mode hands on only objects and arrays, so the handler takes an
  object or an array. A handler whose promise rejects gets no response there;
  the model reports that as `Unhandled(TypeError)`. Under Express 5 a request
  without a JSON body leaves `req.body` undefined, so index.js:14 itself
  throws, and a rejected handler is answered 500 by the default error
  handler; neither is modelled. Nor is what the Node.js process does with the
  unhandled rejection, which on recent versions ends it.
- The axios requests, the `FormData` multipart body, the `URLSearchParams`
  body and the `X-ChatWorkToken` header (index.js:65-67, 88-100, 130-139):
  each call is one outcome given as input. The trace records only the target
  URL, the file path and the reply text.
- Real file-system writes and deletions (index.js:68, 109): a temporary file
  is a path in a set.
- Calls that never settle: every awaited call is taken to settle, with
  success or an error. The axios calls (index.js:65, 91, 130) set no timeout.
  A call that hangs leaves the request without any status. If it hangs inside
  the upload's `try`, the temporary file is never unlinked. `Webhook.Answer`
  has no value for a request still pending.
- `Date.now()` (index.js:62): the millisecond reading is the input `now`.
- Logging throughout, and the text of the 400 response: only statuses are
  modelled.
- Concurrency between simultaneous webhook requests: each request is modelled
  on its own, starting with no temporary file.
- Steps.DownloadRandomImage: the image fetch and the file write are one
  outcome, and a failed download is taken to create no file. A write that
  fails after creating a partial file, which nothing deletes, is not
  modelled.
- Steps.Cleanup: a failed unlink is taken to leave the file in place. An
  unlink that fails because the file is already gone is not distinguished.
- Js.Get: only non-index, non-inherited keys are meant, which covers every
  key the handler reads. Array index properties and `Object.prototype`
  members are not modelled.
- Js.TemplateString: numbers are safe integers, |n| ≤ 2^53 − 1, printed in
  plain decimal. Fractional numbers, `-0`, and integers beyond 2^53 − 1,
  which `JSON.parse` may round, are not modelled.
- Webhook.Handle: states the handler with the intended upload. As written, index.js:89 throws first (Webhook.AsWrittenNeverReplies).
- Webhook.Pipeline: states the handler with the intended upload. As written, index.js:89 throws first (Webhook.AsWrittenNeverReplies).
- Webhook.PipelineOrderAndShortCircuit: states the handler with the intended upload. As written, index.js:89 throws first (Webhook.AsWrittenNeverReplies).
- Webhook.TriggeredStatus: states the handler with the intended upload. As written, index.js:89 throws first (Webhook.AsWrittenNeverReplies).
- Webhook.TempFileCleanedUp: states the handler with the intended upload. As written, index.js:89 throws first (Webhook.AsWrittenNeverReplies).
- Webhook.SuccessfulScenario: states the handler with the intended upload. As written, index.js:89 throws first (Webhook.AsWrittenNeverReplies).
- Webhook.MissingFileIdRepliesUndefined: states the handler with the intended upload. As written, index.js:89 throws first (Webhook.AsWrittenNeverReplies).
- Webhook.UnconvertibleFileIdFails: states the handler with the intended upload. As written, index.js:89 throws first (Webhook.AsWrittenNeverReplies).
- Steps.UploadImageToChatwork: states the upload as intended. As written, index.js:89 throws first (Steps.UploadAsWritten).
- Machine.Next: states the handler with the intended upload. As written, index.js:89 throws first (Webhook.AsWrittenNeverReplies).
- Machine.RepliedMeansReplyPostedLast: states the handler with the intended upload. As written, index.js:89 throws first (Webhook.AsWrittenNeverReplies).
- Errors are opaque codes. Their messages and `error.response?.data`, which
  are only logged, are not modelled.
