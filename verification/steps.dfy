/** The three awaited helpers of the webhook handler: download to a temporary
    file, upload with guaranteed cleanup, and the reply post. */
module Steps {
  import Decimal
  import Reply
  import opened Js
  import opened Effects

  const ImageUrl: string := "https://pic.re/image"
  const RoomsUrl: string := "https://api.chatwork.com/v2/rooms/"

  /** The directory and name prefix of every temporary image file. */
  const TempPrefix: string := "/tmp/image_"

  /** `path.join('/tmp', `image_${Date.now()}.jpg`)`: the prefix, the clock
      reading in canonical decimal, and the `.jpg` extension. */
  function TempPath(now: nat): (p: string)
    ensures |TempPrefix| + 4 < |p|
    ensures p[..|TempPrefix|] == TempPrefix && p[|p| - 4..] == ".jpg"
    ensures Decimal.IsCanonical(p[|TempPrefix|..|p| - 4])
    ensures Decimal.ParseDigits(p[|TempPrefix|..|p| - 4]) == now
  {
    var digits := Decimal.NatToString(now);
    Decimal.ParsePrinted(now);
    var p := TempPrefix + digits + ".jpg";
    assert p[|TempPrefix|..|p| - 4] == digits;
    p
  }

  /** The upload endpoint of a room whose id converts to text. */
  function FilesUrl(roomId: Value): string
    requires Printable(roomId)
  {
    RoomsUrl + Text(roomId) + "/files"
  }

  /** The message endpoint of a room whose id converts to text. */
  function MessagesUrl(roomId: Value): string
    requires Printable(roomId)
  {
    RoomsUrl + Text(roomId) + "/messages"
  }

  /** Requests made at different milliseconds use different temporary files. */
  lemma TempPathInjective(a: nat, b: nat)
    ensures TempPath(a) == TempPath(b) <==> a == b
  {
  }

  /** `downloadRandomImage()`: fetch the image and write it to a fresh
      temporary file; the error of either call is rethrown unchanged. */
  function DownloadRandomImage(w: World, now: nat, outcome: Status): (s: Step<string>)
    ensures s.world.trace == w.trace + [Download(TempPath(now))]
    ensures s.result.Ok? <==> outcome.Done?
    ensures outcome.Failed? ==> s.result.error == outcome.error && s.world.files == w.files
    ensures outcome.Done? ==> s.result.value == TempPath(now)
                              && s.world.files == w.files + {TempPath(now)}
  {
    var path := TempPath(now);
    var w' := w.(trace := w.trace + [Download(path)]);
    match outcome
    case Done => Step(Ok(path), w'.(files := w'.files + {path}))
    case Failed(e) => Step(Err(e), w')
  }

  /** `return response.data.file_id`: `undefined` when the field is absent,
      a TypeError when the response carried no data at all. */
  function FileIdOf(data: Value): (r: Result<Value>)
    ensures r.Err? <==> IsNullish(data)
    ensures r.Err? ==> r.error == TypeError
    ensures data.Obj? && "file_id" in data.fields ==> r == Ok(data.fields["file_id"])
    ensures !IsNullish(data) && !(data.Obj? && "file_id" in data.fields) ==> r == Ok(Undefined)
  {
    if IsNullish(data) then Err(TypeError) else Ok(Get(data, "file_id"))
  }

  /** The `finally` block: one unlink attempt whose failure is swallowed. */
  function Cleanup(w: World, path: string, outcome: Status): (w': World)
    ensures w'.trace == w.trace + [Unlink(path)]
    ensures path in w'.files <==> path in w.files && outcome.Failed?
    ensures w'.files - {path} == w.files - {path}
  {
    World(w.trace + [Unlink(path)], if outcome.Done? then w.files - {path} else w.files)
  }

  /** `uploadImageToChatwork(filePath, roomId)` as written. The module-level
      `fs` is the promise API (index.js:3), which has no `createReadStream`,
      so building the form (index.js:89) throws a TypeError on every call,
      before the URL is built or anything is posted. The `finally` still
      deletes the file once. */
  function UploadAsWritten(w: World, path: string, roomId: Value,
                           post: Result<Value>, unlink: Status): (s: Step<Value>)
    ensures s.result == Err(TypeError)
    ensures s.world.trace == w.trace + [Unlink(path)]
    ensures path in s.world.files <==> path in w.files && unlink.Failed?
    ensures s.world.files - {path} == w.files - {path}
  {
    Step(Err(TypeError), Cleanup(w, path, unlink))
  }

  /** `uploadImageToChatwork(filePath, roomId)` as evidently intended, with
      the file streamed by `createReadStream` of the callback `fs` module:
      build the room's upload URL and post the file; whatever happens inside
      the `try`, delete the file once, afterwards; then return the file id,
      or rethrow the error. A room id that does not convert to text throws
      before the post. */
  function UploadImageToChatwork(w: World, path: string, roomId: Value,
                                 post: Result<Value>, unlink: Status): (s: Step<Value>)
    ensures !Printable(roomId) ==> s.result == Err(TypeError) && s.world.trace == w.trace + [Unlink(path)]
    ensures Printable(roomId) ==>
      s.world.trace == w.trace + [UploadFile(FilesUrl(roomId), path), Unlink(path)]
    ensures Printable(roomId) && post.Err? ==> s.result == Err(post.error)
    ensures Printable(roomId) && post.Ok? ==> s.result == FileIdOf(post.value)
    ensures path in s.world.files <==> path in w.files && unlink.Failed?
    ensures s.world.files - {path} == w.files - {path}
  {
    if !Printable(roomId) then Step(Err(TypeError), Cleanup(w, path, unlink))
    else
      var posted := w.(trace := w.trace + [UploadFile(FilesUrl(roomId), path)]);
      var result := match post
        case Ok(data) => FileIdOf(data)
        case Err(e) => Err(e);
      Step(result, Cleanup(posted, path, unlink))
  }

  /** `sendFileReply(fileId, { accountId, roomId, messageId })`: build the
      reply text and post it to the originating room; an identifier that
      does not convert to text throws before the post, and a failed post is
      rethrown unchanged. */
  function SendFileReply(w: World, fileId: Value, accountId: Value, roomId: Value,
                         messageId: Value, outcome: Status): (s: Step<()>)
    ensures s.world.files == w.files
    ensures !Reply.Renders(accountId, roomId, messageId, fileId) ==> s == Step(Err(TypeError), w)
    ensures Reply.Renders(accountId, roomId, messageId, fileId) ==>
      s.world.trace == w.trace + [PostMessage(MessagesUrl(roomId), Reply.ReplyText(accountId, roomId, messageId, fileId))]
    ensures s.result.Ok? <==> Reply.Renders(accountId, roomId, messageId, fileId) && outcome.Done?
    ensures Reply.Renders(accountId, roomId, messageId, fileId) && outcome.Failed? ==>
      s.result == Err(outcome.error)
  {
    if !Reply.Renders(accountId, roomId, messageId, fileId) then Step(Err(TypeError), w)
    else
      var text := Reply.ReplyText(accountId, roomId, messageId, fileId);
      var w' := w.(trace := w.trace + [PostMessage(MessagesUrl(roomId), text)]);
      match outcome
      case Done => Step(Ok(()), w')
      case Failed(e) => Step(Err(e), w')
  }

  /** The unlink outcome never changes what the upload returns or what it
      attempted: only whether the temporary file survives. */
  lemma UploadIgnoresUnlinkOutcome(w: World, path: string, roomId: Value,
                                   post: Result<Value>, u1: Status, u2: Status)
    ensures UploadImageToChatwork(w, path, roomId, post, u1).result
         == UploadImageToChatwork(w, path, roomId, post, u2).result
    ensures UploadImageToChatwork(w, path, roomId, post, u1).world.trace
         == UploadImageToChatwork(w, path, roomId, post, u2).world.trace
  {
  }
}
