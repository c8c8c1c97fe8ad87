/** The `/webhook` route: validate the payload, drop the ignored sender, react
    only to the trigger phrase, and then run download, upload and reply in
    sequence, answering 500 at the first failure. */
module Webhook {
  import Decimal
  import Reply
  import opened Js
  import opened Effects
  import opened Steps

  /** The account whose messages are acknowledged without any action. */
  const IgnoredAccount: int := 10617115

  /** "Try sending an image": the one message body that starts the pipeline. */
  const TriggerPhrase: string := "画像送ってみて"

  /** How the handler settles: it sends a status, or it throws outside its
      `try`, so that its promise rejects and no status is sent. */
  datatype Answer = Sent(code: nat) | Unhandled(error: Error)

  /** How the handler settled, the effects attempted in order, and the
      temporary files left on disk when it settled. */
  datatype Response = Response(answer: Answer, trace: seq<Effect>, files: set<string>)

  /** What `express.json()` hands the route: an object or an array. */
  predicate IsRequestBody(body: Value) {
    body.Obj? || body.Arr?
  }

  function EventOf(body: Value): Value
    requires IsRequestBody(body)
  {
    Get(body, "webhook_event")
  }

  /** One field of the event; the event must have passed the `!` test. */
  function Field(body: Value, key: string): Value
    requires IsRequestBody(body) && Truthy(EventOf(body))
  {
    Get(EventOf(body), key)
  }

  /** The payload names a sender whose account id is the number 10617115. */
  predicate FromIgnoredSender(body: Value)
    requires IsRequestBody(body)
  {
    Truthy(EventOf(body)) && Field(body, "account_id") == Num(IgnoredAccount)
  }

  /** The payload is valid, not from the ignored sender, and its body is
      exactly the trigger phrase. */
  predicate Triggers(body: Value)
    requires IsRequestBody(body)
  {
    Truthy(EventOf(body)) && !FromIgnoredSender(body) && Field(body, "body") == Str(TriggerPhrase)
  }

  /** A triggering payload whose room and account ids both convert to text,
      so that the log line before the `try` completes. */
  predicate StartsPipeline(body: Value)
    requires IsRequestBody(body)
  {
    Triggers(body) && Printable(Field(body, "room_id")) && Printable(Field(body, "account_id"))
  }

  /** A valid payload from another sender whose log line throws: the trigger
      line with a room or account id that does not convert, or the line for
      any other message with a body that does not convert. */
  predicate LogLineThrows(body: Value)
    requires IsRequestBody(body)
  {
    && Truthy(EventOf(body))
    && !FromIgnoredSender(body)
    && if Triggers(body) then !StartsPipeline(body) else !Printable(Field(body, "body"))
  }

  /** The route handler, with the upload as evidently intended
      (`Steps.UploadImageToChatwork`); `HandleAsWritten` has it as written. */
  function Handle(body: Value, o: Outcomes): (r: Response)
    requires IsRequestBody(body)
    ensures r.answer in {Sent(200), Sent(400), Sent(500), Unhandled(TypeError)}
    ensures r.answer.Unhandled? ==> r.trace == [] && r.files == {}
    ensures r.files <= {TempPath(o.now)}
  {
    var ev := Get(body, "webhook_event");
    if !Truthy(ev) then Response(Sent(400), [], {})
    else
      var accountId := Get(ev, "account_id");
      var text := Get(ev, "body");
      var roomId := Get(ev, "room_id");
      var messageId := Get(ev, "message_id");
      if accountId == Num(IgnoredAccount) then Response(Sent(200), [], {})
      else if text == Str(TriggerPhrase) then
        if !(Printable(roomId) && Printable(accountId)) then Response(Unhandled(TypeError), [], {})
        else Pipeline(accountId, roomId, messageId, o)
      else if !Printable(text) then Response(Unhandled(TypeError), [], {})
      else Response(Sent(200), [], {})
  }

  /** The `try` block: each awaited helper runs only if the previous one
      settled successfully; the `catch` turns any failure into 500. */
  function Pipeline(accountId: Value, roomId: Value, messageId: Value, o: Outcomes): (r: Response)
    ensures r.answer == Sent(200) || r.answer == Sent(500)
    ensures r.answer == Sent(200) ==> |r.trace| == 4 && r.trace[3].PostMessage?
    ensures r.files <= {TempPath(o.now)}
  {
    var d := DownloadRandomImage(Initial, o.now, o.download);
    if d.result.Err? then Response(Sent(500), d.world.trace, d.world.files)
    else
      var u := UploadImageToChatwork(d.world, d.result.value, roomId, o.upload, o.unlink);
      if u.result.Err? then Response(Sent(500), u.world.trace, u.world.files)
      else
        var s := SendFileReply(u.world, u.result.value, accountId, roomId, messageId, o.reply);
        Response(if s.result.Ok? then Sent(200) else Sent(500), s.world.trace, s.world.files)
  }

  /** The `try` block with the upload as written: the upload always throws,
      so the reply is never reached and the `catch` answers 500. */
  function PipelineAsWritten(roomId: Value, o: Outcomes): (r: Response)
    ensures r.answer == Sent(500)
    ensures r.files <= {TempPath(o.now)}
  {
    var d := DownloadRandomImage(Initial, o.now, o.download);
    if d.result.Err? then Response(Sent(500), d.world.trace, d.world.files)
    else
      var u := UploadAsWritten(d.world, d.result.value, roomId, o.upload, o.unlink);
      Response(Sent(500), u.world.trace, u.world.files)
  }

  /** The route handler as written: the same routing as `Handle`, with the
      upload as written once the pipeline starts. */
  function HandleAsWritten(body: Value, o: Outcomes): Response
    requires IsRequestBody(body)
  {
    if StartsPipeline(body) then PipelineAsWritten(Field(body, "room_id"), o) else Handle(body, o)
  }

  // ---- routing ----

  /** 400 exactly when `webhook_event` is missing or falsy, and then nothing
      is attempted. */
  lemma InvalidPayloadRejected(body: Value, o: Outcomes)
    requires IsRequestBody(body)
    ensures Handle(body, o).answer == Sent(400) <==> !Truthy(EventOf(body))
    ensures !Truthy(EventOf(body)) ==> Handle(body, o).trace == [] && Handle(body, o).files == {}
  {
  }

  /** The ignored sender gets 200 and no effect, whatever the message says,
      including the trigger phrase. */
  lemma IgnoredSenderAcknowledged(body: Value, o: Outcomes)
    requires IsRequestBody(body) && FromIgnoredSender(body)
    ensures Handle(body, o) == Response(Sent(200), [], {})
  {
  }

  /** Any other message body causes no effect: it is acknowledged with 200
      when it converts to text for the log line, and otherwise that line
      throws. */
  lemma OtherMessageAcknowledged(body: Value, o: Outcomes)
    requires IsRequestBody(body) && Truthy(EventOf(body)) && !FromIgnoredSender(body)
    requires Field(body, "body") != Str(TriggerPhrase)
    ensures Handle(body, o).trace == [] && Handle(body, o).files == {}
    ensures Handle(body, o).answer
      == if Printable(Field(body, "body")) then Sent(200) else Unhandled(TypeError)
  {
  }

  /** The trigger phrase with a room or account id that does not convert to
      text: the log line before the `try` throws and nothing is attempted. */
  lemma TriggerLogThrows(body: Value, o: Outcomes)
    requires IsRequestBody(body) && Triggers(body) && !StartsPipeline(body)
    ensures Handle(body, o) == Response(Unhandled(TypeError), [], {})
  {
  }

  /** The handler's promise rejects exactly when one of its two log lines
      outside the `try` throws; every other request gets a status. */
  lemma UnhandledOnlyFromLogLines(body: Value, o: Outcomes)
    requires IsRequestBody(body)
    ensures Handle(body, o).answer.Unhandled? <==> LogLineThrows(body)
  {
  }

  /** Some outbound effect is attempted exactly when the payload triggers and
      its log line completes. */
  lemma EffectsOnlyWhenTriggered(body: Value, o: Outcomes)
    requires IsRequestBody(body)
    ensures Handle(body, o).trace != [] <==> StartsPipeline(body)
  {
  }

  // ---- the triggered pipeline ----

  /** The post returned a usable response, so the upload settles with a file id. */
  predicate UploadSettlesOk(o: Outcomes) {
    o.upload.Ok? && !IsNullish(o.upload.value)
  }

  /** The file id the upload hands on to the reply. */
  function UploadedFileId(o: Outcomes): Value
    requires UploadSettlesOk(o)
  {
    Get(o.upload.value, "file_id")
  }

  /** Download and upload succeeded and every identifier of the reply text
      converts, so the reply is posted. */
  predicate ReachesReply(body: Value, o: Outcomes)
    requires IsRequestBody(body)
  {
    && StartsPipeline(body) && o.download.Done? && UploadSettlesOk(o)
    && Reply.Renders(Field(body, "account_id"), Field(body, "room_id"), Field(body, "message_id"),
                     UploadedFileId(o))
  }

  /** Download, upload and reply are attempted in this order and on the
      values each predecessor produced; the first failure stops the sequence,
      and a reply whose text cannot be built is never posted. */
  lemma PipelineOrderAndShortCircuit(body: Value, o: Outcomes)
    requires IsRequestBody(body) && StartsPipeline(body)
    ensures var r := Handle(body, o);
      var path := TempPath(o.now);
      var roomId := Field(body, "room_id");
      && |r.trace| >= 1
      && r.trace[0] == Download(path)
      && (o.download.Failed? ==> |r.trace| == 1)
      && (o.download.Done? ==>
            |r.trace| >= 3
            && r.trace[1] == UploadFile(FilesUrl(roomId), path)
            && r.trace[2] == Unlink(path))
      && (o.download.Done? && !ReachesReply(body, o) ==> |r.trace| == 3)
      && (ReachesReply(body, o) ==>
            |r.trace| == 4
            && r.trace[3] == PostMessage(MessagesUrl(roomId),
                 Reply.ReplyText(Field(body, "account_id"), roomId, Field(body, "message_id"),
                                 UploadedFileId(o))))
  {
  }

  /** On the trigger path the answer is 200 exactly when all three steps
      succeed, and 500 otherwise, even when the image was already uploaded. */
  lemma TriggeredStatus(body: Value, o: Outcomes)
    requires IsRequestBody(body) && StartsPipeline(body)
    ensures Handle(body, o).answer == Sent(200) <==> ReachesReply(body, o) && o.reply.Done?
    ensures Handle(body, o).answer != Sent(200) ==> Handle(body, o).answer == Sent(500)
  {
  }

  /** Once the temporary file exists, it is unlinked exactly once, right
      after the upload attempt, whether that attempt succeeded or not; the
      file is left behind only when that unlink failed. */
  lemma TempFileCleanedUp(body: Value, o: Outcomes)
    requires IsRequestBody(body) && StartsPipeline(body) && o.download.Done?
    ensures var r := Handle(body, o);
      var path := TempPath(o.now);
      && Occurrences(r.trace, Unlink(path)) == 1
      && r.trace[1].UploadFile? && r.trace[2] == Unlink(path)
      && (r.files == {} <==> o.unlink.Done?)
  {
    var r := Handle(body, o);
    PipelineOrderAndShortCircuit(body, o);
    NoLeftoverUnlessUnlinkFailed(body, o);
    UnlinkOnceInTrace(r.trace, TempPath(o.now));
  }

  /** A pipeline trace that unlinks only at its third effect unlinks once. */
  lemma UnlinkOnceInTrace(t: seq<Effect>, path: string)
    requires |t| == 3 || |t| == 4
    requires t[0] == Download(path) && t[1].UploadFile? && t[2] == Unlink(path)
    requires |t| == 4 ==> t[3].PostMessage?
    ensures Occurrences(t, Unlink(path)) == 1
  {
    var head := t[..3];
    assert multiset(head)[Unlink(path)] == 1 by {
      assert head == [t[0], t[1], t[2]];
    }
    if |t| == 4 {
      assert t == head + [t[3]];
    } else {
      assert t == head;
    }
  }

  /** No request leaves a temporary file behind unless an unlink failed. */
  lemma NoLeftoverUnlessUnlinkFailed(body: Value, o: Outcomes)
    requires IsRequestBody(body)
    ensures Handle(body, o).files != {} <==> StartsPipeline(body) && o.download.Done? && o.unlink.Failed?
  {
  }

  /** A failed unlink changes neither the answer nor what was attempted. */
  lemma UnlinkFailureSwallowed(body: Value, o: Outcomes, u: Status)
    requires IsRequestBody(body)
    ensures Handle(body, o.(unlink := u)).answer == Handle(body, o).answer
    ensures Handle(body, o.(unlink := u)).trace == Handle(body, o).trace
  {
  }

  // ---- the handler as written ----

  /** As written, a request that starts the pipeline downloads the image,
      deletes it again and answers 500; nothing is ever uploaded or posted,
      and no request is answered 200 after the trigger. Every other request
      is handled as by `Handle`. */
  lemma AsWrittenNeverReplies(body: Value, o: Outcomes)
    requires IsRequestBody(body)
    ensures var r := HandleAsWritten(body, o);
      var path := TempPath(o.now);
      && (StartsPipeline(body) ==>
            && r.answer == Sent(500)
            && r.trace == (if o.download.Done? then [Download(path), Unlink(path)] else [Download(path)]))
      && (!StartsPipeline(body) ==> r == Handle(body, o) && r.trace == [])
      && (forall i :: 0 <= i < |r.trace| ==> !r.trace[i].UploadFile? && !r.trace[i].PostMessage?)
      && (r.files != {} <==> StartsPipeline(body) && o.download.Done? && o.unlink.Failed?)
  {
    EffectsOnlyWhenTriggered(body, o);
    NoLeftoverUnlessUnlinkFailed(body, o);
  }

  /** The request of `SuccessfulScenario`, every call succeeding, as written:
      500, the image downloaded and deleted, and no reply. */
  lemma SuccessfulScenarioAsWritten(now: nat)
    ensures var o := Outcomes(now, Done, Ok(Obj(map["file_id" := Num(42)])), Done, Done);
      HandleAsWritten(Payload(Num(1), Str(TriggerPhrase), Str("9"), Str("5")), o)
        == Response(Sent(500), [Download(TempPath(now)), Unlink(TempPath(now))], {})
  {
    var o := Outcomes(now, Done, Ok(Obj(map["file_id" := Num(42)])), Done, Done);
    var body := Payload(Num(1), Str(TriggerPhrase), Str("9"), Str("5"));
    assert Field(body, "account_id") == Num(1);
    assert Field(body, "room_id") == Str("9");
    AsWrittenNeverReplies(body, o);
  }

  // ---- concrete requests ----

  function Payload(accountId: Value, text: Value, roomId: Value, messageId: Value): Value {
    Obj(map["webhook_event" := Obj(map[
      "account_id" := accountId, "body" := text,
      "room_id" := roomId, "message_id" := messageId])])
  }

  /** A JSON object whose own `toString` key makes its conversion to text throw. */
  const Unconvertible: Value := Obj(map["toString" := Num(0)])

  /** Account 1 asks for an image in room "9", message "5"; everything
      succeeds and the upload answers file id 42. */
  lemma SuccessfulScenario(now: nat)
    ensures var o := Outcomes(now, Done, Ok(Obj(map["file_id" := Num(42)])), Done, Done);
      var r := Handle(Payload(Num(1), Str(TriggerPhrase), Str("9"), Str("5")), o);
      && r.answer == Sent(200)
      && r.files == {}
      && |r.trace| == 4
      && r.trace[3].body == "[rp aid=1 to=9-5][pname:1]さん\n画像です！\n[file:42]"
  {
    var o := Outcomes(now, Done, Ok(Obj(map["file_id" := Num(42)])), Done, Done);
    var body := Payload(Num(1), Str(TriggerPhrase), Str("9"), Str("5"));
    assert Field(body, "account_id") == Num(1);
    assert Field(body, "room_id") == Str("9");
    assert Field(body, "message_id") == Str("5");
    assert UploadedFileId(o) == Num(42);
    assert TemplateString(Num(42)) == Ok("42") by {
      assert Decimal.NatToString(4) == "4";
      assert Decimal.NatToString(42) == "4" + "2";
      assert Decimal.IntToString(42) == "42";
    }
    SampleReplyText("42", Str("9"), Str("5"), Num(42));
    PipelineOrderAndShortCircuit(body, o);
    TriggeredStatus(body, o);
    NoLeftoverUnlessUnlinkFailed(body, o);
    SampleTexts();
  }

  /** The ignored id only matches as a number: the same digits sent as a
      string do not silence the sender. */
  lemma IgnoredIdIsNumeric(o: Outcomes)
    ensures Handle(Payload(Str("10617115"), Str(TriggerPhrase), Num(9), Num(5)), o).trace != []
    ensures Handle(Payload(Num(10617115), Str(TriggerPhrase), Num(9), Num(5)), o).trace == []
  {
    EffectsOnlyWhenTriggered(Payload(Str("10617115"), Str(TriggerPhrase), Num(9), Num(5)), o);
  }

  /** Validation only tests `webhook_event` for truthiness: a truthy value
      that is not an event object passes it and is acknowledged with 200. */
  lemma TruthyNonObjectEventAccepted(o: Outcomes)
    ensures Handle(Obj(map["webhook_event" := Num(1)]), o) == Response(Sent(200), [], {})
    ensures Handle(Obj(map["webhook_event" := Str("")]), o) == Response(Sent(400), [], {})
  {
  }

  /** A response without `file_id` is not an upload failure: the reply goes
      out with the text "undefined" in the file tag. */
  lemma MissingFileIdRepliesUndefined(o: Outcomes)
    requires o.download.Done? && o.upload == Ok(Obj(map[])) && o.reply.Done?
    ensures var r := Handle(Payload(Num(1), Str(TriggerPhrase), Num(9), Num(5)), o);
      r.answer == Sent(200) && r.trace[3].body == "[rp aid=1 to=9-5][pname:1]さん\n画像です！\n[file:undefined]"
  {
    var body := Payload(Num(1), Str(TriggerPhrase), Num(9), Num(5));
    assert Field(body, "account_id") == Num(1);
    assert Field(body, "room_id") == Num(9);
    assert Field(body, "message_id") == Num(5);
    assert UploadedFileId(o) == Undefined;
    SampleReplyText("undefined", Num(9), Num(5), Undefined);
    PipelineOrderAndShortCircuit(body, o);
    TriggeredStatus(body, o);
    SampleTexts();
  }

  /** A trigger whose room id is an object with its own `toString` key throws
      in the log line: no download, no answer. */
  lemma UnconvertibleRoomIdThrows(o: Outcomes)
    ensures Handle(Payload(Num(1), Str(TriggerPhrase), Unconvertible, Num(5)), o)
         == Response(Unhandled(TypeError), [], {})
  {
    var body := Payload(Num(1), Str(TriggerPhrase), Unconvertible, Num(5));
    assert Field(body, "room_id") == Unconvertible;
  }

  /** Any other message whose body does not convert makes the log line throw. */
  lemma UnconvertibleBodyThrows(o: Outcomes)
    ensures Handle(Payload(Num(1), Unconvertible, Num(9), Num(5)), o)
         == Response(Unhandled(TypeError), [], {})
  {
    var body := Payload(Num(1), Unconvertible, Num(9), Num(5));
    assert Field(body, "body") == Unconvertible;
  }

  /** An uploaded file id that does not convert makes building the reply text
      throw: nothing is posted and the answer is 500, whatever the reply
      outcome would have been. */
  lemma UnconvertibleFileIdFails(o: Outcomes)
    requires o.download.Done? && o.upload == Ok(Obj(map["file_id" := Unconvertible]))
    ensures var r := Handle(Payload(Num(1), Str(TriggerPhrase), Num(9), Num(5)), o);
      r.answer == Sent(500) && |r.trace| == 3 && !r.trace[2].PostMessage?
  {
    var body := Payload(Num(1), Str(TriggerPhrase), Num(9), Num(5));
    assert Field(body, "room_id") == Num(9);
    assert UploadedFileId(o) == Unconvertible;
    PipelineOrderAndShortCircuit(body, o);
    TriggeredStatus(body, o);
  }

  // ---- proof helpers for the literal reply texts above; each keeps one
  // string equality small enough for the solver ----

  /** The reply account 1 sends for message 5 of room 9. */
  lemma SampleReplyText(file: string, roomId: Value, messageId: Value, fileId: Value)
    requires roomId == Str("9") || roomId == Num(9)
    requires messageId == Str("5") || messageId == Num(5)
    requires TemplateString(fileId) == Ok(file)
    ensures Reply.Renders(Num(1), roomId, messageId, fileId)
    ensures Reply.ReplyText(Num(1), roomId, messageId, fileId)
         == "[rp aid=1 to=9-5][pname:1]さん\n画像です！\n[file:" + file + "]"
  {
    assert Text(Num(1)) == "1";
    assert Text(roomId) == "9";
    assert Text(messageId) == "5";
    SampleMessage(file);
  }

  /** Proof helper: the reply for account 1, room 9, message 5 and any file id. */
  lemma SampleMessage(file: string)
    ensures Reply.Message("1", "9", "5", file) == "[rp aid=1 to=9-5][pname:1]さん\n画像です！\n[file:" + file + "]"
  {
    Reply.MessageEndsWithFileId("1", "9", "5", file);
    SampleLead();
  }

  /** Proof helper: the two file ids of the scenarios, spliced into the reply. */
  lemma SampleTexts()
    ensures "[rp aid=1 to=9-5][pname:1]さん\n画像です！\n[file:" + "42" + "]"
         == "[rp aid=1 to=9-5][pname:1]さん\n画像です！\n[file:42]"
    ensures "[rp aid=1 to=9-5][pname:1]さん\n画像です！\n[file:" + "undefined" + "]"
         == "[rp aid=1 to=9-5][pname:1]さん\n画像です！\n[file:undefined]"
  {
  }

  /** Proof helper: the part of the sample reply before the file id. */
  lemma SampleLead()
    ensures Reply.Lead("1", "9", "5") == "[rp aid=1 to=9-5][pname:1]さん\n画像です！\n[file:"
  {
  }
}
