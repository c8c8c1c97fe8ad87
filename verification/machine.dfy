/** The request handler described as a state machine over request stages:
    Received, then Rejected or Validated; from Validated to Ignored,
    NotTriggered or Triggered, or to Thrown when a log line fails; then
    Downloaded, Uploaded and Replied, with Errored reachable from each of the
    three attempts. Each transition makes
    one decision or one awaited call. The handler is exactly this machine run
    to a terminal stage. */
module Machine {
  import opened Js
  import opened Effects
  import opened Steps
  import Webhook

  /** The identifiers the pipeline carries from the validated event. */
  datatype EventIds = EventIds(accountId: Value, roomId: Value, messageId: Value)

  datatype Stage =
    | Received
    | Rejected
    | Validated(event: Value)
    | Ignored
    | NotTriggered
    | Triggered(ids: EventIds)
    | Downloaded(ids: EventIds, path: string)
    | Uploaded(ids: EventIds, fileId: Value)
    | Replied
    | Errored
    | Thrown

  predicate Terminal(s: Stage) {
    s.Rejected? || s.Ignored? || s.NotTriggered? || s.Replied? || s.Errored? || s.Thrown?
  }

  /** How the handler settles in each terminal stage. */
  function AnswerOf(s: Stage): Webhook.Answer
    requires Terminal(s)
  {
    match s
    case Rejected => Webhook.Sent(400)
    case Errored => Webhook.Sent(500)
    case Thrown => Webhook.Unhandled(TypeError)
    case _ => Webhook.Sent(200)
  }

  /** Stages only move forward: the distance to the end of the pipeline. */
  function Rank(s: Stage): nat {
    match s
    case Received => 5
    case Validated(_) => 4
    case Triggered(_) => 3
    case Downloaded(_, _) => 2
    case Uploaded(_, _) => 1
    case _ => 0
  }

  /** A validated event is one `!` lets through. */
  predicate WellFormed(s: Stage) {
    s.Validated? ==> Truthy(s.event)
  }

  /** One transition. A call can fail only out of the three stages that make
      an outbound call, a log line can throw only out of Validated, and no
      stage is ever revisited. */
  function Next(s: Stage, w: World, body: Value, o: Outcomes): (r: (Stage, World))
    requires Webhook.IsRequestBody(body) && WellFormed(s) && !Terminal(s)
    ensures WellFormed(r.0)
    ensures Rank(r.0) < Rank(s)
    ensures r.0.Errored? ==> s.Triggered? || s.Downloaded? || s.Uploaded?
    ensures r.0.Thrown? ==> s.Validated?
    ensures r.1.trace != w.trace ==> s.Triggered? || s.Downloaded? || s.Uploaded?
  {
    match s
    case Received =>
      var ev := Get(body, "webhook_event");
      (if Truthy(ev) then Validated(ev) else Rejected, w)
    case Validated(ev) =>
      var ids := EventIds(Get(ev, "account_id"), Get(ev, "room_id"), Get(ev, "message_id"));
      var text := Get(ev, "body");
      if ids.accountId == Num(Webhook.IgnoredAccount) then (Ignored, w)
      else if text == Str(Webhook.TriggerPhrase) then
        (if Printable(ids.roomId) && Printable(ids.accountId) then Triggered(ids) else Thrown, w)
      else (if Printable(text) then NotTriggered else Thrown, w)
    case Triggered(ids) =>
      var d := DownloadRandomImage(w, o.now, o.download);
      (if d.result.Ok? then Downloaded(ids, d.result.value) else Errored, d.world)
    case Downloaded(ids, path) =>
      var u := UploadImageToChatwork(w, path, ids.roomId, o.upload, o.unlink);
      (if u.result.Ok? then Uploaded(ids, u.result.value) else Errored, u.world)
    case Uploaded(ids, fileId) =>
      var r := SendFileReply(w, fileId, ids.accountId, ids.roomId, ids.messageId, o.reply);
      (if r.result.Ok? then Replied else Errored, r.world)
  }

  /** Runs the machine until it reaches a terminal stage. */
  function Run(s: Stage, w: World, body: Value, o: Outcomes): (r: (Stage, World))
    requires Webhook.IsRequestBody(body) && WellFormed(s)
    ensures Terminal(r.0)
    ensures Terminal(s) ==> r == (s, w)
    decreases Rank(s)
  {
    if Terminal(s) then (s, w)
    else
      var (s', w') := Next(s, w, body, o);
      Run(s', w', body, o)
  }

  /** From Triggered, the machine performs exactly the handler's `try`
      block: the same calls in the same order, settling the same way. */
  lemma PipelineRunsMachine(ids: EventIds, body: Value, o: Outcomes)
    requires Webhook.IsRequestBody(body)
    ensures var (s, w) := Run(Triggered(ids), Initial, body, o);
      Webhook.Pipeline(ids.accountId, ids.roomId, ids.messageId, o)
        == Webhook.Response(AnswerOf(s), w.trace, w.files)
  {
    var d := DownloadRandomImage(Initial, o.now, o.download);
    if d.result.Ok? {
      var u := UploadImageToChatwork(d.world, d.result.value, ids.roomId, o.upload, o.unlink);
      assert Run(Triggered(ids), Initial, body, o) == Run(Downloaded(ids, d.result.value), d.world, body, o);
      if u.result.Ok? {
        assert Run(Downloaded(ids, d.result.value), d.world, body, o)
            == Run(Uploaded(ids, u.result.value), u.world, body, o);
      }
    }
  }

  /** The handler settles as the stage the machine stops in does, and has
      attempted exactly the machine's effects. */
  lemma HandlerRunsMachine(body: Value, o: Outcomes)
    requires Webhook.IsRequestBody(body)
    ensures var (s, w) := Run(Received, Initial, body, o);
      Webhook.Handle(body, o) == Webhook.Response(AnswerOf(s), w.trace, w.files)
  {
    var ev := Get(body, "webhook_event");
    if Truthy(ev) {
      var ids := EventIds(Get(ev, "account_id"), Get(ev, "room_id"), Get(ev, "message_id"));
      assert Run(Received, Initial, body, o) == Run(Validated(ev), Initial, body, o);
      if && ids.accountId != Num(Webhook.IgnoredAccount) && Get(ev, "body") == Str(Webhook.TriggerPhrase)
         && Printable(ids.roomId) && Printable(ids.accountId)
      {
        assert Run(Validated(ev), Initial, body, o) == Run(Triggered(ids), Initial, body, o);
        PipelineRunsMachine(ids, body, o);
      }
    }
  }

  /** A request that reaches Replied answered 200 having posted the reply last. */
  lemma RepliedMeansReplyPostedLast(body: Value, o: Outcomes)
    requires Webhook.IsRequestBody(body)
    requires Run(Received, Initial, body, o).0.Replied?
    ensures var r := Webhook.Handle(body, o);
      r.answer == Webhook.Sent(200) && |r.trace| == 4 && r.trace[3].PostMessage?
  {
    HandlerRunsMachine(body, o);
    Webhook.PipelineOrderAndShortCircuit(body, o);
    Webhook.TriggeredStatus(body, o);
  }
}
