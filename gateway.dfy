/**
 * The handlers of main.go: publish, subscribe ("yolo" pop), purge, health and not-found,
 * the router that picks one of them, form decoding and response shaping.
 *
 * Each handler is a method that works on a ResponseWriter and on the queue port, as the
 * source does; each is proved against a pure function giving the response and the port
 * calls it produces, and the properties of the gateway are lemmas about those functions.
 */
module Gateway {
  import opened Wrappers
  import opened Text
  import opened Tasks
  import opened Http
  import opened Routing
  import opened Kewpie

  const JsonType := "application/json"
  const JsonApiType := "application/vnd.api+json"
  const ContentTypeHeader := "Content-Type"
  const AcceptHeader := "Accept"

  const ReceiveError := "Error receiving payload"
  const DecodeError := "Error decoding payload"
  const DelayError := "Delay is not a valid duration, eg: 1s "
  const RunAtError := "Run At is not a valid RFC3339 string eg: 2006-01-02T15:04:05Z07:00 "
  const PublishError := "Error handling task"
  const EncodeError := "Error encoding response"
  const PopError := "Error popping job from queue"
  const PurgeError := "Error purging queue"

  const BadRequest := 400
  const NotFoundStatus := 404
  const InternalServerError := 500

  /** The foreign parsers the gateway relies on; each yields a value or the error's text. */
  datatype Codecs = Codecs(
    unmarshalTask: seq<Byte> -> Result<Task, string>,          // json.Unmarshal into kewpie.Task{}
    unmarshalPayload: seq<Byte> -> Result<ApiPayload, string>, // json.Unmarshal into jsonAPIPayload{}
    parseDuration: string -> Result<Duration, string>,         // time.ParseDuration
    parseRFC3339: string -> Result<Time, string>)              // time.Parse(time.RFC3339, _)

  function ContentType(r: Request): string { Get(r.header, ContentTypeHeader) }

  function Accept(r: Request): string { Get(r.header, AcceptHeader) }

  /** The result of a handler: the response so far and the calls made on the port so far. */
  datatype Outcome = Outcome(res: Response, log: seq<Call>)

  // ---------------------------------------------------------------------------
  // Form decoding

  /** What `decodeForm` returns for the form `input`: the task, or the error's message. */
  function FormTask(input: Values, c: Codecs): Result<Task, string>
  {
    var delay, runAt := Get(input, "delay"), Get(input, "run_at");
    if delay != "" && c.parseDuration(delay).Err? then
      Err(DelayError + c.parseDuration(delay).error)
    else if runAt != "" && c.parseRFC3339(runAt).Err? then
      Err(RunAtError + c.parseRFC3339(runAt).error)
    else
      Ok(ZeroTask.(
        body := Get(input, "body"),
        delay := if delay == "" then 0 else c.parseDuration(delay).value,
        runAt := if runAt == "" then ZeroTime else c.parseRFC3339(runAt).value,
        noExpBackoff := Get(input, "no_exp_backoff") == "true"))
  }

  /** `decodeForm`: fills a zero task field by field, returning early on a parse error. */
  method DecodeForm(input: Values, c: Codecs) returns (r: Result<Task, string>)
    ensures r == FormTask(input, c)
  {
    var task := ZeroTask;
    var delay := Get(input, "delay");
    if delay != "" {
      var parsed := c.parseDuration(delay);
      if parsed.Err? {
        return Err(DelayError + parsed.error);
      }
      task := task.(delay := parsed.value);
    }
    var runAt := Get(input, "run_at");
    if runAt != "" {
      var parsed := c.parseRFC3339(runAt);
      if parsed.Err? {
        return Err(RunAtError + parsed.error);
      }
      task := task.(runAt := parsed.value);
    }
    task := task.(body := Get(input, "body"));
    task := task.(noExpBackoff := Get(input, "no_exp_backoff") == "true");
    return Ok(task);
  }

  /**
   * An empty form (what a handler receives in `r.Form` when nothing parsed it) decodes
   * to the zero task, so its publish carries an empty body.
   */
  lemma EmptyFormIsZeroTask(c: Codecs)
    ensures FormTask(map[], c) == Ok(ZeroTask)
  {
  }

  /**
   * Decoding fails exactly when a present `delay` or `run_at` does not parse; an
   * unparsable `delay` is reported first, whatever `run_at` holds.
   */
  lemma FormErrors(input: Values, c: Codecs)
    ensures var delay, runAt := Get(input, "delay"), Get(input, "run_at");
      && (FormTask(input, c).Ok? <==>
          (delay == "" || c.parseDuration(delay).Ok?) && (runAt == "" || c.parseRFC3339(runAt).Ok?))
      && (delay != "" && c.parseDuration(delay).Err? ==>
          FormTask(input, c) == Err(DelayError + c.parseDuration(delay).error))
      && ((delay == "" || c.parseDuration(delay).Ok?) && runAt != "" && c.parseRFC3339(runAt).Err? ==>
          FormTask(input, c) == Err(RunAtError + c.parseRFC3339(runAt).error))
  {
  }

  /**
   * A decoded form task takes the first `body` value (or ""), is NoExpBackoff exactly when
   * the first `no_exp_backoff` value is "true", keeps Delay and RunAt at zero when their
   * fields are absent or empty and otherwise holds what the parsers gave, and leaves ID,
   * Attempts and Tags at zero.
   */
  lemma FormFields(input: Values, c: Codecs)
    requires FormTask(input, c).Ok?
    ensures var t := FormTask(input, c).value;
      var delay := if "delay" in input && |input["delay"]| > 0 then input["delay"][0] else "";
      var runAt := if "run_at" in input && |input["run_at"]| > 0 then input["run_at"][0] else "";
      && t.body == (if "body" in input && |input["body"]| > 0 then input["body"][0] else "")
      && (t.noExpBackoff <==> "no_exp_backoff" in input && |input["no_exp_backoff"]| > 0 &&
                              input["no_exp_backoff"][0] == "true")
      && (delay == "" ==> t.delay == 0)
      && (delay != "" ==> c.parseDuration(delay) == Ok(t.delay))
      && (runAt == "" ==> t.runAt == ZeroTime)
      && (runAt != "" ==> c.parseRFC3339(runAt) == Ok(t.runAt))
      && t.id == "" && t.attempts == 0 && t.tags == map[]
  {
  }

  // ---------------------------------------------------------------------------
  // Response shaping

  /** The error envelope: an `errors` list holding the single entry {"detail": message}. */
  function ErrorDocument(message: string): ApiPayload
  {
    ApiPayload([map["detail" := message]], ZeroTask, map[])
  }

  /** What `errRes` leaves in the response. */
  function ErrorResponse(res: Response, encoder: Payload -> Option<string>, accept: string,
                         status: int, message: string): Response
  {
    var contentType := if accept == JsonApiType then JsonApiType else JsonType;
    WithEncoded(WithHeader(WithStatus(res, status), ContentTypeHeader, contentType),
                encoder, ApiJson(ErrorDocument(message)))
  }

  /** The body `sendPayload` encodes: an envelope with `data` for a JSON:API client, else the bare task. */
  function TaskPayload(accept: string, task: Task): Payload
  {
    if accept == JsonApiType then ApiJson(ApiPayload([], task, map[])) else TaskJson(task)
  }

  /** What `sendPayload` leaves in the response. */
  function PayloadResponse(res: Response, encoder: Payload -> Option<string>, accept: string,
                           task: Task): Response
  {
    var p := TaskPayload(accept, task);
    var typed := WithHeader(res, ContentTypeHeader, JsonType);
    if encoder(p).None? then WithWrite(typed, p)
    else ErrorResponse(typed, encoder, accept, InternalServerError, EncodeError)
  }

  /** `errRes`: the status first, then the content type chosen by `Accept`, then the envelope. */
  method ErrRes(w: ResponseWriter, r: Request, status: int, message: string)
    modifies w
    ensures w.State() == ErrorResponse(old(w.State()), w.encoder, Accept(r), status, message)
  {
    var errors: seq<map<string, string>> := [];
    errors := errors + [map["detail" := message]];
    var response := ApiPayload(errors, ZeroTask, map[]);
    assert response == ErrorDocument(message);
    w.WriteHeader(status);
    if Get(r.header, AcceptHeader) == JsonApiType {
      w.SetHeader(ContentTypeHeader, JsonApiType);
    } else {
      w.SetHeader(ContentTypeHeader, JsonType);
    }
    var ignored := w.Encode(ApiJson(response));
  }

  /** `sendPayload`: "application/json" in both branches; the task is wrapped only for a JSON:API `Accept`. */
  method SendPayload(w: ResponseWriter, r: Request, task: Task)
    modifies w
    ensures w.State() == PayloadResponse(old(w.State()), w.encoder, Accept(r), task)
  {
    if Get(r.header, AcceptHeader) == JsonApiType {
      w.SetHeader(ContentTypeHeader, JsonType);
      var payload := ApiPayload([], task, map[]);
      var err := w.Encode(ApiJson(payload));
      if err.Some? {
        ErrRes(w, r, InternalServerError, EncodeError);
        return;
      }
      return;
    }
    w.SetHeader(ContentTypeHeader, JsonType);
    var err := w.Encode(TaskJson(task));
    if err.Some? {
      ErrRes(w, r, InternalServerError, EncodeError);
      return;
    }
  }

  /**
   * On an untouched response, `errRes` sets the given status, picks the content type from
   * `Accept`, and writes an envelope whose error list is exactly [{"detail": message}].
   */
  lemma ErrorResponseShape(encoder: Payload -> Option<string>, accept: string, status: int, message: string)
    ensures var res := ErrorResponse(Unwritten, encoder, accept, status, message);
      && res.status == status
      && res.header[ContentTypeHeader] == (if accept == JsonApiType then JsonApiType else JsonType)
      && (encoder(ApiJson(ErrorDocument(message))).None? ==>
            |res.written| == 1 && res.written[0].ApiJson? &&
            res.written[0].doc.errors == [map["detail" := message]])
      && (encoder(ApiJson(ErrorDocument(message))).Some? ==> res.written == [])
  {
  }

  /**
   * On an untouched response, `sendPayload` answers 200 with content type "application/json"
   * and writes the task as `data` of an envelope exactly when `Accept` is the JSON:API type;
   * when encoding fails it answers 500 "Error encoding response" instead.
   */
  lemma PayloadResponseShape(encoder: Payload -> Option<string>, accept: string, task: Task)
    ensures var res := PayloadResponse(Unwritten, encoder, accept, task);
      var p := TaskPayload(accept, task);
      && (encoder(p).None? ==>
            res.status == 200 && res.header[ContentTypeHeader] == JsonType && res.written == [p])
      && (encoder(p).Some? ==>
            res.status == InternalServerError &&
            res.header[ContentTypeHeader] == (if accept == JsonApiType then JsonApiType else JsonType) &&
            res.written == (if encoder(ApiJson(ErrorDocument(EncodeError))).None?
                            then [ApiJson(ErrorDocument(EncodeError))] else []))
      && (p.ApiJson? <==> accept == JsonApiType)
      && (p.ApiJson? ==> p.doc.data == task && p.doc.errors == [])
      && (p.TaskJson? ==> p.task == task)
  {
  }

  /** Once a body has been written, a later `errRes` cannot change the status; it only appends its envelope. */
  lemma ErrorAfterWriteKeepsStatus(res: Response, encoder: Payload -> Option<string>, accept: string,
                                   status: int, message: string)
    requires res.committed
    ensures ErrorResponse(res, encoder, accept, status, message).status == res.status
    ensures ErrorResponse(res, encoder, accept, status, message).written ==
            res.written + (if encoder(ApiJson(ErrorDocument(message))).None? then [ApiJson(ErrorDocument(message))] else [])
  {
  }

  // ---------------------------------------------------------------------------
  // Publish

  /** The task the publish handler passes to the port, or the message of its 400 answer. */
  function PublishTask(r: Request, c: Codecs): Result<Task, string>
  {
    if ContentType(r) == JsonType then
      match r.body
      case Err(_) => Err(ReceiveError)
      case Ok(bytes) =>
        (match c.unmarshalTask(bytes)
         case Err(_) => Err(DecodeError)
         case Ok(t) => Ok(t))
    else if ContentType(r) == JsonApiType then
      match r.body
      case Err(_) => Err(ReceiveError)
      case Ok(bytes) =>
        (match c.unmarshalPayload(bytes)
         case Err(_) => Err(DecodeError)
         case Ok(payload) => Ok(payload.data))
    else
      FormTask(r.form, c)
  }

  /** Response and port calls of the publish handler. */
  function PublishOutcome(res: Response, log: seq<Call>, b: Backend, encoder: Payload -> Option<string>,
                          r: Request, c: Codecs): Outcome
    requires |Split(r.path, '/')| >= 3
  {
    match PublishTask(r, c)
    case Err(message) => Outcome(ErrorResponse(res, encoder, Accept(r), BadRequest, message), log)
    case Ok(task) =>
      var name := QueueName(r.path);
      var calls := log + [PublishCall(name, task)];
      match b.publish(log, name, task)
      case Err(_) => Outcome(ErrorResponse(res, encoder, Accept(r), InternalServerError, PublishError), calls)
      case Ok(stored) => Outcome(PayloadResponse(res, encoder, Accept(r), stored), calls)
  }

  /** `publishHandler`. */
  method PublishHandler(w: ResponseWriter, q: Queue, r: Request, c: Codecs)
    requires |Split(r.path, '/')| >= 3
    modifies w, q
    ensures Outcome(w.State(), q.log) == PublishOutcome(old(w.State()), old(q.log), q.backend, w.encoder, r, c)
  {
    var task := ZeroTask;
    if Get(r.header, ContentTypeHeader) == JsonType {
      if r.body.Err? {
        ErrRes(w, r, BadRequest, ReceiveError);
        return;
      }
      var decoded := c.unmarshalTask(r.body.value);
      if decoded.Err? {
        ErrRes(w, r, BadRequest, DecodeError);
        return;
      }
      task := decoded.value;
    } else if Get(r.header, ContentTypeHeader) == JsonApiType {
      if r.body.Err? {
        ErrRes(w, r, BadRequest, ReceiveError);
        return;
      }
      var payload := c.unmarshalPayload(r.body.value);
      if payload.Err? {
        ErrRes(w, r, BadRequest, DecodeError);
        return;
      }
      task := payload.value.data;
    } else {
      var decoded := DecodeForm(r.form, c);
      if decoded.Err? {
        ErrRes(w, r, BadRequest, decoded.error);
        return;
      }
      task := decoded.value;
    }

    var queueName := QueueName(r.path);
    var published := q.Publish(queueName, task);
    if published.Err? {
      ErrRes(w, r, InternalServerError, PublishError);
      return;
    }
    SendPayload(w, r, published.value);
  }

  /**
   * The decoder is chosen by exact equality on `Content-Type`: "application/json" decodes a
   * bare task, "application/vnd.api+json" takes the envelope's `data`, anything else goes
   * through the form decoder. For the two JSON types a read error comes before decoding.
   */
  lemma DecoderChoice(r: Request, c: Codecs)
    ensures ContentType(r) == JsonType && r.body.Ok? && c.unmarshalTask(r.body.value).Ok? ==>
            PublishTask(r, c) == Ok(c.unmarshalTask(r.body.value).value)
    ensures ContentType(r) == JsonApiType && r.body.Ok? && c.unmarshalPayload(r.body.value).Ok? ==>
            PublishTask(r, c) == Ok(c.unmarshalPayload(r.body.value).value.data)
    ensures (ContentType(r) == JsonType || ContentType(r) == JsonApiType) && r.body.Err? ==>
            PublishTask(r, c) == Err(ReceiveError)
    ensures ContentType(r) == JsonType && r.body.Ok? && c.unmarshalTask(r.body.value).Err? ==>
            PublishTask(r, c) == Err(DecodeError)
    ensures ContentType(r) == JsonApiType && r.body.Ok? && c.unmarshalPayload(r.body.value).Err? ==>
            PublishTask(r, c) == Err(DecodeError)
    ensures ContentType(r) != JsonType && ContentType(r) != JsonApiType ==>
            PublishTask(r, c) == FormTask(r.form, c)
  {
  }

  /**
   * Publish outcome: a read or decode error answers 400 and never calls the port; otherwise
   * the port's Publish is called exactly once with the decoded task; its failure answers
   * 500 "Error handling task" and writes no task; only its success sends the stored task.
   */
  lemma PublishContract(log: seq<Call>, b: Backend, encoder: Payload -> Option<string>, r: Request, c: Codecs)
    requires |Split(r.path, '/')| >= 3
    ensures var out := PublishOutcome(Unwritten, log, b, encoder, r, c);
      match PublishTask(r, c)
      case Err(message) =>
        && out.log == log
        && out.res.status == BadRequest
        && out.res.written == (if encoder(ApiJson(ErrorDocument(message))).None?
                               then [ApiJson(ErrorDocument(message))] else [])
      case Ok(task) =>
        && out.log == log + [PublishCall(QueueName(r.path), task)]
        && (b.publish(log, QueueName(r.path), task).Err? ==>
              out.res.status == InternalServerError &&
              out.res.written == (if encoder(ApiJson(ErrorDocument(PublishError))).None?
                                  then [ApiJson(ErrorDocument(PublishError))] else []))
        && (b.publish(log, QueueName(r.path), task).Ok? ==>
              out.res == PayloadResponse(Unwritten, encoder, Accept(r), b.publish(log, QueueName(r.path), task).value))
  {
  }

  // ---------------------------------------------------------------------------
  // Subscribe

  /** The pop handler's answer to the backend (`handleFunc` of the yolo handler): never requeue, no error. */
  function YoloVerdict(task: Task): Verdict
  {
    Verdict(false, None)
  }

  /** Response and port calls of the subscribe handler. */
  function SubscribeOutcome(res: Response, log: seq<Call>, b: Backend, encoder: Payload -> Option<string>,
                            r: Request): Outcome
    requires |Split(r.path, '/')| >= 3
  {
    var name := QueueName(r.path);
    var reply := b.pop(log, name);
    var calls := log + [PopCall(name, if reply.task.Some? then Some(YoloVerdict(reply.task.value)) else None)];
    var sent := if reply.task.Some? then PayloadResponse(res, encoder, Accept(r), reply.task.value) else res;
    Outcome(if reply.err.Some? then ErrorResponse(sent, encoder, Accept(r), InternalServerError, PopError) else sent,
            calls)
  }

  /**
   * `subscribeHandler`. The yolo handler's write of the popped task (`sendPayload`, made
   * from inside Pop in the source) happens here right after Pop hands the task over and
   * before Pop's own error is looked at, which is the order the source produces.
   */
  method SubscribeHandler(w: ResponseWriter, q: Queue, r: Request)
    requires |Split(r.path, '/')| >= 3
    modifies w, q
    ensures Outcome(w.State(), q.log) == SubscribeOutcome(old(w.State()), old(q.log), q.backend, w.encoder, r)
  {
    var queueName := QueueName(r.path);
    var popped, err := q.Pop(queueName, YoloVerdict);
    if popped.Some? {
      SendPayload(w, r, popped.value);
    }
    if err.Some? {
      ErrRes(w, r, InternalServerError, PopError);
      return;
    }
  }

  /**
   * Subscribe makes exactly one Pop call; a handed-over task is never requeued and the
   * handler reports no error. A Pop error with nothing handed over answers 500 "Error popping
   * job from queue"; an empty queue leaves the response untouched (200, empty body); a
   * task popped without error is sent as by sendPayload.
   */
  lemma SubscribeContract(log: seq<Call>, b: Backend, encoder: Payload -> Option<string>, r: Request)
    requires |Split(r.path, '/')| >= 3
    ensures var name, reply := QueueName(r.path), b.pop(log, QueueName(r.path));
      var out := SubscribeOutcome(Unwritten, log, b, encoder, r);
      && |out.log| == |log| + 1 && out.log[..|log|] == log
      && out.log[|log|].PopCall? && out.log[|log|].queue == name
      && (out.log[|log|].verdict.Some? <==> reply.task.Some?)
      && (out.log[|log|].verdict.Some? ==> out.log[|log|].verdict == Some(Verdict(false, None)))
      && (reply.task.None? && reply.err.Some? ==>
            out.res.status == InternalServerError &&
            out.res.written == (if encoder(ApiJson(ErrorDocument(PopError))).None?
                                then [ApiJson(ErrorDocument(PopError))] else []))
      && (reply.task.None? && reply.err.None? ==> out.res == Unwritten)
      && (reply.task.Some? && reply.err.None? ==>
            out.res == PayloadResponse(Unwritten, encoder, Accept(r), reply.task.value))
  {
    var out := SubscribeOutcome(Unwritten, log, b, encoder, r);
    assert out.log[..|log|] == log;
  }

  /**
   * A Pop that fails after the task was handed over and sent cannot change the 200 status
   * already committed: the client receives the task followed by the error envelope.
   */
  lemma PopErrorAfterDelivery(log: seq<Call>, b: Backend, encoder: Payload -> Option<string>, r: Request)
    requires |Split(r.path, '/')| >= 3
    requires b.pop(log, QueueName(r.path)).task.Some? && b.pop(log, QueueName(r.path)).err.Some?
    requires encoder(TaskPayload(Accept(r), b.pop(log, QueueName(r.path)).task.value)).None?
    requires encoder(ApiJson(ErrorDocument(PopError))).None?
    ensures var out := SubscribeOutcome(Unwritten, log, b, encoder, r);
      && out.res.status == 200
      && out.res.written == [TaskPayload(Accept(r), b.pop(log, QueueName(r.path)).task.value),
                             ApiJson(ErrorDocument(PopError))]
  {
  }

  // ---------------------------------------------------------------------------
  // Purge

  /** Response and port calls of the purge handler. */
  function PurgeOutcome(res: Response, log: seq<Call>, b: Backend, encoder: Payload -> Option<string>,
                        r: Request): Outcome
    requires |Split(r.path, '/')| >= 3
  {
    var name := QueueName(r.path);
    var matching := Get(r.query, "matching");
    var call := if matching != "" then PurgeMatchingCall(name, matching) else PurgeCall(name);
    var err := if matching != "" then b.purgeMatching(log, name, matching) else b.purge(log, name);
    Outcome(if err.Some? then ErrorResponse(res, encoder, Accept(r), InternalServerError, PurgeError)
            else PayloadResponse(res, encoder, Accept(r), ZeroTask),
            log + [call])
  }

  /** `purgeHandler`. */
  method PurgeHandler(w: ResponseWriter, q: Queue, r: Request)
    requires |Split(r.path, '/')| >= 3
    modifies w, q
    ensures Outcome(w.State(), q.log) == PurgeOutcome(old(w.State()), old(q.log), q.backend, w.encoder, r)
  {
    var queueName := QueueName(r.path);
    var matching := Get(r.query, "matching");
    if matching != "" {
      var err := q.PurgeMatching(queueName, matching);
      if err.Some? {
        ErrRes(w, r, InternalServerError, PurgeError);
        return;
      }
    } else {
      var err := q.Purge(queueName);
      if err.Some? {
        ErrRes(w, r, InternalServerError, PurgeError);
        return;
      }
    }
    SendPayload(w, r, ZeroTask);
  }

  /**
   * A non-empty `matching` query value leads to exactly one PurgeMatching call with that
   * string, otherwise to exactly one Purge call; either failure answers 500 "Error purging
   * queue"; success sends the zero task.
   */
  lemma PurgeContract(log: seq<Call>, b: Backend, encoder: Payload -> Option<string>, r: Request)
    requires |Split(r.path, '/')| >= 3
    ensures var name, matching := QueueName(r.path), Get(r.query, "matching");
      var out := PurgeOutcome(Unwritten, log, b, encoder, r);
      var err := if matching != "" then b.purgeMatching(log, name, matching) else b.purge(log, name);
      && (matching != "" ==> out.log == log + [PurgeMatchingCall(name, matching)])
      && (matching == "" ==> out.log == log + [PurgeCall(name)])
      && (err.Some? ==> out.res.status == InternalServerError &&
                        out.res.written == (if encoder(ApiJson(ErrorDocument(PurgeError))).None?
                                            then [ApiJson(ErrorDocument(PurgeError))] else []))
      && (err.None? ==> out.res == PayloadResponse(Unwritten, encoder, Accept(r), ZeroTask))
  {
  }

  // ---------------------------------------------------------------------------
  // Health, not found, and the router

  /** `healthHandler`: writes "ok", so the status is 200. */
  method HealthHandler(w: ResponseWriter)
    modifies w
    ensures w.State() == WithWrite(old(w.State()), RawText("ok"))
  {
    w.Write(RawText("ok"));
  }

  /** `notFoundHandler`: 404 and "Not found". */
  method NotFoundHandler(w: ResponseWriter)
    modifies w
    ensures w.State() == WithWrite(WithStatus(old(w.State()), NotFoundStatus), RawText("Not found"))
  {
    w.WriteHeader(NotFoundStatus);
    w.Write(RawText("Not found"));
  }

  /** Response and port calls of the router for request `r`. */
  function ServeOutcome(res: Response, log: seq<Call>, b: Backend, encoder: Payload -> Option<string>,
                        r: Request, c: Codecs): Outcome
  {
    match Classify(r.path)
    case Health => Outcome(WithWrite(res, RawText("ok")), log)
    case Publish => QueueRouteHasQueueName(r.path); PublishOutcome(res, log, b, encoder, r, c)
    case Subscribe => QueueRouteHasQueueName(r.path); SubscribeOutcome(res, log, b, encoder, r)
    case Purge => QueueRouteHasQueueName(r.path); PurgeOutcome(res, log, b, encoder, r)
    case NotFound => Outcome(WithWrite(WithStatus(res, NotFoundStatus), RawText("Not found")), log)
  }

  /** The router closure of `main`. */
  method ServeRequest(w: ResponseWriter, q: Queue, r: Request, c: Codecs)
    modifies w, q
    ensures Outcome(w.State(), q.log) == ServeOutcome(old(w.State()), old(q.log), q.backend, w.encoder, r, c)
  {
    if r.path == "/health" {
      HealthHandler(w);
      return;
    }
    if r.path == "/healthz" {
      HealthHandler(w);
      return;
    }
    if Matches(r.path, PublishSuffix) {
      QueueRouteHasQueueName(r.path);
      PublishHandler(w, q, r, c);
      return;
    }
    if Matches(r.path, SubscribeSuffix) {
      QueueRouteHasQueueName(r.path);
      SubscribeHandler(w, q, r);
      return;
    }
    if Matches(r.path, PurgeSuffix) {
      QueueRouteHasQueueName(r.path);
      PurgeHandler(w, q, r);
      return;
    }
    NotFoundHandler(w);
  }

  /**
   * Every request makes at most one port call, and only the queue routes make one: Health
   * and NotFound make none, Subscribe and Purge exactly one, Publish one unless decoding
   * failed. Health answers 200 "ok" and NotFound 404 "Not found" on an untouched response.
   */
  lemma AtMostOnePortCall(log: seq<Call>, b: Backend, encoder: Payload -> Option<string>, r: Request, c: Codecs)
    ensures var out := ServeOutcome(Unwritten, log, b, encoder, r, c);
      && log <= out.log && |out.log| <= |log| + 1
      && (Classify(r.path) == Health ==> out.log == log && out.res.status == 200 && out.res.written == [RawText("ok")])
      && (Classify(r.path) == NotFound ==> out.log == log && out.res.status == NotFoundStatus &&
                                           out.res.written == [RawText("Not found")])
      && (Classify(r.path) == Subscribe || Classify(r.path) == Purge ==> |out.log| == |log| + 1)
      && (Classify(r.path) == Publish ==> (|out.log| == |log| + 1 <==> PublishTask(r, c).Ok?))
  {
  }

  /** The HTTP method is never consulted: two requests that differ only in their method are served alike. */
  lemma MethodIgnored(res: Response, log: seq<Call>, b: Backend, encoder: Payload -> Option<string>,
                      r: Request, verb: string, c: Codecs)
    ensures ServeOutcome(res, log, b, encoder, r.(verb := verb), c) == ServeOutcome(res, log, b, encoder, r, c)
  {
  }
}
