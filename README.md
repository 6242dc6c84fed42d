# kewpie-http gateway, modelled in Dafny

This project models the request-dispatch and decoding layer of the kewpie-http gateway
(`main.go`) and the queue-list configuration (`config/main.go`), and proves properties
of that model. The queue backend (the kewpie library) is an abstract port.

- `Routing` (routing.dfy). The router closure checks the exact paths `/health` and `/healthz`
  first. It then tries the unanchored regular expressions `/queues/.*/publish`, `/subscribe` and
  `/purge`, in that order, and everything else is not found. Each regular expression is modelled
  as a substring condition: "/queues/", then later the suffix, with no newline in the gap
  (RE2's `.` does not match a newline). A computed matcher is proved equal to that condition.
  The queue name is `strings.Split(path, "/")[2]`.
- `Gateway` (gateway.dfy). The publish, subscribe, purge, health and not-found handlers,
  the router, `decodeForm`, `sendPayload` and `errRes`. They are imperative methods
  over a `ResponseWriter` and the port, as in the source. Each one is proved equal to a pure
  function giving the response and the port calls it produces. The lemmas state the gateway's
  promises about those functions.
- `Kewpie` (kewpie.dfy). The `queue` handle is a class that logs every call with its arguments.
  The backend's replies are function-valued fields that may depend on the whole call history,
  so any backend behaviour (including nondeterministic IDs) is one choice of `Backend`.
- `Http` (http.dfy). Requests, `url.Values`/`http.Header` lookup, and the response writer.
  Only the first `WriteHeader` or body write fixes the status. `Encode` either writes its
  payload or, when marshalling fails, writes nothing.
- `Config` (config.dfy). The `init` loop over the `os.Environ()` entries (a parameter) that
  builds `QUEUES`, the empty-list error line, and the `PORT`/`KEWPIE_BACKEND` assignment. The
  integer parser is a parameter.
- `Text`, `Tasks`, `Wrappers`. `strings.Contains`/`Split`, the task record, Option and Result.

Behaviours of `main.go` worth knowing, all modelled as written:

- A successful publish answers 200, because no handler calls `WriteHeader` on success.
  The repository's tests, main_test.go:49,75,98,123, expect 201 from a different variant
  that exposes `Router()`.
- The router never looks at the HTTP method. A request reaches the queue handlers only when
  its path holds "/queues/" followed later, with no newline in between, by "/publish",
  "/subscribe" or "/purge"; nothing anchors either end. Those same tests instead
  route `POST`, `GET` and `DELETE` on `/queues/{name}` (main_test.go:115,184,223).
- The form decoder builds one task from the first value of each key (`Values.Get`).
- A pop on an empty queue writes nothing, so the client gets 200 with an empty body.

`Request.form` is `r.Form` as the handler receives it. `main.go` never calls `ParseForm`, so
a request arriving through `net/http`'s server brings an empty form. By `FormFields`, such a
request publishes a task with an empty body (`EmptyFormIsZeroTask`).

## Model

| member | source | states |
|---|---|---|
| `Routing.Matches` | main.go:26-28 | `MatchString` of `/queues/.*` plus the suffix is true exactly when "/queues/" occurs and the suffix occurs at or after its end with a newline-free gap, in both directions |
| `Routing.Classify` | main.go:31-62 | exactly `/health` and `/healthz` route to Health; otherwise publish beats subscribe, subscribe beats purge, and an unmatched path is NotFound (each an iff over the patterns) |
| `Routing.QueueName` | main.go:109 | `strings.Split(path, "/")[2]`, which never holds a '/'; the subscribe and purge handlers (main.go:148, main.go:164) take the name the same way |
| `Routing.QueueRouteHasQueueName` | main.go:109 | any path routed to publish, subscribe or purge splits on "/" into at least three pieces, so index 2 never faults |
| `Routing.QueueNameOf` | main.go:148 | for `/queues/NAME` followed by nothing or by "/...", the extracted queue name is NAME |
| `Routing.EmptyQueueName` | main.go:164 | the queue name of `/queues//publish` is "" |
| `Routing.EmptySegmentRoutes` | main.go:26 | `/queues//publish` routes to Publish: the gap may be empty |
| `Routing.UnanchoredMatch` | main.go:26 | `/x/queues/a/publish-many` routes to Publish: the match is unanchored at both ends |
| `Routing.PositionalQueueName` | main.go:109 | the name is positional: a path with one leading segment before "/queues/" names the queue "queues" |
| `Routing.PublishBeforeSubscribe` | main.go:42-52 | every path matching both the publish and the subscribe pattern routes to Publish |
| `Routing.SubscribeSegmentPublishes` | main.go:42-52 | `/queues/a/subscribe/publish` matches the subscribe pattern and still routes to Publish |
| `Routing.NoSharedSlash` | main.go:26-28 | `/queues/publish` matches no pattern: the two slashes cannot overlap |
| `Routing.NewlineBlocksMatch` | main.go:26-28 | a newline in the gap defeats the match |
| `Text.Split` | main.go:109 | `strings.Split` yields one more piece than there are separators |
| `Text.JoinSplit` | config/main.go:24 | joining the pieces of `Split` with the separator gives back the string |
| `Text.ContainsMeansOccurs` | config/main.go:23 | `strings.Contains` is true exactly when the substring occurs at some index |
| `Gateway.DecodeForm` | main.go:220-243 | the imperative `decodeForm` returns exactly the form decoding `FormTask` |
| `Gateway.FormErrors` | main.go:223-237 | decoding fails iff a present `delay` or `run_at` does not parse; a bad `delay` yields the "Delay is not a valid duration, eg: 1s" message whatever `run_at` holds; a bad `run_at` yields the "Run At is not a valid RFC3339 string" message |
| `Gateway.EmptyFormIsZeroTask` | main.go:220-243 | an empty form decodes to the zero task |
| `Gateway.FormFields` | main.go:220-243 | Body is the first `body` value or ""; NoExpBackoff iff the first `no_exp_backoff` value is "true"; absent or empty `delay`/`run_at` leave zero, otherwise the parsed value; ID, Attempts and Tags stay zero |
| `Gateway.ErrRes` | main.go:199-218 | `errRes` writes the status, then the content type chosen by `Accept`, then the error envelope |
| `Gateway.ErrorResponseShape` | main.go:202-217 | on a fresh response the status is the given one, the content type follows `Accept`, and the errors list is exactly [{"detail": message}] |
| `Gateway.ErrorAfterWriteKeepsStatus` | main.go:211 | once a body has been written, `errRes` cannot change the status and only appends its envelope |
| `Gateway.SendPayload` | main.go:119-137 | `sendPayload` leaves the response described by `PayloadResponse` |
| `Gateway.PayloadResponseShape` | main.go:119-137 | content type "application/json" in both branches; the task is wrapped as `data` iff `Accept` is exactly the JSON:API type, otherwise sent bare; an encoding failure answers 500 "Error encoding response" |
| `Gateway.PublishHandler` | main.go:75-117 | the handler's response and port calls are those of `PublishOutcome` |
| `Gateway.DecoderChoice` | main.go:78-107 | exact `Content-Type` "application/json" decodes a bare task, "application/vnd.api+json" takes `payload.Data`, anything else uses the form decoder; read errors come before decode errors |
| `Gateway.PublishContract` | main.go:76-116 | a read or decode error answers 400 with no port call; otherwise exactly one Publish with the decoded task; its failure answers 500 "Error handling task" and writes no task; only its success sends the stored task |
| `Gateway.SubscribeHandler` | main.go:147-161 | the handler's response and port calls are those of `SubscribeOutcome` |
| `Gateway.SubscribeContract` | main.go:139-161 | exactly one Pop call; a handed-over task gets the verdict (requeue false, no error); a Pop error with no task answers 500 "Error popping job from queue"; an empty queue writes nothing |
| `Gateway.PopErrorAfterDelivery` | main.go:150-160 | a Pop error after the task was sent keeps status 200 and appends the error envelope after the task |
| `Gateway.PurgeHandler` | main.go:163-180 | the handler's response and port calls are those of `PurgeOutcome` |
| `Gateway.PurgeContract` | main.go:166-179 | a non-empty `matching` value leads to exactly one PurgeMatching call with it, otherwise exactly one Purge call; either failure answers 500 "Error purging queue"; success sends the zero task |
| `Gateway.HealthHandler` | main.go:182-185 | the health handler writes only "ok", which commits status 200 on a fresh response |
| `Gateway.NotFoundHandler` | main.go:193-197 | the not-found handler sets status 404, then writes "Not found" |
| `Gateway.ServeRequest` | main.go:31-62 | the router's response and port calls are those of `ServeOutcome` |
| `Gateway.AtMostOnePortCall` | main.go:31-62 | every request makes at most one port call, appended to the log: none for Health and NotFound, one for Subscribe and Purge, and one for Publish iff decoding succeeded |
| `Gateway.MethodIgnored` | main.go:31-62 | two requests that differ only in their HTTP method are served alike |
| `Http.Get` | main.go:78 | `Header.Get` and `Values.Get` yield "" for a missing key, and any non-empty result is a value stored under the key |
| `Http.ResponseWriter.WriteHeader` | main.go:211 | only the first `WriteHeader` or write fixes the status; later calls change nothing |
| `Http.ResponseWriter.SetHeader` | main.go:212-216 | `Header().Set` replaces the one header value and touches neither status nor body |
| `Http.ResponseWriter.Write` | main.go:183 | `Write` commits 200 unless a status is already fixed, then appends the bytes |
| `Http.ResponseWriter.Encode` | main.go:217 | `json.NewEncoder(w).Encode` returns the marshalling error and writes its payload exactly when marshalling succeeds |
| `Kewpie.Queue.Publish` | main.go:111 | Publish logs one call with the queue name and task, and returns the backend's stored task or error |
| `Kewpie.Queue.Pop` | main.go:157 | Pop logs one call with the handler's verdict on the handed-over task |
| `Kewpie.Queue.Purge` | main.go:173 | Purge logs exactly one full-purge call |
| `Kewpie.Queue.PurgeMatching` | main.go:168 | PurgeMatching logs exactly one call with the given substring |
| `Config.QueuesOfAppend` | config/main.go:22-26 | the queue list of two stretches of the environment is their lists concatenated, so contributions keep environment order |
| `Config.QueueValue` | config/main.go:24 | `strings.Split(entry, "=")[1]` holds no '=' |
| `Config.Contribution` | config/main.go:23-25 | an entry adds at most one queue, and adds one iff it contains "KEWPIE_QUEUE_" |
| `Config.QueuesOf` | config/main.go:22-26 | the queue list is no longer than the environment |
| `Config.QueuesLackSeparator` | config/main.go:22-26 | no queue name in the list holds an '=' |
| `Config.NoMarkerNoQueues` | config/main.go:22-23 | entries without "KEWPIE_QUEUE_" contribute nothing |
| `Config.QueuesOfMembers` | config/main.go:22-24 | a name is in the list iff some entry contains "KEWPIE_QUEUE_" and has that name between its first and second '=' |
| `Config.MarkerAnywhere` | config/main.go:23 | an entry contributes iff "KEWPIE_QUEUE_" occurs anywhere in it, not only as a name prefix |
| `Config.QueueValueOf` | config/main.go:24 | the contributed queue is the text between the first and second '=', so a value containing '=' is truncated |
| `Config.Getenv` | config/main.go:36-42 | `os.Getenv` yields "" when no entry carries the name |
| `Config.GetenvFinds` | config/main.go:36-42 | the value of the first entry named `key` is what `os.Getenv(key)` yields |
| `Config.Settings.Init` | config/main.go:16-43 | `QUEUES` gains the environment's contributions in order; an empty list only adds an error line and initialisation goes on; PORT is the parser's value; a parser error is the panic, otherwise KEWPIE_BACKEND is copied verbatim |

## Left out

- main_test.go: these integration tests need a live backend and exercise a different gateway variant (`Router()`, `/publish-many`, parallel form values), so they are not modelled.
- The kewpie library: persistence, ID assignment, the Delay to RunAt computation and the substring test of PurgeMatching. `Backend` stands for all of them.
- `encoding/json` and `ioutil.ReadAll`: unmarshalling is the abstract `Codecs.unmarshalTask`/`unmarshalPayload`, the read is `Request.body`, and marshalling is `ResponseWriter.encoder`. No JSON text is modelled. An empty Go slice or map is written `[]`/`map[]`, so `null` and `[]` are not told apart.
- `time.ParseDuration` and `time.Parse` with the RFC 3339 format (section 5.6 of RFC 3339): these are the abstract `Codecs.parseDuration` and `Codecs.parseRFC3339`. Duration is an unbounded count of nanoseconds. `Time` is a stand-in record with placeholder fields, and no time arithmetic or comparison is modelled.
- Bootstrap and I/O: `http.Server`/`ListenAndServe` and the `PORT` lookup in `main` (main.go:64-72), `queue.Connect` in `init` (main.go:22-24), request contexts and cancellation.
- Logging: the WARN line of `errRes` (main.go:200) and the INFO line of the config (config/main.go:32). The two ERROR lines of the config are returned as `errorLines`.
- `notImplementedHandler` (main.go:187-191): nothing routes to it.
- net/http header semantics: `errRes` sets Content-Type after `WriteHeader`. The model records the header but makes no claim about what reaches the wire.
- Http.ResponseWriter.Encode: a failed write to the connection is not modelled; only a marshalling failure is. In the source a write to a closed connection still commits 200, so a later `errRes` cannot change that status.
- `required_env.Ensure` in config/main.go is not part of this model. `strconv.Atoi` is the parameter `atoi`, which returns the value it assigns together with its error.
- Characters: strings are sequences of Dafny characters. Go's byte strings, invalid UTF-8 and RE2's rune decoding are not modelled.
- `Config.Getenv` follows the Unix rule (the first entry with the name wins). Windows' case-insensitive names are not modelled.
- Kewpie.Queue.Pop: a method cannot be passed as a callback, so Pop receives the handler's verdict function. The handler's write of the task is done by `Gateway.SubscribeHandler` right after Pop returns, before Pop's error is examined. This is the same order of effects on the writer.
- Gateway.DecodeForm: the partly built task that `decodeForm` returns alongside an error is dropped, because no caller reads it.
- Gateway.PublishHandler: requires the path to split into at least three pieces, which the router guarantees. The source would decode first and only then fault on a shorter path. The same holds for `Gateway.SubscribeHandler` and `Gateway.PurgeHandler`.
- Config.Settings.Init: requires every entry that contains "KEWPIE_QUEUE_" to contain '='. That holds only by convention: `os.Environ()` does not drop entries without '=', and on such an entry the source faults on index 1.
