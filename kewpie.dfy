/**
 * The queue backend (the kewpie library) as an abstract port. The gateway sees only
 * what each call returns; storage, ID assignment and scheduling stay behind the port.
 * Every reply may depend on the whole history of earlier calls, so any backend behaviour,
 * including nondeterministically chosen IDs, is one choice of `Backend`.
 */
module Kewpie {
  import opened Wrappers
  import opened Tasks

  /** What a pop handler returns to the backend: whether to requeue the task, and an error. */
  datatype Verdict = Verdict(requeue: bool, err: Option<string>)

  /** One call the gateway made on the port, with its arguments. */
  datatype Call =
    | PublishCall(queue: string, task: Task)
    | PopCall(queue: string, verdict: Option<Verdict>)   // the handler's verdict, when a task was handed over
    | PurgeCall(queue: string)
    | PurgeMatchingCall(queue: string, substring: string)

  /** The backend's answer to a pop: the task handed to the handler (if any), and the call's error. */
  datatype PopReply = PopReply(task: Option<Task>, err: Option<string>)

  /** The backend's replies, as functions of the calls made so far and of the arguments. */
  datatype Backend = Backend(
    publish: (seq<Call>, string, Task) -> Result<Task, string>,   // the stored task (ID assigned) or the error
    pop: (seq<Call>, string) -> PopReply,
    purge: (seq<Call>, string) -> Option<string>,
    purgeMatching: (seq<Call>, string, string) -> Option<string>)

  /** The package-level `queue` handle. `log` lists the calls made on it, oldest first. */
  class Queue {
    const backend: Backend
    var log: seq<Call>

    constructor (backend: Backend)
      ensures this.backend == backend && log == []
    {
      this.backend := backend;
      log := [];
    }

    /** `queue.Publish(ctx, name, &task)`: on success the task comes back as stored, with its ID. */
    method Publish(name: string, task: Task) returns (r: Result<Task, string>)
      modifies this
      ensures r == backend.publish(old(log), name, task)
      ensures log == old(log) + [PublishCall(name, task)]
    {
      r := backend.publish(log, name, task);
      log := log + [PublishCall(name, task)];
    }

    /**
     * `queue.Pop(ctx, name, handler)`: at most one task is handed to the handler, whose
     * verdict goes back to the backend and is recorded with the call.
     */
    method Pop(name: string, handler: Task -> Verdict) returns (popped: Option<Task>, err: Option<string>)
      modifies this
      ensures PopReply(popped, err) == backend.pop(old(log), name)
      ensures log == old(log) + [PopCall(name, if popped.Some? then Some(handler(popped.value)) else None)]
    {
      var reply := backend.pop(log, name);
      popped, err := reply.task, reply.err;
      log := log + [PopCall(name, if popped.Some? then Some(handler(popped.value)) else None)];
    }

    /** `queue.Purge(ctx, name)`. */
    method Purge(name: string) returns (err: Option<string>)
      modifies this
      ensures err == backend.purge(old(log), name)
      ensures log == old(log) + [PurgeCall(name)]
    {
      err := backend.purge(log, name);
      log := log + [PurgeCall(name)];
    }

    /** `queue.PurgeMatching(ctx, name, substring)`. */
    method PurgeMatching(name: string, substring: string) returns (err: Option<string>)
      modifies this
      ensures err == backend.purgeMatching(old(log), name, substring)
      ensures log == old(log) + [PurgeMatchingCall(name, substring)]
    {
      err := backend.purgeMatching(log, name, substring);
      log := log + [PurgeMatchingCall(name, substring)];
    }
  }
}
