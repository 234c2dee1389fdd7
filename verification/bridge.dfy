/**
 * `WorkerBridge` of the newer package (`packages/wandler/worker/bridge.ts`): the main-thread end
 * of a worker. It keeps one pending handler per correlation id, hands every inbound frame to an
 * optional external handler first, settles a request's promise from the frames that carry its
 * id, and broadcasts a worker fault to every pending request.
 *
 * Each `sendMessage` call is numbered (its "ticket"); the handler map holds tickets, and the
 * promise of each request is settled at most once, by the first frame that reaches it.
 */
module Bridge {
  import opened Types
  import opened Strings
  import opened Protocol

  /** How the promise of one `sendMessage` settled. */
  datatype Settlement = Resolved(frame: Frame) | Rejected(error: Payload)

  /** What a bridge is built from, for the creation error message. */
  datatype WorkerSource = UrlString(url: string) | UrlObject(href: string) | WorkerObject

  /** The error the constructor raises when the worker cannot be created. */
  function CreationError(source: WorkerSource, message: string): (e: ErrorInfo)
    ensures e.name == "Error"
    ensures source.WorkerObject? ==> e.message == "Failed to create worker from provided Worker instance: " + message
    ensures source.UrlString? ==> e.message == "Failed to create worker from " + source.url + ": " + message
    ensures source.UrlObject? ==> e.message == "Failed to create worker from " + source.href + ": " + message
  {
    match source
    case UrlString(url) => PlainError("Failed to create worker from " + url + ": " + message)
    case UrlObject(href) => PlainError("Failed to create worker from " + href + ": " + message)
    case WorkerObject => PlainError("Failed to create worker from provided Worker instance: " + message)
  }

  const TerminatedMessage: string := "Worker has been terminated"

  /** A worker-level fault (`ErrorEvent`). */
  datatype Fault = Fault(error: Option<ErrorInfo>, message: string, filename: string, lineno: nat, colno: nat)

  /** `e.error || new Error(errorMessage)`: what every pending handler is told about a fault. */
  function FaultPayload(f: Fault): (p: Payload)
    ensures f.error.Some? ==> p == ErrorPayload(f.error.value, true)
    ensures f.error.None? ==> p == ErrorPayload(PlainError(
      "Worker error: " + f.message + ". File: " + f.filename + ", Line: " + Decimal(f.lineno) + ", Col: " + Decimal(f.colno)), true)
  {
    if f.error.Some? then ErrorPayload(f.error.value, true)
    else ErrorPayload(PlainError(
      "Worker error: " + f.message + ". File: " + f.filename + ", Line: " + Decimal(f.lineno) + ", Col: " + Decimal(f.colno)), true)
  }

  /**
   * What the handler `sendMessage` registers does with a frame: an `error` frame rejects with its
   * payload, any other frame resolves with the frame. An `Error` payload is rebuilt with the same
   * message, name and code, which leaves the payload as it was.
   */
  function Settle(frame: Frame): (s: Settlement)
    ensures s.Rejected? <==> frame.kind == ErrorFrame
    ensures s.Rejected? ==> s.error == frame.payload
    ensures s.Resolved? ==> s.frame == frame
  {
    if frame.kind == ErrorFrame then Rejected(frame.payload) else Resolved(frame)
  }

  /** Stream and progress frames keep their handler; every other frame is the last one for its id. */
  predicate KeepsHandler(kind: FrameKind)
  {
    kind == StreamFrame || kind == ProgressFrame
  }

  /** The handler map after a frame. */
  function AfterFrame(handlers: map<string, nat>, frame: Frame): (h: map<string, nat>)
    ensures forall id :: id != frame.id ==> (id in h <==> id in handlers) && (id in h ==> h[id] == handlers[id])
    ensures frame.id in h <==> frame.id in handlers && KeepsHandler(frame.kind)
    ensures frame.id in h ==> h[frame.id] == handlers[frame.id]
  {
    if frame.id in handlers && !KeepsHandler(frame.kind) then handlers - {frame.id} else handlers
  }

  /** A promise settles once: a later resolve or reject of the same request changes nothing. */
  function SettleFirst(outcomes: map<nat, Settlement>, ticket: nat, s: Settlement): (o: map<nat, Settlement>)
    ensures o.Keys == outcomes.Keys + {ticket}
    ensures forall t :: t in outcomes ==> o[t] == outcomes[t]
    ensures ticket !in outcomes ==> o[ticket] == s
  {
    if ticket in outcomes then outcomes else outcomes[ticket := s]
  }

  /** The settlements after a frame has been handed to the handler registered under its id, if any. */
  function OutcomesAfter(handlers: map<string, nat>, outcomes: map<nat, Settlement>, frame: Frame): map<nat, Settlement>
  {
    if frame.id in handlers then SettleFirst(outcomes, handlers[frame.id], Settle(frame)) else outcomes
  }

  /** The settlements after a fault has been told to the requests in `tickets`. */
  function Broadcast(outcomes: map<nat, Settlement>, tickets: set<nat>, error: Payload): (o: map<nat, Settlement>)
    ensures o.Keys == outcomes.Keys + tickets
    ensures forall t :: t in outcomes ==> o[t] == outcomes[t]
    ensures forall t :: t in tickets && t !in outcomes ==> o[t] == Rejected(error)
  {
    map t | t in outcomes.Keys + tickets :: if t in outcomes then outcomes[t] else Rejected(error)
  }

  /** Telling the fault to one more request is one more first settlement. */
  lemma BroadcastStep(outcomes: map<nat, Settlement>, tickets: set<nat>, t: nat, error: Payload)
    ensures Broadcast(outcomes, tickets + {t}, error) == SettleFirst(Broadcast(outcomes, tickets, error), t, Rejected(error))
  {
    var a := Broadcast(outcomes, tickets + {t}, error);
    var b := SettleFirst(Broadcast(outcomes, tickets, error), t, Rejected(error));
    assert a.Keys == b.Keys;
    forall u | u in a.Keys ensures a[u] == b[u] {
    }
  }

  /** Telling nobody changes nothing. */
  lemma BroadcastNone(outcomes: map<nat, Settlement>, error: Payload)
    ensures Broadcast(outcomes, {}, error) == outcomes
  {
    var a := Broadcast(outcomes, {}, error);
    assert a.Keys == outcomes.Keys;
  }

  class WorkerBridge {
    /** `messageHandlers`: correlation id to the ticket of the request whose handler is registered. */
    var handlers: map<string, nat>
    /** How each request's promise has settled so far. */
    var outcomes: map<nat, Settlement>
    /** The number of requests sent so far; the next request's ticket. */
    var sent: nat
    /** `isTerminated` */
    var terminated: bool
    /** Whether `setMessageHandler` has installed an external handler. */
    var hasExternal: bool
    /** Whether `worker.terminate()` has been called. */
    var workerStopped: bool

    /** Registered and settled requests are requests that were sent, and a terminated bridge holds no handler. */
    ghost predicate Valid()
      reads this
    {
      (forall id :: id in handlers ==> handlers[id] < sent)
      && (forall t :: t in outcomes ==> t < sent)
      && (terminated ==> handlers == map[])
    }

    /** A new bridge has no pending handler, no external handler and is not terminated. */
    constructor()
      ensures handlers == map[] && outcomes == map[] && sent == 0
      ensures !terminated && !hasExternal && !workerStopped
      ensures Valid()
    {
      handlers := map[];
      outcomes := map[];
      sent := 0;
      terminated := false;
      hasExternal := false;
      workerStopped := false;
    }

    /** `setMessageHandler(handler)`: a later call replaces the earlier handler. */
    method SetMessageHandler()
      modifies this
      ensures hasExternal
      ensures handlers == old(handlers) && outcomes == old(outcomes) && sent == old(sent)
      ensures terminated == old(terminated) && workerStopped == old(workerStopped)
    {
      hasExternal := true;
    }

    /**
     * `sendMessage(message)` for a message with correlation id `id`. `postError` is the error
     * `postMessage` throws, if it throws. A terminated bridge refuses at once; otherwise the
     * request gets the next ticket and its handler replaces whatever was registered under `id`,
     * and a failed post takes the handler out again and rejects the request.
     */
    method SendMessage(id: string, postError: Option<ErrorInfo>) returns (r: Result<nat>)
      requires Valid()
      modifies this
      ensures Valid()
      ensures old(terminated) ==> r == Err(PlainError(TerminatedMessage))
      ensures old(terminated) ==> handlers == old(handlers) && outcomes == old(outcomes) && sent == old(sent)
      ensures !old(terminated) ==> r == Ok(old(sent)) && sent == old(sent) + 1
      ensures !old(terminated) && postError.None? ==> handlers == old(handlers)[id := old(sent)] && outcomes == old(outcomes)
      ensures !old(terminated) && postError.Some? ==>
        handlers == old(handlers) - {id} && outcomes == old(outcomes)[old(sent) := Rejected(ErrorPayload(postError.value, true))]
      ensures terminated == old(terminated) && hasExternal == old(hasExternal) && workerStopped == old(workerStopped)
    {
      if terminated {
        return Err(PlainError(TerminatedMessage));
      }
      var ticket := sent;
      sent := sent + 1;
      handlers := handlers[id := ticket];
      if postError.Some? {
        handlers := handlers - {id};
        outcomes := outcomes[ticket := Rejected(ErrorPayload(postError.value, true))];
      }
      r := Ok(ticket);
    }

    /**
     * `worker.onmessage`: the external handler sees the frame first (`external`), then the handler
     * registered under the frame's id, if any, gets it (`delivered` is that request's ticket).
     */
    method OnMessage(frame: Frame) returns (external: bool, delivered: Option<nat>)
      requires Valid()
      modifies this
      ensures Valid()
      ensures external == hasExternal
      ensures delivered == (if frame.id in old(handlers) then Some(old(handlers)[frame.id]) else None)
      ensures handlers == AfterFrame(old(handlers), frame)
      ensures outcomes == OutcomesAfter(old(handlers), old(outcomes), frame)
      ensures sent == old(sent) && terminated == old(terminated) && hasExternal == old(hasExternal)
      ensures workerStopped == old(workerStopped)
    {
      external := hasExternal;
      if frame.id in handlers {
        var ticket := handlers[frame.id];
        delivered := Some(ticket);
        if ticket !in outcomes {
          outcomes := outcomes[ticket := Settle(frame)];
        }
        if !KeepsHandler(frame.kind) {
          handlers := handlers - {frame.id};
        }
      } else {
        delivered := None;
      }
    }

    /** `worker.onerror`: every pending request is rejected with the fault; the handlers stay registered. */
    method OnError(fault: Fault) returns (notified: set<nat>)
      requires Valid()
      modifies this
      ensures Valid()
      ensures notified == old(handlers).Values
      ensures outcomes == Broadcast(old(outcomes), old(handlers).Values, FaultPayload(fault))
      ensures handlers == old(handlers) && sent == old(sent) && terminated == old(terminated)
      ensures hasExternal == old(hasExternal) && workerStopped == old(workerStopped)
    {
      var error := FaultPayload(fault);
      var pending := handlers.Values;
      forall t | t in pending ensures t < sent {
        var id :| id in handlers && handlers[id] == t;
      }
      var o := outcomes;
      var todo := pending;
      notified := {};
      BroadcastNone(o, error);
      while todo != {}
        invariant todo + notified == pending && todo !! notified
        invariant o == Broadcast(outcomes, notified, error)
        invariant handlers == old(handlers) && outcomes == old(outcomes) && sent == old(sent)
        invariant terminated == old(terminated) && hasExternal == old(hasExternal) && workerStopped == old(workerStopped)
        decreases |todo|
      {
        var t :| t in todo;
        BroadcastStep(outcomes, notified, t, error);
        o := SettleFirst(o, t, Rejected(error));
        todo := todo - {t};
        notified := notified + {t};
      }
      outcomes := o;
    }

    /** `terminate()`: the first call stops the worker, drops every handler and sets the flag; later calls do nothing. */
    method Terminate()
      requires Valid()
      modifies this
      ensures Valid()
      ensures terminated && outcomes == old(outcomes) && sent == old(sent) && hasExternal == old(hasExternal)
      ensures old(terminated) ==> handlers == old(handlers) && workerStopped == old(workerStopped)
      ensures !old(terminated) ==> handlers == map[] && workerStopped
    {
      if !terminated {
        workerStopped := true;
        handlers := map[];
        terminated := true;
      }
    }
  }

  /** The handler map and the settlements after a run of frames. */
  function Route(handlers: map<string, nat>, outcomes: map<nat, Settlement>, frames: seq<Frame>): (r: (map<string, nat>, map<nat, Settlement>))
    decreases |frames|
  {
    if frames == [] then (handlers, outcomes)
    else Route(AfterFrame(handlers, frames[0]), OutcomesAfter(handlers, outcomes, frames[0]), frames[1..])
  }

  /** A request stays settled the way it first settled, whatever frames follow. */
  lemma {:induction false} RouteKeepsSettled(handlers: map<string, nat>, outcomes: map<nat, Settlement>, frames: seq<Frame>, t: nat)
    requires t in outcomes
    ensures t in Route(handlers, outcomes, frames).1 && Route(handlers, outcomes, frames).1[t] == outcomes[t]
    decreases |frames|
  {
    if frames != [] {
      RouteKeepsSettled(AfterFrame(handlers, frames[0]), OutcomesAfter(handlers, outcomes, frames[0]), frames[1..], t);
    }
  }

  /** Frames that do not carry `id` leave the handler registered under `id` in place. */
  lemma {:induction false} RouteKeepsOthers(handlers: map<string, nat>, outcomes: map<nat, Settlement>, frames: seq<Frame>, id: string)
    requires id in handlers
    requires forall k :: 0 <= k < |frames| ==> frames[k].id != id
    ensures id in Route(handlers, outcomes, frames).0 && Route(handlers, outcomes, frames).0[id] == handlers[id]
    decreases |frames|
  {
    if frames != [] {
      RouteKeepsOthers(AfterFrame(handlers, frames[0]), OutcomesAfter(handlers, outcomes, frames[0]), frames[1..], id);
    }
  }

  /** Frames that do not carry a request's id never settle it. */
  lemma {:induction false} RouteOnlyOwnFrames(handlers: map<string, nat>, outcomes: map<nat, Settlement>, frames: seq<Frame>, id: string)
    requires id in handlers && handlers[id] !in outcomes
    requires forall other :: other in handlers && other != id ==> handlers[other] != handlers[id]
    requires forall k :: 0 <= k < |frames| ==> frames[k].id != id
    ensures handlers[id] !in Route(handlers, outcomes, frames).1
    decreases |frames|
  {
    if frames != [] {
      var h := AfterFrame(handlers, frames[0]);
      var o := OutcomesAfter(handlers, outcomes, frames[0]);
      assert handlers[id] !in o;
      forall other | other in h && other != id
        ensures h[other] != h[id]
      {
      }
      RouteOnlyOwnFrames(h, o, frames[1..], id);
    }
  }

  /**
   * A pending request settles from the first frame that carries its id: it resolves with that
   * frame, or rejects with its payload when it is an `error` frame, and later frames do not
   * change the outcome.
   */
  lemma {:induction false} FirstFrameSettles(handlers: map<string, nat>, outcomes: map<nat, Settlement>, frames: seq<Frame>, id: string, k: nat)
    requires id in handlers && handlers[id] !in outcomes
    requires forall other :: other in handlers && other != id ==> handlers[other] != handlers[id]
    requires k < |frames| && frames[k].id == id
    requires forall j :: 0 <= j < k ==> frames[j].id != id
    ensures handlers[id] in Route(handlers, outcomes, frames).1
    ensures Route(handlers, outcomes, frames).1[handlers[id]] == Settle(frames[k])
    decreases k
  {
    var h := AfterFrame(handlers, frames[0]);
    var o := OutcomesAfter(handlers, outcomes, frames[0]);
    if k == 0 {
      assert o == SettleFirst(outcomes, handlers[id], Settle(frames[0]));
      RouteKeepsSettled(h, o, frames[1..], handlers[id]);
    } else {
      assert handlers[id] !in o;
      forall other | other in h && other != id
        ensures h[other] != h[id]
      {
      }
      FirstFrameSettles(h, o, frames[1..], id, k - 1);
    }
  }

  /**
   * A request with id `stream-<time>` is never reached by a frame with id `stream`: frames whose
   * ids differ from the request's go to the external handler only.
   */
  lemma StreamFramesMissRequest(time: string, handlers: map<string, nat>, frame: Frame)
    requires frame.id == "stream"
    requires "stream-" + time in handlers
    ensures AfterFrame(handlers, frame)["stream-" + time] == handlers["stream-" + time]
    ensures OutcomesAfter(handlers, map[], frame).Keys <= if frame.id in handlers then {handlers[frame.id]} else {}
  {
    assert ("stream-" + time)[6] == '-';
    assert "stream-" + time != frame.id by {
      assert |"stream-" + time| >= 7;
    }
  }
}
