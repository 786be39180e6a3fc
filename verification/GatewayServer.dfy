/** The gateway's operations, one at a time: connections, requests and pushed events. */
module GatewayServer {
  import opened Wrappers
  import opened Idempotency
  import opened GatewayRuns

  datatype Connection = Connection(id: string, device: string, user: Option<string>, lastActivity: int)

  /** What a handler does with a connection and its parameters. */
  datatype Outcome = Result(response: Payload) | Failure(message: string)

  type Handler = (string, string) -> Outcome

  datatype Error = NotConnected | MethodNotFound(name: string) | InternalError(message: string)

  /** A response frame: a payload or an error. */
  datatype Response = Ok(id: string, payload: Payload) | Failed(id: string, error: Error)

  datatype Frame = Frame(id: string, name: string, params: string, key: string)

  // ----- event numbers

  datatype Operation = Opened(id: string) | Closed(id: string) | Pushed(id: string)

  /** The last event number of every connection, after one more operation. */
  function Numbered(last: map<string, nat>, op: Operation): map<string, nat> {
    match op
    case Opened(id) => last[id := 0]
    case Closed(id) => last - {id}
    case Pushed(id) => if id in last then last[id := last[id] + 1] else last
  }

  function NumbersAfter(ops: seq<Operation>): map<string, nat> {
    if ops == [] then map[] else Numbered(NumbersAfter(ops[..|ops| - 1]), ops[|ops| - 1])
  }

  /** The numbers a connection was sent since it was last opened or closed. */
  function SentTo(ops: seq<Operation>, id: string): seq<nat> {
    if ops == [] then []
    else
      var before, op := NumbersAfter(ops[..|ops| - 1]), ops[|ops| - 1];
      if op.id != id then SentTo(ops[..|ops| - 1], id)
      else if !op.Pushed? then []
      else if id in before then SentTo(ops[..|ops| - 1], id) + [before[id] + 1]
      else SentTo(ops[..|ops| - 1], id)
  }

  /** Over any run of the gateway, the events of a connection are numbered 1, 2, 3 and so on
      from its latest start, whatever other connections do; without a connection there are
      none. */
  lemma {:induction false} EventsNumbered(ops: seq<Operation>, id: string)
    ensures forall k :: 0 <= k < |SentTo(ops, id)| ==> SentTo(ops, id)[k] == k + 1
    ensures |SentTo(ops, id)| == if id in NumbersAfter(ops) then NumbersAfter(ops)[id] else 0
  {
    if ops != [] {
      EventsNumbered(ops[..|ops| - 1], id);
    }
  }

  class Gateway {
    var connections: map<string, Connection>
    var handlers: map<string, Handler>
    var eventSeq: map<string, nat>
    const cache: IdempotencyCache

    ghost predicate Valid()
      reads this, cache
    {
      && cache.Valid()
      && connections.Keys == eventSeq.Keys
      && forall c :: c in connections ==> connections[c].id == c
    }

    constructor (ttl: int)
      ensures Valid() && fresh(cache) && cache.ttl == ttl && cache.log == []
      ensures connections == map[] && handlers == map[] && eventSeq == map[]
    {
      cache := new IdempotencyCache(ttl);
      connections, handlers, eventSeq := map[], map[], map[];
    }

    method RegisterMethod(name: string, handler: Handler)
      requires Valid()
      modifies this`handlers
      ensures Valid() && handlers == old(handlers)[name := handler]
    {
      handlers := handlers[name := handler];
    }

    /** A connection starts, or starts over, with no event pushed. */
    method Connect(id: string, device: string, user: Option<string>, now: int)
      requires Valid()
      modifies this`connections, this`eventSeq
      ensures Valid()
      ensures connections == old(connections)[id := Connection(id, device, user, now)]
      ensures eventSeq == Numbered(old(eventSeq), Opened(id))
    {
      connections := connections[id := Connection(id, device, user, now)];
      eventSeq := eventSeq[id := 0];
    }

    method Disconnect(id: string)
      requires Valid()
      modifies this`connections, this`eventSeq
      ensures Valid()
      ensures connections == old(connections) - {id} && eventSeq == Numbered(old(eventSeq), Closed(id))
    {
      if id in connections {
        connections := connections - {id};
      }
      if id in eventSeq {
        eventSeq := eventSeq - {id};
      }
    }

    method PushEvent(id: string) returns (seqNo: Option<nat>)
      requires Valid()
      modifies this`eventSeq
      ensures Valid()
      ensures seqNo.Some? <==> id in connections
      ensures eventSeq == Numbered(old(eventSeq), Pushed(id))
      ensures seqNo.Some? ==> id in eventSeq && seqNo.value == eventSeq[id]
    {
      if id !in connections {
        return None;
      }
      var n := (if id in eventSeq then eventSeq[id] else 0) + 1;
      eventSeq := eventSeq[id := n];
      return Some(n);
    }

    /** One request without another overlapping: looked up at `now`, saved at `later`.
        `ran` tells whether a handler was called. */
    method HandleRequest(id: string, frame: Frame, now: int, later: int) returns (response: Response, ran: bool)
      requires Valid() && now <= later && (cache.log == [] || cache.clock <= now)
      modifies this`connections, cache
      ensures Valid() && connections.Keys == old(connections).Keys
      ensures forall c :: c in connections && c != id ==> connections[c] == old(connections)[c]
      ensures id in connections ==> connections[id] == old(connections)[id].(lastActivity := now)
      ensures
        var remembered := if frame.key == "" then None
                          else Remembered(old(cache.log), CacheKey(Request(id, frame.key)), now, cache.ttl);
        if id !in old(connections) then
          !ran && response == Failed(frame.id, NotConnected) && cache.log == old(cache.log)
        else if remembered.Some? then
          !ran && response == Ok(frame.id, remembered) && cache.log == old(cache.log)
        else if frame.name !in handlers then
          !ran && response == Failed(frame.id, MethodNotFound(frame.name)) && cache.log == old(cache.log)
        else
          ran &&
          match handlers[frame.name](id, frame.params)
          case Failure(message) => response == Failed(frame.id, InternalError(message)) && cache.log == old(cache.log)
          case Result(payload) =>
            response == Ok(frame.id, payload) &&
            cache.log == if frame.key == "" then old(cache.log)
                         else old(cache.log) + [Stored(CacheKey(Request(id, frame.key)), Entry(later, payload))]
    {
      ran := false;
      if id !in connections {
        return Failed(frame.id, NotConnected), ran;
      }
      connections := connections[id := connections[id].(lastActivity := now)];
      if frame.key != "" {
        var cached := cache.Get(CacheKey(Request(id, frame.key)), now);
        if cached.Some? {
          return Ok(frame.id, cached), ran;
        }
      }
      if frame.name !in handlers {
        return Failed(frame.id, MethodNotFound(frame.name)), ran;
      }
      ran := true;
      match handlers[frame.name](id, frame.params)
      case Failure(message) => response := Failed(frame.id, InternalError(message));
      case Result(payload) =>
        if frame.key != "" {
          cache.Set(CacheKey(Request(id, frame.key)), payload, later);
        }
        response := Ok(frame.id, payload);
    }
  }
}
