/**
  The session registry of the SSE server: the `transports` object (session id
  to live transport) and the `keyArray` object (session id to the API key given
  when the stream was opened), the `/sse` open and close handlers that fill and
  purge them, and the `/messages` router that finds the transport a POST
  belongs to. Transports are opaque handles of type `T`; session ids are
  opaque strings minted by the transport.
 */
module Sessions {
  import opened JsValues

  /** The two parallel objects, keyed by session id. */
  datatype Registry<T> = Registry(transports: map<string, T>, keys: map<string, string>)

  function Empty<T>(): Registry<T> {
    Registry(map[], map[])
  }

  /** Every session holding a key is a live session. */
  predicate Valid<T>(r: Registry<T>) {
    r.keys.Keys <= r.transports.Keys
  }

  /**
    The text GET /sse stores for its `key` query value: a truthy value is
    stored as its `toString()`; when that call throws, nothing is stored.
   */
  function StoredKey(key: QueryValue): (stored: Option<string>)
    ensures stored.Some? <==> Truthy(key) && ToText(key).Ok?
    ensures stored.Some? ==> ToText(key) == Ok(stored.value)
  {
    if Truthy(key) then
      match ToText(key)
      case Ok(text) => Some(text)
      case Err(_) => None
    else None
  }

  /**
    The error the GET /sse handler throws once the transport is stored, if
    any: `toString` on a truthy `key` that has no callable one. The handler
    then stops before it registers its `close` listener.
   */
  function OpenFault(key: QueryValue): (fault: Option<JsError>)
    ensures fault.Some? <==> Truthy(key) && StoredKey(key).None?
    ensures fault.Some? ==> fault.value == JsError(NotCallableMessage)
  {
    if Truthy(key) then
      match ToText(key)
      case Ok(_) => None
      case Err(e) => Some(e)
    else None
  }

  /**
    GET /sse: the new transport is stored under its session id, and the `key`
    query value, when truthy, is stored as text under the same id. The id is
    fresh: the transport mints a new one for every stream.
   */
  function Open<T>(r: Registry<T>, id: string, transport: T, key: QueryValue): (r': Registry<T>)
    requires id !in r.transports
    ensures id in r'.transports && r'.transports[id] == transport
    ensures Truthy(key) && ToText(key).Ok? ==> id in r'.keys && r'.keys[id] == ToText(key).value
    ensures !(Truthy(key) && ToText(key).Ok?) ==> (id in r'.keys <==> id in r.keys)
    ensures r'.transports - {id} == r.transports
    ensures r'.keys - {id} == r.keys - {id}
    ensures Valid(r) ==> Valid(r') && (id in r'.keys <==> Truthy(key) && ToText(key).Ok?)
  {
    Registry(r.transports[id := transport],
             match StoredKey(key)
             case Some(text) => r.keys[id := text]
             case None => r.keys)
  }

  /** The stream's `close` event: the id leaves both objects at once. */
  function Close<T>(r: Registry<T>, id: string): (r': Registry<T>)
    ensures id !in r'.transports && id !in r'.keys
    ensures r'.transports.Keys == r.transports.Keys - {id}
    ensures r'.keys.Keys == r.keys.Keys - {id}
    ensures forall s :: s in r'.transports ==> r'.transports[s] == r.transports[s]
    ensures forall s :: s in r'.keys ==> r'.keys[s] == r.keys[s]
    ensures Valid(r) ==> Valid(r')
  {
    Registry(r.transports - {id}, r.keys - {id})
  }

  /** A second close of the same id changes nothing. */
  lemma CloseIdempotent<T>(r: Registry<T>, id: string)
    ensures Close(Close(r, id), id) == Close(r, id)
  {
  }

  /** Closing an id that is not live changes nothing. */
  lemma CloseUnknownIsNoOp<T>(r: Registry<T>, id: string)
    requires Valid(r)
    requires id !in r.transports
    ensures Close(r, id) == r
  {
  }

  /** Close undoes open: a session that comes and goes leaves no trace. */
  lemma CloseUndoesOpen<T>(r: Registry<T>, id: string, transport: T, key: QueryValue)
    requires Valid(r)
    requires id !in r.transports
    ensures Close(Open(r, id, transport, key), id) == r
  {
  }

  const NoTransportMessage := "No transport found for sessionId"

  /** What POST /messages does with a request. */
  datatype RouteResult<T> =
    | Dispatched(transport: T)
    | Rejected(status: nat, message: string)
    | Faulted(error: JsError)

  /**
    POST /messages: the `sessionId` query value, coerced to a property key,
    selects the session's own transport. When there is none, or the value
    cannot be coerced, the answer is 400.
   */
  function Route<T>(r: Registry<T>, sessionId: QueryValue): (res: RouteResult<T>)
    ensures res.Dispatched? <==> PropertyKey(sessionId).Ok? && PropertyKey(sessionId).value in r.transports
    ensures res.Dispatched? ==> res.transport == r.transports[PropertyKey(sessionId).value]
    ensures !res.Dispatched? ==> res == Rejected(400, NoTransportMessage)
  {
    match PropertyKey(sessionId)
    case Err(_) => Rejected(400, NoTransportMessage)
    case Ok(id) => if id in r.transports then Dispatched(r.transports[id]) else Rejected(400, NoTransportMessage)
  }

  /** A just-opened session receives its own messages. */
  lemma RouteAfterOpen<T>(r: Registry<T>, id: string, transport: T, key: QueryValue)
    requires id !in r.transports
    ensures Route(Open(r, id, transport, key), Text(id)) == Dispatched(transport)
  {
  }

  /** A closed session's messages are rejected, and other sessions still route as before. */
  lemma RouteAfterClose<T>(r: Registry<T>, id: string, other: QueryValue)
    ensures Route(Close(r, id), Text(id)) == Rejected(400, NoTransportMessage)
    ensures PropertyKey(other) != Ok(id) ==> Route(Close(r, id), other) == Route(r, other)
  {
  }

  // ---------------------------------------------------------------------------
  // The router as written. `transports` is a plain object literal, so indexing
  // it with a name that Object.prototype defines finds an inherited member
  // (a function, or the prototype itself), which is truthy; calling
  // `handlePostMessage` on it throws a TypeError instead of answering 400.
  // An id object whose own `toString` is not callable makes the property-key
  // coercion itself throw.
  // ---------------------------------------------------------------------------

  /** The property names every plain object inherits from Object.prototype. */
  const InheritedNames: set<string> := {
    "constructor", "__proto__", "hasOwnProperty", "isPrototypeOf",
    "propertyIsEnumerable", "toString", "toLocaleString", "valueOf",
    "__defineGetter__", "__defineSetter__", "__lookupGetter__", "__lookupSetter__"
  }

  const NotAHandlerMessage := "transport.handlePostMessage is not a function"

  /** POST /messages with JavaScript's coercion and inherited-property lookup on `transports`. */
  function RouteAsWritten<T>(r: Registry<T>, sessionId: QueryValue): (res: RouteResult<T>)
    ensures PropertyKey(sessionId).Err? ==> res == Faulted(PropertyKey(sessionId).error)
    ensures PropertyKey(sessionId).Ok? && PropertyKey(sessionId).value !in InheritedNames ==> res == Route(r, sessionId)
    ensures PropertyKey(sessionId).Ok? && PropertyKey(sessionId).value in InheritedNames - r.transports.Keys ==>
              res == Faulted(JsError(NotAHandlerMessage))
    ensures res.Dispatched? ==> res == Route(r, sessionId)
  {
    match PropertyKey(sessionId)
    case Err(e) => Faulted(e)
    case Ok(id) =>
      if id in r.transports then Dispatched(r.transports[id])
      else if id in InheritedNames then Faulted(JsError(NotAHandlerMessage))
      else Rejected(400, NoTransportMessage)
  }

  /**
    The discrepancy: with no session open, `?sessionId=constructor` and
    `?sessionId[toString]=x` are not answered with 400 as written, while the
    corrected router rejects both.
   */
  lemma InheritedNameEscapesRejection()
    ensures RouteAsWritten(Empty<nat>(), Text("constructor")).Faulted?
    ensures Route(Empty<nat>(), Text("constructor")) == Rejected(400, NoTransportMessage)
    ensures RouteAsWritten(Empty<nat>(), Nested(true)) == Faulted(JsError(NoPrimitiveMessage))
    ensures Route(Empty<nat>(), Nested(true)) == Rejected(400, NoTransportMessage)
  {
  }

  // ---------------------------------------------------------------------------
  // Histories of stream events.
  // ---------------------------------------------------------------------------

  datatype Event<T> = Opened(id: string, transport: T, key: QueryValue) | Closed(id: string)

  /** Session ids are never minted twice in one process. */
  predicate UniqueOpens<T>(events: seq<Event<T>>) {
    forall i, j :: 0 <= i < j < |events| && events[i].Opened? && events[j].Opened? ==> events[i].id != events[j].id
  }

  function OpenedIds<T>(events: seq<Event<T>>): set<string> {
    set i | 0 <= i < |events| && events[i].Opened? :: events[i].id
  }

  /**
    Whether the stream with this id has a `close` listener: the latest open of
    the id ran its GET /sse handler past the point where the listener is
    registered.
   */
  function Listening<T>(events: seq<Event<T>>, id: string): bool
    decreases |events|
  {
    if |events| == 0 then false
    else
      var last := events[|events| - 1];
      if last.Opened? && last.id == id then OpenFault(last.key).None?
      else Listening(events[..|events| - 1], id)
  }

  /**
    The registry after a history of opens and closes, starting empty. A close
    purges the id only when its stream has a `close` listener.
   */
  function Replay<T>(events: seq<Event<T>>): (r: Registry<T>)
    requires UniqueOpens(events)
    ensures Valid(r)
    ensures r.transports.Keys <= OpenedIds(events)
    decreases |events|
  {
    if |events| == 0 then Empty()
    else
      var prefix := events[..|events| - 1];
      var last := events[|events| - 1];
      assert UniqueOpens(prefix);
      var r := Replay(prefix);
      assert OpenedIds(prefix) <= OpenedIds(events) by {
        forall s | s in OpenedIds(prefix) ensures s in OpenedIds(events) {
          var i :| 0 <= i < |prefix| && prefix[i].Opened? && prefix[i].id == s;
          assert events[i] == prefix[i];
        }
      }
      match last
      case Opened(id, t, k) =>
        assert id in OpenedIds(events);
        assert id !in OpenedIds(prefix);
        Open(r, id, t, k)
      case Closed(id) => if Listening(prefix, id) then Close(r, id) else r
  }

  /** One step of `Replay`: the last event applied to the registry of the events before it. */
  lemma ReplayStep<T>(events: seq<Event<T>>)
    requires UniqueOpens(events) && |events| > 0
    ensures UniqueOpens(events[..|events| - 1])
    ensures var last := events[|events| - 1];
            last.Opened? ==>
              && last.id !in Replay(events[..|events| - 1]).transports
              && Replay(events) == Open(Replay(events[..|events| - 1]), last.id, last.transport, last.key)
    ensures var last := events[|events| - 1];
            last.Closed? ==>
              Replay(events) == if Listening(events[..|events| - 1], last.id) then Close(Replay(events[..|events| - 1]), last.id)
                                else Replay(events[..|events| - 1])
  {
  }

  ghost predicate OpensAt<T>(events: seq<Event<T>>, i: int, id: string) {
    0 <= i < |events| && events[i].Opened? && events[i].id == id
  }

  ghost predicate ClosesAt<T>(events: seq<Event<T>>, j: int, id: string) {
    0 <= j < |events| && events[j].Closed? && events[j].id == id
  }

  /** The handler of open event `i` registered a `close` listener. */
  ghost predicate ListensFrom<T>(events: seq<Event<T>>, i: int, id: string) {
    OpensAt(events, i, id) && OpenFault(events[i].key).None?
  }

  /**
    The stream opened by event `i` is still registered: it has not been
    closed since, or it was never given a `close` listener.
   */
  ghost predicate LiveFrom<T>(events: seq<Event<T>>, i: int, id: string) {
    OpensAt(events, i, id) && (OpenFault(events[i].key).Some? || !exists j :: i < j && ClosesAt(events, j, id))
  }

  /** Some stream with this id was opened and is still registered. */
  ghost predicate Live<T>(events: seq<Event<T>>, id: string) {
    exists i :: LiveFrom(events, i, id)
  }

  /** `Listening` agrees with its definition over the history. */
  lemma {:induction false} ListeningSpec<T>(events: seq<Event<T>>, id: string)
    requires UniqueOpens(events)
    ensures Listening(events, id) <==> exists i :: ListensFrom(events, i, id)
    decreases |events|
  {
    var n := |events|;
    if n > 0 {
      var prefix := events[..n - 1];
      var last := events[n - 1];
      assert UniqueOpens(prefix);
      ListeningSpec(prefix, id);
      if last.Opened? && last.id == id {
        if OpenFault(last.key).None? {
          assert ListensFrom(events, n - 1, id);
        } else {
          assert forall i :: !ListensFrom(events, i, id);
        }
      } else {
        forall i ensures ListensFrom(events, i, id) <==> i < n - 1 && ListensFrom(prefix, i, id) {
          if 0 <= i < n - 1 {
            assert events[i] == prefix[i];
          }
        }
        if exists i :: ListensFrom(prefix, i, id) {
          var i :| ListensFrom(prefix, i, id);
          assert ListensFrom(events, i, id);
        }
      }
    }
  }

  /** An event about another id does not change whether a stream opened earlier is live. */
  lemma LiveFromStep<T>(events: seq<Event<T>>, id: string)
    requires |events| > 0
    requires events[|events| - 1].id != id
    ensures forall i :: LiveFrom(events, i, id) <==> i < |events| - 1 && LiveFrom(events[..|events| - 1], i, id)
  {
    var n := |events|;
    var prefix := events[..n - 1];
    forall i ensures LiveFrom(events, i, id) <==> i < n - 1 && LiveFrom(prefix, i, id) {
      if 0 <= i < n - 1 {
        assert events[i] == prefix[i];
        forall j ensures ClosesAt(events, j, id) <==> j < n - 1 && ClosesAt(prefix, j, id) {
          if 0 <= j < n - 1 {
            assert events[j] == prefix[j];
          }
        }
      }
    }
  }

  /**
    A close of this id either ends every registered stream of the id (when
    its stream has a listener) or changes nothing about which are live.
   */
  lemma ClosedStep<T>(events: seq<Event<T>>, id: string)
    requires UniqueOpens(events) && |events| > 0
    requires events[|events| - 1] == Closed(id)
    ensures Listening(events[..|events| - 1], id) ==> forall i :: !LiveFrom(events, i, id)
    ensures !Listening(events[..|events| - 1], id) ==>
              forall i :: LiveFrom(events, i, id) <==> LiveFrom(events[..|events| - 1], i, id)
    ensures !Listening(events[..|events| - 1], id) ==>
              forall i :: 0 <= i < |events| - 1 && events[i].Opened? && events[i].id == id ==> OpenFault(events[i].key).Some?
  {
    var n := |events|;
    var prefix := events[..n - 1];
    assert UniqueOpens(prefix);
    ListeningSpec(prefix, id);
    if Listening(prefix, id) {
      var k :| ListensFrom(prefix, k, id);
      forall i ensures !LiveFrom(events, i, id) {
        if OpensAt(events, i, id) {
          assert events[k] == prefix[k];
          assert i == k;
          assert ClosesAt(events, n - 1, id);
        }
      }
    } else {
      forall i
        ensures LiveFrom(events, i, id) <==> LiveFrom(prefix, i, id)
        ensures 0 <= i < n - 1 && events[i].Opened? && events[i].id == id ==> OpenFault(events[i].key).Some?
      {
        if 0 <= i < n - 1 {
          assert events[i] == prefix[i];
          if OpensAt(prefix, i, id) {
            assert !ListensFrom(prefix, i, id);
          }
        }
      }
    }
  }

  /** The live sessions of the registry are exactly the streams opened and still registered. */
  lemma {:induction false} ReplayLive<T>(events: seq<Event<T>>, id: string)
    requires UniqueOpens(events)
    ensures id in Replay(events).transports <==> Live(events, id)
  {
    var n := |events|;
    if n > 0 {
      var prefix := events[..n - 1];
      var last := events[n - 1];
      assert UniqueOpens(prefix);
      ReplayLive(prefix, id);
      if last.id != id {
        LiveFromStep(events, id);
        if Live(prefix, id) {
          var i :| LiveFrom(prefix, i, id);
          assert LiveFrom(events, i, id);
        }
      } else if last.Opened? {
        assert LiveFrom(events, n - 1, id);
      } else {
        ClosedStep(events, id);
        if Live(prefix, id) {
          var i :| LiveFrom(prefix, i, id);
          assert !Listening(prefix, id) ==> LiveFrom(events, i, id);
        }
      }
    }
  }

  /** The stream opened by event `i` is live, and its open stored a key. */
  ghost predicate KeyedFrom<T>(events: seq<Event<T>>, i: int, id: string) {
    LiveFrom(events, i, id) && StoredKey(events[i].key).Some?
  }

  /** An event about another id leaves the keyed streams of this id as they were. */
  lemma KeyedFromStep<T>(events: seq<Event<T>>, id: string)
    requires |events| > 0
    requires events[|events| - 1].id != id
    ensures forall i :: KeyedFrom(events, i, id) <==> i < |events| - 1 && KeyedFrom(events[..|events| - 1], i, id)
    ensures forall i :: 0 <= i < |events| - 1 ==> events[i] == events[..|events| - 1][i]
  {
    LiveFromStep(events, id);
  }

  /** Only the last stream opened with an id can be live, since ids are never reused. */
  lemma LiveFromLatest<T>(events: seq<Event<T>>, id: string)
    requires UniqueOpens(events)
    requires |events| > 0 && events[|events| - 1] .Opened? && events[|events| - 1].id == id
    ensures forall i :: LiveFrom(events, i, id) ==> i == |events| - 1
    ensures LiveFrom(events, |events| - 1, id)
  {
  }

  /** The claim of `ReplayKeys` about one history. */
  ghost predicate KeysMatchHistory<T>(events: seq<Event<T>>, id: string)
    requires UniqueOpens(events)
  {
    && (id in Replay(events).keys <==> exists i :: KeyedFrom(events, i, id))
    && (forall i :: KeyedFrom(events, i, id) ==> Replay(events).keys[id] == StoredKey(events[i].key).value)
  }

  /** An event about another id leaves this id's key as it was. */
  lemma ReplayOtherKey<T>(events: seq<Event<T>>, id: string)
    requires UniqueOpens(events) && |events| > 0 && events[|events| - 1].id != id
    requires UniqueOpens(events[..|events| - 1])
    ensures id in Replay(events).keys <==> id in Replay(events[..|events| - 1]).keys
    ensures id in Replay(events).keys ==> Replay(events).keys[id] == Replay(events[..|events| - 1]).keys[id]
  {
    ReplayStep(events);
  }

  lemma KeysStepOther<T>(events: seq<Event<T>>, id: string)
    requires UniqueOpens(events) && |events| > 0 && events[|events| - 1].id != id
    requires UniqueOpens(events[..|events| - 1]) && KeysMatchHistory(events[..|events| - 1], id)
    ensures KeysMatchHistory(events, id)
  {
    var prefix := events[..|events| - 1];
    KeyedFromStep(events, id);
    ReplayOtherKey(events, id);
    if exists i :: KeyedFrom(prefix, i, id) {
      var i :| KeyedFrom(prefix, i, id);
      assert KeyedFrom(events, i, id);
    }
  }

  lemma KeysStepOpened<T>(events: seq<Event<T>>, id: string)
    requires UniqueOpens(events) && |events| > 0
    requires events[|events| - 1].Opened? && events[|events| - 1].id == id
    ensures KeysMatchHistory(events, id)
  {
    var last := events[|events| - 1];
    LiveFromLatest(events, id);
    var prefix := events[..|events| - 1];
    assert UniqueOpens(prefix);
    var r := Replay(prefix);
    assert id !in OpenedIds(prefix);
    assert id !in r.keys;
    assert Replay(events) == Open(r, id, last.transport, last.key);
    if StoredKey(last.key).Some? {
      assert KeyedFrom(events, |events| - 1, id);
    }
  }

  lemma KeysStepClosed<T>(events: seq<Event<T>>, id: string)
    requires UniqueOpens(events) && |events| > 0
    requires events[|events| - 1] == Closed(id)
    requires UniqueOpens(events[..|events| - 1]) && KeysMatchHistory(events[..|events| - 1], id)
    ensures KeysMatchHistory(events, id)
  {
    var prefix := events[..|events| - 1];
    var r := Replay(prefix);
    ClosedStep(events, id);
    if Listening(prefix, id) {
      assert Replay(events) == Close(r, id);
    } else {
      assert Replay(events) == r;
      forall i ensures !KeyedFrom(prefix, i, id) && !KeyedFrom(events, i, id) {
        if 0 <= i < |prefix| {
          assert events[i] == prefix[i];
        }
      }
    }
  }

  /**
    A session holds a key exactly when the stream that opened it is still live
    and its open stored one: a truthy `key` whose text could be taken.
   */
  lemma {:induction false} ReplayKeys<T>(events: seq<Event<T>>, id: string)
    requires UniqueOpens(events)
    ensures id in Replay(events).keys <==> exists i :: KeyedFrom(events, i, id)
    ensures forall i :: KeyedFrom(events, i, id) ==> Replay(events).keys[id] == StoredKey(events[i].key).value
  {
    var n := |events|;
    if n > 0 {
      var prefix := events[..n - 1];
      assert UniqueOpens(prefix);
      ReplayKeys(prefix, id);
      var last := events[n - 1];
      if last.id != id {
        KeysStepOther(events, id);
      } else if last.Opened? {
        KeysStepOpened(events, id);
      } else {
        KeysStepClosed(events, id);
      }
    }
  }

  /** Over any history, a message for a session is rejected exactly when that session is not live. */
  lemma RouteAfterHistory<T>(events: seq<Event<T>>, id: string)
    requires UniqueOpens(events)
    ensures Route(Replay(events), Text(id)).Rejected? <==> !Live(events, id)
  {
    ReplayLive(events, id);
  }

  /**
    A stream opened with `?key[toString]=x` outlives its close: its handler
    threw before registering the `close` listener. The same stream opened
    with a printable key is gone after the close.
   */
  lemma UnprintableKeyOutlivesClose()
    ensures var events := [Opened("s", 1, Nested(true)), Closed("s")];
            UniqueOpens(events) && Replay(events).transports == map["s" := 1] && Replay(events).keys == map[]
    ensures var events := [Opened("s", 1, Text("k")), Closed("s")];
            UniqueOpens(events) && Replay(events) == Empty()
  {
  }
}
