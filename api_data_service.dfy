/**
 * The browser-side `ApiDataService` of src/services/apiDataService.js: its
 * connection and reconnect state, its listener registry and message
 * dispatch, and the rules that unwrap the server's responses.
 *
 * Sockets and listener callbacks are opaque handles. Invoking a listener is
 * recorded as a `Call`; `setTimeout(() => this.connect(), delay)` is recorded
 * in the ghost log `scheduled`; `fetch` is its outcome, passed in.
 */
module ApiClient {
  import opened Wrappers
  import opened Seqs
  import opened Documents
  import opened Server

  const MaxReconnectAttempts: nat := 5
  const ReconnectDelay: nat := 3000

  function Pow2(n: nat): (r: nat)
    ensures r >= 1
  {
    if n == 0 then 1 else 2 * Pow2(n - 1)
  }

  /** `reconnectDelay * Math.pow(2, reconnectAttempts - 1)` once the counter has reached `attempt`. */
  function RetryDelay(attempt: nat): (r: nat)
    requires attempt >= 1
    ensures r >= ReconnectDelay
  {
    ReconnectDelay * Pow2(attempt - 1)
  }

  /** Each retry waits twice as long as the one before. */
  lemma RetryDelayDoubles(attempt: nat)
    requires attempt >= 1
    ensures RetryDelay(attempt + 1) == 2 * RetryDelay(attempt)
  {
  }

  /**
   * The delays scheduled by `n` consecutive calls of `attemptReconnect`, with
   * no successful open in between, starting from counter `attempts`.
   */
  function Retries(attempts: nat, n: nat): (r: seq<nat>)
    requires attempts <= MaxReconnectAttempts
    ensures |r| == if n < MaxReconnectAttempts - attempts then n else MaxReconnectAttempts - attempts
    ensures forall i :: 0 <= i < |r| ==> r[i] == RetryDelay(attempts + 1 + i)
    decreases n
  {
    if n == 0 || attempts == MaxReconnectAttempts then []
    else [RetryDelay(attempts + 1)] + Retries(attempts + 1, n - 1)
  }

  /** From a fresh counter, however many times the socket closes, exactly five retries are scheduled. */
  lemma RetriesFromZero(n: nat)
    requires n >= MaxReconnectAttempts
    ensures Retries(0, n) == [3000, 6000, 12000, 24000, 48000]
  {
    var r := Retries(0, n);
    assert |r| == 5;
    assert r[0] == RetryDelay(1) && r[1] == RetryDelay(2) && r[2] == RetryDelay(3);
    assert r[3] == RetryDelay(4) && r[4] == RetryDelay(5);
  }

  /** The total wait of the first `k` retries. */
  function TotalDelay(k: nat): nat {
    if k == 0 then 0 else TotalDelay(k - 1) + RetryDelay(k)
  }

  /**
   * The timers of the first `k` retries together wait `reconnectDelay * (2^k - 1)`:
   * at least 93 seconds pass before the client gives up, not counting the
   * connection attempts between the timers.
   */
  lemma {:induction false} TotalDelayClosedForm(k: nat)
    ensures TotalDelay(k) == ReconnectDelay * (Pow2(k) - 1)
  {
    if k > 0 {
      TotalDelayClosedForm(k - 1);
    }
  }

  type Socket = nat
  type Callback = nat

  /** One invocation `callback(data)`; None is the `null`/`undefined` a frame may carry. */
  datatype Call = Call(callback: Callback, data: Option<Document>)

  /** A parsed WebSocket frame `{type, data}`. */
  datatype WireMessage = WireMessage(kind: string, data: Option<Document>)

  /** The three ways `connect()` can end synchronously. */
  datatype ConnectOutcome =
    | AlreadyConnected(current: Option<Socket>)  // resolved at once with the current `ws`
    | Opening(socket: Socket)                    // a new socket; resolved or rejected by its events
    | Rejected                                   // `new WebSocket` threw

  /** The event a frame type is dispatched to, or None for an unknown type. */
  function EventFor(kind: string): (r: Option<string>)
    ensures r == Some("initial-data") <==> kind == "INITIAL_DATA"
    ensures r == Some("data-update") <==> kind == "DATA_UPDATE"
    ensures r.None? <==> kind != "INITIAL_DATA" && kind != "DATA_UPDATE"
  {
    if kind == "INITIAL_DATA" then Some("initial-data")
    else if kind == "DATA_UPDATE" then Some("data-update")
    else None
  }

  /** The listeners of `event`, none when the event has no entry. */
  function ListenersOf(ls: map<string, seq<Callback>>, event: string): seq<Callback> {
    if event in ls then ls[event] else []
  }

  /** `on(event, cb)`: `cb` goes to the end of the event's list, which is created if absent. */
  function Registered(ls: map<string, seq<Callback>>, event: string, cb: Callback): (r: map<string, seq<Callback>>)
    ensures r.Keys == ls.Keys + {event}
    ensures r[event] == ListenersOf(ls, event) + [cb]
    ensures forall e :: e in ls && e != event ==> r[e] == ls[e]
  {
    ls[event := ListenersOf(ls, event) + [cb]]
  }

  /** `off(event, cb)`: only the first occurrence of `cb` goes; absent event or callback changes nothing. */
  function Unregistered(ls: map<string, seq<Callback>>, event: string, cb: Callback): (r: map<string, seq<Callback>>)
    ensures r.Keys == ls.Keys
    ensures cb !in ListenersOf(ls, event) ==> r == ls
    ensures event in ls && cb in ls[event] ==>
      |r[event]| == |ls[event]| - 1 && multiset(r[event]) == multiset(ls[event]) - multiset{cb}
    ensures forall e :: e in ls && e != event ==> r[e] == ls[e]
  {
    if event in ls then ls[event := RemoveFirst(ls[event], cb)] else ls
  }

  /** `off` undoes an `on` of a callback not registered before, except that the event keeps an (empty) entry. */
  lemma OnThenOff(ls: map<string, seq<Callback>>, event: string, cb: Callback)
    requires cb !in ListenersOf(ls, event)
    ensures Unregistered(Registered(ls, event, cb), event, cb) == ls[event := ListenersOf(ls, event)]
  {
    var before := ListenersOf(ls, event);
    var after := Registered(ls, event, cb)[event];
    assert after == before + [cb] + [];
    RemoveFirstSplit(before, cb, []);
    assert before + [] == before;
  }

  /** `callbacks.forEach(cb => cb(data))`: every listener once, in registration order. */
  function Invocations(cbs: seq<Callback>, data: Option<Document>): (r: seq<Call>)
    ensures |r| == |cbs|
    ensures forall i :: 0 <= i < |cbs| ==> r[i] == Call(cbs[i], data)
  {
    seq(|cbs|, i requires 0 <= i < |cbs| => Call(cbs[i], data))
  }

  /** `fetchData`: None when the request failed or the status is not 2xx, otherwise the parsed body. */
  function Fetch(reply: Option<Response>): (r: Option<Body>)
    ensures r.Some? <==> reply.Some? && 200 <= reply.value.status < 300
    ensures r.Some? ==> r.value == reply.value.body
  {
    if reply.Some? && 200 <= reply.value.status < 300 then Some(reply.value.body) else None
  }

  /** `result?.[field] || []`, as getCategories, getWebsites and getWebsitesByCategory do. */
  function UnwrapList(result: Option<Body>, field: string): (r: seq<Record>)
    ensures result.None? ==> r == []
    ensures result.Some? && field !in result.value ==> r == []
    ensures result.Some? && field in result.value && result.value[field].Items? ==> r == result.value[field].records
  {
    if result.Some? && field in result.value && result.value[field].Items? then result.value[field].records else []
  }

  /** `result?.[field] || null`, as addCategory, updateCategory, addWebsite and updateWebsite do. */
  function UnwrapRecord(result: Option<Body>, field: string): (r: Option<Record>)
    ensures result.None? ==> r.None?
    ensures result.Some? && field !in result.value ==> r.None?
    ensures result.Some? && field in result.value && result.value[field].Item? ==> r == Some(result.value[field].record)
  {
    if result.Some? && field in result.value && result.value[field].Item? then Some(result.value[field].record) else None
  }

  /** A list the server sends is exactly the list the client getter returns. */
  lemma ListRoundTrip(field: string, rs: seq<Record>)
    ensures UnwrapList(Fetch(Some(Response(200, ListBody(field, rs)))), field) == rs
  {
  }

  /** The record a create or update returns is exactly the record the client method returns. */
  lemma RecordRoundTrip(status: nat, field: string, rec: Record)
    requires 200 <= status < 300 && field != "success"
    ensures UnwrapRecord(Fetch(Some(Response(status, SuccessBody(field, rec)))), field) == Some(rec)
  {
  }

  /** A failed request (network error, 404, 400, 500) reads as an empty list or as null, never as data. */
  lemma FailureUnwrapsToNothing(reply: Option<Response>, field: string)
    requires reply.None? || !(200 <= reply.value.status < 300)
    ensures UnwrapList(Fetch(reply), field) == []
    ensures UnwrapRecord(Fetch(reply), field) == None
  {
  }

  class ApiDataService {
    var ws: Option<Socket>
    var isConnected: bool
    /** `listeners`: event name to callbacks in registration order. */
    var listeners: map<string, seq<Callback>>
    var reconnectAttempts: nat
    /** The delays handed to `setTimeout` for a reconnect, oldest first. */
    ghost var scheduled: seq<nat>

    ghost predicate Valid()
      reads this
    {
      reconnectAttempts <= MaxReconnectAttempts
    }

    constructor ()
      ensures Valid()
      ensures ws == None && !isConnected && listeners == map[] && reconnectAttempts == 0 && scheduled == []
    {
      ws := None;
      isConnected := false;
      listeners := map[];
      reconnectAttempts := 0;
      scheduled := [];
    }

    /**
     * `connect()`: while connected, the current socket and no new one;
     * otherwise a new socket, or, when constructing it throws, a reconnect attempt.
     */
    method Connect(socket: Socket, constructionThrows: bool) returns (r: ConnectOutcome)
      requires Valid()
      modifies this
      ensures Valid() && listeners == old(listeners) && isConnected == old(isConnected)
      ensures old(isConnected) ==>
        r == AlreadyConnected(old(ws)) && ws == old(ws)
        && reconnectAttempts == old(reconnectAttempts) && scheduled == old(scheduled)
      ensures !old(isConnected) && !constructionThrows ==>
        r == Opening(socket) && ws == Some(socket)
        && reconnectAttempts == old(reconnectAttempts) && scheduled == old(scheduled)
      ensures !old(isConnected) && constructionThrows ==>
        r == Rejected && ws == old(ws)
        && scheduled == old(scheduled) + Retries(old(reconnectAttempts), 1)
        && reconnectAttempts == (if old(reconnectAttempts) < MaxReconnectAttempts then old(reconnectAttempts) + 1 else old(reconnectAttempts))
    {
      if isConnected {
        return AlreadyConnected(ws);
      }
      if constructionThrows {
        AttemptReconnect();
        return Rejected;
      }
      ws := Some(socket);
      r := Opening(socket);
    }

    /** The socket's `onopen`. */
    method OnOpen()
      requires Valid()
      modifies this
      ensures Valid()
      ensures isConnected && reconnectAttempts == 0
      ensures ws == old(ws) && listeners == old(listeners) && scheduled == old(scheduled)
    {
      isConnected := true;
      reconnectAttempts := 0;
    }

    /** The socket's `onclose`: disconnected, then a reconnect attempt. */
    method OnClose()
      requires Valid()
      modifies this
      ensures Valid()
      ensures !isConnected
      ensures scheduled == old(scheduled) + Retries(old(reconnectAttempts), 1)
      ensures reconnectAttempts == (if old(reconnectAttempts) < MaxReconnectAttempts then old(reconnectAttempts) + 1 else old(reconnectAttempts))
      ensures ws == old(ws) && listeners == old(listeners)
    {
      isConnected := false;
      AttemptReconnect();
    }

    /** The socket's `onerror`: disconnected, no reconnect attempt. */
    method OnError()
      requires Valid()
      modifies this
      ensures Valid()
      ensures !isConnected
      ensures ws == old(ws) && listeners == old(listeners)
      ensures reconnectAttempts == old(reconnectAttempts) && scheduled == old(scheduled)
    {
      isConnected := false;
    }

    /** `attemptReconnect()`: below the cap, one more attempt and one retry scheduled; at the cap, nothing. */
    method AttemptReconnect()
      requires Valid()
      modifies this
      ensures Valid()
      ensures old(reconnectAttempts) < MaxReconnectAttempts ==>
        reconnectAttempts == old(reconnectAttempts) + 1 && scheduled == old(scheduled) + [RetryDelay(reconnectAttempts)]
      ensures old(reconnectAttempts) >= MaxReconnectAttempts ==>
        reconnectAttempts == old(reconnectAttempts) && scheduled == old(scheduled)
      ensures scheduled == old(scheduled) + Retries(old(reconnectAttempts), 1)
      ensures ws == old(ws) && isConnected == old(isConnected) && listeners == old(listeners)
    {
      if reconnectAttempts < MaxReconnectAttempts {
        reconnectAttempts := reconnectAttempts + 1;
        scheduled := scheduled + [RetryDelay(reconnectAttempts)];
      }
    }

    /** `on(event, cb)`. */
    method On(event: string, cb: Callback)
      modifies this
      ensures listeners == Registered(old(listeners), event, cb)
      ensures ws == old(ws) && isConnected == old(isConnected)
      ensures reconnectAttempts == old(reconnectAttempts) && scheduled == old(scheduled)
    {
      if event !in listeners {
        listeners := listeners[event := []];
      }
      listeners := listeners[event := listeners[event] + [cb]];
    }

    /** `off(event, cb)`. */
    method Off(event: string, cb: Callback)
      modifies this
      ensures listeners == Unregistered(old(listeners), event, cb)
      ensures ws == old(ws) && isConnected == old(isConnected)
      ensures reconnectAttempts == old(reconnectAttempts) && scheduled == old(scheduled)
    {
      if event in listeners {
        var callbacks := listeners[event];
        var index := FirstIndex(callbacks, y => y == cb);
        if index.Some? {
          var i := index.value;
          RemoveFirstAt(callbacks, cb, i);
          listeners := listeners[event := callbacks[..i] + callbacks[i + 1..]];
        }
      }
    }

    /**
     * `notifyListeners(event, data)`: each listener is called once, in
     * registration order; one that throws is caught, so the loop always
     * reaches the end of the list.
     */
    method NotifyListeners(event: string, data: Option<Document>) returns (calls: seq<Call>)
      ensures calls == Invocations(ListenersOf(listeners, event), data)
    {
      calls := [];
      if event in listeners {
        var callbacks := listeners[event];
        var i := 0;
        while i < |callbacks|
          invariant 0 <= i <= |callbacks|
          invariant calls == Invocations(callbacks[..i], data)
        {
          calls := calls + [Call(callbacks[i], data)];
          i := i + 1;
        }
        assert callbacks[..i] == callbacks;
      }
    }

    /**
     * `handleWebSocketMessage(message)`. A DATA_UPDATE frame without data
     * throws at `message.data.categories` before any listener runs.
     */
    method HandleWebSocketMessage(message: WireMessage) returns (calls: seq<Call>)
      ensures message.kind == "INITIAL_DATA" ==> calls == Invocations(ListenersOf(listeners, "initial-data"), message.data)
      ensures message.kind == "DATA_UPDATE" && message.data.Some? ==>
        calls == Invocations(ListenersOf(listeners, "data-update"), message.data)
      ensures message.kind == "DATA_UPDATE" && message.data.None? ==> calls == []
      ensures EventFor(message.kind).None? ==> calls == []
    {
      match EventFor(message.kind)
      case None =>
        calls := [];
      case Some(event) =>
        if event == "data-update" && message.data.None? {
          calls := [];
        } else {
          calls := NotifyListeners(event, message.data);
        }
    }

    /**
     * The socket's `onmessage`: a frame that does not parse (None) is dropped,
     * and so is a DATA_UPDATE frame without data, whose exception is caught here.
     */
    method OnMessage(frame: Option<WireMessage>) returns (calls: seq<Call>)
      ensures frame.None? ==> calls == []
      ensures frame.Some? && EventFor(frame.value.kind).None? ==> calls == []
      ensures frame.Some? && frame.value.kind == "DATA_UPDATE" && frame.value.data.None? ==> calls == []
      ensures frame.Some? && frame.value.kind == "INITIAL_DATA" ==>
        calls == Invocations(ListenersOf(listeners, "initial-data"), frame.value.data)
      ensures frame.Some? && EventFor(frame.value.kind).Some? && frame.value.data.Some? ==>
        calls == Invocations(ListenersOf(listeners, EventFor(frame.value.kind).value), frame.value.data)
    {
      if frame.None? {
        return [];
      }
      calls := HandleWebSocketMessage(frame.value);
    }

    /** `disconnect()`: only when a socket exists, it is dropped and every listener with it. */
    method Disconnect()
      requires Valid()
      modifies this
      ensures Valid()
      ensures old(ws).Some? ==> ws == None && !isConnected && listeners == map[]
      ensures old(ws).None? ==> ws == old(ws) && isConnected == old(isConnected) && listeners == old(listeners)
      ensures reconnectAttempts == old(reconnectAttempts) && scheduled == old(scheduled)
    {
      if ws.Some? {
        ws := None;
        isConnected := false;
        listeners := map[];
      }
    }
  }
}

/**
 * `disconnect()` closes the socket but leaves its `onclose` handler installed:
 * the close event that follows schedules a retry, and the retry's `connect()`
 * opens a new socket.
 */
module ClientScenarios {
  import opened Wrappers
  import opened ApiClient

  method DisconnectThenReconnect(s1: Socket, s2: Socket)
  {
    var service := new ApiDataService();
    var first := service.Connect(s1, false);
    service.OnOpen();
    service.Disconnect();
    assert service.ws == None && !service.isConnected && service.reconnectAttempts == 0;
    service.OnClose();
    assert service.scheduled == [3000];
    var reopened := service.Connect(s2, false);
    assert reopened == Opening(s2) && service.ws == Some(s2);
  }
}
