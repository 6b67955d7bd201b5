/**
 * The WebSocket client of the Model Context Protocol server: numbered
 * requests, the table of requests still waiting for their response, and a
 * bounded number of reconnection attempts. The socket is reduced to its
 * ready state, and its callbacks and timers to explicit event methods.
 */
module McpClient {
  import opened Common
  import opened Js

  const MaxReconnectAttempts: nat := 5
  const NotConnected: string := "Cliente MCP no conectado"
  const ResponseTimeout: string := "Timeout esperando respuesta MCP"

  /** `WebSocket.readyState`. */
  datatype ReadyState = Connecting | Open | Closing | Closed

  /** How a request's promise was settled. */
  datatype Settlement = Resolved(result: Value) | Rejected(reason: string)

  /** `getConnectionStatus`, given the socket (`None` when there is none). */
  function Status(socket: Option<ReadyState>): (r: string)
    ensures r == "disconnected" <==> socket.None?
    ensures r == "connected" <==> socket == Some(Open)
  {
    match socket
    case None => "disconnected"
    case Some(Connecting) => "connecting"
    case Some(Open) => "connected"
    case Some(Closing) => "closing"
    case Some(Closed) => "closed"
  }

  /** The status names are told apart: the socket's state can be read back from them. */
  lemma StatusInjective(a: Option<ReadyState>, b: Option<ReadyState>)
    ensures Status(a) == Status(b) ==> a == b
  {
  }

  /** The request `sendRequest` serialises. */
  function RequestMessage(id: int, verb: string, params: Value): Value
  {
    Obj([("jsonrpc", Str("2.0")), ("id", Num(id)), ("method", Str(verb)), ("params", params)])
  }

  /** The message of `new Error(x)`: `undefined` gives the empty message. */
  function ErrorMessage(x: Value): string
  {
    if x.Undefined? then "" else ToStr(x)
  }

  /**
   * What `handleMessage` does with a response, given what `JSON.parse` made of
   * it: the pending request whose numeric id it carries, and how it is
   * settled. `None`: nothing is settled (unparsable text, no or unknown id).
   */
  function Settle(pending: set<int>, parsed: Option<Value>): (r: Option<(int, Settlement)>)
    ensures r.Some? <==> parsed.Some? && Get(parsed.value, "id").Num? && Get(parsed.value, "id").n in pending
    ensures r.Some? ==> r.value.0 == Get(parsed.value, "id").n
    ensures r.Some? ==> (r.value.1.Rejected? <==> Truthy(Get(parsed.value, "error")))
  {
    if parsed.None? then None
    else
      var m := parsed.value;
      var id := Get(m, "id");
      if id.Num? && id.n in pending then
        if Truthy(Get(m, "error")) then Some((id.n, Rejected(ErrorMessage(Get(Get(m, "error"), "message")))))
        else Some((id.n, Resolved(Get(m, "result"))))
      else None
  }

  /** An error response rejects with the error's message; any other resolves with its `result`. */
  lemma SettleSpec(pending: set<int>, m: Value, id: int)
    requires Get(m, "id") == Num(id) && id in pending
    ensures Truthy(Get(m, "error")) ==>
      Settle(pending, Some(m)) == Some((id, Rejected(ErrorMessage(Get(Get(m, "error"), "message")))))
    ensures !Truthy(Get(m, "error")) ==> Settle(pending, Some(m)) == Some((id, Resolved(Get(m, "result"))))
  {
  }

  /** `attemptReconnect`: the attempts after the call, and whether a reconnection is scheduled. */
  function Reconnect(attempts: nat): (r: (nat, bool))
    ensures r.1 <==> attempts < MaxReconnectAttempts
    ensures r.1 ==> r.0 == attempts + 1
    ensures !r.1 ==> r.0 == attempts
    ensures attempts <= MaxReconnectAttempts ==> r.0 <= MaxReconnectAttempts
  {
    if attempts < MaxReconnectAttempts then (attempts + 1, true) else (attempts, false)
  }

  /** The reconnections scheduled by a run of close events with no open between them. */
  function Scheduled(attempts: nat, closes: nat): (r: nat)
    decreases closes
  {
    if closes == 0 then 0
    else
      var (next, scheduled) := Reconnect(attempts);
      (if scheduled then 1 else 0) + Scheduled(next, closes - 1)
  }

  /** However many closes arrive without an open, at most five reconnections are scheduled. */
  lemma {:induction false} ScheduledBound(attempts: nat, closes: nat)
    requires attempts <= MaxReconnectAttempts
    ensures Scheduled(attempts, closes) == Min(closes, MaxReconnectAttempts - attempts)
    decreases closes
  {
    if closes > 0 {
      ScheduledBound(Reconnect(attempts).0, closes - 1);
    }
  }

  /** Ids handed out so far: 1, 2, ..., n. */
  function Issued(n: nat): (r: seq<int>)
    ensures |r| == n
    ensures forall i :: 0 <= i < n ==> r[i] == i + 1
  {
    seq(n, i requires 0 <= i < n => i + 1)
  }

  /** Ids are strictly increasing, so none is handed out twice. */
  lemma IssuedIncreasing(n: nat)
    ensures forall i, j :: 0 <= i < j < n ==> Issued(n)[i] < Issued(n)[j]
    ensures forall i :: 0 <= i < n ==> Issued(n)[i] !in Issued(n)[..i]
  {
    forall i | 0 <= i < n
      ensures Issued(n)[i] !in Issued(n)[..i]
    {
      var past := Issued(n)[..i];
      assert forall k :: 0 <= k < |past| ==> past[k] == k + 1;
    }
  }

  class Client {
    var socket: Option<ReadyState>
    var messageId: nat
    var pending: set<int>
    var reconnectAttempts: nat
    /** Reconnections scheduled by `attemptReconnect` (their timers are not modelled). */
    var reconnectsScheduled: nat
    /** Requests written to the socket, in order. */
    var sent: seq<Value>
    /** Settled promises, in order, with their request ids. */
    var settled: seq<(int, Settlement)>

    /**
     * The requests sent carry the ids 1, 2, ..., `messageId` in order, every
     * pending id was handed out, and the attempts never pass the bound.
     */
    predicate Valid()
      reads this
    {
      |sent| == messageId && (forall i :: 0 <= i < |sent| ==> Get(sent[i], "id") == Num(Issued(messageId)[i])) &&
      (forall id :: id in pending ==> 1 <= id <= messageId) && reconnectAttempts <= MaxReconnectAttempts
    }

    constructor ()
      ensures Valid()
      ensures socket == None && messageId == 0 && pending == {} && reconnectAttempts == 0
      ensures reconnectsScheduled == 0 && sent == [] && settled == []
    {
      socket := None;
      messageId := 0;
      pending := {};
      reconnectAttempts := 0;
      reconnectsScheduled := 0;
      sent := [];
      settled := [];
    }

    function GetConnectionStatus(): string
      reads this
    {
      Status(socket)
    }

    /** `connect`: a fresh socket, still connecting. */
    method Connect()
      requires Valid()
      modifies this
      ensures Valid()
      ensures socket == Some(Connecting)
      ensures messageId == old(messageId) && pending == old(pending) && reconnectAttempts == old(reconnectAttempts)
      ensures reconnectsScheduled == old(reconnectsScheduled) && sent == old(sent) && settled == old(settled)
    {
      socket := Some(Connecting);
    }

    /** The socket's `open` event resets the attempts. */
    method OnOpen()
      requires Valid()
      modifies this
      ensures Valid()
      ensures socket == Some(Open) && reconnectAttempts == 0
      ensures messageId == old(messageId) && pending == old(pending)
      ensures reconnectsScheduled == old(reconnectsScheduled) && sent == old(sent) && settled == old(settled)
    {
      socket := Some(Open);
      reconnectAttempts := 0;
    }

    /** The socket's `close` event: `attemptReconnect`. */
    method OnClose()
      requires Valid()
      modifies this
      ensures Valid()
      ensures (reconnectAttempts, reconnectsScheduled > old(reconnectsScheduled)) == Reconnect(old(reconnectAttempts))
      ensures reconnectsScheduled <= old(reconnectsScheduled) + 1
      ensures socket == (if old(socket).Some? then Some(Closed) else None)
      ensures messageId == old(messageId) && pending == old(pending) && sent == old(sent) && settled == old(settled)
    {
      if socket.Some? {
        socket := Some(Closed);
      }
      if reconnectAttempts < MaxReconnectAttempts {
        reconnectAttempts := reconnectAttempts + 1;
        reconnectsScheduled := reconnectsScheduled + 1;
      }
    }

    /** `disconnect`: the socket is closed and dropped; pending requests stay pending. */
    method Disconnect()
      requires Valid()
      modifies this
      ensures Valid()
      ensures socket == None && pending == old(pending)
      ensures messageId == old(messageId) && reconnectAttempts == old(reconnectAttempts)
      ensures reconnectsScheduled == old(reconnectsScheduled) && sent == old(sent) && settled == old(settled)
    {
      socket := None;
    }

    /** `sendRequest(method, params)`: the id of the new pending request, or the failure before any send. */
    method SendRequest(verb: string, params: Value) returns (r: Result<int>)
      requires Valid()
      modifies this
      ensures Valid()
      ensures old(socket) != Some(Open) ==>
        r == Err(NotConnected) && messageId == old(messageId) && pending == old(pending) && sent == old(sent)
      ensures old(socket) == Some(Open) ==>
        r == Ok(old(messageId) + 1) && messageId == old(messageId) + 1 &&
        r.value !in old(pending) && pending == old(pending) + {r.value} &&
        sent == old(sent) + [RequestMessage(r.value, verb, params)]
      ensures socket == old(socket) && reconnectAttempts == old(reconnectAttempts)
      ensures reconnectsScheduled == old(reconnectsScheduled) && settled == old(settled)
    {
      if socket != Some(Open) {
        return Err(NotConnected);
      }
      messageId := messageId + 1;
      var id := messageId;
      pending := pending + {id};
      LookupAt(RequestMessage(id, verb, params).fields, 1, "id");
      sent := sent + [RequestMessage(id, verb, params)];
      return Ok(id);
    }

    /** A response arrives: a pending request is settled once and removed. */
    method HandleMessage(parsed: Option<Value>)
      requires Valid()
      modifies this
      ensures Valid()
      ensures match Settle(old(pending), parsed)
        case Some((id, s)) => pending == old(pending) - {id} && settled == old(settled) + [(id, s)]
        case None => pending == old(pending) && settled == old(settled)
      ensures socket == old(socket) && messageId == old(messageId) && reconnectAttempts == old(reconnectAttempts)
      ensures reconnectsScheduled == old(reconnectsScheduled) && sent == old(sent)
    {
      match Settle(pending, parsed)
      case Some((id, s)) =>
        settled := settled + [(id, s)];
        pending := pending - {id};
      case None =>
    }

    /** The send callback reported an error, or the 30 s timer fired: a still pending request is rejected. */
    method Abandon(id: int, reason: string)
      requires Valid()
      modifies this
      ensures Valid()
      ensures id in old(pending) ==> pending == old(pending) - {id} && settled == old(settled) + [(id, Rejected(reason))]
      ensures id !in old(pending) ==> pending == old(pending) && settled == old(settled)
      ensures socket == old(socket) && messageId == old(messageId) && reconnectAttempts == old(reconnectAttempts)
      ensures reconnectsScheduled == old(reconnectsScheduled) && sent == old(sent)
    {
      if id in pending {
        pending := pending - {id};
        settled := settled + [(id, Rejected(reason))];
      }
    }
  }
}
