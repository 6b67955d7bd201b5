/**
 * The WebSocket transport: per connection, a heartbeat that pings every
 * interval and terminates a connection that did not answer the previous ping
 * (the ping and pong control frames of sections 5.5.2 and 5.5.3 of RFC 6455),
 * and a guard that answers a frame that is not JSON with a parse error.
 * The interval timer is modelled by explicit tick events.
 */
module WsTransport {
  import opened Common
  import opened Js

  /** What a connection's callbacks react to. */
  datatype Event = Tick | Pong | Close | Error

  /**
   * One connection's heartbeat: `isAlive`, whether its interval still runs,
   * and whether the socket was terminated.
   */
  datatype Beat = Beat(alive: bool, ticking: bool, terminated: bool)

  /** A new connection: alive, its interval started. */
  const Fresh: Beat := Beat(true, true, false)

  /**
   * The callbacks: a tick on a silent connection terminates it and stops the
   * interval, otherwise it clears `isAlive` (and pings); a pong sets
   * `isAlive`; close and error stop the interval. A stopped interval no
   * longer ticks.
   */
  function Step(b: Beat, e: Event): Beat
  {
    match e
    case Tick =>
      if !b.ticking then b
      else if !b.alive then b.(ticking := false, terminated := true)
      else b.(alive := false)
    case Pong => b.(alive := true)
    case Close => b.(ticking := false)
    case Error => b.(ticking := false)
  }

  /** Whether the event makes the interval send a ping. */
  predicate Pings(b: Beat, e: Event)
  {
    e == Tick && b.ticking && b.alive
  }

  /** The heartbeat after the events of a connection, from its opening. */
  function Run(evs: seq<Event>): Beat
    decreases |evs|
  {
    if |evs| == 0 then Fresh else Step(Run(evs[..|evs| - 1]), evs[|evs| - 1])
  }

  /** Between any two ticks there is a pong. */
  predicate PongBetweenTicks(evs: seq<Event>)
  {
    forall i, j :: 0 <= i < j < |evs| && evs[i] == Tick && evs[j] == Tick ==>
      exists k :: i < k < j && evs[k] == Pong
  }

  /** The last tick has not been answered: a tick with no pong after it. */
  predicate Unanswered(evs: seq<Event>, i: int)
  {
    0 <= i < |evs| && evs[i] == Tick && forall k :: i < k < |evs| ==> evs[k] != Pong
  }

  /**
   * A connection that pongs between every two ticks is never terminated; and
   * whenever it is not alive, its last tick is still waiting for its pong.
   */
  lemma {:induction false} PongedNeverTerminated(evs: seq<Event>)
    requires PongBetweenTicks(evs)
    ensures !Run(evs).terminated
    ensures !Run(evs).alive ==> exists i :: Unanswered(evs, i)
    decreases |evs|
  {
    if |evs| > 0 {
      var p := evs[..|evs| - 1];
      var e := evs[|evs| - 1];
      assert PongBetweenTicks(p) by {
        forall i, j | 0 <= i < j < |p| && p[i] == Tick && p[j] == Tick
          ensures exists k :: i < k < j && p[k] == Pong
        {
          assert evs[i] == Tick && evs[j] == Tick;
          var k :| i < k < j && evs[k] == Pong;
          assert p[k] == Pong;
        }
      }
      PongedNeverTerminated(p);
      var b := Run(p);
      if !b.alive {
        var i :| Unanswered(p, i);
        NoTickAfterUnanswered(evs, i);
        if e != Pong {
          assert Unanswered(evs, i);
        }
      } else if e == Tick && b.ticking {
        assert Unanswered(evs, |evs| - 1);
      }
    }
  }

  /** Under pongs between ticks, a tick that no pong has answered yet is not followed by another tick. */
  lemma NoTickAfterUnanswered(evs: seq<Event>, i: nat)
    requires PongBetweenTicks(evs)
    requires i < |evs| - 1 && evs[i] == Tick && forall k :: i < k < |evs| - 1 ==> evs[k] != Pong
    ensures evs[|evs| - 1] != Tick
  {
  }

  /** Two ticks with no pong between them terminate a running connection and stop its interval. */
  lemma MissedPongTerminates(b: Beat)
    requires b.ticking
    ensures Step(Step(b, Tick), Tick).terminated && !Step(Step(b, Tick), Tick).ticking
    ensures Pings(b, Tick) <==> b.alive
  {
  }

  /** Once the interval is stopped nothing but a pong changes the heartbeat, and nothing pings. */
  lemma StoppedStaysStopped(b: Beat, e: Event)
    requires !b.ticking
    ensures !Step(b, e).ticking && Step(b, e).terminated == b.terminated && !Pings(b, e)
  {
  }

  /** What a received frame leads to. */
  datatype Outcome = Deliver(handler: nat, message: Value) | Drop | ParseError

  /** The reply to a frame that is not valid JSON: code -32700 and no `id`. */
  const ParseErrorReply: Value :=
    Obj([("jsonrpc", Str("2.0")),
         ("error", Obj([("code", Num(-32700)), ("message", Str("Parse error: Invalid JSON format"))]))])

  /**
   * The `message` callback, given what `JSON.parse` makes of the frame
   * (`None` when it throws): a parsed frame goes to the registered handler, if
   * any; an unparsable one is answered.
   */
  function OnFrame(handler: Option<nat>, parsed: Option<Value>): (r: Outcome)
    ensures r.ParseError? <==> parsed.None?
    ensures r.Deliver? <==> parsed.Some? && handler.Some?
    ensures r.Deliver? ==> r.handler == handler.value && r.message == parsed.value
  {
    if parsed.None? then ParseError
    else if handler.Some? then Deliver(handler.value, parsed.value)
    else Drop
  }

  lemma ParseErrorReplyHasNoId()
    ensures Get(ParseErrorReply, "id").Undefined?
    ensures Get(ParseErrorReply, "error") ==
      Obj([("code", Num(-32700)), ("message", Str("Parse error: Invalid JSON format"))])
  {
    LookupAt(ParseErrorReply.fields, 1, "error");
  }

  /**
   * The transport: one heartbeat per connection, the handler slot, and the
   * logs of what went out (pings, replies) and what was handed to a handler.
   * Handlers and sockets are named by numbers.
   */
  class Transport {
    var handler: Option<nat>
    var beats: map<nat, Beat>
    var pings: seq<nat>
    var sent: seq<(nat, Value)>
    var delivered: seq<(nat, nat, Value)>

    constructor ()
      ensures handler == None && beats == map[] && pings == [] && sent == [] && delivered == []
    {
      handler := None;
      beats := map[];
      pings := [];
      sent := [];
      delivered := [];
    }

    /** The `connection` callback: a new heartbeat for a new socket. */
    method Connect(ws: nat)
      modifies this
      ensures beats == old(beats)[ws := Fresh]
      ensures handler == old(handler) && pings == old(pings) && sent == old(sent) && delivered == old(delivered)
    {
      beats := beats[ws := Fresh];
    }

    /** One heartbeat event of a socket; events of unknown sockets do not occur and change nothing. */
    method OnEvent(ws: nat, e: Event)
      modifies this
      ensures ws in old(beats) ==> beats == old(beats)[ws := Step(old(beats)[ws], e)]
      ensures ws !in old(beats) ==> beats == old(beats)
      ensures pings == old(pings) + (if ws in old(beats) && Pings(old(beats)[ws], e) then [ws] else [])
      ensures handler == old(handler) && sent == old(sent) && delivered == old(delivered)
    {
      if ws in beats {
        var b := beats[ws];
        if Pings(b, e) {
          pings := pings + [ws];
        }
        beats := beats[ws := Step(b, e)];
      }
    }

    /** A frame from a socket, with what `JSON.parse` makes of its text. */
    method OnFrameReceived(ws: nat, parsed: Option<Value>)
      modifies this
      ensures OnFrame(old(handler), parsed).ParseError? ==> sent == old(sent) + [(ws, ParseErrorReply)]
      ensures !OnFrame(old(handler), parsed).ParseError? ==> sent == old(sent)
      ensures delivered == old(delivered) +
        (match OnFrame(old(handler), parsed)
         case Deliver(h, m) => [(h, ws, m)]
         case _ => [])
      ensures handler == old(handler) && beats == old(beats) && pings == old(pings)
    {
      match OnFrame(handler, parsed)
      case ParseError =>
        sent := sent + [(ws, ParseErrorReply)];
      case Drop =>
      case Deliver(h, m) =>
        delivered := delivered + [(h, ws, m)];
    }

    /** `onMessage(handler)`: the new handler replaces any earlier one. */
    method OnMessage(h: nat)
      modifies this
      ensures handler == Some(h)
      ensures beats == old(beats) && pings == old(pings) && sent == old(sent) && delivered == old(delivered)
    {
      handler := Some(h);
    }
  }
}
