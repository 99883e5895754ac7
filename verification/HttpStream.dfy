/** `HTTPStream`: turns the messages of an ASGI application into stream events.

    A message is handled in small steps, because every `send` is an await at which the
    reader may hand over client events. `Plan` lists the steps of a message; `Tick` does one.
    The class at the end handles a message in one go and is proved against them. */
module HttpStreams {
  import opened Bytes
  import opened StreamEvents

  datatype State = Requested | Responding | Done

  datatype Version = V10 | V11 | V2 | V3

  /** What the scope says that the code branches on. */
  datatype Scope = Scope(verb: string, version: Version, acceptsTrailers: bool, sendfile: bool)

  /** Messages from the application. `valid` is false when checking the message's headers,
      status or path raises. `Finished` is the final `None`. */
  datatype AppMessage =
    | Start(valid: bool, status: int, trailers: bool)
    | Push(valid: bool)
    | EarlyHint
    | BodyPart(data: Bytes, more: bool, flush: bool, withHeaders: bool)
    | ZeroCopy(hasFile: bool, more: bool, withHeaders: bool)
    | PathSend(found: bool, chunks: seq<Bytes>, more: bool)
    | Trailers(valid: bool, more: bool)
    | Unknown
    | Finished

  datatype ClientEvent = ClientBody(data: Bytes) | ClientEnd(withTrailers: bool) | ClientTrailers | ClientClosed

  datatype ToApp = HttpRequest(body: Bytes, more: bool) | RequestTrailers | HttpDisconnect

  /** The stream. `out` is what it has sent, `log` its access records (without a status when
      the client went away first), `toApp` what it has put on the application's queue. */
  datatype Http = Http(
    state: State, closed: bool, response: Option<int>, trailersExpected: bool,
    out: seq<StreamEvent>, log: seq<Option<int>>, toApp: seq<ToApp>)

  const NEW_STREAM := Http(Requested, false, None, false, [], [], [])

  // ---------------------------------------------------------------------------
  // Client events

  function Handle(h: Http, e: ClientEvent): Http {
    if h.closed then h
    else
      match e
      case ClientBody(data) => h.(toApp := h.toApp + [HttpRequest(data, true)])
      case ClientEnd(withTrailers) =>
        h.(toApp := h.toApp + [HttpRequest([], false)] + if withTrailers then [RequestTrailers] else [])
      case ClientTrailers => h.(toApp := h.toApp + [RequestTrailers])
      case ClientClosed =>
        h.(closed := true,
           log := if h.state != Done then h.log + [None] else h.log,
           toApp := h.toApp + [HttpDisconnect])
  }

  // ---------------------------------------------------------------------------
  // Application messages

  /** One step: send an event, enter a state, or close the response with an access record. */
  datatype Micro = Emit(e: StreamEvent) | Enter(state: State) | Finish(status: int)

  function ErrorResponse(status: int): seq<Micro> {
    [Emit(Response(status)), Emit(EndBody(false)), Finish(status)]
  }

  function Ending(h: Http, more: bool, withHeaders: bool): seq<Micro>
    requires h.response.Some?
  {
    if more || h.trailersExpected then []
    else [Finish(h.response.value), Emit(EndBody(withHeaders)), Emit(StreamClosed)]
  }

  /** The chunks of a file: reading stops at the first empty one. */
  function Reads(chunks: seq<Bytes>): (r: seq<Bytes>)
    ensures forall chunk <- r :: chunk != []
  {
    if chunks == [] || chunks[0] == [] then [] else [chunks[0]] + Reads(chunks[1..])
  }

  function EmitBodies(chunks: seq<Bytes>, flush: bool): (ms: seq<Micro>)
    ensures |ms| == |chunks| && forall i :: 0 <= i < |ms| ==> ms[i] == Emit(Body(chunks[i], flush))
  {
    seq(|chunks|, i requires 0 <= i < |chunks| => Emit(Body(chunks[i], flush)))
  }

  /** `app_send` up to its first send, the steps that follow, and whether it raises after
      them. While the state is `Responding` a response has been stored. */
  function Plan(scope: Scope, h: Http, m: AppMessage): (Http, seq<Micro>, bool) {
    var suppressed := h.response.Some? && SuppressBody(scope.verb, h.response.value);
    match m
    case Finished =>
      (h, if h.closed then []
          else (if h.state == Requested then ErrorResponse(500) else []) + [Emit(StreamClosed)], false)
    case Start(valid, status, trailers) =>
      if h.state != Requested then (h, [], true)
      else
        var h1 := h.(response := Some(status), trailersExpected := trailers);
        if !valid then (h1, [], true) else (h1, [Emit(Response(status)), Enter(Responding)], false)
    case Push(valid) =>
      if (scope.version == V2 || scope.version == V3) && valid then (h, [Emit(ServerPush)], false)
      else (h, [], true)
    case EarlyHint =>
      if (scope.version == V2 || scope.version == V3) && h.state == Requested
      then (h, [Emit(InformationalResponse(103))], false) else (h, [], true)
    case BodyPart(data, more, flush, withHeaders) =>
      if h.state != Responding || h.response == None then (h, [], true)
      else
        var content := if suppressed || data == [] then [] else [Emit(Body(data, flush))];
        (h, content + Ending(h, more, withHeaders), false)
    case ZeroCopy(hasFile, more, withHeaders) =>
      if h.state != Responding || h.response == None then (h, [], true)
      else (h, (if suppressed || !hasFile then [] else [Emit(ZeroCopySend)]) + Ending(h, more, withHeaders), false)
    case PathSend(found, chunks, more) =>
      if h.state != Responding || h.response == None then (h, [], true)
      else
        var content :=
          if suppressed || !found then []
          else if scope.sendfile then [Emit(ZeroCopySend)]
          else EmitBodies(Reads(chunks), false);
        (h, content + Ending(h, more, false), false)
    case Trailers(valid, more) =>
      if h.state != Responding then (h, [], true)
      else if scope.acceptsTrailers && !valid then (h, [], true)
      else
        var block :=
          if scope.acceptsTrailers then [Emit(TrailerHeadersSend(!more))]
          else if scope.version == V11 then [Emit(EndBody(false))] else [];
        var closing := if scope.version == V2 || scope.version == V3 then [Emit(EndBody(false))] else [];
        (h, block + if more then [] else closing + [Emit(StreamClosed)], false)
    case Unknown => (h, [], true)
  }

  /** One step. The protocol answers a `StreamClosed` by closing the stream. */
  function Tick(h: Http, m: Micro): Http {
    match m
    case Emit(e) =>
      var h1 := h.(out := h.out + [e]);
      if e == StreamClosed then Handle(h1, ClientClosed) else h1
    case Enter(state) => h.(state := state)
    case Finish(status) => h.(state := Done, log := h.log + [Some(status)])
  }

  function TickAll(h: Http, todo: seq<Micro>): Http
    decreases |todo|
  {
    if todo == [] then h else TickAll(Tick(h, todo[0]), todo[1..])
  }

  lemma {:induction false} TickAllConcat(h: Http, a: seq<Micro>, b: seq<Micro>)
    ensures TickAll(h, a + b) == TickAll(TickAll(h, a), b)
    decreases |a|
  {
    if a == [] {
      assert a + b == b;
    } else {
      assert (a + b)[1..] == a[1..] + b;
      TickAllConcat(Tick(h, a[0]), a[1..], b);
    }
  }

  // ---------------------------------------------------------------------------
  // The object

  class HTTPStream {
    const scope: Scope
    var state: State
    var closed: bool
    var response: Option<int>
    var trailersExpected: bool
    var out: seq<StreamEvent>
    var log: seq<Option<int>>
    var toApp: seq<ToApp>

    function View(): Http
      reads this
    {
      Http(state, closed, response, trailersExpected, out, log, toApp)
    }

    constructor (scope: Scope)
      ensures View() == NEW_STREAM && this.scope == scope
    {
      this.scope := scope;
      state, closed, response, trailersExpected := Requested, false, None, false;
      out, log, toApp := [], [], [];
    }

    /** `handle` for everything after the request. */
    method HandleEvent(e: ClientEvent)
      modifies this
      ensures View() == Handle(old(View()), e)
    {
      if closed {
        return;
      }
      match e
      case ClientBody(data) => toApp := toApp + [HttpRequest(data, true)];
      case ClientEnd(withTrailers) =>
        toApp := toApp + [HttpRequest([], false)];
        if withTrailers {
          toApp := toApp + [RequestTrailers];
        }
      case ClientTrailers => toApp := toApp + [RequestTrailers];
      case ClientClosed =>
        closed := true;
        if state != Done {
          log := log + [None];
        }
        toApp := toApp + [HttpDisconnect];
    }

    method Send(e: StreamEvent)
      modifies this
      ensures View() == Tick(old(View()), Emit(e))
    {
      out := out + [e];
      if e == StreamClosed {
        HandleEvent(ClientClosed);
      }
    }

    method SendErrorResponse(status: int)
      modifies this
      ensures View() == TickAll(old(View()), ErrorResponse(status))
    {
      Three(View(), Emit(Response(status)), Emit(EndBody(false)), Finish(status));
      Send(Response(status));
      Send(EndBody(false));
      state := Done;
      log := log + [Some(status)];
    }

    /** The end of a body message: closes the response unless more is to come. */
    method EndResponse(more: bool, withHeaders: bool)
      requires response.Some?
      modifies this
      ensures View() == TickAll(old(View()), Ending(old(View()), more, withHeaders))
    {
      if !more && !trailersExpected {
        Three(View(), Finish(response.value), Emit(EndBody(withHeaders)), Emit(StreamClosed));
        state := Done;
        log := log + [Some(response.value)];
        Send(EndBody(withHeaders));
        Send(StreamClosed);
      }
    }

    method SendFile(chunks: seq<Bytes>)
      modifies this
      ensures View() == TickAll(old(View()), EmitBodies(Reads(chunks), false))
    {
      ghost var parts := Reads(chunks);
      ghost var todo := EmitBodies(parts, false);
      ghost var start := View();
      var i := 0;
      while i < |chunks| && chunks[i] != []
        invariant i <= |chunks| && i <= |parts| && parts[i..] == Reads(chunks[i..])
        invariant View() == TickAll(start, todo[..i])
      {
        ghost var before := View();
        assert chunks[i..][1..] == chunks[i + 1..];
        assert Reads(chunks[i..]) == [chunks[i]] + Reads(chunks[i + 1..]);
        assert parts[i] == parts[i..][0] == chunks[i];
        assert parts[i + 1..] == parts[i..][1..] == Reads(chunks[i + 1..]);
        Send(Body(chunks[i], false));
        TickAllConcat(start, todo[..i], [todo[i]]);
        Last(before, todo[i]);
        assert todo[..i + 1] == todo[..i] + [todo[i]];
        i := i + 1;
      }
      assert todo[..i] == todo;
    }

    /** `app_send` without interleaved client events. */
    method AppSend(m: AppMessage) returns (raised: bool)
      modifies this
      ensures var (h, todo, raises) := Plan(scope, old(View()), m);
        View() == TickAll(h, todo) && raised == raises
    {
      var modern := scope.version == V2 || scope.version == V3;
      ghost var before := View();
      raised := false;
      match m
      case Finished =>
        if !closed {
          if state == Requested {
            SendErrorResponse(500);
            TickAllConcat(before, ErrorResponse(500), [Emit(StreamClosed)]);
          }
          ghost var mid := View();
          Send(StreamClosed);
          Last(mid, Emit(StreamClosed));
          assert [] + [Emit(StreamClosed)] == [Emit(StreamClosed)];
        }
      case Start(valid, status, trailers) =>
        if state != Requested {
          return true;
        }
        response := Some(status);
        trailersExpected := trailers;
        if !valid {
          return true;
        }
        Two(View(), Emit(Response(status)), Enter(Responding));
        Send(Response(status));
        state := Responding;
      case Push(valid) =>
        if !modern || !valid {
          return true;
        }
        Last(View(), Emit(ServerPush));
        Send(ServerPush);
      case EarlyHint =>
        if !modern || state != Requested {
          return true;
        }
        Last(View(), Emit(InformationalResponse(103)));
        Send(InformationalResponse(103));
      case BodyPart(data, more, flush, withHeaders) =>
        raised := SendPart(m, Body(data, flush), data == [], more, withHeaders);
      case ZeroCopy(hasFile, more, withHeaders) =>
        raised := SendPart(m, ZeroCopySend, !hasFile, more, withHeaders);
      case PathSend(found, chunks, more) => raised := SendPath(found, chunks, more);
      case Trailers(valid, more) => raised := SendTrailers(valid, more);
      case Unknown => return true;
    }

    /** A body message with at most one event, `e`, and none when it is empty. */
    method SendPart(m: AppMessage, e: StreamEvent, empty: bool, more: bool, withHeaders: bool) returns (raised: bool)
      requires match m
        case BodyPart(data, m1, flush, w) =>
          e == Body(data, flush) && empty == (data == []) && more == m1 && withHeaders == w
        case ZeroCopy(hasFile, m1, w) => e == ZeroCopySend && empty == !hasFile && more == m1 && withHeaders == w
        case _ => false
      modifies this
      ensures var (h, todo, raises) := Plan(scope, old(View()), m);
        View() == TickAll(h, todo) && raised == raises
    {
      if state != Responding || response == None {
        return true;
      }
      ghost var before := View();
      if !SuppressBody(scope.verb, response.value) && !empty {
        Last(before, Emit(e));
        Send(e);
        TickAllConcat(before, [Emit(e)], Ending(before, more, withHeaders));
      } else {
        assert [] + Ending(before, more, withHeaders) == Ending(before, more, withHeaders);
      }
      EndResponse(more, withHeaders);
      raised := false;
    }

    method SendPath(found: bool, chunks: seq<Bytes>, more: bool) returns (raised: bool)
      modifies this
      ensures var (h, todo, raises) := Plan(scope, old(View()), PathSend(found, chunks, more));
        View() == TickAll(h, todo) && raised == raises
    {
      if state != Responding || response == None {
        return true;
      }
      ghost var before := View();
      ghost var content := [];
      if !SuppressBody(scope.verb, response.value) && found {
        if scope.sendfile {
          content := [Emit(ZeroCopySend)];
          Last(before, Emit(ZeroCopySend));
          Send(ZeroCopySend);
        } else {
          content := EmitBodies(Reads(chunks), false);
          EmittingKeeps(before, content);
          SendFile(chunks);
        }
      }
      TickAllConcat(before, content, Ending(before, more, false));
      EndResponse(more, false);
      raised := false;
    }

    method SendTrailers(valid: bool, more: bool) returns (raised: bool)
      modifies this
      ensures var (h, todo, raises) := Plan(scope, old(View()), Trailers(valid, more));
        View() == TickAll(h, todo) && raised == raises
    {
      if state != Responding {
        return true;
      }
      ghost var start := View();
      ghost var todo := [];
      if scope.acceptsTrailers {
        if !valid {
          return true;
        }
        todo := Extend(start, todo, TrailerHeadersSend(!more));
      } else if scope.version == V11 {
        todo := Extend(start, todo, EndBody(false));
      }
      if !more {
        if scope.version == V2 || scope.version == V3 {
          todo := Extend(start, todo, EndBody(false));
        }
        todo := Extend(start, todo, StreamClosed);
      }
      raised := false;
      assert todo == Plan(scope, start, Trailers(valid, more)).1;
    }

    /** Sends one more event; the ghost list follows. */
    method Extend(ghost start: Http, ghost todo: seq<Micro>, e: StreamEvent) returns (ghost todo': seq<Micro>)
      requires View() == TickAll(start, todo)
      modifies this
      ensures todo' == todo + [Emit(e)] && View() == TickAll(start, todo')
    {
      ghost var before := View();
      Send(e);
      todo' := todo + [Emit(e)];
      TickAllConcat(start, todo, [Emit(e)]);
      Last(before, Emit(e));
    }
  }

  lemma Last(h: Http, m: Micro)
    ensures TickAll(h, [m]) == Tick(h, m)
  {
    assert [m][1..] == [];
  }

  lemma Two(h: Http, a: Micro, b: Micro)
    ensures TickAll(h, [a, b]) == Tick(Tick(h, a), b)
  {
    assert [a, b][1..] == [b];
    Last(Tick(h, a), b);
  }

  lemma Three(h: Http, a: Micro, b: Micro, c: Micro)
    ensures TickAll(h, [a, b, c]) == Tick(Tick(Tick(h, a), b), c)
  {
    assert [a, b, c][1..] == [b, c];
    Two(Tick(h, a), b, c);
  }

  /** Sending bodies changes nothing but the output. */
  lemma {:induction false} EmittingKeeps(h: Http, todo: seq<Micro>)
    requires forall m <- todo :: m.Emit? && m.e.Body?
    ensures var h' := TickAll(h, todo); h' == h.(out := h'.out)
    decreases |todo|
  {
    if todo != [] {
      EmittingKeeps(Tick(h, todo[0]), todo[1..]);
    }
  }
}
