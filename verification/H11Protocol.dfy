/** `H11Protocol`: one HTTP/1.1 connection, its reader and the applications of its requests.

    h11 is foreign: its contract is the pair of state machines of section 6.3 of RFC 7230 as
    h11 names them, moved by the events it reports and the messages it is given. */
module H11Protocols {
  import opened Bytes

  datatype Side = Idle | SendResponse | SendBody | MightSwitch | Switched | Done | MustClose | Gone | Erred

  /** The h11 connection: both sides, whether the connection may be reused, whether an
      upgrade is proposed and unanswered, whether bytes may be buffered (they may have been
      used up, until h11 says that it needs data), and whether it has been replaced by the
      WebSocket pass-through. */
  datatype Conn = Conn(our: Side, their: Side, keepAlive: bool, upgrade: bool, buffered: bool, webSocket: bool)

  const NEW_CONN := Conn(Idle, Idle, true, false, false, false)

  /** h11 never leaves a side in DONE on a connection that is not kept alive. */
  function Settle(c: Conn): Conn {
    if c.keepAlive then c
    else c.(our := if c.our == Done then MustClose else c.our, their := if c.their == Done then MustClose else c.their)
  }

  /** `send(Response)`; `close` when its headers say so. */
  function SentResponse(c: Conn, close: bool): Conn {
    Settle(c.(our := SendBody, upgrade := false, keepAlive := c.keepAlive && !close,
              their := if c.their == MightSwitch then Done else c.their))
  }

  /** h11 takes the status: a 101 only answers a proposed upgrade. */
  predicate Sendable(c: Conn, status: int) {
    100 <= status < 1000 && (status == 101 ==> c.upgrade || c.webSocket)
  }

  /** `send(InformationalResponse)`: the final response is still to come, unless the protocol
      is switched. */
  function SentInformational(c: Conn, status: int): Conn {
    if status == 101 then c.(our := Switched, their := if c.their == MightSwitch then Switched else c.their) else c
  }

  function SentEnd(c: Conn): Conn { Settle(c.(our := Done)) }

  /** Events of `next_event`. A request says whether it asks to close, proposes an upgrade
      that is not a WebSocket, is a WebSocket handshake, and names a valid host. */
  datatype Event =
    | Request(close: bool, upgrade: bool, webSocket: bool, validHost: bool)
    | BodyData
    | EndOfMessage
    | Paused
    | NeedData
    | ConnectionClosed
    | ProtocolError
    | Passed

  /** What h11 may report. A request with nothing behind it ends in `NeedData`. */
  predicate Reportable(c: Conn, e: Event) {
    if c.webSocket then e == Passed || e == NeedData
    else if c.their == Erred then e == ProtocolError
    else
      match e
      case Request(_, _, _, _) => c.their == Idle
      case BodyData => c.their == SendBody
      case EndOfMessage => c.their == SendBody
      case Paused => c.their == MightSwitch || c.their == Switched || (c.their == Done && c.buffered)
      case NeedData => c.their != MightSwitch && c.their != Switched
      case ConnectionClosed => c.their != SendBody && c.their != MightSwitch && c.their != Switched
      case ProtocolError => c.their != MightSwitch && c.their != Switched
      case Passed => false
  }

  function Reported(c: Conn, e: Event): Conn {
    match e
    case Request(close, upgrade, _, _) => Conn(SendResponse, SendBody, !close, upgrade, c.buffered, false)
    case EndOfMessage =>
      if c.upgrade then c.(their := if c.our == Switched then Switched else MightSwitch)
      else Settle(c.(their := Done))
    case ConnectionClosed => c.(their := Gone)
    case ProtocolError => c.(their := Erred)
    case NeedData => c.(buffered := false)
    case _ => c
  }

  // ---------------------------------------------------------------------------
  // The protocol

  /** `stream` is the number of the request being answered; `closing` is set once the
      protocol has asked the server to close the connection. */
  datatype Protocol = Protocol(
    conn: Conn, stream: Option<nat>, canRead: bool, requests: nat, closing: bool)

  const NEW_PROTOCOL := Protocol(NEW_CONN, None, false, 0, false)

  /** Where the reader is: outside `_handle_events`, in its loop, or waiting for `can_read`. */
  datatype ReaderAt = Outside | Looping | Waiting

  /** One round of the loop in `_handle_events`. A request for an unknown host is answered
      with an error at once and has no application. */
  function HandleNext(p: Protocol, e: Event): (Protocol, ReaderAt) {
    var p1 := p.(conn := Reported(p.conn, e));
    match e
    case Request(_, _, webSocket, validHost) =>
      var c := p1.conn;
      var answered := if validHost then c else SentEnd(SentResponse(c, true));
      (p1.(conn := answered.(webSocket := webSocket), stream := Some(p.requests), requests := p.requests + 1), Looping)
    case Paused => (p1.(canRead := false), Waiting)
    case NeedData => (p1, Outside)
    case ConnectionClosed => (p1, Outside)
    case ProtocolError =>
      var c := p1.conn;
      var answered := if c.our == Idle || c.our == SendResponse then SentEnd(SentResponse(c, true)) else c;
      (p1.(conn := answered, closing := true), Outside)
    case _ => (p1, if p.stream == None then Outside else Looping)
  }

  /** `stream_send` of a response: informational below 200, and otherwise marked to close from
      the `maximum`-th request on. A status that h11 does not take raises. Outside of its turn
      h11 raises too, which is swallowed when the peer has erred. */
  function SendResponseHead(p: Protocol, maximum: int, status: int, close: bool): Protocol {
    if p.conn.our != SendResponse || !Sendable(p.conn, status) then p
    else if status < 200 then p.(conn := SentInformational(p.conn, status))
    else p.(conn := SentResponse(p.conn, close || p.requests >= maximum))
  }

  function SendBodyEnd(p: Protocol): Protocol {
    if p.conn.our == SendBody then p.(conn := SentEnd(p.conn)) else p
  }

  predicate Recyclable(p: Protocol, terminated: bool) {
    !terminated && !p.conn.webSocket && p.conn.our == Done && p.conn.their == Done
  }

  /** `_maybe_recycle`. */
  function MaybeRecycle(p: Protocol, terminated: bool): Protocol {
    var p1 := p.(stream := None, canRead := true);
    if Recyclable(p, terminated) then p1.(conn := p.conn.(our := Idle, their := Idle)) else p1.(closing := true)
  }

  class H11Protocol {
    var connection: Conn
    var stream: Option<nat>
    var canRead: bool
    var keepAliveRequests: nat
    var closing: bool
    const maximum: int

    function View(): Protocol
      reads this
    {
      Protocol(connection, stream, canRead, keepAliveRequests, closing)
    }

    constructor (maximum: int)
      ensures View() == NEW_PROTOCOL && this.maximum == maximum
    {
      connection, stream, canRead, keepAliveRequests, closing := NEW_CONN, None, false, 0, false;
      this.maximum := maximum;
    }

    method SendErrorResponse()
      modifies this`connection
      ensures connection == SentEnd(SentResponse(old(connection), true))
    {
      connection := SentResponse(connection, true);
      connection := SentEnd(connection);
    }

    method CreateStream(request: Event)
      requires request.Request?
      modifies this
      ensures View() == HandleNext(old(View()), request).0
    {
      connection := Reported(connection, request);
      stream := Some(keepAliveRequests);
      if !request.validHost {
        SendErrorResponse();
      }
      connection := connection.(webSocket := request.webSocket);
      keepAliveRequests := keepAliveRequests + 1;
    }

    /** One event of the loop, up to where it waits, goes round or leaves. */
    method HandleEvent(e: Event) returns (at: ReaderAt)
      modifies this
      ensures (View(), at) == HandleNext(old(View()), e)
    {
      if e.Request? {
        CreateStream(e);
        return Looping;
      }
      connection := Reported(connection, e);
      match e {
        case Paused =>
          canRead := false;
          at := Waiting;
        case NeedData => at := Outside;
        case ConnectionClosed => at := Outside;
        case ProtocolError =>
          if connection.our == Idle || connection.our == SendResponse {
            SendErrorResponse();
          }
          closing := true;
          at := Outside;
        case _ => at := if stream == None then Outside else Looping;
      }
    }

    method SendHead(status: int, close: bool)
      modifies this`connection
      ensures View() == SendResponseHead(old(View()), maximum, status, close)
    {
      if connection.our != SendResponse || !Sendable(connection, status) {
        return;
      }
      if status < 200 {
        connection := SentInformational(connection, status);
      } else {
        var marked := close;
        if keepAliveRequests >= maximum {
          marked := true;
        }
        connection := SentResponse(connection, marked);
      }
    }

    method SendEnd()
      modifies this`connection
      ensures View() == SendBodyEnd(old(View()))
    {
      if connection.our == SendBody {
        connection := SentEnd(connection);
      }
    }

    method CloseStream()
      modifies this`stream
      ensures stream == None
    {
      if stream != None {
        stream := None;
      }
    }

    method Recycle(terminated: bool)
      modifies this
      ensures View() == MaybeRecycle(old(View()), terminated)
    {
      CloseStream();
      if !terminated && !connection.webSocket && connection.our == Done && connection.their == Done {
        connection := connection.(our := Idle, their := Idle);
        canRead := true;
      } else {
        canRead := true;
        closing := true;
      }
    }
  }
}
