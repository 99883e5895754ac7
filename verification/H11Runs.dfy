/** Runs of an HTTP/1.1 connection: the reader, the applications of all its requests and the
    server, interleaved. */
module H11Runs {
  import opened Bytes
  import opened H11Protocols

  /** How far an application's stream is: nothing sent, response sent, body ended, closed. */
  datatype Phase = Fresh | Replied(status: int) | Finished | Over

  /** History: `apps` of the requests that reached an application, the `delivered` requests in
      order, for each body event the request it came from and the stream it went to, and the
      requests answered in order. `lost` once the connection is gone, and `vanished` are the
      applications that ended on a stream closed before, without a word. */
  datatype System = System(
    p: Protocol, reader: ReaderAt, apps: map<nat, Phase>, delivered: seq<nat>,
    bodies: seq<(nat, nat)>, replies: seq<nat>, terminated: bool, lost: bool, vanished: set<nat>)

  const NEW := System(NEW_PROTOCOL, Outside, map[], [], [], [], false, false, {})

  datatype Action =
    | Arrive
    | Next(e: Event)
    | Wake
    | Reply(i: nat, status: int, close: bool)
    | EndReply(i: nat)
    | Close(i: nat)
    | Vanish(i: nat)
    | Terminate
    | Lose

  predicate Live(s: System, i: nat) { i in s.apps && s.apps[i] != Over }

  /** On a stream that is closed, after the connection was lost or a WebSocket was refused,
      the end of the application sends nothing: it may `Vanish`. */
  predicate Enabled(s: System, a: Action) {
    match a
    case Arrive => s.reader == Outside
    case Next(e) => s.reader == Looping && Reportable(s.p.conn, e)
    case Wake => s.reader == Waiting && s.p.canRead
    case Reply(i, _, _) => i in s.apps && s.apps[i] == Fresh
    case EndReply(i) => i in s.apps && s.apps[i].Replied?
    case Close(i) => i in s.apps && (s.apps[i].Replied? || s.apps[i] == Finished)
    case Vanish(i) => Live(s, i) && (s.lost || s.p.conn.webSocket)
    case _ => true
  }

  function DoNext(s: System, e: Event): System {
    var (p, at) := HandleNext(s.p, e);
    var s1 := s.(p := p, reader := at);
    if e.Request? && e.validHost then
      s1.(apps := s.apps[s.p.requests := Fresh], delivered := s.delivered + [s.p.requests])
    else if (e == BodyData || e == EndOfMessage || e == Passed) && s.p.stream.Some? && s.p.requests > 0
    then s1.(bodies := s.bodies + [(s.p.requests - 1, s.p.stream.value)])
    else s1
  }

  function Step(s: System, maximum: int, a: Action): System
    requires Enabled(s, a)
  {
    match a
    case Arrive => s.(reader := Looping, p := s.p.(conn := s.p.conn.(buffered := true)))
    case Next(e) => DoNext(s, e)
    case Wake => s.(reader := Looping)
    case Reply(i, status, close) =>
      if s.p.conn.our == SendResponse && !Sendable(s.p.conn, status) then s
      else
        s.(p := SendResponseHead(s.p, maximum, status, close), apps := s.apps[i := Replied(status)],
           replies := if s.p.conn.our == SendResponse then s.replies + [i] else s.replies)
    case EndReply(i) => s.(p := SendBodyEnd(s.p), apps := s.apps[i := Finished])
    case Close(i) => s.(p := MaybeRecycle(s.p, s.terminated), apps := s.apps[i := Over])
    case Vanish(i) => s.(apps := s.apps[i := Over], vanished := s.vanished + {i})
    case Terminate => s.(terminated := true)
    case Lose => s.(p := s.p.(stream := None), lost := true)
  }

  ghost predicate Legal(s: System, maximum: int, run: seq<Action>)
    decreases |run|
  {
    run == [] || (Enabled(s, run[0]) && Legal(Step(s, maximum, run[0]), maximum, run[1..]))
  }

  ghost function Run(s: System, maximum: int, run: seq<Action>): System
    requires Legal(s, maximum, run)
    decreases |run|
  {
    if run == [] then s else Run(Step(s, maximum, run[0]), maximum, run[1..])
  }

  // ---------------------------------------------------------------------------
  // What every run keeps

  ghost predicate Increasing(ns: seq<nat>, bound: nat) {
    && (forall i, j :: 0 <= i < j < |ns| ==> ns[i] < ns[j])
    && (forall n <- ns :: n < bound)
  }

  /** Only the last request's application is alive, and it owns the connection. */
  ghost predicate OneAtATime(s: System) {
    var p := s.p;
    && (forall i <- s.apps :: i < p.requests)
    && (forall i <- s.apps :: s.apps[i] != Over ==> i == p.requests - 1)
    && (p.stream.Some? ==> p.stream.value == p.requests - 1 && p.requests > 0)
    && (p.conn.their == Idle ==> p.stream == None && forall i <- s.apps :: s.apps[i] == Over)
    && Increasing(s.delivered, p.requests)
    && (forall n <- s.delivered :: n in s.apps)
    && Increasing(s.replies, p.requests)
    && (forall n <- s.replies :: n in s.apps && s.apps[n] != Fresh)
    && (forall b <- s.bodies :: b.0 == b.1)
  }

  /** A kept connection has not reached its maximum of requests. */
  ghost predicate BelowMaximum(s: System, maximum: int) {
    var p, c := s.p, s.p.conn;
    && (c.our == Done || c.their == Done ==> c.keepAlive)
    && (c.our == SendBody || c.our == Done ==> c.keepAlive ==> p.requests < maximum)
    && (c.their == Idle && p.requests > 0 ==> p.requests < maximum)
    && (c.their == Idle ==> c.our == Idle && !c.webSocket)
    && (p.requests == 0 ==> c.our == Idle || c.our == MustClose)
    && p.requests <= Max(1, maximum)
    && |s.delivered| <= p.requests
  }

  /** The peer's request is under way, or received and not yet answered for good. */
  predicate InMessage(c: Conn) {
    c.their == Done || c.their == MightSwitch || c.their == Switched || c.their == SendBody
  }

  /** Who may be waiting: as long as `can_read` is clear, either an application will set it
      when it closes its stream, or the connection is being closed. */
  ghost predicate Wakeable(s: System) {
    var p := s.p;
    && (p.stream.Some? && !Live(s, p.stream.value) ==>
          p.closing || s.lost || p.conn.webSocket || (!p.conn.keepAlive && p.conn.our == MustClose))
    && (p.stream == None && InMessage(p.conn) ==> p.closing || s.lost)
    && (!p.conn.keepAlive && p.conn.our == MustClose ==>
          p.conn.their != Done && (p.conn.their == MightSwitch || p.conn.their == Switched ==> p.closing))
    && (s.reader == Waiting && !p.canRead ==> p.closing || s.lost || (p.stream.Some? && Live(s, p.stream.value)))
  }

  /** An application only sends when it is its turn, unless the peer has erred. */
  ghost predicate InTurn(s: System) {
    var c := s.p.conn;
    && (forall i <- s.apps :: s.apps[i] == Fresh ==> c.our == SendResponse || c.their == Erred)
    && (forall i <- s.apps :: s.apps[i].Replied? ==>
          || c.their == Erred
          || if s.apps[i].status >= 200 then c.our == SendBody else c.our == SendResponse || c.our == Switched)
    && (forall i <- s.apps :: s.apps[i] == Finished ==>
          c.their == Erred || c.our == Done || c.our == MustClose || c.our == SendResponse || c.our == Switched)
    && (c.upgrade ==> c.our == SendResponse || c.our == Switched || c.their == Erred || c.their == Gone)
    && (c.their == MightSwitch ==> c.our == SendResponse)
    && (c.their == Switched ==> c.our == Switched)
  }

  /** The last request's application. */
  predicate LastLive(s: System) {
    s.p.requests > 0 && Live(s, s.p.requests - 1)
  }

  /** The last request's application ended without a word. */
  predicate LastVanished(s: System) {
    s.p.requests > 0 && s.p.requests - 1 in s.vanished
  }

  /** A connection is closed by its last application, or after the peer erred; then nobody is
      left to wake a reader. Before that somebody is, unless the last application vanished. */
  ghost predicate Attended(s: System) {
    var p, c := s.p, s.p.conn;
    && (p.closing ==> c.their != Idle && (c.their != Erred ==> forall i <- s.apps :: s.apps[i] == Over))
    && (s.reader == Waiting ==> c.their != Erred && !c.webSocket)
    && (p.requests == 0 ==> c.their == Idle || c.their == Gone || c.their == Erred)
    && (InMessage(c) && !LastLive(s) ==> p.closing || LastVanished(s) || (!c.keepAlive && c.our == MustClose))
    && (s.reader == Waiting && !p.canRead ==> p.closing || LastVanished(s) || LastLive(s))
    && (forall i <- s.vanished :: i in s.apps && s.apps[i] == Over && (s.lost || c.webSocket))
  }

  ghost predicate Inv(s: System, maximum: int) {
    OneAtATime(s) && BelowMaximum(s, maximum) && Wakeable(s) && InTurn(s) && Attended(s)
  }

  lemma IncreasingSnoc(ns: seq<nat>, bound: nat, n: nat)
    requires Increasing(ns, n) && n < bound
    ensures Increasing(ns + [n], bound)
  {
    assert forall i :: 0 <= i < |ns| ==> ns[i] in ns;
  }

  lemma IncreasingBound(ns: seq<nat>, bound: nat, bound': nat)
    requires Increasing(ns, bound)
    requires bound <= bound' || forall n <- ns :: n < bound'
    ensures Increasing(ns, bound')
  {
  }

  /** What an event may do to the connection's two sides. */
  lemma ConnAfter(p: Protocol, e: Event)
    requires Reportable(p.conn, e)
    ensures var (p', _) := HandleNext(p, e); var c, c' := p.conn, p'.conn;
      && (e.Request? ==> c.their == Idle && c'.their == SendBody)
      && (e.Request? ==> if e.validHost then c'.our == SendResponse else c'.our == MustClose && !c'.keepAlive)
      && (!e.Request? ==> c'.keepAlive == c.keepAlive || (e == ProtocolError && !c'.keepAlive))
      && (!e.Request? ==> c'.webSocket == c.webSocket && p'.stream == p.stream && p'.requests == p.requests)
      && (e == ProtocolError ==> c'.their == Erred && p'.closing && (c'.our == c.our || c'.our == MustClose))
      && (!e.Request? && e != ProtocolError && c.our != Done ==> c'.our == c.our)
      && (!e.Request? && e != ProtocolError && c.our == Done ==>
            c'.our == Done || (c'.our == MustClose && !c.keepAlive))
      && ((c.our == Done || c.their == Done ==> c.keepAlive) ==> (c'.our == Done || c'.their == Done ==> c'.keepAlive))
      && (c'.their == Idle ==> c.their == Idle && c'.our == c.our)
  {
  }

  lemma NextRequestOne(s: System, maximum: int, e: Event)
    requires OneAtATime(s) && Enabled(s, Next(e)) && e.Request?
    ensures OneAtATime(Step(s, maximum, Next(e)))
  {
    var n := s.p.requests;
    IncreasingSnoc(s.delivered, n + 1, n);
    IncreasingBound(s.replies, n, n + 1);
    IncreasingBound(s.delivered, n, n + 1);
    ConnAfter(s.p, e);
    hide Increasing;
    assert s.p.conn.their == Idle;
    var s' := Step(s, maximum, Next(e));
    assert s'.p.stream == Some(n) && s'.p.requests == n + 1;
    hide HandleNext;
  }

  lemma NextOneAtATime(s: System, maximum: int, e: Event)
    requires OneAtATime(s) && Enabled(s, Next(e))
    ensures OneAtATime(Step(s, maximum, Next(e)))
  {
    if e.Request? {
      NextRequestOne(s, maximum, e);
    } else {
      ConnAfter(s.p, e);
      hide Increasing, HandleNext;
    }
  }

  lemma NextBelowMaximum(s: System, maximum: int, e: Event)
    requires BelowMaximum(s, maximum) && Enabled(s, Next(e))
    ensures BelowMaximum(Step(s, maximum, Next(e)), maximum)
  {
    ConnAfter(s.p, e);
    var s' := Step(s, maximum, Next(e));
    assert e.Request? ==> s'.p.requests == s.p.requests + 1;
    hide HandleNext, Reportable;
  }

  lemma NextWakeable(s: System, maximum: int, e: Event)
    requires Inv(s, maximum) && Enabled(s, Next(e))
    ensures Wakeable(Step(s, maximum, Next(e)))
  {
    hide Increasing;
  }

  lemma NextAttended(s: System, maximum: int, e: Event)
    requires Inv(s, maximum) && Enabled(s, Next(e))
    ensures Attended(Step(s, maximum, Next(e)))
  {
    hide Attended, OneAtATime, Wakeable, InTurn, BelowMaximum, Step;
    if e.Request? {
      NextRequestAttended(s, maximum, e);
    } else if e == Paused {
      NextPauseAttended(s, maximum);
    } else {
      NextOtherAttended(s, maximum, e);
    }
  }

  lemma NextOtherAttended(s: System, maximum: int, e: Event)
    requires Attended(s) && Enabled(s, Next(e)) && !e.Request? && e != Paused
    ensures Attended(Step(s, maximum, Next(e)))
  {
    hide InMessage;
    var s' := Step(s, maximum, Next(e));
    ConnAfter(s.p, e);
    SidesAfter(s.p, e);
    assert s'.apps == s.apps && s'.reader != Waiting && s'.p == HandleNext(s.p, e).0;
    hide Step, HandleNext, Enabled;
  }

  /** After any other event than a request the peer is in a message only if it was before. */
  lemma SidesAfter(p: Protocol, e: Event)
    requires Reportable(p.conn, e) && !e.Request?
    ensures var p' := HandleNext(p, e).0; var c, c' := p.conn, p'.conn;
      && (InMessage(c') ==> InMessage(c))
      && (c'.their == Idle || c'.their == c.their || c.their == SendBody || c'.their == Gone || c'.their == Erred)
      && (c.their == Erred ==> c'.their == Erred || c.webSocket)
      && (p'.closing <==> p.closing || e == ProtocolError)
      && (c.our == MustClose ==> c'.our == MustClose)
  {
  }

  lemma NextPauseAttended(s: System, maximum: int)
    requires Wakeable(s) && Attended(s) && Enabled(s, Next(Paused))
    ensures Attended(Step(s, maximum, Next(Paused)))
  {
    var s' := Step(s, maximum, Next(Paused));
    assert s' == s.(p := s.p.(canRead := false), reader := Waiting);
    hide Step;
  }

  lemma NextRequestAttended(s: System, maximum: int, e: Event)
    requires OneAtATime(s) && Attended(s) && Enabled(s, Next(e)) && e.Request?
    ensures Attended(Step(s, maximum, Next(e)))
  {
    hide Increasing;
  }

  lemma NextInTurn(s: System, maximum: int, e: Event)
    requires Inv(s, maximum) && Enabled(s, Next(e))
    ensures InTurn(Step(s, maximum, Next(e)))
  {
    hide Increasing, Wakeable, Attended, BelowMaximum;
    if e.Request? {
      NextRequestInTurn(s, maximum, e);
    } else {
      hide OneAtATime;
      assert Step(s, maximum, Next(e)).apps == s.apps;
      ConnAfter(s.p, e);
    }
  }

  lemma NextRequestInTurn(s: System, maximum: int, e: Event)
    requires OneAtATime(s) && Enabled(s, Next(e)) && e.Request?
    ensures InTurn(Step(s, maximum, Next(e)))
  {
    hide Increasing;
    assert s.p.conn.their == Idle;
  }

  lemma AppOneAtATime(s: System, maximum: int, a: Action)
    requires Inv(s, maximum) && Enabled(s, a) && (a.Reply? || a.EndReply? || a.Close?)
    ensures OneAtATime(Step(s, maximum, a))
  {
    hide Wakeable;
    if a.Reply? {
      ReplyOneAtATime(s, maximum, a);
    } else {
      hide Increasing;
    }
  }

  lemma ReplyOneAtATime(s: System, maximum: int, a: Action)
    requires OneAtATime(s) && Enabled(s, a) && a.Reply?
    ensures OneAtATime(Step(s, maximum, a))
  {
    assert forall n <- s.replies :: n < s.p.requests && n != a.i;
    IncreasingBound(s.replies, s.p.requests, a.i);
    IncreasingSnoc(s.replies, s.p.requests, a.i);
    hide Increasing;
  }

  lemma AppBelowMaximum(s: System, maximum: int, a: Action)
    requires OneAtATime(s) && BelowMaximum(s, maximum) && Enabled(s, a) && (a.Reply? || a.EndReply? || a.Close?)
    ensures BelowMaximum(Step(s, maximum, a), maximum)
  {
    hide Increasing;
    assert s.p.requests > 0;
    hide OneAtATime;
    if a.Reply? {
      HeadBelowMaximum(s.p, maximum, a.status, a.close);
      hide SendResponseHead;
    }
  }

  /** A response keeps the connection only below the maximum. */
  lemma HeadBelowMaximum(p: Protocol, maximum: int, status: int, close: bool)
    ensures var p' := SendResponseHead(p, maximum, status, close); var c, c' := p.conn, p'.conn;
      && p'.requests == p.requests
      && (c' != c ==>
            && c.our == SendResponse && c'.webSocket == c.webSocket
            && (c'.their == Idle <==> c.their == Idle)
            && (c'.our == SendBody || c'.our == SendResponse || c'.our == Switched)
            && (c'.our == SendBody && c'.keepAlive ==> p.requests < maximum)
            && (c'.their == Done ==> c'.keepAlive || (c.their == Done && c'.keepAlive == c.keepAlive)))
  {
  }

  lemma AppWakeable(s: System, maximum: int, a: Action)
    requires Inv(s, maximum) && Enabled(s, a) && (a.Reply? || a.EndReply? || a.Close?)
    ensures Wakeable(Step(s, maximum, a))
  {
    hide Increasing;
  }

  /** What a response head may do to the connection. */
  lemma HeadAfter(p: Protocol, maximum: int, status: int, close: bool)
    ensures var p' := SendResponseHead(p, maximum, status, close); var c, c' := p.conn, p'.conn;
      && p' == p.(conn := c') && c'.webSocket == c.webSocket
      && (InMessage(c') ==> InMessage(c))
      && (c'.their == Idle <==> c.their == Idle) && (c'.their == Gone <==> c.their == Gone)
      && (c'.their == Erred <==> c.their == Erred)
      && (c.our != SendResponse || !Sendable(c, status) ==> c' == c)
      && (c.our == SendResponse && Sendable(c, status) ==>
            if status >= 200 then
              && c'.our == SendBody && !c'.upgrade
              && c'.their != MightSwitch && (c'.their == Switched ==> c.their == Switched)
            else
              && (c'.our == SendResponse || c'.our == Switched)
              && (c'.their == Switched ==> c'.our == Switched || c.their == Switched)
              && (c'.their == MightSwitch ==> c'.our == SendResponse && c.their == MightSwitch))
      && (c.our == MustClose && !c.keepAlive ==> c'.our == MustClose && !c'.keepAlive)
  {
  }

  lemma AppAttended(s: System, maximum: int, a: Action)
    requires Inv(s, maximum) && Enabled(s, a) && (a.Reply? || a.EndReply? || a.Close?)
    ensures Attended(Step(s, maximum, a))
  {
    hide Increasing, InTurn, BelowMaximum, Wakeable;
    if a.Reply? {
      HeadAfter(s.p, maximum, a.status, a.close);
      hide SendResponseHead, Sendable;
    }
  }

  lemma AppInTurn(s: System, maximum: int, a: Action)
    requires Inv(s, maximum) && Enabled(s, a) && (a.Reply? || a.EndReply? || a.Close?)
    ensures InTurn(Step(s, maximum, a))
  {
    hide Increasing, Wakeable, BelowMaximum, Attended;
    assert forall j <- s.apps :: j != a.i ==> s.apps[j] == Over;
    if a.Reply? {
      HeadAfter(s.p, maximum, a.status, a.close);
      hide SendResponseHead, Sendable;
    }
    hide OneAtATime;
  }

  lemma VanishKeeps(s: System, maximum: int, i: nat)
    requires Inv(s, maximum) && Enabled(s, Vanish(i))
    ensures Inv(Step(s, maximum, Vanish(i)), maximum)
  {
    hide Increasing, HandleNext, SendResponseHead, MaybeRecycle;
    var s' := Step(s, maximum, Vanish(i));
    assert s' == s.(apps := s.apps[i := Over], vanished := s.vanished + {i});
    assert i == s.p.requests - 1;
    hide Step;
  }

  /** The steps that leave both sides and all applications alone. */
  lemma OutsideKeeps(s: System, maximum: int, a: Action)
    requires Inv(s, maximum) && Enabled(s, a) && (a.Arrive? || a.Wake? || a.Terminate? || a.Lose?)
    ensures Inv(Step(s, maximum, a), maximum)
  {
    hide Increasing, HandleNext, SendResponseHead, MaybeRecycle;
    var s' := Step(s, maximum, a);
    assert s' == s.(p := s'.p, reader := s'.reader, terminated := s'.terminated, lost := s'.lost);
    hide Step;
  }

  lemma StepKeeps(s: System, maximum: int, a: Action)
    requires Inv(s, maximum) && Enabled(s, a)
    ensures Inv(Step(s, maximum, a), maximum)
  {
    hide Step, OneAtATime, BelowMaximum, Wakeable, InTurn, Attended;
    match a
    case Next(e) =>
      NextOneAtATime(s, maximum, e);
      NextBelowMaximum(s, maximum, e);
      NextWakeable(s, maximum, e);
      NextInTurn(s, maximum, e);
      NextAttended(s, maximum, e);
    case Vanish(i) => VanishKeeps(s, maximum, i);
    case _ =>
      if a.Reply? || a.EndReply? || a.Close? {
        AppOneAtATime(s, maximum, a);
        AppBelowMaximum(s, maximum, a);
        AppWakeable(s, maximum, a);
        AppInTurn(s, maximum, a);
        AppAttended(s, maximum, a);
      } else {
        OutsideKeeps(s, maximum, a);
      }
  }

  lemma {:induction false} RunKeeps(s: System, maximum: int, run: seq<Action>)
    requires Inv(s, maximum) && Legal(s, maximum, run)
    ensures Inv(Run(s, maximum, run), maximum)
    decreases |run|
  {
    hide Inv, Step, Enabled;
    if run != [] {
      StepKeeps(s, maximum, run[0]);
      RunKeeps(Step(s, maximum, run[0]), maximum, run[1..]);
    }
  }
}
