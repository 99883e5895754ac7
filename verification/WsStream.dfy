/** `WSStream`: the life of a WebSocket, with the application's sends and the reader's events
    as two tasks that interleave at every send.

    wsproto is foreign: each message that goes through it carries the bytes wsproto makes of
    it, or none when it refuses (it raises LocalProtocolError, and nothing is sent). Trailers
    carry the version of the stream's scope. */
module WsStreams {
  import opened Bytes
  import opened StreamEvents

  datatype State = Handshaking | Connected | Replying | Closed | HttpClosed

  datatype AppMessage =
    | Accept(valid: bool, status: int)
    | ReplyStart(status: int, trailers: bool)
    | ReplyBody(valid: bool, data: Bytes, more: bool)
    | ReplyFile(valid: bool, more: bool)
    | ReplyTrailers(more: bool, http2: bool)
    | SendFrame(valid: bool, frame: Option<Bytes>)
    | CloseFrame(frame: Option<Bytes>)
    | Unknown
    | Finished(frame: Option<Bytes>)

  /** What the peer's frames ask for: a complete message; a frame that is answered here, a
      ping, or a message that is too big, which ends the call; a ping or pong that is passed
      on; or a close, answered when the peer started it. */
  datatype Frame =
    | DataFrame
    | AnsweredFrame(reply: Option<Bytes>)
    | PassedFrame(ping: bool)
    | PeerClose(reply: Option<Bytes>)

  datatype ToApp = ReceiveMessage | ReceivePing | ReceivePong | Disconnect(code: int)

  const NORMAL_CLOSURE := 1000
  const ABNORMAL_CLOSURE := 1006

  /** One step of a message: send an event, or enter a state. */
  datatype Micro = Emit(e: StreamEvent) | Enter(state: State)

  /** One step of the reader: handle a frame, send an event, or mark the stream closed. */
  datatype ReadStep = Handle(frame: Frame) | Answer(e: StreamEvent) | Shut

  /** `accepted`: the handshake was completed and the connection object exists. `app` and
      `reader` are the steps left of the current message and of the current client data.
      The other history: `connected` since the state was `Connected`, `acceptedAt` the place
      of the accepting response in `out`, `closedIn` and `closedAt` the state at the disconnect
      and its place in `toApp`, and `overlap` when that disconnect found the reader in the middle of client data. */
  datatype Ws = Ws(
    state: State, closed: bool, accepted: bool, response: Option<int>, trailersExpected: bool,
    out: seq<StreamEvent>, toApp: seq<ToApp>, app: seq<Micro>, reader: seq<ReadStep>, finished: bool,
    connected: bool, acceptedAt: Option<nat>, closedIn: Option<State>, closedAt: nat, overlap: bool)

  const NEW := Ws(Handshaking, false, false, None, false, [], [], [], [], false, false, None, None, 0, false)

  /** `handle(StreamClosed)`. */
  function CloseStream(s: Ws): Ws {
    if s.closed then s
    else
      var code := if s.state == Closed || s.state == HttpClosed then NORMAL_CLOSURE else ABNORMAL_CLOSURE;
      s.(closed := true, toApp := s.toApp + [Disconnect(code)], closedIn := Some(s.state), closedAt := |s.toApp|,
          overlap := s.reader != [])
  }

  /** An event is sent; the protocol answers a `StreamClosed` by closing the stream. */
  function Send(s: Ws, e: StreamEvent): Ws {
    var s1 := s.(out := s.out + [e]);
    if e == StreamClosed then CloseStream(s1) else s1
  }

  function ErrorResponse(status: int): seq<Micro> {
    [Emit(Response(status)), Emit(EndBody(false))]
  }

  /** A wsproto frame: sent as data, unless wsproto refuses. */
  function FrameOut(frame: Option<Bytes>): seq<Micro> {
    match frame case Some(bytes) => [Emit(Data(bytes))] case None => []
  }

  /** `_send_rejection` and `_send_rejection_zerocopy` once a response was started. */
  function Rejection(s: Ws, content: StreamEvent, more: bool): seq<Micro>
    requires s.response.Some?
  {
    var status := s.response.value;
    (if s.state == Handshaking then [Emit(Response(status)), Enter(Replying)] else [])
    + (if SuppressBody("GET", status) then [] else [Emit(content)])
    + (if more || s.trailersExpected then [] else [Enter(HttpClosed), Emit(EndBody(false))])
  }

  /** `_send_rejection_trailer`. */
  function RejectionTrailers(more: bool, http2: bool): seq<Micro> {
    [Emit(TrailerHeadersSend(!more))]
    + (if more then [] else [Enter(HttpClosed)] + (if http2 then [Emit(EndBody(false))] else []))
  }

  /** `app_send` before its first send, and the steps that follow. A message that raises
      has no steps. */
  function Plan(s: Ws, m: AppMessage): (Ws, seq<Micro>) {
    if s.closed then (s, [])
    else
      match m
      case Finished(frame) =>
        if s.state == Handshaking then (s, ErrorResponse(500) + [Emit(StreamClosed)])
        else if s.state == Connected && !s.accepted then (s, [])  // no connection object
        else (s, (if s.state == Connected then FrameOut(frame) else []) + [Emit(StreamClosed)])
      case Accept(valid, status) =>
        if s.state != Handshaking then (s, [])
        else
          var s1 := s.(state := Connected, connected := true);
          if valid then (s1.(accepted := true, acceptedAt := Some(|s.out|)), [Emit(Response(status))]) else (s1, [])
      case ReplyStart(status, trailers) =>
        if s.state != Handshaking then (s, []) else (s.(response := Some(status), trailersExpected := trailers), [])
      case ReplyBody(valid, data, more) =>
        if (s.state == Handshaking && valid) || s.state == Replying
        then (s, if s.response.Some? then Rejection(s, Body(data, false), more) else []) else (s, [])
      case ReplyFile(valid, more) =>
        if (s.state == Handshaking && valid) || s.state == Replying
        then (s, if s.response.Some? then Rejection(s, ZeroCopySend, more) else []) else (s, [])
      case ReplyTrailers(more, http2) =>
        if s.state == Handshaking || s.state == Replying then (s, RejectionTrailers(more, http2)) else (s, [])
      case SendFrame(valid, frame) =>
        if s.state == Connected && valid && s.accepted then (s, FrameOut(frame)) else (s, [])
      case CloseFrame(frame) =>
        if s.state == Handshaking then (s.(state := HttpClosed), ErrorResponse(403))
        else
          var s1 := s.(state := Closed);
          if s.accepted then (s1, FrameOut(frame) + [Emit(EndData)]) else (s1, [])
      case Unknown => (s, [])
  }

  /** The application task up to and including its next send. */
  function AppGoes(s: Ws): Ws
    decreases |s.app|
  {
    if s.app == [] then s
    else
      var s1 := s.(app := s.app[1..]);
      match s.app[0]
      case Emit(e) => Send(s1, e)
      case Enter(state) => AppGoes(s1.(state := state))
  }

  function FrameSteps(f: Frame): seq<ReadStep> {
    match f
    case AnsweredFrame(reply) => ReplySteps(reply)
    case PeerClose(reply) => ReplySteps(reply) + [Answer(StreamClosed)]
    case _ => []
  }

  function ReplySteps(reply: Option<Bytes>): seq<ReadStep> {
    match reply case Some(bytes) => [Answer(Data(bytes))] case None => []
  }

  function FramePuts(f: Frame): seq<ToApp> {
    match f
    case DataFrame => [ReceiveMessage]
    case PassedFrame(ping) => if ping then [ReceivePing] else [ReceivePong]
    case _ => []
  }

  /** How many steps the reader has before it, counting those of the frames to come. */
  function Work(reader: seq<ReadStep>): nat {
    if reader == [] then 0 else (if reader[0].Handle? then 3 else 1) + Work(reader[1..])
  }

  lemma {:induction false} WorkConcat(a: seq<ReadStep>, b: seq<ReadStep>)
    ensures Work(a + b) == Work(a) + Work(b)
  {
    if a == [] {
      assert a + b == b;
    } else {
      assert (a + b)[1..] == a[1..] + b;
      WorkConcat(a[1..], b);
    }
  }

  lemma FrameWork(f: Frame, rest: seq<ReadStep>)
    ensures Work(FrameSteps(f) + rest) < 3 + Work(rest)
  {
    WorkConcat(FrameSteps(f), rest);
    var reply := match f case AnsweredFrame(r) => ReplySteps(r) case PeerClose(r) => ReplySteps(r) case _ => [];
    assert Work(reply) <= 1 && Work([Answer(StreamClosed)]) == 1;
    WorkConcat(reply, [Answer(StreamClosed)]);
  }

  /** The reader up to and including its next send. */
  function ReaderGoes(s: Ws): Ws
    decreases Work(s.reader)
  {
    if s.reader == [] then s
    else
      var rest := s.reader[1..];
      match s.reader[0]
      case Answer(e) => Send(s.(reader := rest), e)
      case Shut => ReaderGoes(s.(reader := rest, closed := true))
      case Handle(f) =>
        FrameWork(f, rest);
        ReaderGoes(s.(reader := FrameSteps(f) + rest, toApp := s.toApp + FramePuts(f)))
  }

  function Handles(frames: seq<Frame>): seq<ReadStep> {
    seq(|frames|, i requires 0 <= i < |frames| => Handle(frames[i]))
  }

  // ---------------------------------------------------------------------------
  // Runs

  /** Application: a message, or going on after a send. Reader: client data with the frames
      it completes, going on after a send, or the close of the stream. */
  datatype Action = App(m: AppMessage) | AppOn | Client(frames: seq<Frame>) | ReaderOn | ClientClosed

  predicate Enabled(s: Ws, a: Action) {
    match a
    case App(_) => s.app == [] && !s.finished
    case AppOn => s.app != []
    case Client(_) => s.reader == []
    case ReaderOn => s.reader != []
    case ClientClosed => true
  }

  function Step(s: Ws, a: Action): Ws
    requires Enabled(s, a)
  {
    match a
    case App(m) =>
      var (s1, plan) := Plan(s, m);
      AppGoes(s1.(app := plan, finished := m.Finished?))
    case AppOn => AppGoes(s)
    case Client(frames) =>
      if s.closed then s
      else if !s.accepted then ReaderGoes(s.(reader := [Answer(Response(400)), Answer(EndBody(false)), Shut]))
      else ReaderGoes(s.(reader := Handles(frames)))
    case ReaderOn => ReaderGoes(s)
    case ClientClosed => CloseStream(s)
  }

  ghost predicate Legal(s: Ws, run: seq<Action>)
    decreases |run|
  {
    run == [] || (Enabled(s, run[0]) && Legal(Step(s, run[0]), run[1..]))
  }

  ghost function Run(s: Ws, run: seq<Action>): Ws
    requires Legal(s, run)
    decreases |run|
  {
    if run == [] then s else Run(Step(s, run[0]), run[1..])
  }

  // ---------------------------------------------------------------------------
  // What every run keeps

  function CodeFor(state: State): int {
    if state == Closed || state == HttpClosed then NORMAL_CLOSURE else ABNORMAL_CLOSURE
  }

  /** Once connected, no step leads into an HTTP response. */
  ghost predicate Lifecycle(s: Ws) {
    && (s.accepted ==> s.connected)
    && (s.state == Connected ==> s.connected)
    && (s.connected ==> s.state == Connected || s.state == Closed)
    && (s.connected ==> forall m <- s.app :: m.Emit?)
    && (forall m <- s.app :: m.Enter? ==> m.state == Replying || m.state == HttpClosed)
  }

  /** Data frames, sent or about to be, belong to an accepted WebSocket. */
  ghost predicate DataOk(s: Ws) {
    && (s.accepted <==> s.acceptedAt.Some?)
    && (s.accepted ==> s.acceptedAt.value <= |s.out|)
    && (s.accepted && s.acceptedAt.value == |s.out| ==> s.app != [] && s.app[0].Emit? && s.app[0].e.Response?)
    && (s.accepted && s.acceptedAt.value < |s.out| ==> s.out[s.acceptedAt.value].Response?)
    && (forall i :: 0 <= i < |s.out| && s.out[i].Data? ==> s.accepted && s.acceptedAt.value < i)
    && (!s.accepted ==> forall m <- s.app :: m.Emit? ==> !m.e.Data?)
    && (!s.accepted ==> forall r <- s.reader :: !r.Handle? && (r.Answer? ==> !r.e.Data?))
  }

  /** One disconnect at most, with the code of the state it was sent in. */
  ghost predicate DisconnectOk(s: Ws) {
    && (s.closedIn.Some? ==> s.closed)
    && (forall i :: 0 <= i < |s.toApp| && s.toApp[i].Disconnect? ==> s.closedIn.Some? && i == s.closedAt)
    && (s.closedIn.Some? ==> s.closedAt < |s.toApp| && s.toApp[s.closedAt] == Disconnect(CodeFor(s.closedIn.value)))
    && (s.closedIn.Some? && !s.overlap ==> s.closedAt == |s.toApp| - 1 && s.reader == [])
  }

  ghost predicate Inv(s: Ws) {
    Lifecycle(s) && DataOk(s) && DisconnectOk(s)
  }

  lemma CloseKeeps(s: Ws)
    requires Inv(s)
    ensures Inv(CloseStream(s))
  {
  }

  /** Sending keeps everything; data only on an accepted WebSocket. */
  lemma SendKeeps(s: Ws, e: StreamEvent)
    requires Lifecycle(s) && DisconnectOk(s)
    requires DataOk(s) || (s.accepted && s.acceptedAt == Some(|s.out|) && e.Response? && DataOk(s.(out := s.out + [e])))
    requires e.Data? ==> s.accepted && DataOk(s) && s.acceptedAt.value < |s.out|
    requires s.accepted && s.acceptedAt == Some(|s.out|) ==> e.Response?
    ensures Inv(Send(s, e))
  {
    hide DisconnectOk, Lifecycle;
    var s1 := s.(out := s.out + [e]);
    assert DataOk(s1);
    assert DisconnectOk(s1) && Lifecycle(s1) by { SameElsewhere(s, s1); }
    if e == StreamClosed {
      CloseKeeps(s1);
    }
  }

  lemma SameElsewhere(s: Ws, s1: Ws)
    requires s1 == s.(out := s1.out)
    ensures DisconnectOk(s) ==> DisconnectOk(s1)
    ensures Lifecycle(s) ==> Lifecycle(s1)
  {
  }

  lemma {:induction false} AppGoesKeeps(s: Ws)
    requires Inv(s)
    ensures Inv(AppGoes(s))
    decreases |s.app|
  {
    if s.app != [] {
      var s1 := s.(app := s.app[1..]);
      assert s.app[0] in s.app && forall m <- s1.app :: m in s.app;
      match s.app[0]
      case Emit(e) => SendKeeps(s1, e);
      case Enter(state) => AppGoesKeeps(s1.(state := state));
    }
  }

  lemma {:induction false} ReaderGoesKeeps(s: Ws)
    requires Inv(s)
    requires s.accepted ==> s.acceptedAt.value < |s.out|
    ensures Inv(ReaderGoes(s))
    decreases Work(s.reader)
  {
    if s.reader != [] {
      var rest := s.reader[1..];
      assert s.reader[0] in s.reader && forall r <- rest :: r in s.reader;
      match s.reader[0]
      case Answer(e) => SendKeeps(s.(reader := rest), e);
      case Shut => ReaderGoesKeeps(s.(reader := rest, closed := true));
      case Handle(f) =>
        FrameWork(f, rest);
        HandleKeeps(s, f, rest);
        ReaderGoesKeeps(s.(reader := FrameSteps(f) + rest, toApp := s.toApp + FramePuts(f)));
    }
  }

  lemma HandleKeeps(s: Ws, f: Frame, rest: seq<ReadStep>)
    requires Inv(s) && s.accepted && s.reader == [Handle(f)] + rest
    ensures Inv(s.(reader := FrameSteps(f) + rest, toApp := s.toApp + FramePuts(f)))
  {
  }

  /** What a planned message may contain, and what planning may change. */
  ghost predicate PlanOk(s: Ws, s1: Ws, plan: seq<Micro>) {
    && s1 == s.(state := s1.state, accepted := s1.accepted, response := s1.response,
                trailersExpected := s1.trailersExpected, connected := s1.connected, acceptedAt := s1.acceptedAt)
    && (s.connected ==> s1.connected && (s1.state == s.state || s1.state == Closed))
    && (s1.connected && !s.connected ==> s1.state == Connected)
    && (s1.state == Connected ==> s1.connected)
    && (s1.connected ==> forall m <- plan :: m.Emit?)
    && (forall m <- plan :: m.Enter? ==> m.state == Replying || m.state == HttpClosed)
    && (forall m <- plan :: m.Emit? && m.e.Data? ==> s.accepted)
    && if s.accepted || !s1.accepted then s1.accepted == s.accepted && s1.acceptedAt == s.acceptedAt
       else s1.acceptedAt == Some(|s.out|) && plan != [] && plan[0].Emit? && plan[0].e.Response? && s1.connected
  }

  lemma RejectionOk(s: Ws, content: StreamEvent, more: bool)
    requires Lifecycle(s) && (s.state == Handshaking || s.state == Replying) && s.response.Some? && !content.Data?
    ensures PlanOk(s, s, Rejection(s, content, more))
  {
  }

  lemma PlanIsOk(s: Ws, m: AppMessage)
    requires Lifecycle(s)
    ensures var (s1, plan) := Plan(s, m); PlanOk(s, s1, plan)
  {
    if m.ReplyBody? && s.response.Some? && (s.state == Handshaking || s.state == Replying) {
      RejectionOk(s, Body(m.data, false), m.more);
      hide Rejection;
    } else if m.ReplyFile? && s.response.Some? && (s.state == Handshaking || s.state == Replying) {
      RejectionOk(s, ZeroCopySend, m.more);
      hide Rejection;
    } else if m.CloseFrame? || m.Finished? {
      EndingOk(s, m);
      hide Plan;
    } else {
      hide Rejection;
    }
  }

  lemma EndingOk(s: Ws, m: AppMessage)
    requires Lifecycle(s) && (m.CloseFrame? || m.Finished?)
    ensures var (s1, plan) := Plan(s, m); PlanOk(s, s1, plan)
  {
  }

  lemma PlanKeeps(s: Ws, m: AppMessage)
    requires Stable(s) && s.app == []
    ensures var (s1, plan) := Plan(s, m); Inv(s1.(app := plan, finished := m.Finished?))
  {
    PlanIsOk(s, m);
    hide Plan;
  }

  /** Between steps the accepting response is out. */
  ghost predicate Stable(s: Ws) {
    Inv(s) && (s.accepted ==> s.acceptedAt.value < |s.out|)
  }

  /** Sending adds to the output; of the rest only what closing the stream changes. */
  lemma SendEffect(s: Ws, e: StreamEvent)
    ensures var s' := Send(s, e);
      && s'.out == s.out + [e] && s'.accepted == s.accepted && s'.acceptedAt == s.acceptedAt
      && s'.state == s.state && s'.app == s.app && s'.reader == s.reader
      && (s'.closedIn == s.closedIn || s'.closedIn == Some(s.state))
  {
    var s1 := s.(out := s.out + [e]);
    CloseEffect(s1);
    hide CloseStream;
  }

  lemma CloseEffect(s: Ws)
    ensures var s' := CloseStream(s);
      && s'.out == s.out && s'.accepted == s.accepted && s'.acceptedAt == s.acceptedAt
      && s'.state == s.state && s'.app == s.app && s'.reader == s.reader
      && (s'.closedIn == s.closedIn || s'.closedIn == Some(s.state))
  {
  }

  lemma {:induction false} AppSends(s: Ws)
    ensures var s' := AppGoes(s);
      && |s'.out| >= |s.out| + (if s.app != [] && s.app[0].Emit? then 1 else 0)
      && s'.accepted == s.accepted && s'.acceptedAt == s.acceptedAt
    decreases |s.app|
  {
    if s.app != [] && s.app[0].Emit? {
      SendEffect(s.(app := s.app[1..]), s.app[0].e);
    }
    hide Send;
    if s.app != [] && s.app[0].Enter? {
      AppSends(s.(app := s.app[1..], state := s.app[0].state));
    }
  }

  lemma {:induction false} ReaderSends(s: Ws)
    ensures var s' := ReaderGoes(s);
      |s'.out| >= |s.out| && s'.accepted == s.accepted && s'.acceptedAt == s.acceptedAt
    decreases Work(s.reader)
  {
    hide Send;
    if s.reader != [] {
      var rest := s.reader[1..];
      match s.reader[0]
      case Answer(e) => SendEffect(s.(reader := rest), e);
      case Shut => ReaderSends(s.(reader := rest, closed := true));
      case Handle(f) =>
        FrameWork(f, rest);
        ReaderSends(s.(reader := FrameSteps(f) + rest, toApp := s.toApp + FramePuts(f)));
    }
  }

  lemma AppStepKeeps(s: Ws, m: AppMessage)
    requires Stable(s) && Enabled(s, App(m))
    ensures Stable(Step(s, App(m)))
  {
    PlanIsOk(s, m);
    PlanKeeps(s, m);
    var (s1, plan) := Plan(s, m);
    hide Plan, AppGoes;
    AppGoesKeeps(s1.(app := plan, finished := m.Finished?));
    AppSends(s1.(app := plan, finished := m.Finished?));
  }

  lemma ClientStepKeeps(s: Ws, frames: seq<Frame>)
    requires Stable(s) && Enabled(s, Client(frames))
    ensures Stable(Step(s, Client(frames)))
  {
    if !s.closed {
      var reader := if s.accepted then Handles(frames) else [Answer(Response(400)), Answer(EndBody(false)), Shut];
      assert Inv(s.(reader := reader)) by {
        assert !s.accepted ==> forall r <- reader :: !r.Handle? && (r.Answer? ==> !r.e.Data?);
      }
      hide ReaderGoes;
      ReaderGoesKeeps(s.(reader := reader));
      ReaderSends(s.(reader := reader));
    }
  }

  lemma StepKeeps(s: Ws, a: Action)
    requires Stable(s) && Enabled(s, a)
    ensures Stable(Step(s, a))
  {
    match a
    case App(m) => AppStepKeeps(s, m);
    case AppOn => hide AppGoes; AppGoesKeeps(s); AppSends(s);
    case Client(frames) => ClientStepKeeps(s, frames);
    case ReaderOn => hide ReaderGoes; ReaderGoesKeeps(s); ReaderSends(s);
    case ClientClosed => CloseKeeps(s);
  }

  lemma {:induction false} RunKeeps(s: Ws, run: seq<Action>)
    requires Stable(s) && Legal(s, run)
    ensures Stable(Run(s, run))
    decreases |run|
  {
    hide Stable, Step, Enabled;
    if run != [] {
      StepKeeps(s, run[0]);
      RunKeeps(Step(s, run[0]), run[1..]);
    }
  }

  ghost predicate Reached(s: Ws, run: seq<Action>) {
    Legal(NEW, run) && s == Run(NEW, run)
  }

  // ---------------------------------------------------------------------------
  // Results

  /** At most one disconnect, with code 1000 exactly when the stream was closed by its own
      application and 1006 otherwise; nothing follows it unless it overtook client data that
      was being handled. */
  lemma OneDisconnect(s: Ws, run: seq<Action>)
    requires Reached(s, run)
    ensures forall i, j ::
      0 <= i < |s.toApp| && 0 <= j < |s.toApp| && s.toApp[i].Disconnect? && s.toApp[j].Disconnect? ==> i == j
    ensures forall t <- s.toApp :: t.Disconnect? ==>
      s.closedIn.Some? && (t.code == NORMAL_CLOSURE <==> s.closedIn.value == Closed || s.closedIn.value == HttpClosed)
      && (t.code == NORMAL_CLOSURE || t.code == ABNORMAL_CLOSURE)
    ensures !s.overlap ==> forall i :: 0 <= i < |s.toApp| - 1 ==> !s.toApp[i].Disconnect?
  {
    RunKeeps(NEW, run);
  }

  /** Once the application has accepted, the stream never turns into an HTTP response, and
      data frames only follow the accepting response. */
  lemma AcceptedForGood(s: Ws, run: seq<Action>)
    requires Reached(s, run)
    ensures s.connected ==> s.state == Connected || s.state == Closed
    ensures forall i :: 0 <= i < |s.out| && s.out[i].Data? ==>
      s.acceptedAt.Some? && s.acceptedAt.value < i && s.out[s.acceptedAt.value].Response?
  {
    RunKeeps(NEW, run);
  }

  /** The application has closed the stream: by a close message, or by a whole rejection. */
  predicate SelfClosed(s: Ws) {
    (s.state == Closed || s.state == HttpClosed) && forall m <- s.app :: m.Emit?
  }

  /** A close message handled before the stream is closed closes it for good. */
  lemma CloseFrameCloses(s: Ws, frame: Option<Bytes>)
    requires Enabled(s, App(CloseFrame(frame))) && !s.closed
    ensures SelfClosed(Step(s, App(CloseFrame(frame))))
  {
    var (s1, plan) := Plan(s, CloseFrame(frame));
    assert SelfClosed(s1.(app := plan, finished := false));
    AppKeepsSelfClosed(s1.(app := plan, finished := false));
    hide Plan, AppGoes, SelfClosed;
  }

  lemma {:induction false} ReaderKeepsState(s: Ws)
    ensures var s' := ReaderGoes(s);
      && s'.state == s.state && s'.app == s.app
      && (s'.closedIn == s.closedIn || s'.closedIn == Some(s.state))
    decreases Work(s.reader)
  {
    hide Send;
    if s.reader != [] {
      var rest := s.reader[1..];
      match s.reader[0]
      case Answer(e) => SendEffect(s.(reader := rest), e);
      case Shut => ReaderKeepsState(s.(reader := rest, closed := true));
      case Handle(f) =>
        FrameWork(f, rest);
        ReaderKeepsState(s.(reader := FrameSteps(f) + rest, toApp := s.toApp + FramePuts(f)));
    }
  }

  lemma {:induction false} AppKeepsSelfClosed(s: Ws)
    requires SelfClosed(s)
    ensures var s' := AppGoes(s);
      SelfClosed(s') && (s'.closedIn == s.closedIn || s'.closedIn == Some(s.state))
  {
    if s.app != [] {
      assert s.app[0] in s.app && forall m <- s.app[1..] :: m in s.app;
    }
  }

  ghost predicate NormalOrOpen(s: Ws) {
    s.closedIn == None || s.closedIn == Some(Closed) || s.closedIn == Some(HttpClosed)
  }

  /** In every continuation a stream its application has closed ends with code 1000. */
  lemma {:induction false} SelfClosedEndsNormally(s: Ws, run: seq<Action>)
    requires SelfClosed(s) && NormalOrOpen(s) && Legal(s, run)
    ensures NormalOrOpen(Run(s, run)) && SelfClosed(Run(s, run))
    decreases |run|
  {
    if run != [] {
      var a := run[0];
      match a {
        case App(m) =>
          var (s1, plan) := Plan(s, m);
          assert SelfClosed(s1.(app := plan, finished := m.Finished?)) && s1.closedIn == s.closedIn;
          AppKeepsSelfClosed(s1.(app := plan, finished := m.Finished?));
        case AppOn => AppKeepsSelfClosed(s);
        case Client(frames) =>
          ReaderKeepsState(s.(reader := Handles(frames)));
          ReaderKeepsState(s.(reader := [Answer(Response(400)), Answer(EndBody(false)), Shut]));
        case ReaderOn => ReaderKeepsState(s);
        case ClientClosed =>
      }
      var s' := Step(s, a);
      assert SelfClosed(s') && NormalOrOpen(s');
      hide Step, Enabled;
      SelfClosedEndsNormally(s', run[1..]);
    }
  }

  /** A message that may complete a close on the application's side. */
  predicate Closes(a: Action) {
    a.App? && (a.m.CloseFrame? || ((a.m.ReplyBody? || a.m.ReplyFile? || a.m.ReplyTrailers?) && !a.m.more))
  }

  ghost predicate StillOpen(s: Ws) {
    && s.state != Closed && s.state != HttpClosed && (forall m <- s.app :: m != Enter(HttpClosed) && m != Enter(Closed))
    && (s.closedIn.Some? ==> s.closedIn != Some(Closed) && s.closedIn != Some(HttpClosed))
  }

  lemma {:induction false} AppKeepsOpen(s: Ws)
    requires StillOpen(s)
    ensures StillOpen(AppGoes(s))
    decreases |s.app|
  {
    if s.app != [] {
      assert s.app[0] in s.app && forall m <- s.app[1..] :: m in s.app;
      if s.app[0].Emit? {
        SendEffect(s.(app := s.app[1..]), s.app[0].e);
      }
      hide Send;
      if s.app[0].Enter? {
        AppKeepsOpen(s.(app := s.app[1..], state := s.app[0].state));
      }
    }
  }

  lemma PlanKeepsOpen(s: Ws, m: AppMessage)
    requires StillOpen(s) && s.app == [] && !Closes(App(m))
    ensures var (s1, plan) := Plan(s, m); StillOpen(s1.(app := plan, finished := m.Finished?))
  {
  }

  /** And without such a message it ends with code 1006. */
  lemma {:induction false} OthersEndAbnormally(s: Ws, run: seq<Action>)
    requires StillOpen(s) && Legal(s, run) && forall a <- run :: !Closes(a)
    ensures StillOpen(Run(s, run))
    decreases |run|
  {
    if run != [] {
      var a := run[0];
      assert a in run;
      match a {
        case App(m) =>
          var (s1, plan) := Plan(s, m);
          PlanKeepsOpen(s, m);
          AppKeepsOpen(s1.(app := plan, finished := m.Finished?));
        case AppOn => AppKeepsOpen(s);
        case Client(frames) =>
          ReaderKeepsState(s.(reader := Handles(frames)));
          ReaderKeepsState(s.(reader := [Answer(Response(400)), Answer(EndBody(false)), Shut]));
        case ReaderOn => ReaderKeepsState(s);
        case ClientClosed =>
      }
      var s' := Step(s, a);
      assert StillOpen(s');
      hide Step, Enabled;
      OthersEndAbnormally(s', run[1..]);
    }
  }

  // ---------------------------------------------------------------------------
  // A disconnect in the middle of client data

  const OVERTAKEN: seq<Action> :=
    [App(Accept(true, 101)), Client([AnsweredFrame(Some([])), DataFrame]), ClientClosed, ReaderOn]

  const ACCEPTED := NEW.(
    state := Connected, connected := true, accepted := true, acceptedAt := Some(0), out := [Response(101)])

  const ANSWERING := ACCEPTED.(out := [Response(101), Data([])], reader := [Handle(DataFrame)])

  const CLOSED_MEANWHILE := ANSWERING.(
    closed := true, toApp := [Disconnect(ABNORMAL_CLOSURE)], closedIn := Some(Connected), overlap := true)

  lemma AcceptStep()
    ensures Enabled(NEW, OVERTAKEN[0]) && Step(NEW, OVERTAKEN[0]) == ACCEPTED
  {
  }

  lemma PingStep()
    ensures Enabled(ACCEPTED, OVERTAKEN[1]) && Step(ACCEPTED, OVERTAKEN[1]) == ANSWERING
  {
    var ping := AnsweredFrame(Some([]));
    var handles := Handles([ping, DataFrame]);
    assert handles == [Handle(ping), Handle(DataFrame)];
    var answering := [Answer(Data([])), Handle(DataFrame)];
    assert FrameSteps(ping) + handles[1..] == answering && answering[1..] == [Handle(DataFrame)];
    var s := ACCEPTED.(reader := answering);
    assert ReaderGoes(s) == ANSWERING by { assert [Response(101)] + [Data([])] == [Response(101), Data([])]; }
    assert ReaderGoes(ACCEPTED.(reader := handles)) == ReaderGoes(s) by {
      assert ACCEPTED.toApp + FramePuts(ping) == [];
    }
  }

  lemma LateStep()
    ensures var s := Step(CLOSED_MEANWHILE, ReaderOn); s.toApp == [Disconnect(ABNORMAL_CLOSURE), ReceiveMessage]
  {
    assert FrameSteps(DataFrame) + [Handle(DataFrame)][1..] == [];
    assert [Disconnect(ABNORMAL_CLOSURE)] + FramePuts(DataFrame) == [Disconnect(ABNORMAL_CLOSURE), ReceiveMessage];
    var s := CLOSED_MEANWHILE.(reader := [], toApp := [Disconnect(ABNORMAL_CLOSURE), ReceiveMessage]);
    assert ReaderGoes(s) == s;
  }

  /** A ping is being answered while the stream is closed: the message behind it is still
      delivered, after the disconnect. */
  lemma MessageAfterDisconnect()
    ensures Legal(NEW, OVERTAKEN)
    ensures Run(NEW, OVERTAKEN).toApp == [Disconnect(ABNORMAL_CLOSURE), ReceiveMessage]
  {
    AcceptStep();
    PingStep();
    assert Step(ANSWERING, ClientClosed) == CLOSED_MEANWHILE;
    LateStep();
    var s := Step(CLOSED_MEANWHILE, ReaderOn);
    hide Step;
    var run3, run2, run1 := OVERTAKEN[3..], OVERTAKEN[2..], OVERTAKEN[1..];
    assert run3[1..] == [] && run2[1..] == run3 && run1[1..] == run2;
    assert Legal(CLOSED_MEANWHILE, run3) && Run(CLOSED_MEANWHILE, run3) == s;
    assert Legal(ANSWERING, run2) && Run(ANSWERING, run2) == s;
    assert Legal(ACCEPTED, run1) && Run(ACCEPTED, run1) == s;
  }
}
