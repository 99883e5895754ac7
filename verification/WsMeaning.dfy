/** What a WebSocket sends and delivers, told from the application's messages and the peer's
    frames alone. Every run of the two tasks sends exactly that, each task in its order. */
module WsMeaning {
  import opened Bytes
  import opened StreamEvents
  import opened WsStreams
  import WsClosings

  // ---------------------------------------------------------------------------
  // The application's messages

  /** What the messages taken so far lead to: the state, whether the handshake was completed,
      and the last start of a rejection with its announcement of trailers. */
  datatype Told = Told(state: State, accepted: bool, response: Option<(int, bool)>)

  const UNTOLD := Told(Handshaking, false, None)

  /** A part of a rejection is sent: a response was started, and its headers are valid when
      they are still to be sent. */
  predicate PartGoes(t: Told, valid: bool) {
    t.response.Some? && (t.state == Replying || (t.state == Handshaking && valid))
  }

  function PartLeads(t: Told, valid: bool, more: bool): Told {
    if !PartGoes(t, valid) then t
    else t.(state := if more || t.response.value.1 then Replying else HttpClosed)
  }

  function Tell(t: Told, m: AppMessage): Told {
    match m
    case Accept(valid, _) => if t.state == Handshaking then t.(state := Connected, accepted := valid) else t
    case ReplyStart(status, trailers) =>
      if t.state == Handshaking then t.(response := Some((status, trailers))) else t
    case ReplyBody(valid, _, more) => PartLeads(t, valid, more)
    case ReplyFile(valid, more) => PartLeads(t, valid, more)
    case ReplyTrailers(more, _) =>
      if !more && (t.state == Handshaking || t.state == Replying) then t.(state := HttpClosed) else t
    case CloseFrame(_) => t.(state := if t.state == Handshaking then HttpClosed else Closed)
    case _ => t
  }

  function DataOf(frame: Option<Bytes>): seq<StreamEvent> {
    match frame case Some(bytes) => [Data(bytes)] case None => []
  }

  /** A rejection part: the head first, the content unless the status has no body, and the
      end after the last part of a response without trailers. */
  function PartAdds(t: Told, valid: bool, more: bool, content: StreamEvent): seq<StreamEvent> {
    if !PartGoes(t, valid) then []
    else
      var (status, trailers) := t.response.value;
      (if t.state == Handshaking then [Response(status)] else [])
      + (if 100 <= status < 200 || status == 204 || status == 304 then [] else [content])
      + (if more || trailers then [] else [EndBody(false)])
  }

  /** The events that one message adds. */
  function Adds(t: Told, m: AppMessage): seq<StreamEvent> {
    match m
    case Accept(valid, status) => if t.state == Handshaking && valid then [Response(status)] else []
    case ReplyStart(_, _) => []
    case ReplyBody(valid, data, more) => PartAdds(t, valid, more, Body(data, false))
    case ReplyFile(valid, more) => PartAdds(t, valid, more, ZeroCopySend)
    case ReplyTrailers(more, http2) =>
      if t.state != Handshaking && t.state != Replying then []
      else [TrailerHeadersSend(!more)] + if http2 && !more then [EndBody(false)] else []
    case SendFrame(valid, frame) => if t.state == Connected && t.accepted && valid then DataOf(frame) else []
    case CloseFrame(frame) =>
      if t.state == Handshaking then [Response(403), EndBody(false)]
      else if t.accepted then DataOf(frame) + [EndData]
      else []
    case Unknown => []
    case Finished(frame) =>
      if t.state == Handshaking then [Response(500), EndBody(false), StreamClosed]
      else if t.state != Connected then [StreamClosed]
      else if t.accepted then DataOf(frame) + [StreamClosed]
      else []
  }

  function TellAll(t: Told, ms: seq<AppMessage>): Told
    decreases |ms|
  {
    if ms == [] then t else TellAll(Tell(t, ms[0]), ms[1..])
  }

  function Meaning(t: Told, ms: seq<AppMessage>): seq<StreamEvent>
    decreases |ms|
  {
    if ms == [] then [] else Adds(t, ms[0]) + Meaning(Tell(t, ms[0]), ms[1..])
  }

  // ---------------------------------------------------------------------------
  // What a run does

  predicate ByApp(a: Action) { a.App? || a.AppOn? }

  /** The messages that were handled while the stream was open. */
  ghost function Taken(s: Ws, run: seq<Action>): seq<AppMessage>
    requires Legal(s, run)
    decreases |run|
  {
    if run == [] then []
    else (match run[0] case App(m) => if s.closed then [] else [m] case _ => []) + Taken(Step(s, run[0]), run[1..])
  }

  /** What was added to the output. */
  function Growth(s: Ws, s': Ws): seq<StreamEvent> {
    if |s.out| <= |s'.out| then s'.out[|s.out|..] else []
  }

  /** The events sent by one task, in order. */
  ghost function SentBy(app: bool, s: Ws, run: seq<Action>): seq<StreamEvent>
    requires Legal(s, run)
    decreases |run|
  {
    if run == [] then []
    else
      var s' := Step(s, run[0]);
      (if ByApp(run[0]) == app then Growth(s, s') else []) + SentBy(app, s', run[1..])
  }

  /** The events of the steps left of the current message, and the state they lead to. */
  function EmitOf(m: Micro): seq<StreamEvent> {
    match m case Emit(e) => [e] case Enter(_) => []
  }

  function Emits(app: seq<Micro>): seq<StreamEvent> {
    if app == [] then [] else EmitOf(app[0]) + Emits(app[1..])
  }

  function Entered(state: State, m: Micro): State {
    match m case Emit(_) => state case Enter(next) => next
  }

  function LeadsTo(state: State, app: seq<Micro>): State
    decreases |app|
  {
    if app == [] then state else LeadsTo(Entered(state, app[0]), app[1..])
  }

  lemma {:induction false} EmitsConcat(a: seq<Micro>, b: seq<Micro>)
    ensures Emits(a + b) == Emits(a) + Emits(b)
  {
    hide EmitOf;
    if a == [] {
      assert a + b == b;
    } else {
      assert (a + b)[1..] == a[1..] + b;
      EmitsConcat(a[1..], b);
    }
  }

  lemma {:induction false} LeadsConcat(state: State, a: seq<Micro>, b: seq<Micro>)
    ensures LeadsTo(state, a + b) == LeadsTo(LeadsTo(state, a), b)
    decreases |a|
  {
    hide Entered;
    if a == [] {
      assert a + b == b;
    } else {
      assert (a + b)[1..] == a[1..] + b;
      LeadsConcat(Entered(state, a[0]), a[1..], b);
    }
  }

  lemma AppConcat(state: State, a: seq<Micro>, b: seq<Micro>)
    ensures Emits(a + b) == Emits(a) + Emits(b) && LeadsTo(state, a + b) == LeadsTo(LeadsTo(state, a), b)
  {
    EmitsConcat(a, b);
    LeadsConcat(state, a, b);
  }

  lemma OneStep(state: State, m: Micro)
    ensures Emits([m]) == EmitOf(m) && LeadsTo(state, [m]) == Entered(state, m)
    ensures Emits([]) == [] && LeadsTo(state, []) == state
  {
    assert [m][1..] == [];
  }

  /** The state is as told. */
  ghost predicate Fits(s: Ws, t: Told) {
    && LeadsTo(s.state, s.app) == t.state && s.accepted == t.accepted
    && (t.state == Handshaking ==> !t.accepted)
    && (t.response == None <==> s.response == None)
    && (t.response.Some? ==> s.response.value == t.response.value.0 && s.trailersExpected == t.response.value.1)
  }

  lemma FrameEmits(state: State, frame: Option<Bytes>)
    ensures Emits(FrameOut(frame)) == DataOf(frame) && LeadsTo(state, FrameOut(frame)) == state
  {
    if frame.Some? {
      OneStep(state, Emit(Data(frame.value)));
    }
  }

  lemma TwoEmits(state: State, e: StreamEvent, f: StreamEvent)
    ensures Emits([Emit(e), Emit(f)]) == [e, f] && LeadsTo(state, [Emit(e), Emit(f)]) == state
  {
    assert [Emit(e), Emit(f)] == [Emit(e)] + [Emit(f)];
    AppConcat(state, [Emit(e)], [Emit(f)]);
    OneStep(state, Emit(e));
    OneStep(state, Emit(f));
  }

  lemma FrameThen(state: State, frame: Option<Bytes>, e: StreamEvent)
    ensures Emits(FrameOut(frame) + [Emit(e)]) == DataOf(frame) + [e]
    ensures LeadsTo(state, FrameOut(frame) + [Emit(e)]) == state
  {
    AppConcat(state, FrameOut(frame), [Emit(e)]);
    FrameEmits(state, frame);
    OneStep(state, Emit(e));
  }

  lemma HeadEmits(state: State, status: int)
    ensures var head := [Emit(Response(status)), Enter(Replying)];
      Emits(head) == [Response(status)] && LeadsTo(state, head) == Replying
  {
    assert [Emit(Response(status)), Enter(Replying)] == [Emit(Response(status))] + [Enter(Replying)];
    AppConcat(state, [Emit(Response(status))], [Enter(Replying)]);
    OneStep(state, Emit(Response(status)));
    OneStep(state, Enter(Replying));
    hide Emits, LeadsTo;
  }

  lemma EndEmits(state: State)
    ensures var end := [Enter(HttpClosed), Emit(EndBody(false))];
      Emits(end) == [EndBody(false)] && LeadsTo(state, end) == HttpClosed
  {
    assert [Enter(HttpClosed), Emit(EndBody(false))] == [Enter(HttpClosed)] + [Emit(EndBody(false))];
    AppConcat(state, [Enter(HttpClosed)], [Emit(EndBody(false))]);
    OneStep(state, Enter(HttpClosed));
    OneStep(HttpClosed, Emit(EndBody(false)));
    hide Emits, LeadsTo;
  }

  lemma RejectionEmits(s: Ws, content: StreamEvent, more: bool)
    requires s.response.Some? && (s.state == Handshaking || s.state == Replying)
    ensures var plan := Rejection(s, content, more); var status := s.response.value;
      && Emits(plan) ==
           (if s.state == Handshaking then [Response(status)] else [])
           + (if 100 <= status < 200 || status == 204 || status == 304 then [] else [content])
           + (if more || s.trailersExpected then [] else [EndBody(false)])
      && LeadsTo(s.state, plan) == if more || s.trailersExpected then Replying else HttpClosed
  {
    var status := s.response.value;
    var head := if s.state == Handshaking then [Emit(Response(status)), Enter(Replying)] else [];
    var body := if SuppressBody("GET", status) then [] else [Emit(content)];
    var end := if more || s.trailersExpected then [] else [Enter(HttpClosed), Emit(EndBody(false))];
    assert Rejection(s, content, more) == head + body + end;
    OneStep(s.state, Emit(content));
    OneStep(Replying, Emit(content));
    HeadEmits(s.state, status);
    EndEmits(Replying);
    hide Emits, LeadsTo, Rejection;
    AppConcat(s.state, head, body);
    AppConcat(s.state, head + body, end);
  }

  lemma TrailersEmit(state: State, more: bool, http2: bool)
    ensures var plan := RejectionTrailers(more, http2);
      && Emits(plan) == [TrailerHeadersSend(!more)] + (if http2 && !more then [EndBody(false)] else [])
      && LeadsTo(state, plan) == if more then state else HttpClosed
  {
    var head := [Emit(TrailerHeadersSend(!more))];
    var close: seq<Micro> := [Enter(HttpClosed)];
    var end: seq<Micro> := if http2 then [Emit(EndBody(false))] else [];
    OneStep(state, Emit(TrailerHeadersSend(!more)));
    OneStep(state, Enter(HttpClosed));
    OneStep(HttpClosed, Emit(EndBody(false)));
    AppConcat(state, close, end);
    AppConcat(state, head, close + end);
    hide Emits, LeadsTo;
    if more {
      assert RejectionTrailers(more, http2) == head;
    } else {
      assert RejectionTrailers(more, http2) == head + (close + end);
    }
  }

  /** A message plans the events it means, and leads where it tells. */
  ghost predicate Meant(s: Ws, t: Told, m: AppMessage) {
    var (s1, plan) := Plan(s, m);
    && Emits(plan) == Adds(t, m) && Fits(s1.(app := plan), Tell(t, m))
    && s1.closed == s.closed && s1.out == s.out && s1.app == [] && s1.reader == s.reader && s1.toApp == s.toApp
  }

  lemma FinishMeans(s: Ws, t: Told, frame: Option<Bytes>)
    requires Fits(s, t) && s.app == [] && !s.closed
    ensures Meant(s, t, Finished(frame))
  {
    hide Emits, LeadsTo, FrameOut, Rejection;
    OneStep(s.state, Emit(StreamClosed));
    if s.state == Handshaking {
      TwoEmits(s.state, Response(500), EndBody(false));
      AppConcat(s.state, ErrorResponse(500), [Emit(StreamClosed)]);
    } else if s.state == Connected && s.accepted {
      FrameThen(s.state, frame, StreamClosed);
    } else {
      assert [] + [Emit(StreamClosed)] == [Emit(StreamClosed)];
    }
  }

  lemma CloseMeans(s: Ws, t: Told, frame: Option<Bytes>)
    requires Fits(s, t) && s.app == [] && !s.closed
    ensures Meant(s, t, CloseFrame(frame))
  {
    OneStep(s.state, Emit(EndData));
    TwoEmits(HttpClosed, Response(403), EndBody(false));
    FrameThen(Closed, frame, EndData);
    OneStep(Closed, Emit(EndData));
    hide Emits, LeadsTo, FrameOut;
  }

  lemma HandshakeMeans(s: Ws, t: Told, m: AppMessage)
    requires Fits(s, t) && s.app == [] && !s.closed && (m.Accept? || m.ReplyStart? || m.Unknown?)
    ensures Meant(s, t, m)
  {
    OneStep(s.state, Emit(EndData));
    OneStep(Connected, Emit(Response(if m.Accept? then m.status else 0)));
    hide Emits, LeadsTo;
  }

  lemma TrailersMean(s: Ws, t: Told, more: bool, http2: bool)
    requires Fits(s, t) && s.app == [] && !s.closed
    ensures Meant(s, t, ReplyTrailers(more, http2))
  {
    TrailersEmit(s.state, more, http2);
    OneStep(s.state, Emit(EndData));
    hide Emits, LeadsTo, RejectionTrailers;
  }

  lemma FrameMeans(s: Ws, t: Told, valid: bool, frame: Option<Bytes>)
    requires Fits(s, t) && s.app == [] && !s.closed
    ensures Meant(s, t, SendFrame(valid, frame))
  {
    FrameEmits(s.state, frame);
    OneStep(s.state, Emit(EndData));
    hide Emits, LeadsTo, FrameOut;
  }

  lemma PlanMeans(s: Ws, t: Told, m: AppMessage)
    requires Fits(s, t) && s.app == [] && !s.closed
    ensures Meant(s, t, m)
  {
    hide Meant, Fits;
    match m
    case Finished(frame) => FinishMeans(s, t, frame);
    case ReplyBody(valid, data, more) => PartMeans(s, t, m, valid, more, Body(data, false));
    case ReplyFile(valid, more) => PartMeans(s, t, m, valid, more, ZeroCopySend);
    case ReplyTrailers(more, http2) => TrailersMean(s, t, more, http2);
    case SendFrame(valid, frame) => FrameMeans(s, t, valid, frame);
    case CloseFrame(frame) => CloseMeans(s, t, frame);
    case _ => HandshakeMeans(s, t, m);
  }

  ghost predicate IsPart(m: AppMessage, valid: bool, more: bool, content: StreamEvent) {
    || (m.ReplyBody? && m == ReplyBody(valid, m.data, more) && content == Body(m.data, false))
    || (m == ReplyFile(valid, more) && content == ZeroCopySend)
  }

  lemma PartPlan(s: Ws, t: Told, m: AppMessage, valid: bool, more: bool, content: StreamEvent)
    requires Fits(s, t) && s.app == [] && !s.closed && IsPart(m, valid, more, content)
    ensures s.state == t.state
    ensures Plan(s, m) == (s, if PartGoes(t, valid) then Rejection(s, content, more) else [])
    ensures Adds(t, m) == PartAdds(t, valid, more, content) && Tell(t, m) == PartLeads(t, valid, more)
  {
    OneStep(s.state, Emit(content));
    hide Rejection, Emits, PartAdds, PartLeads;
  }

  lemma PartMeans(s: Ws, t: Told, m: AppMessage, valid: bool, more: bool, content: StreamEvent)
    requires Fits(s, t) && s.app == [] && !s.closed && IsPart(m, valid, more, content)
    ensures Meant(s, t, m)
  {
    PartPlan(s, t, m, valid, more, content);
    OneStep(s.state, Emit(content));
    if PartGoes(t, valid) {
      RejectionEmits(s, content, more);
    }
    hide Emits, LeadsTo, Rejection, Plan, Adds, Tell;
  }

  lemma {:induction false} AppGoesSays(s: Ws, t: Told)
    requires Fits(s, t)
    ensures var s' := AppGoes(s);
      && s.out <= s'.out && Growth(s, s') + Emits(s'.app) == Emits(s.app) && Fits(s', t)
    decreases |s.app|
  {
    if s.app != [] {
      var rest := s.app[1..];
      match s.app[0]
      case Emit(e) => EmitSays(s, t, e); hide Growth, Fits, Emits;
      case Enter(state) => AppGoesSays(s.(app := rest, state := state), t);
    } else {
      assert s.out[|s.out|..] == [];
    }
  }

  lemma EmitSays(s: Ws, t: Told, e: StreamEvent)
    requires Fits(s, t) && s.app != [] && s.app[0] == Emit(e)
    ensures var s' := Send(s.(app := s.app[1..]), e);
      && s.out <= s'.out && Growth(s, s') + Emits(s'.app) == Emits(s.app) && Fits(s', t)
  {
    var rest := s.app[1..];
    SendEffect(s.(app := rest), e);
    SendKeepsResponse(s.(app := rest), e);
    hide Send;
    assert (s.out + [e])[|s.out|..] == [e];
  }

  lemma SendKeepsResponse(s: Ws, e: StreamEvent)
    ensures var s' := Send(s, e); s'.response == s.response && s'.trailersExpected == s.trailersExpected
  {
  }

  lemma {:induction false} ReaderSaysNothing(s: Ws, t: Told)
    requires Fits(s, t)
    ensures var s' := ReaderGoes(s); s'.app == s.app && Fits(s', t)
    decreases Work(s.reader)
  {
    if s.reader != [] {
      var rest := s.reader[1..];
      match s.reader[0]
      case Answer(e) =>
        SendEffect(s.(reader := rest), e);
        SendKeepsResponse(s.(reader := rest), e);
        hide Send;
      case Shut => ReaderSaysNothing(s.(reader := rest, closed := true), t);
      case Handle(f) =>
        FrameWork(f, rest);
        ReaderSaysNothing(s.(reader := FrameSteps(f) + rest, toApp := s.toApp + FramePuts(f)), t);
    }
  }

  /** One step of a run: what the application's task sends is what its messages mean. */
  lemma StepSays(s: Ws, t: Told, a: Action)
    requires Fits(s, t) && Enabled(s, a)
    ensures var s', ms := Step(s, a), if a.App? && !s.closed then [a.m] else [];
      && Emits(s.app) + Meaning(t, ms) == (if ByApp(a) then Growth(s, s') else []) + Emits(s'.app)
      && Fits(s', TellAll(t, ms))
  {
    match a
    case App(m) => MessageSays(s, t, m); hide Step, Fits, Emits;
    case AppOn => AppGoesSays(s, t); hide AppGoes, Emits;
    case Client(frames) => ClientSaysNothing(s, t, frames); hide Step, Fits, Emits;
    case ReaderOn => ReaderSaysNothing(s, t); hide ReaderGoes, Emits, LeadsTo;
    case ClientClosed => hide Emits, LeadsTo;
  }

  lemma ClientSaysNothing(s: Ws, t: Told, frames: seq<Frame>)
    requires Fits(s, t) && Enabled(s, Client(frames))
    ensures var s' := Step(s, Client(frames)); s'.app == s.app && Fits(s', t)
  {
    ReaderSaysNothing(s.(reader := Handles(frames)), t);
    ReaderSaysNothing(s.(reader := [Answer(Response(400)), Answer(EndBody(false)), Shut]), t);
    hide ReaderGoes, Handles, Emits, LeadsTo;
  }

  lemma MessageSays(s: Ws, t: Told, m: AppMessage)
    requires Fits(s, t) && Enabled(s, App(m))
    ensures var s', ms := Step(s, App(m)), if !s.closed then [m] else [];
      && Emits(s.app) + Meaning(t, ms) == Growth(s, s') + Emits(s'.app)
      && Fits(s', TellAll(t, ms))
  {
    OneStep(s.state, Emit(EndData));
    if s.closed {
      hide Emits, LeadsTo;
      assert s.out[|s.out|..] == [];
    } else {
      PlanMeans(s, t, m);
      var (s1, plan) := Plan(s, m);
      AppGoesSays(s1.(app := plan, finished := m.Finished?), Tell(t, m));
      OneMeaning(t, m);
      hide Plan, AppGoes, LeadsTo, Adds, Tell, Meaning, TellAll;
    }
  }

  lemma OneMeaning(t: Told, m: AppMessage)
    ensures Meaning(t, [m]) == Adds(t, m) && TellAll(t, [m]) == Tell(t, m)
  {
    assert [m][1..] == [];
  }

  lemma {:induction false} MeaningConcat(t: Told, a: seq<AppMessage>, b: seq<AppMessage>)
    ensures Meaning(t, a + b) == Meaning(t, a) + Meaning(TellAll(t, a), b)
    ensures TellAll(t, a + b) == TellAll(TellAll(t, a), b)
    decreases |a|
  {
    if a == [] {
      assert a + b == b;
    } else {
      assert (a + b)[1..] == a[1..] + b;
      MeaningConcat(Tell(t, a[0]), a[1..], b);
    }
  }

  lemma {:induction false} RunSays(s: Ws, t: Told, run: seq<Action>)
    requires Fits(s, t) && Legal(s, run)
    ensures var s', ms := Run(s, run), Taken(s, run);
      && Emits(s.app) + Meaning(t, ms) == SentBy(true, s, run) + Emits(s'.app)
      && Fits(s', TellAll(t, ms))
    decreases |run|
  {
    if run != [] {
      var s1, a := Step(s, run[0]), run[0];
      var ms := if a.App? && !s.closed then [a.m] else [];
      StepSays(s, t, a);
      hide Step, Enabled, Fits, Emits, TellAll, Meaning;
      RunSays(s1, TellAll(t, ms), run[1..]);
      MeaningConcat(t, ms, Taken(s1, run[1..]));
      assert Taken(s, run) == ms + Taken(s1, run[1..]);
      Regroup(Emits(s.app), Meaning(t, ms), Meaning(TellAll(t, ms), Taken(s1, run[1..])));
      Regroup(if ByApp(a) then Growth(s, s1) else [], Emits(s1.app), Meaning(TellAll(t, ms), Taken(s1, run[1..])));
      Regroup(if ByApp(a) then Growth(s, s1) else [], SentBy(true, s1, run[1..]), Emits(Run(s, run).app));
    } else {
      assert Emits(s.app) + [] == [] + Emits(s.app);
    }
  }

  lemma Regroup<T>(a: seq<T>, b: seq<T>, c: seq<T>)
    ensures (a + b) + c == a + (b + c)
  {
  }

  /** In every run the application's task has sent, up to the steps left of its current
      message, exactly the events its messages mean, in their order: an agreed frame for each
      valid message on an accepted and open WebSocket, its close and its end in the states
      that allow them, the response that accepts, refuses or rejects. */
  lemma AppSendsMeaning(run: seq<Action>)
    requires Legal(NEW, run)
    ensures var s := Run(NEW, run);
      && SentBy(true, NEW, run) + Emits(s.app) == Meaning(UNTOLD, Taken(NEW, run))
      && (s.app == [] ==> SentBy(true, NEW, run) == Meaning(UNTOLD, Taken(NEW, run)))
      && (s.app == [] ==> s.state == TellAll(UNTOLD, Taken(NEW, run)).state)
  {
    RunSays(NEW, UNTOLD, run);
  }

  // ---------------------------------------------------------------------------
  // The peer's frames

  /** The answer to a frame, and what is passed on of it. */
  function ReplyOf(f: Frame): seq<StreamEvent> {
    match f
    case AnsweredFrame(reply) => DataOf(reply)
    case PeerClose(reply) => DataOf(reply) + [StreamClosed]
    case _ => []
  }

  function PutOf(f: Frame): seq<ToApp> {
    match f
    case DataFrame => [ReceiveMessage]
    case PassedFrame(ping) => [if ping then ReceivePing else ReceivePong]
    case AnsweredFrame(_) => []
    case PeerClose(_) => []
  }

  function RepliesLeft(reader: seq<ReadStep>): seq<StreamEvent> {
    if reader == [] then []
    else (match reader[0] case Handle(f) => ReplyOf(f) case Answer(e) => [e] case Shut => []) + RepliesLeft(reader[1..])
  }

  function PutsLeft(reader: seq<ReadStep>): seq<ToApp> {
    if reader == [] then []
    else (match reader[0] case Handle(f) => PutOf(f) case _ => []) + PutsLeft(reader[1..])
  }

  lemma {:induction false} RepliesConcat(a: seq<ReadStep>, b: seq<ReadStep>)
    ensures RepliesLeft(a + b) == RepliesLeft(a) + RepliesLeft(b)
  {
    hide ReplyOf;
    if a == [] {
      assert a + b == b;
    } else {
      assert (a + b)[1..] == a[1..] + b;
      RepliesConcat(a[1..], b);
    }
  }

  lemma {:induction false} PutsConcat(a: seq<ReadStep>, b: seq<ReadStep>)
    ensures PutsLeft(a + b) == PutsLeft(a) + PutsLeft(b)
  {
    hide PutOf;
    if a == [] {
      assert a + b == b;
    } else {
      assert (a + b)[1..] == a[1..] + b;
      PutsConcat(a[1..], b);
    }
  }

  /** What all frames of client data ask for. */
  function RepliesTo(frames: seq<Frame>): seq<StreamEvent> {
    if frames == [] then [] else ReplyOf(frames[0]) + RepliesTo(frames[1..])
  }

  function PutsFor(frames: seq<Frame>): seq<ToApp> {
    if frames == [] then [] else PutOf(frames[0]) + PutsFor(frames[1..])
  }

  lemma {:induction false} HandlesLeft(frames: seq<Frame>)
    ensures RepliesLeft(Handles(frames)) == RepliesTo(frames) && PutsLeft(Handles(frames)) == PutsFor(frames)
  {
    if frames != [] {
      HandlesLeft(frames[1..]);
      assert Handles(frames)[1..] == Handles(frames[1..]);
    }
  }

  lemma FrameLeft(f: Frame)
    ensures RepliesLeft(FrameSteps(f)) == ReplyOf(f) && PutsLeft(FrameSteps(f)) == [] && FramePuts(f) == PutOf(f)
  {
    var reply := match f case AnsweredFrame(r) => r case PeerClose(r) => r case _ => None;
    assert RepliesLeft(ReplySteps(reply)) == DataOf(reply) && PutsLeft(ReplySteps(reply)) == [];
    assert RepliesLeft([Answer(StreamClosed)]) == [StreamClosed] && PutsLeft([Answer(StreamClosed)]) == [];
    RepliesConcat(ReplySteps(reply), [Answer(StreamClosed)]);
    PutsConcat(ReplySteps(reply), [Answer(StreamClosed)]);
  }

  /** Client data on an open stream asks for the answers to its frames, or for a refusal when
      the handshake is not done; only then are its frames handled. */
  ghost function Asked(s: Ws, run: seq<Action>): seq<StreamEvent>
    requires Legal(s, run)
    decreases |run|
  {
    if run == [] then []
    else AskedBy(s, run[0]) + Asked(Step(s, run[0]), run[1..])
  }

  function AskedBy(s: Ws, a: Action): seq<StreamEvent> {
    match a
    case Client(frames) =>
      if s.closed then [] else if s.accepted then RepliesTo(frames) else [Response(400), EndBody(false)]
    case _ => []
  }

  function HandedBy(s: Ws, a: Action): seq<ToApp> {
    match a
    case Client(frames) => if !s.closed && s.accepted then PutsFor(frames) else []
    case _ => []
  }

  ghost function Handed(s: Ws, run: seq<Action>): seq<ToApp>
    requires Legal(s, run)
    decreases |run|
  {
    if run == [] then [] else HandedBy(s, run[0]) + Handed(Step(s, run[0]), run[1..])
  }

  /** What was put on the queue besides the disconnect. */
  function Received(toApp: seq<ToApp>): seq<ToApp> {
    if toApp == [] then []
    else
      var last := toApp[|toApp| - 1];
      Received(toApp[..|toApp| - 1]) + if last.Disconnect? then [] else [last]
  }

  lemma ReceivedSnoc(toApp: seq<ToApp>, p: ToApp)
    ensures Received(toApp + [p]) == Received(toApp) + if p.Disconnect? then [] else [p]
  {
    assert (toApp + [p])[..|toApp|] == toApp;
  }

  lemma ReceivedPut(toApp: seq<ToApp>, f: Frame)
    ensures Received(toApp + FramePuts(f)) == Received(toApp) + PutOf(f)
  {
    var puts := FramePuts(f);
    assert puts == PutOf(f) && |puts| <= 1 && forall p <- puts :: !p.Disconnect?;
    hide FramePuts, PutOf;
    if puts == [] {
      assert toApp + puts == toApp;
      assert Received(toApp) + [] == Received(toApp);
    } else {
      ReceivedSnoc(toApp, puts[0]);
      assert puts == [puts[0]];
    }
  }

  lemma SendReceives(s: Ws, e: StreamEvent)
    ensures Received(Send(s, e).toApp) == Received(s.toApp) && Send(s, e).accepted == s.accepted
  {
    if e == StreamClosed && !s.closed {
      var code := if s.state == Closed || s.state == HttpClosed then NORMAL_CLOSURE else ABNORMAL_CLOSURE;
      ReceivedSnoc(s.toApp, Disconnect(code));
    }
  }

  lemma {:induction false} ReaderSays(s: Ws)
    ensures var s' := ReaderGoes(s);
      && s.out <= s'.out && Growth(s, s') + RepliesLeft(s'.reader) == RepliesLeft(s.reader)
      && Received(s'.toApp) + PutsLeft(s'.reader) == Received(s.toApp) + PutsLeft(s.reader)
    decreases Work(s.reader)
  {
    hide Send, ReplyOf, PutOf, Received, FrameSteps, FramePuts;
    if s.reader == [] {
      assert s.out[|s.out|..] == [];
    } else {
      var rest := s.reader[1..];
      match s.reader[0]
      case Answer(e) => AnswerSays(s, e, rest); hide RepliesLeft, PutsLeft, Growth;
      case Shut => ReaderSays(s.(reader := rest, closed := true));
      case Handle(f) =>
        FrameWork(f, rest);
        HandleSays(s, f, rest);
        hide RepliesLeft, PutsLeft;
        ReaderSays(s.(reader := FrameSteps(f) + rest, toApp := s.toApp + FramePuts(f)));
    }
  }

  lemma AnswerSays(s: Ws, e: StreamEvent, rest: seq<ReadStep>)
    requires s.reader != [] && s.reader[0] == Answer(e) && s.reader[1..] == rest
    ensures var s' := Send(s.(reader := rest), e);
      && s.out <= s'.out && Growth(s, s') + RepliesLeft(s'.reader) == RepliesLeft(s.reader)
      && Received(s'.toApp) + PutsLeft(s'.reader) == Received(s.toApp) + PutsLeft(s.reader)
  {
    SendEffect(s.(reader := rest), e);
    SendReceives(s.(reader := rest), e);
    assert (s.out + [e])[|s.out|..] == [e];
    assert [] + PutsLeft(rest) == PutsLeft(rest);
    hide Send, Received;
  }

  lemma HandleSays(s: Ws, f: Frame, rest: seq<ReadStep>)
    requires s.reader != [] && s.reader[0] == Handle(f) && s.reader[1..] == rest
    ensures var reader, toApp := FrameSteps(f) + rest, s.toApp + FramePuts(f);
      && RepliesLeft(reader) == RepliesLeft(s.reader)
      && Received(toApp) + PutsLeft(reader) == Received(s.toApp) + PutsLeft(s.reader)
  {
    FrameLeft(f);
    RepliesConcat(FrameSteps(f), rest);
    PutsConcat(FrameSteps(f), rest);
    ReceivedPut(s.toApp, f);
    hide FrameSteps, FramePuts, ReplyOf, PutOf, Received;
    var puts, left := Received(s.toApp), PutsLeft(rest);
    assert puts + PutOf(f) + left == puts + (PutOf(f) + left);
  }

  lemma {:induction false} AppReceivesNothing(s: Ws)
    ensures var s' := AppGoes(s); Received(s'.toApp) == Received(s.toApp) && s'.reader == s.reader
    decreases |s.app|
  {
    if s.app != [] {
      match s.app[0]
      case Emit(e) =>
        SendEffect(s.(app := s.app[1..]), e);
        SendReceives(s.(app := s.app[1..]), e);
        hide Send;
      case Enter(state) => AppReceivesNothing(s.(app := s.app[1..], state := state));
    }
  }

  lemma PlanKeepsQueue(s: Ws, m: AppMessage)
    ensures var s1 := Plan(s, m).0; s1.toApp == s.toApp && s1.reader == s.reader
  {
    hide Rejection, ErrorResponse, FrameOut, RejectionTrailers;
  }

  lemma AppAnswersNothing(s: Ws, a: Action)
    requires Enabled(s, a) && ByApp(a)
    ensures var s' := Step(s, a); Received(s'.toApp) == Received(s.toApp) && s'.reader == s.reader
  {
    hide Received;
    if a.App? {
      var (s1, plan) := Plan(s, a.m);
      PlanKeepsQueue(s, a.m);
      AppReceivesNothing(s1.(app := plan, finished := a.m.Finished?));
      hide Plan, AppGoes;
    } else {
      AppReceivesNothing(s);
      hide AppGoes;
    }
  }

  lemma StepAnswers(s: Ws, a: Action)
    requires Enabled(s, a)
    ensures var s' := Step(s, a);
      && RepliesLeft(s.reader) + AskedBy(s, a) == (if ByApp(a) then [] else Growth(s, s')) + RepliesLeft(s'.reader)
      && Received(s.toApp) + PutsLeft(s.reader) + HandedBy(s, a) == Received(s'.toApp) + PutsLeft(s'.reader)
  {
    hide RepliesLeft, PutsLeft, Received;
    match a
    case Client(frames) => hide Step, Growth; ClientAnswers(s, frames);
    case ReaderOn => ReaderSays(s); hide ReaderGoes;
    case ClientClosed =>
      SendReceives(s, StreamClosed);
      assert s.out[|s.out|..] == [];
    case _ =>
      AppAnswersNothing(s, a);
      hide Step;
  }

  lemma ClientAnswers(s: Ws, frames: seq<Frame>)
    requires Enabled(s, Client(frames))
    ensures var s', a := Step(s, Client(frames)), Client(frames);
      && RepliesLeft(s.reader) + AskedBy(s, a) == Growth(s, s') + RepliesLeft(s'.reader)
      && Received(s.toApp) + PutsLeft(s.reader) + HandedBy(s, a) == Received(s'.toApp) + PutsLeft(s'.reader)
  {
    NothingLeft();
    hide RepliesLeft, PutsLeft, Received, Handles, RepliesTo, PutsFor;
    var s' := Step(s, Client(frames));
    if s.closed {
      assert s.out[|s.out|..] == [];
    } else {
      var reader := if s.accepted then Handles(frames) else [Answer(Response(400)), Answer(EndBody(false)), Shut];
      var begun := s.(reader := reader);
      assert s' == ReaderGoes(begun);
      hide Step, ReaderGoes;
      ReaderSays(begun);
      HandlesLeft(frames);
      RefusalLeft();
      assert RepliesLeft(reader) == AskedBy(s, Client(frames)) && PutsLeft(reader) == HandedBy(s, Client(frames));
      assert Growth(s, s') == Growth(begun, s') && s.reader == [];
      hide AskedBy, HandedBy, Growth;
      assert Received(s.toApp) + [] == Received(s.toApp);
    }
  }

  lemma NothingLeft()
    ensures RepliesLeft([]) == [] && PutsLeft([]) == []
  {
  }

  lemma RefusalLeft()
    ensures var refusal := [Answer(Response(400)), Answer(EndBody(false)), Shut];
      RepliesLeft(refusal) == [Response(400), EndBody(false)] && PutsLeft(refusal) == []
  {
    var refusal := [Answer(Response(400)), Answer(EndBody(false)), Shut];
    var tail := [Answer(EndBody(false)), Shut];
    assert refusal[1..] == tail && tail[1..] == [Shut] && [Shut][1..] == [];
    assert RepliesLeft([Shut]) == [] && RepliesLeft(tail) == [EndBody(false)];
  }

  lemma {:induction false} RunAnswers(s: Ws, run: seq<Action>)
    requires Legal(s, run)
    ensures var s' := Run(s, run);
      && RepliesLeft(s.reader) + Asked(s, run) == SentBy(false, s, run) + RepliesLeft(s'.reader)
      && Received(s.toApp) + PutsLeft(s.reader) + Handed(s, run) == Received(s'.toApp) + PutsLeft(s'.reader)
    decreases |run|
  {
    if run != [] {
      var s1, a := Step(s, run[0]), run[0];
      StepAnswers(s, a);
      hide Step, Enabled, RepliesLeft, PutsLeft, Received, AskedBy, HandedBy;
      RunAnswers(s1, run[1..]);
      Regroup(RepliesLeft(s.reader), AskedBy(s, a), Asked(s1, run[1..]));
      Regroup(if ByApp(a) then [] else Growth(s, s1), RepliesLeft(s1.reader), Asked(s1, run[1..]));
      Regroup(if ByApp(a) then [] else Growth(s, s1), SentBy(false, s1, run[1..]), RepliesLeft(Run(s, run).reader));
      Regroup(Received(s.toApp) + PutsLeft(s.reader), HandedBy(s, a), Handed(s1, run[1..]));
    } else {
      assert RepliesLeft(s.reader) + [] == [] + RepliesLeft(s.reader);
      assert Received(s.toApp) + PutsLeft(s.reader) + [] == Received(s.toApp) + PutsLeft(s.reader);
    }
  }

  /** In every run the reader has sent exactly the answers its frames ask for, and put exactly
      what they carry on the application's queue, each in order, up to what it has left. */
  lemma ReaderAnswersFrames(run: seq<Action>)
    requires Legal(NEW, run)
    ensures var s := Run(NEW, run);
      && Asked(NEW, run) == SentBy(false, NEW, run) + RepliesLeft(s.reader)
      && Handed(NEW, run) == Received(s.toApp) + PutsLeft(s.reader)
  {
    RunAnswers(NEW, run);
    assert [] + Asked(NEW, run) == Asked(NEW, run);
    assert [] + [] + Handed(NEW, run) == Handed(NEW, run);
  }

  // ---------------------------------------------------------------------------
  // Rejections without a body

  predicate BodilessStatus(status: int) { 100 <= status < 200 || status == 204 || status == 304 }

  predicate IsContent(e: StreamEvent) { e.Body? || e.ZeroCopySend? }

  /** The rejection's head was sent, or is not needed any more, and its status has no body. */
  predicate Bodiless(t: Told) {
    t.state == Replying && t.response.Some? && BodilessStatus(t.response.value.0)
  }

  lemma {:induction false} BodilessMeaning(t: Told, ms: seq<AppMessage>)
    requires t.state != Handshaking && (t.state == Replying ==> Bodiless(t))
    ensures forall e <- Meaning(t, ms) :: !IsContent(e)
    decreases |ms|
  {
    if ms != [] {
      var t' := Tell(t, ms[0]);
      assert forall e <- Adds(t, ms[0]) :: !IsContent(e);
      assert t'.state != Handshaking && (t'.state == Replying ==> Bodiless(t'));
      hide Tell, Adds;
      BodilessMeaning(t', ms[1..]);
    }
  }

  /** A rejection whose head has such a status has no content before or after it. */
  lemma {:induction false} BodilessRejection(t: Told, ms: seq<AppMessage>, status: int)
    requires t.state == Handshaking && Response(status) in Meaning(t, ms) && BodilessStatus(status)
    ensures forall e <- Meaning(t, ms) :: !IsContent(e)
    decreases |ms|
  {
    if ms != [] {
      var t', adds := Tell(t, ms[0]), Adds(t, ms[0]);
      if t'.state == Handshaking {
        assert forall e <- adds :: !IsContent(e) && (e.Response? ==> e.status == 500);
        hide Tell, Adds;
        BodilessRejection(t', ms[1..], status);
      } else {
        if Response(status) !in adds {
          NoLaterResponse(t', ms[1..]);
        }
        assert forall e <- adds :: !IsContent(e);
        assert t'.state == Replying ==> Bodiless(t');
        hide Tell, Adds;
        BodilessMeaning(t', ms[1..]);
      }
    }
  }

  lemma {:induction false} NoLaterResponse(t: Told, ms: seq<AppMessage>)
    requires t.state != Handshaking
    ensures forall e <- Meaning(t, ms) :: !e.Response?
    decreases |ms|
  {
    if ms != [] {
      assert forall e <- Adds(t, ms[0]) :: !e.Response?;
      assert Tell(t, ms[0]).state != Handshaking;
      hide Tell, Adds;
      NoLaterResponse(Tell(t, ms[0]), ms[1..]);
    }
  }

  /** In every run, when the application has sent a response with an informational status,
      204 or 304, it sends no body and no file. */
  lemma NoBodySent(run: seq<Action>, status: int)
    requires Legal(NEW, run) && Response(status) in SentBy(true, NEW, run)
    requires 100 <= status < 200 || status == 204 || status == 304
    ensures forall e <- SentBy(true, NEW, run) :: !e.Body? && !e.ZeroCopySend?
  {
    AppSendsMeaning(run);
    var sent, left := SentBy(true, NEW, run), Emits(Run(NEW, run).app);
    assert forall e <- sent :: e in sent + left;
    BodilessRejection(UNTOLD, Taken(NEW, run), status);
  }

  // ---------------------------------------------------------------------------
  // Closed streams

  /** The stream is closed if and only if it was said to be: by either task, by the client, or
      by a refusal that is through. */
  ghost predicate SaidClosed(s: Ws, run: seq<Action>)
    requires Legal(s, run)
    decreases |run|
  {
    run != [] &&
    var s' := Step(s, run[0]);
    || StreamClosed in Growth(s, s') || run[0] == ClientClosed || (Shut in s.reader && Shut !in s'.reader)
    || SaidClosed(s', run[1..])
  }

  lemma SendCloses(s: Ws, e: StreamEvent)
    ensures Send(s, e).closed <==> s.closed || e == StreamClosed
    ensures Send(s, e).out == s.out + [e] && Send(s, e).reader == s.reader
    ensures (s.out + [e])[|s.out|..] == [e]
  {
  }

  lemma {:induction false} AppCloses(s: Ws)
    ensures var s' := AppGoes(s);
      s.out <= s'.out && s'.reader == s.reader && (s'.closed <==> s.closed || StreamClosed in s'.out[|s.out|..])
    decreases |s.app|
  {
    if s.app != [] {
      match s.app[0]
      case Emit(e) => SendCloses(s.(app := s.app[1..]), e); hide Send;
      case Enter(state) => AppCloses(s.(app := s.app[1..], state := state));
    }
  }

  /** A reader's steps hold at most one mark, at their end. */
  predicate ShutLast(reader: seq<ReadStep>) {
    forall i :: 0 <= i < |reader| && reader[i] == Shut ==> i == |reader| - 1
  }

  lemma {:induction false} ReaderCloses(s: Ws)
    requires ShutLast(s.reader)
    ensures var s' := ReaderGoes(s);
      && s.out <= s'.out && ShutLast(s'.reader)
      && (s'.closed <==> s.closed || StreamClosed in s'.out[|s.out|..] || (Shut in s.reader && Shut !in s'.reader))
    decreases Work(s.reader)
  {
    if s.reader != [] {
      var rest := s.reader[1..];
      match s.reader[0]
      case Answer(e) =>
        RestShuts(s.reader, e, rest);
        SendCloses(s.(reader := rest), e);
        hide Send, ShutLast;
      case Shut => assert rest == [];
      case Handle(f) =>
        FrameWork(f, rest);
        HandleShuts(s.reader, f, rest);
        hide FrameSteps, ShutLast;
        ReaderCloses(s.(reader := FrameSteps(f) + rest, toApp := s.toApp + FramePuts(f)));
    }
  }

  lemma RestShuts(reader: seq<ReadStep>, e: StreamEvent, rest: seq<ReadStep>)
    requires ShutLast(reader) && reader == [Answer(e)] + rest
    ensures ShutLast(rest) && (Shut in reader <==> Shut in rest)
  {
    assert forall i :: 0 <= i < |rest| ==> rest[i] == reader[i + 1];
  }

  lemma HandleShuts(reader: seq<ReadStep>, f: Frame, rest: seq<ReadStep>)
    requires ShutLast(reader) && reader == [Handle(f)] + rest
    ensures ShutLast(FrameSteps(f) + rest) && (Shut in reader <==> Shut in FrameSteps(f) + rest)
  {
    var steps := FrameSteps(f);
    assert forall r <- steps :: r != Shut;
    assert forall i :: 0 <= i < |rest| ==> rest[i] == reader[i + 1];
    hide FrameSteps;
  }

  lemma StepCloses(s: Ws, a: Action)
    requires ShutLast(s.reader) && Enabled(s, a)
    ensures var s' := Step(s, a);
      && ShutLast(s'.reader)
      && (s'.closed <==>
            s.closed || StreamClosed in Growth(s, s') || a == ClientClosed || (Shut in s.reader && Shut !in s'.reader))
  {
    match a
    case App(m) =>
      var (s1, plan) := Plan(s, m);
      PlanKeepsQueue(s, m);
      PlanKeepsOpen(s, m);
      AppCloses(s1.(app := plan, finished := m.Finished?));
      hide Plan, AppGoes;
    case AppOn => AppCloses(s); hide AppGoes;
    case Client(frames) =>
      var refusal := [Answer(Response(400)), Answer(EndBody(false)), Shut];
      assert ShutLast(refusal) && ShutLast(Handles(frames));
      RefusalOpen(s, refusal);
      ReaderCloses(s.(reader := Handles(frames)));
      hide ReaderGoes, Handles;
    case ReaderOn => ReaderCloses(s); hide ReaderGoes;
    case ClientClosed => SendCloses(s, StreamClosed); assert s.out[|s.out|..] == [];
  }

  /** The first answer of a refusal leaves the mark ahead. */
  lemma RefusalOpen(s: Ws, refusal: seq<ReadStep>)
    requires refusal == [Answer(Response(400)), Answer(EndBody(false)), Shut]
    ensures var s' := ReaderGoes(s.(reader := refusal));
      && s'.closed == s.closed && s'.out == s.out + [Response(400)] && s'.reader == [Answer(EndBody(false)), Shut]
      && s'.out[|s.out|..] == [Response(400)]
  {
    assert refusal[1..] == [Answer(EndBody(false)), Shut];
  }

  lemma PlanKeepsOpen(s: Ws, m: AppMessage)
    ensures var s1 := Plan(s, m).0; s1.closed == s.closed && s1.out == s.out
  {
    hide Rejection, ErrorResponse, FrameOut, RejectionTrailers;
  }

  lemma {:induction false} ClosedIff(s: Ws, run: seq<Action>)
    requires ShutLast(s.reader) && Legal(s, run)
    ensures Run(s, run).closed <==> s.closed || SaidClosed(s, run)
    decreases |run|
  {
    if run != [] {
      StepCloses(s, run[0]);
      hide Step, Enabled, Growth, ShutLast;
      ClosedIff(Step(s, run[0]), run[1..]);
    }
  }

  /** When the client closes an open stream, the application is told at once. */
  lemma CloseIsTold(s: Ws)
    requires !s.closed
    ensures var s' := Step(s, ClientClosed); |s'.toApp| == |s.toApp| + 1 && s'.toApp[|s.toApp|].Disconnect?
  {
  }
}
