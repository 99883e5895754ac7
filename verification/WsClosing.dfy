/** How a WebSocket ends: the code of its disconnect, and what may follow the disconnect. */
module WsClosings {
  import opened Bytes
  import opened StreamEvents
  import opened WsStreams

  // ---------------------------------------------------------------------------
  // When the application has closed

  predicate RejectionEnds(s: Ws, valid: bool, more: bool) {
    && ((s.state == Handshaking && valid) || s.state == Replying)
    && s.response.Some? && !more && !s.trailersExpected
  }

  function RejectionSends(s: Ws): nat
    requires s.response.Some?
  {
    (if s.state == Handshaking then 1 else 0) + (if SuppressBody("GET", s.response.value) then 0 else 1)
  }

  /** After how many sends a message closes the stream on the application's side: a close
      message at once, the last part of a rejection when its content is sent, the last
      trailers when they are sent. */
  function ClosesAfter(s: Ws, m: AppMessage): Option<nat> {
    if s.closed then None
    else
      match m
      case CloseFrame(_) => Some(0)
      case ReplyBody(valid, _, more) => if RejectionEnds(s, valid, more) then Some(RejectionSends(s)) else None
      case ReplyFile(valid, more) => if RejectionEnds(s, valid, more) then Some(RejectionSends(s)) else None
      case ReplyTrailers(more, _) => if (s.state == Handshaking || s.state == Replying) && !more then Some(1) else None
      case _ => None
  }

  /** Whether the application has closed the stream: not yet, once its message has gone on so
      many times, or for good. */
  datatype Closing = NotClosing | ClosesIn(continuations: nat) | HasClosed

  function Track(c: Closing, s: Ws, a: Action): Closing {
    if c.HasClosed? then c
    else
      match a
      case App(m) =>
        (match ClosesAfter(s, m)
         case None => NotClosing
         case Some(n) => if n == 0 then HasClosed else ClosesIn(n))
      case AppOn =>
        if !c.ClosesIn? then c else if c.continuations <= 1 then HasClosed else ClosesIn(c.continuations - 1)
      case _ => c
  }

  ghost function TrackRun(c: Closing, s: Ws, run: seq<Action>): Closing
    requires Legal(s, run)
    decreases |run|
  {
    if run == [] then c else TrackRun(Track(c, s, run[0]), Step(s, run[0]), run[1..])
  }

  predicate IsClosed(state: State) { state == Closed || state == HttpClosed }

  /** The sends before the steps of a message enter a closing state, if they do. */
  function SendsToClose(app: seq<Micro>): Option<nat> {
    if app == [] then None
    else
      match app[0]
      case Enter(state) => if IsClosed(state) then Some(0) else SendsToClose(app[1..])
      case Emit(_) => (match SendsToClose(app[1..]) case None => None case Some(n) => Some(n + 1))
  }

  /** After the closing state no other state is entered. */
  predicate Clean(app: seq<Micro>) {
    app == [] || if app[0].Enter? && IsClosed(app[0].state) then forall m <- app[1..] :: m.Emit? else Clean(app[1..])
  }

  /** The tracker is right about the state and about the steps of the current message. */
  ghost predicate Tracks(c: Closing, s: Ws) {
    && (c.HasClosed? <==> IsClosed(s.state))
    && (if IsClosed(s.state) then SelfClosed(s)
        else Clean(s.app) && SendsToClose(s.app) == if c.ClosesIn? then Some(c.continuations - 1) else None)
    && (c.ClosesIn? ==> c.continuations > 0)
  }

  /** Up to the application's next send, its closing state comes one send nearer. */
  lemma {:induction false} AppGoesCloser(s: Ws)
    requires !IsClosed(s.state) && Clean(s.app)
    ensures var s', n := AppGoes(s), SendsToClose(s.app);
      if n == Some(0) then SelfClosed(s')
      else !IsClosed(s'.state) && Clean(s'.app)
           && SendsToClose(s'.app) == if n.Some? then Some(n.value - 1) else None
    decreases |s.app|
  {
    if s.app != [] {
      match s.app[0]
      case Emit(e) =>
        SendEffect(s.(app := s.app[1..]), e);
        hide Send;
      case Enter(state) =>
        var s1 := s.(app := s.app[1..], state := state);
        if IsClosed(state) {
          AppKeepsSelfClosed(s1);
        } else {
          AppGoesCloser(s1);
        }
    }
  }

  lemma {:induction false} SendsOnly(app: seq<Micro>)
    requires forall m <- app :: m.Emit?
    ensures SendsToClose(app) == None && Clean(app)
  {
    if app != [] {
      assert app[0] in app && forall m <- app[1..] :: m in app;
      SendsOnly(app[1..]);
    }
  }

  lemma {:induction false} SendsFirst(app: seq<Micro>, state: State, rest: seq<Micro>)
    requires forall m <- app :: m.Emit? || (m.Enter? && !IsClosed(m.state))
    requires IsClosed(state) && forall m <- rest :: m.Emit?
    ensures Clean(app + [Enter(state)] + rest)
    ensures SendsToClose(app + [Enter(state)] + rest) == Some(Sends(app))
  {
    var whole := app + [Enter(state)] + rest;
    if app == [] {
      assert whole[1..] == rest;
    } else {
      assert whole[1..] == app[1..] + [Enter(state)] + rest;
      assert app[0] in app && forall m <- app[1..] :: m in app;
      SendsFirst(app[1..], state, rest);
    }
  }

  lemma {:induction false} NeverCloses(app: seq<Micro>)
    requires forall m <- app :: m.Emit? || (m.Enter? && !IsClosed(m.state))
    ensures SendsToClose(app) == None && Clean(app)
  {
    if app != [] {
      assert app[0] in app && forall m <- app[1..] :: m in app;
      NeverCloses(app[1..]);
    }
  }

  function Sends(app: seq<Micro>): nat {
    if app == [] then 0 else (if app[0].Emit? then 1 else 0) + Sends(app[1..])
  }

  /** What a message says about closing is what its steps do. */
  lemma PlanCloses(s: Ws, m: AppMessage)
    requires !IsClosed(s.state) && s.app == []
    ensures var (s1, plan) := Plan(s, m); var n := ClosesAfter(s, m);
      if IsClosed(s1.state) then n == Some(0) && forall x <- plan :: x.Emit?
      else Clean(plan) && SendsToClose(plan) == n
  {
    var plan := Plan(s, m).1;
    if m.ReplyBody? || m.ReplyFile? {
      PartCloses(s, m);
    } else if m.ReplyTrailers? && !s.closed && (s.state == Handshaking || s.state == Replying) {
      TrailersClose(m.more, m.http2);
    } else {
      NeverCloses(plan);
    }
  }

  lemma TrailersClose(more: bool, http2: bool)
    ensures var plan := RejectionTrailers(more, http2);
      Clean(plan) && SendsToClose(plan) == if more then None else Some(1)
  {
    var head := [Emit(TrailerHeadersSend(!more))];
    assert head[1..] == [];
    if more {
      assert RejectionTrailers(more, http2) == head;
      SendsOnly(head);
    } else {
      var rest := if http2 then [Emit(EndBody(false))] else [];
      assert RejectionTrailers(more, http2) == head + [Enter(HttpClosed)] + rest;
      SendsFirst(head, HttpClosed, rest);
    }
  }

  lemma PartCloses(s: Ws, m: AppMessage)
    requires !IsClosed(s.state) && s.app == [] && (m.ReplyBody? || m.ReplyFile?)
    ensures var (s1, plan) := Plan(s, m); s1.state == s.state && Clean(plan) && SendsToClose(plan) == ClosesAfter(s, m)
  {
    if !s.closed && ((s.state == Handshaking && m.valid) || s.state == Replying) && s.response.Some? {
      RejectionCloses(s, if m.ReplyBody? then Body(m.data, false) else ZeroCopySend, m.more);
    }
  }

  lemma RejectionCloses(s: Ws, content: StreamEvent, more: bool)
    requires s.response.Some?
    ensures var plan := Rejection(s, content, more);
      Clean(plan) && SendsToClose(plan) == if more || s.trailersExpected then None else Some(RejectionSends(s))
  {
    var status := s.response.value;
    var head := if s.state == Handshaking then [Emit(Response(status)), Enter(Replying)] else [];
    var body := if SuppressBody("GET", status) then [] else [Emit(content)];
    assert Sends(head + body) == RejectionSends(s) by {
      assert Sends(body) == |body| && [Emit(content)][1..] == [];
      if s.state == Handshaking {
        assert (head + body)[1..] == [Enter(Replying)] + body && ([Enter(Replying)] + body)[1..] == body;
      } else {
        assert head + body == body;
      }
    }
    if more || s.trailersExpected {
      assert Rejection(s, content, more) == head + body;
      NeverCloses(head + body);
    } else {
      assert Rejection(s, content, more) == (head + body) + [Enter(HttpClosed)] + [Emit(EndBody(false))];
      SendsFirst(head + body, HttpClosed, [Emit(EndBody(false))]);
    }
  }

  lemma TrackMessage(c: Closing, s: Ws, m: AppMessage)
    requires Tracks(c, s) && Enabled(s, App(m)) && !IsClosed(s.state)
    ensures Tracks(Track(c, s, App(m)), Step(s, App(m)))
  {
    PlanCloses(s, m);
    var (s1, plan) := Plan(s, m);
    var begun := s1.(app := plan, finished := m.Finished?);
    hide Plan, ClosesAfter, AppGoes;
    if IsClosed(s1.state) {
      AppKeepsSelfClosed(begun);
    } else {
      AppGoesCloser(begun);
    }
  }

  lemma ReaderTracks(c: Closing, s: Ws, reader: seq<ReadStep>)
    requires Tracks(c, s)
    ensures Tracks(c, ReaderGoes(s.(reader := reader)))
  {
    ReaderKeepsState(s.(reader := reader));
  }

  lemma TrackStep(c: Closing, s: Ws, a: Action)
    requires Tracks(c, s) && Enabled(s, a)
    ensures Tracks(Track(c, s, a), Step(s, a))
  {
    match a
    case App(m) =>
      if IsClosed(s.state) {
        var (s1, plan) := Plan(s, m);
        AppKeepsSelfClosed(s1.(app := plan, finished := m.Finished?));
      } else {
        TrackMessage(c, s, m);
      }
    case AppOn =>
      if IsClosed(s.state) {
        AppKeepsSelfClosed(s);
      } else {
        AppGoesCloser(s);
      }
    case Client(frames) =>
      ReaderTracks(c, s, Handles(frames));
      ReaderTracks(c, s, [Answer(Response(400)), Answer(EndBody(false)), Shut]);
    case ReaderOn => ReaderTracks(c, s, s.reader);
    case ClientClosed =>
  }

  lemma {:induction false} TrackKeeps(c: Closing, s: Ws, run: seq<Action>)
    requires Tracks(c, s) && Legal(s, run)
    ensures Tracks(TrackRun(c, s, run), Run(s, run))
    decreases |run|
  {
    hide Tracks, Track, Step, Enabled;
    if run != [] {
      TrackStep(c, s, run[0]);
      TrackKeeps(Track(c, s, run[0]), Step(s, run[0]), run[1..]);
    }
  }

  // ---------------------------------------------------------------------------
  // The code of the disconnect

  /** A disconnect is the last thing its step does: it happens in the state the step leads
      to and is then the last thing on the queue. */
  ghost predicate DisconnectsLast(s: Ws) {
    s.closedIn.Some? ==> s.closedIn.value == s.state && s.closedAt == |s.toApp| - 1
  }

  lemma DisconnectState(s: Ws, a: Action)
    requires Enabled(s, a) && s.closedIn == None
    ensures DisconnectsLast(Step(s, a))
  {
    match a
    case App(m) =>
      var (s1, plan) := Plan(s, m);
      assert s1.closedIn == None;
      AppDisconnects(s1.(app := plan, finished := m.Finished?));
    case AppOn => AppDisconnects(s);
    case Client(frames) =>
      ReaderDisconnects(s.(reader := Handles(frames)));
      ReaderDisconnects(s.(reader := [Answer(Response(400)), Answer(EndBody(false)), Shut]));
    case ReaderOn => ReaderDisconnects(s);
    case ClientClosed =>
  }

  lemma SendDisconnects(s: Ws, e: StreamEvent)
    requires s.closedIn == None
    ensures DisconnectsLast(Send(s, e))
  {
  }

  lemma {:induction false} ReaderDisconnects(s: Ws)
    requires s.closedIn == None
    ensures DisconnectsLast(ReaderGoes(s))
    decreases Work(s.reader)
  {
    hide Send, DisconnectsLast;
    if s.reader != [] {
      var rest := s.reader[1..];
      match s.reader[0]
      case Answer(e) => SendDisconnects(s.(reader := rest), e);
      case Shut => ReaderDisconnects(s.(reader := rest, closed := true));
      case Handle(f) =>
        FrameWork(f, rest);
        ReaderDisconnects(s.(reader := FrameSteps(f) + rest, toApp := s.toApp + FramePuts(f)));
    } else {
      Undisconnected(s);
    }
  }

  lemma Undisconnected(s: Ws)
    requires s.closedIn == None
    ensures DisconnectsLast(s)
  {
  }

  lemma {:induction false} AppDisconnects(s: Ws)
    requires s.closedIn == None
    ensures DisconnectsLast(AppGoes(s))
    decreases |s.app|
  {
    if s.app != [] {
      match s.app[0]
      case Emit(e) =>
        SendDisconnects(s.(app := s.app[1..]), e);
        hide Send;
      case Enter(state) => AppDisconnects(s.(app := s.app[1..], state := state));
    }
  }

  /** The disconnect carries 1000 if and only if a closing message of the application took
      effect before it, and 1006 otherwise: in every run, whatever closed the stream. */
  lemma CodeIff(s: Ws, run: seq<Action>, a: Action)
    requires Reached(s, run) && Enabled(s, a) && s.closedIn == None && Step(s, a).closedIn.Some?
    ensures var s', closed := Step(s, a), Track(TrackRun(NotClosing, NEW, run), s, a).HasClosed?;
      && s'.toApp != []
      && s'.toApp[|s'.toApp| - 1] == Disconnect(if closed then NORMAL_CLOSURE else ABNORMAL_CLOSURE)
  {
    hide Step, Enabled, Track;
    assert Tracks(NotClosing, NEW);
    TrackKeeps(NotClosing, NEW, run);
    var c := TrackRun(NotClosing, NEW, run);
    TrackStep(c, s, a);
    DisconnectState(s, a);
    RunKeeps(NEW, run);
    StepKeeps(s, a);
  }

  // ---------------------------------------------------------------------------
  // What follows the disconnect

  /** What the reader still puts on the application's queue. */
  function PutsLeft(reader: seq<ReadStep>): seq<ToApp> {
    if reader == [] then []
    else (if reader[0].Handle? then FramePuts(reader[0].frame) else []) + PutsLeft(reader[1..])
  }

  lemma {:induction false} PutsConcat(a: seq<ReadStep>, b: seq<ReadStep>)
    ensures PutsLeft(a + b) == PutsLeft(a) + PutsLeft(b)
  {
    if a == [] {
      assert a + b == b;
    } else {
      assert (a + b)[1..] == a[1..] + b;
      PutsConcat(a[1..], b);
    }
  }

  lemma FramePutsNoMore(f: Frame, rest: seq<ReadStep>)
    ensures PutsLeft(FrameSteps(f) + rest) == PutsLeft(rest)
  {
    assert forall r <- FrameSteps(f) :: r.Answer?;
    NoPuts(FrameSteps(f));
    PutsConcat(FrameSteps(f), rest);
  }

  lemma {:induction false} NoPuts(reader: seq<ReadStep>)
    requires forall r <- reader :: !r.Handle?
    ensures PutsLeft(reader) == []
  {
    if reader != [] {
      assert reader[0] in reader && forall r <- reader[1..] :: r in reader;
      NoPuts(reader[1..]);
    }
  }

  /** What the queue will hold when the reader is done, on a closed stream. */
  function Due(s: Ws): seq<ToApp> { s.toApp + PutsLeft(s.reader) }

  lemma FrameDue(s: Ws, f: Frame, rest: seq<ReadStep>)
    requires s.reader != [] && s.reader[0] == Handle(f) && s.reader[1..] == rest
    ensures Due(s.(reader := FrameSteps(f) + rest, toApp := s.toApp + FramePuts(f))) == Due(s)
  {
    FramePutsNoMore(f, rest);
    hide FrameSteps, FramePuts;
    assert PutsLeft(s.reader) == FramePuts(f) + PutsLeft(rest);
  }

  lemma {:induction false} ReaderDue(s: Ws)
    requires s.closed
    ensures var s' := ReaderGoes(s); s'.closed && Due(s') == Due(s)
    decreases Work(s.reader)
  {
    if s.reader != [] {
      var rest := s.reader[1..];
      match s.reader[0]
      case Answer(e) =>
        var s1 := s.(reader := rest);
        assert Send(s1, e) == s1.(out := s.out + [e]);
        hide Send;
      case Shut => ReaderDue(s.(reader := rest, closed := true));
      case Handle(f) =>
        FrameWork(f, rest);
        FrameDue(s, f, rest);
        hide Due;
        ReaderDue(s.(reader := FrameSteps(f) + rest, toApp := s.toApp + FramePuts(f)));
    }
  }

  lemma {:induction false} AppDue(s: Ws)
    requires s.closed
    ensures var s' := AppGoes(s); s'.closed && s'.toApp == s.toApp && s'.reader == s.reader
    decreases |s.app|
  {
    if s.app != [] && s.app[0].Enter? {
      AppDue(s.(app := s.app[1..], state := s.app[0].state));
    }
  }

  lemma {:induction false} DueRun(s: Ws, run: seq<Action>)
    requires s.closed && Legal(s, run)
    ensures Run(s, run).closed && Due(Run(s, run)) == Due(s)
    decreases |run|
  {
    if run != [] {
      match run[0] {
        case App(m) => AppDue(s.(app := [], finished := m.Finished?));
        case AppOn => AppDue(s);
        case ReaderOn => ReaderDue(s);
        case _ =>
      }
      var s' := Step(s, run[0]);
      assert s'.closed && Due(s') == Due(s);
      hide Step, Enabled, Due;
      DueRun(s', run[1..]);
    }
  }

  lemma {:induction false} PutsLeftIff(reader: seq<ReadStep>)
    ensures PutsLeft(reader) != [] <==> exists r <- reader :: r.Handle? && FramePuts(r.frame) != []
  {
    if reader != [] {
      PutsLeftIff(reader[1..]);
      assert reader == [reader[0]] + reader[1..];
    }
  }

  /** Something follows the disconnect if and only if, when it was put, the reader still had
      a frame to handle that is passed on: it then follows in every run in which the reader
      gets done, and nothing else ever does. */
  lemma FollowsDisconnectIff(s: Ws, run: seq<Action>, a: Action, more: seq<Action>)
    requires Reached(s, run) && Enabled(s, a) && s.closedIn == None && Step(s, a).closedIn.Some?
    requires Legal(Step(s, a), more) && Run(Step(s, a), more).reader == []
    ensures var s', end := Step(s, a), Run(Step(s, a), more);
      && s'.toApp != [] && s'.toApp[|s'.toApp| - 1].Disconnect?
      && end.toApp == s'.toApp + PutsLeft(s'.reader)
      && (end.toApp != s'.toApp <==> exists r <- s'.reader :: r.Handle? && FramePuts(r.frame) != [])
  {
    hide Step, Enabled;
    RunKeeps(NEW, run);
    StepKeeps(s, a);
    DisconnectState(s, a);
    var s' := Step(s, a);
    DueRun(s', more);
    PutsLeftIff(s'.reader);
  }
}
