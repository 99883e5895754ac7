/** `WSStream` as an object. Each method is proved against the steps of `WsStreams`, taken
    one after the other; `AppRuns` and `ReaderRuns` say that these are runs of the two
    tasks, so that every property of all runs holds of the object. */
module WsObjects {
  import opened Bytes
  import opened StreamEvents
  import opened WsStreams

  // ---------------------------------------------------------------------------
  // A task without interruption

  function AppOne(s: Ws, m: Micro): Ws {
    match m
    case Emit(e) => Send(s, e)
    case Enter(state) => s.(state := state)
  }

  function AppAll(s: Ws, todo: seq<Micro>): Ws
    decreases |todo|
  {
    if todo == [] then s else AppAll(AppOne(s, todo[0]), todo[1..])
  }

  lemma {:induction false} AppAllConcat(s: Ws, a: seq<Micro>, b: seq<Micro>)
    ensures AppAll(s, a + b) == AppAll(AppAll(s, a), b)
    decreases |a|
  {
    if a == [] {
      assert a + b == b;
    } else {
      assert (a + b)[1..] == a[1..] + b;
      AppAllConcat(AppOne(s, a[0]), a[1..], b);
    }
  }

  /** The application going on until its message is done is a run. */
  lemma {:induction false} AppRuns(s: Ws) returns (run: seq<Action>)
    ensures Legal(s, run) && Run(s, run) == AppAll(s.(app := []), s.app)
    ensures forall a <- run :: a == AppOn
    decreases |s.app|
  {
    if s.app == [] {
      run := [];
    } else {
      AppGoesOn(s);
      var s' := AppGoes(s);
      var rest := AppRuns(s');
      run := [AppOn] + rest;
      assert run[1..] == rest;
    }
  }

  lemma {:induction false} AppGoesOn(s: Ws)
    requires s.app != []
    ensures var s' := AppGoes(s);
      |s'.app| < |s.app| && AppAll(s'.(app := []), s'.app) == AppAll(s.(app := []), s.app)
    decreases |s.app|
  {
    hide Send, CloseStream;
    var rest := s.app[1..];
    var idle := s.(app := []);
    assert AppAll(idle, s.app) == AppAll(AppOne(idle, s.app[0]), rest);
    match s.app[0]
    case Emit(e) => SendKeepsApp(s, rest, e);
    case Enter(state) =>
      var s1 := s.(app := rest, state := state);
      assert AppGoes(s) == AppGoes(s1) && AppOne(idle, s.app[0]) == s1.(app := []);
      hide AppAll;
      if rest != [] {
        AppGoesOn(s1);
      }
  }

  lemma SendKeepsApp(s: Ws, app: seq<Micro>, e: StreamEvent)
    ensures Send(s.(app := app), e) == Send(s.(app := []), e).(app := app) && Send(s.(app := []), e).app == []
  {
  }

  lemma NothingTodo()
    ensures forall s: Ws :: AppAll(s, []) == s
  {
  }

  function ReadOne(s: Ws): Ws
    requires s.reader != []
  {
    var rest := s.reader[1..];
    match s.reader[0]
    case Answer(e) => Send(s.(reader := rest), e)
    case Shut => s.(reader := rest, closed := true)
    case Handle(f) => s.(reader := FrameSteps(f) + rest, toApp := s.toApp + FramePuts(f))
  }

  lemma ReadOneWork(s: Ws)
    requires s.reader != []
    ensures Work(ReadOne(s).reader) < Work(s.reader)
  {
    if s.reader[0].Handle? {
      FrameWork(s.reader[0].frame, s.reader[1..]);
    }
  }

  function ReadAll(s: Ws): Ws
    decreases Work(s.reader)
  {
    if s.reader == [] then s else ReadOneWork(s); ReadAll(ReadOne(s))
  }

  lemma ReadHandle(s: Ws, f: Frame, rest: seq<ReadStep>)
    requires s.reader == [Handle(f)] + rest
    ensures ReadAll(s) == ReadAll(s.(reader := FrameSteps(f) + rest, toApp := s.toApp + FramePuts(f)))
  {
    ReadOneWork(s);
    assert s.reader[1..] == rest;
  }

  lemma ReadReply(s: Ws, e: StreamEvent, rest: seq<ReadStep>)
    requires s.reader == [Answer(e)] + rest
    ensures ReadAll(s) == ReadAll(Send(s.(reader := rest), e)) && Send(s.(reader := rest), e).reader == rest
  {
    ReadOneWork(s);
    assert s.reader[1..] == rest;
  }

  lemma NothingLeft(s: Ws)
    requires s.reader == []
    ensures ReadAll(s) == s
  {
  }

  lemma ReadShut(s: Ws)
    requires s.reader == [Shut]
    ensures ReadAll(s) == s.(reader := [], closed := true)
  {
    ReadOneWork(s);
  }

  /** The reader going on until the client data is handled is a run. */
  lemma {:induction false} ReaderRuns(s: Ws) returns (run: seq<Action>)
    ensures Legal(s, run) && Run(s, run) == ReadAll(s)
    ensures forall a <- run :: a == ReaderOn
    decreases Work(s.reader)
  {
    if s.reader == [] {
      run := [];
    } else {
      ReaderGoesOn(s);
      var rest := ReaderRuns(ReaderGoes(s));
      run := [ReaderOn] + rest;
      assert run[1..] == rest;
    }
  }

  lemma {:induction false} ReaderGoesOn(s: Ws)
    requires s.reader != []
    ensures Work(ReaderGoes(s).reader) < Work(s.reader) && ReadAll(ReaderGoes(s)) == ReadAll(s)
    decreases Work(s.reader)
  {
    ReadOneWork(s);
    var s1 := ReadOne(s);
    if !s.reader[0].Answer? {
      assert ReaderGoes(s) == ReaderGoes(s1);
      if s1.reader != [] {
        ReaderGoesOn(s1);
      }
    }
  }

  lemma PlanKeepsApp(s: Ws, m: AppMessage)
    ensures Plan(s, m).0.app == s.app
  {
    hide Rejection, ErrorResponse, FrameOut;
  }

  /** Sending does not look at the history flag `finished`. */
  lemma {:induction false} FinishedFrame(s: Ws, todo: seq<Micro>, finished: bool)
    ensures AppAll(s.(finished := finished), todo) == AppAll(s, todo).(finished := finished)
    decreases |todo|
  {
    if todo != [] {
      StepFrame(s, todo[0], finished);
      hide AppOne;
      FinishedFrame(AppOne(s, todo[0]), todo[1..], finished);
    }
  }

  lemma StepFrame(s: Ws, m: Micro, finished: bool)
    ensures AppOne(s.(finished := finished), m) == AppOne(s, m).(finished := finished)
  {
    if m.Emit? {
      ShutFrame(s.(out := s.out + [m.e]), finished);
      hide CloseStream;
    }
  }

  lemma ShutFrame(s: Ws, finished: bool)
    ensures CloseStream(s.(finished := finished)) == CloseStream(s).(finished := finished)
  {
  }

  /** Handling a message without interruption is a run. */
  lemma MessageRuns(s: Ws, m: AppMessage) returns (run: seq<Action>)
    requires s.app == [] && !s.finished
    ensures Legal(s, run)
    ensures var (s1, plan) := Plan(s, m); Run(s, run) == AppAll(s1, plan).(finished := m.Finished?)
  {
    PlanKeepsApp(s, m);
    var (s1, plan) := Plan(s, m);
    FinishedFrame(s1, plan, m.Finished?);
    hide Plan, AppGoes, AppAll;
    var begun := s1.(app := plan, finished := m.Finished?);
    if plan == [] {
      assert AppGoes(begun) == begun by { AppGoesNowhere(begun); }
    } else {
      AppGoesOn(begun);
    }
    var rest := AppRuns(AppGoes(begun));
    run := [App(m)] + rest;
    assert run[1..] == rest;
  }

  lemma AppGoesNowhere(s: Ws)
    requires s.app == []
    ensures AppGoes(s) == s
  {
  }

  /** And so is handling client data. */
  lemma ClientRuns(s: Ws, frames: seq<Frame>) returns (run: seq<Action>)
    requires s.reader == [] && !s.closed
    ensures Legal(s, run)
    ensures Run(s, run) == ReadAll(s.(reader :=
      if s.accepted then Handles(frames) else [Answer(Response(400)), Answer(EndBody(false)), Shut]))
  {
    var begun := s.(reader :=
      if s.accepted then Handles(frames) else [Answer(Response(400)), Answer(EndBody(false)), Shut]);
    if begun.reader != [] {
      ReaderGoesOn(begun);
    } else {
      assert ReaderGoes(begun) == begun;
    }
    hide ReaderGoes, ReadAll;
    var rest := ReaderRuns(ReaderGoes(begun));
    run := [Client(frames)] + rest;
    assert run[1..] == rest;
  }

  // ---------------------------------------------------------------------------
  // The object

  class WSStream {
    var state: State
    var closed: bool
    var accepted: bool
    var response: Option<int>
    var trailersExpected: bool
    var out: seq<StreamEvent>
    var toApp: seq<ToApp>

    ghost var reader: seq<ReadStep>
    ghost var finished: bool
    ghost var connected: bool
    ghost var acceptedAt: Option<nat>
    ghost var closedIn: Option<State>
    ghost var closedAt: nat
    ghost var overlap: bool

    ghost function View(): Ws
      reads this
    {
      Ws(state, closed, accepted, response, trailersExpected, out, toApp, [], reader, finished,
         connected, acceptedAt, closedIn, closedAt, overlap)
    }

    constructor ()
      ensures View() == NEW
    {
      state, closed, accepted, response, trailersExpected := Handshaking, false, false, None, false;
      out, toApp, reader, finished, connected := [], [], [], false, false;
      acceptedAt, closedIn, closedAt, overlap := None, None, 0, false;
    }

    /** `handle(StreamClosed)`. */
    method HandleClosed()
      modifies this
      ensures View() == CloseStream(old(View()))
    {
      if closed {
        return;
      }
      closed := true;
      closedIn, closedAt, overlap := Some(state), |toApp|, reader != [];
      if state == HttpClosed || state == Closed {
        toApp := toApp + [Disconnect(NORMAL_CLOSURE)];
      } else {
        toApp := toApp + [Disconnect(ABNORMAL_CLOSURE)];
      }
    }

    method SendEvent(e: StreamEvent)
      modifies this
      ensures View() == Send(old(View()), e)
      ensures View() == AppAll(old(View()), [Emit(e)])
      ensures state == old(state) && trailersExpected == old(trailersExpected)
    {
      assert [Emit(e)][1..] == [];
      assert AppAll(View(), [Emit(e)]) == Send(View(), e);
      out := out + [e];
      if e == StreamClosed {
        HandleClosed();
      }
    }

    method SendErrorResponse(status: int)
      modifies this
      ensures View() == AppAll(old(View()), ErrorResponse(status))
    {
      AppAllConcat(View(), [Emit(Response(status))], [Emit(EndBody(false))]);
      SendEvent(Response(status));
      SendEvent(EndBody(false));
    }

    method SendWsprotoEvent(frame: Option<Bytes>)
      modifies this
      ensures View() == AppAll(old(View()), FrameOut(frame))
    {
      if frame.Some? {
        SendEvent(Data(frame.value));
      }
    }

    method AcceptHandshake(valid: bool, status: int)
      requires state == Handshaking && !closed
      modifies this
      ensures var (s, plan) := Plan(old(View()), Accept(valid, status)); View() == AppAll(s, plan)
    {
      state := Connected;
      connected := true;
      if valid {
        accepted, acceptedAt := true, Some(|out|);
        SendEvent(Response(status));
      }
    }

    method Move(next: State)
      modifies this
      ensures View() == AppAll(old(View()), [Enter(next)])
      ensures trailersExpected == old(trailersExpected)
    {
      assert [Enter(next)][1..] == [];
      state := next;
    }

    method SendRejection(content: StreamEvent, more: bool)
      requires response.Some? && content != StreamClosed
      modifies this
      ensures View() == AppAll(old(View()), Rejection(old(View()), content, more))
    {
      ghost var before := View();
      ghost var done: seq<Micro> := [];
      assert AppAll(before, []) == before;
      hide AppAll, Send;
      var status := response.value;
      if state == Handshaking {
        AppAllConcat(before, [Emit(Response(status))], [Enter(Replying)]);
        done := [Emit(Response(status)), Enter(Replying)];
        SendEvent(Response(status));
        Move(Replying);
      }
      assert View() == AppAll(before, done);
      if !SuppressBody("GET", status) {
        AppAllConcat(before, done, [Emit(content)]);
        done := done + [Emit(content)];
        SendEvent(content);
      } else {
        assert done + [] == done;
      }
      ghost var end: seq<Micro> := [];
      if !more && !trailersExpected {
        end := [Enter(HttpClosed), Emit(EndBody(false))];
        ghost var mid := View();
        AppAllConcat(mid, [Enter(HttpClosed)], [Emit(EndBody(false))]);
        Move(HttpClosed);
        SendEvent(EndBody(false));
      }
      AppAllConcat(before, done, end);
      assert Rejection(before, content, more) == done + end;
    }

    /** The application has finished; without a connection object it raises. */
    method Finish(frame: Option<Bytes>)
      requires !closed
      modifies this
      ensures var (s, plan) := Plan(old(View()), Finished(frame)); View() == AppAll(s, plan)
    {
      NothingTodo();
      hide AppAll, Send, CloseStream, Rejection;
      ghost var before := View();
      if state == Handshaking {
        AppAllConcat(before, ErrorResponse(500), [Emit(StreamClosed)]);
        SendErrorResponse(500);
      } else if state == Connected {
        if !accepted {
          return;
        }
        AppAllConcat(before, FrameOut(frame), [Emit(StreamClosed)]);
        SendWsprotoEvent(frame);
      } else {
        assert [] + [Emit(StreamClosed)] == [Emit(StreamClosed)];
      }
      SendEvent(StreamClosed);
    }

    method SendReply(m: AppMessage, valid: bool, content: StreamEvent, more: bool)
      requires !closed
      requires (m.ReplyBody? && m == ReplyBody(valid, m.data, more) && content == Body(m.data, false)) ||
               (m == ReplyFile(valid, more) && content == ZeroCopySend)
      modifies this
      ensures var (s, plan) := Plan(old(View()), m); View() == AppAll(s, plan)
    {
      NothingTodo();
      hide AppAll, Send, CloseStream, Rejection;
      if ((state == Handshaking && valid) || state == Replying) && response.Some? {
        SendRejection(content, more);
      }
    }

    /** `_send_rejection_trailer`. */
    method SendTrailers(more: bool, http2: bool)
      modifies this
      ensures View() == AppAll(old(View()), RejectionTrailers(more, http2))
    {
      hide AppAll, Send, CloseStream;
      ghost var before := View();
      var trailers := [Emit(TrailerHeadersSend(!more))];
      SendEvent(TrailerHeadersSend(!more));
      if more {
        assert RejectionTrailers(more, http2) == trailers;
        return;
      }
      Move(HttpClosed);
      AppAllConcat(before, trailers, [Enter(HttpClosed)]);
      if http2 {
        SendEvent(EndBody(false));
        AppAllConcat(before, trailers + [Enter(HttpClosed)], [Emit(EndBody(false))]);
        assert RejectionTrailers(more, http2) == trailers + [Enter(HttpClosed)] + [Emit(EndBody(false))];
      } else {
        assert RejectionTrailers(more, http2) == trailers + [Enter(HttpClosed)];
      }
    }

    method CloseSocket(frame: Option<Bytes>)
      requires !closed
      modifies this
      ensures var (s, plan) := Plan(old(View()), CloseFrame(frame)); View() == AppAll(s, plan)
    {
      NothingTodo();
      hide AppAll, Send, CloseStream, Rejection;
      if state == Handshaking {
        state := HttpClosed;
        SendErrorResponse(403);
      } else {
        state := Closed;
        if accepted {
          AppAllConcat(View(), FrameOut(frame), [Emit(EndData)]);
          SendWsprotoEvent(frame);
          SendEvent(EndData);
        }
      }
    }

    /** The messages that send at most one frame, and trailers. */
    method SendSimple(m: AppMessage)
      requires !closed && (m.ReplyStart? || m.ReplyTrailers? || m.SendFrame? || m.Unknown?)
      modifies this
      ensures var (s, plan) := Plan(old(View()), m); View() == AppAll(s, plan)
    {
      NothingTodo();
      hide AppAll, Send, CloseStream, Rejection;
      match m
      case ReplyStart(status, trailers) =>
        if state == Handshaking {
          response, trailersExpected := Some(status), trailers;
        }
      case ReplyTrailers(more, http2) =>
        if state == Handshaking || state == Replying {
          SendTrailers(more, http2);
        }
      case SendFrame(valid, frame) =>
        if state == Connected && valid && accepted {
          SendWsprotoEvent(frame);
        }
      case Unknown =>
    }

    /** `app_send` without interleaving; an exception leaves the state as it then is. */
    method AppSend(m: AppMessage)
      requires !finished
      modifies this
      ensures var (s, plan) := Plan(old(View()), m); View() == AppAll(s, plan).(finished := m.Finished?)
    {
      hide AppAll;
      if closed {
        NothingTodo();
      } else {
        DoSend(m);
      }
      finished := m.Finished?;
    }

    method DoSend(m: AppMessage)
      requires !closed
      modifies this
      ensures var (s, plan) := Plan(old(View()), m); View() == AppAll(s, plan)
    {
      NothingTodo();
      hide AppAll, Send, CloseStream, Rejection;
      match m
      case Finished(frame) => Finish(frame);
      case Accept(valid, status) =>
        if state == Handshaking {
          AcceptHandshake(valid, status);
        }
      case ReplyBody(valid, data, more) => SendReply(m, valid, Body(data, false), more);
      case ReplyFile(valid, more) => SendReply(m, valid, ZeroCopySend, more);
      case CloseFrame(frame) => CloseSocket(frame);
      case _ => SendSimple(m);
    }

    /** One frame completed by client data; `rest` is what the reader still has to do. */
    method HandleFrame(f: Frame, ghost rest: seq<ReadStep>)
      requires reader == [Handle(f)] + rest
      modifies this
      ensures reader == rest && ReadAll(View()) == ReadAll(old(View()))
    {
      hide ReadAll, Send;
      ReadHandle(View(), f, rest);
      reader := FrameSteps(f) + rest;
      assert toApp + [] == toApp;
      match f
      case DataFrame => toApp := toApp + [ReceiveMessage];
      case PassedFrame(ping) => toApp := toApp + [if ping then ReceivePing else ReceivePong];
      case AnsweredFrame(reply) => ReplyIfAny(reply, rest);
      case PeerClose(reply) =>
        assert reader == ReplySteps(reply) + ([Answer(StreamClosed)] + rest);
        ReplyIfAny(reply, [Answer(StreamClosed)] + rest);
        Reply(StreamClosed, rest);
    }

    method ReplyIfAny(reply: Option<Bytes>, ghost rest: seq<ReadStep>)
      requires reader == ReplySteps(reply) + rest
      modifies this
      ensures reader == rest && ReadAll(View()) == ReadAll(old(View()))
    {
      if reply.Some? {
        Reply(Data(reply.value), rest);
      } else {
        assert [] + rest == rest;
      }
    }

    method Reply(e: StreamEvent, ghost rest: seq<ReadStep>)
      requires reader == [Answer(e)] + rest
      modifies this
      ensures reader == rest && ReadAll(View()) == ReadAll(old(View()))
    {
      hide ReadAll, Send;
      ReadReply(View(), e, rest);
      reader := rest;
      SendEvent(e);
    }

    /** `handle(Data)`. */
    method HandleData(frames: seq<Frame>)
      requires reader == []
      modifies this
      ensures reader == []
      ensures View() == if old(closed) then old(View())
        else ReadAll(old(View()).(reader :=
               if old(accepted) then Handles(frames) else [Answer(Response(400)), Answer(EndBody(false)), Shut]))
    {
      if closed {
        return;
      }
      hide ReadAll, Send, CloseStream, Handles;
      if accepted {
        reader := Handles(frames);
        HandleFrames(frames);
      } else {
        reader := [Answer(Response(400)), Answer(EndBody(false)), Shut];
        RefuseData();
      }
    }

    /** Data before the handshake is done. */
    method RefuseData()
      requires reader == [Answer(Response(400)), Answer(EndBody(false)), Shut]
      modifies this
      ensures View() == ReadAll(old(View())) && reader == []
    {
      hide ReadAll, Send, CloseStream;
      Reply(Response(400), [Answer(EndBody(false)), Shut]);
      Reply(EndBody(false), [Shut]);
      ReadShut(View());
      reader := [];
      closed := true;
    }

    method HandleFrames(frames: seq<Frame>)
      requires reader == Handles(frames)
      modifies this
      ensures View() == ReadAll(old(View())) && reader == []
    {
      hide ReadAll;
      ghost var start := View();
      ghost var steps := Handles(frames);
      for i := 0 to |frames|
        invariant reader == steps[i..] && ReadAll(View()) == ReadAll(start)
      {
        assert steps[i..] == [Handle(frames[i])] + steps[i + 1..];
        HandleFrame(frames[i], steps[i + 1..]);
      }
      NothingLeft(View());
    }
  }
}
