/** Runs of one `HTTPStream`: application messages and client events, interleaved at every
    send. What it sends, logs and delivers, in every run. */
module HttpRuns {
  import opened Bytes
  import opened StreamEvents
  import opened HttpStreams

  /** A stream in the middle of a message. History: `finished` after the application's final
      `None`, `early` when the stream was closed before its response was done,
      `clientClosed` when the client closed it, and the messages handled so far. */
  datatype Live = Live(
    h: Http, todo: seq<Micro>, finished: bool, early: bool, clientClosed: bool, sent: seq<AppMessage>)

  const NEW := Live(NEW_STREAM, [], false, false, false, [])

  datatype Action = App(m: AppMessage) | Go | Client(e: ClientEvent)

  predicate Enabled(l: Live, a: Action) {
    match a
    case App(_) => l.todo == [] && !l.finished
    case Go => l.todo != []
    case Client(_) => true
  }

  function Closing(l: Live): bool {
    l.early || (!l.h.closed && l.h.state != Done)
  }

  function Step(scope: Scope, l: Live, a: Action): Live
    requires Enabled(l, a)
  {
    match a
    case App(m) =>
      var (h, todo, _) := Plan(scope, l.h, m);
      l.(h := h, todo := todo, finished := m == Finished, sent := l.sent + [m])
    case Go =>
      l.(h := Tick(l.h, l.todo[0]), todo := l.todo[1..],
         early := if l.todo[0] == Emit(StreamClosed) then Closing(l) else l.early)
    case Client(e) =>
      l.(h := Handle(l.h, e),
         early := if e == ClientClosed then Closing(l) else l.early,
         clientClosed := l.clientClosed || (e == ClientClosed && !l.h.closed))
  }

  ghost predicate Legal(scope: Scope, l: Live, run: seq<Action>)
    decreases |run|
  {
    run == [] || (Enabled(l, run[0]) && Legal(scope, Step(scope, l, run[0]), run[1..]))
  }

  ghost function Run(scope: Scope, l: Live, run: seq<Action>): Live
    requires Legal(scope, l, run)
    decreases |run|
  {
    if run == [] then l else Run(scope, Step(scope, l, run[0]), run[1..])
  }

  ghost predicate Reached(scope: Scope, l: Live, run: seq<Action>) {
    Legal(scope, NEW, run) && l == Run(scope, NEW, run)
  }

  // ---------------------------------------------------------------------------
  // What is still to come in a message

  function Emits(todo: seq<Micro>): seq<StreamEvent> {
    if todo == [] then []
    else (match todo[0] case Emit(e) => [e] case _ => []) + Emits(todo[1..])
  }

  function EndState(state: State, todo: seq<Micro>): State
    decreases |todo|
  {
    if todo == [] then state
    else EndState(match todo[0] case Emit(_) => state case Enter(s) => s case Finish(_) => Done, todo[1..])
  }

  function Finishes(todo: seq<Micro>): nat {
    if todo == [] then 0 else (if todo[0].Finish? then 1 else 0) + Finishes(todo[1..])
  }

  /** All output of the messages handled so far, and the state they lead to. */
  function Out(l: Live): seq<StreamEvent> { l.h.out + Emits(l.todo) }
  function Final(l: Live): State { EndState(l.h.state, l.todo) }

  lemma {:induction false} TodoConcat(state: State, a: seq<Micro>, b: seq<Micro>)
    ensures Emits(a + b) == Emits(a) + Emits(b)
    ensures EndState(state, a + b) == EndState(EndState(state, a), b)
    ensures Finishes(a + b) == Finishes(a) + Finishes(b)
    decreases |a|
  {
    if a == [] {
      assert a + b == b;
    } else {
      assert (a + b)[1..] == a[1..] + b;
      TodoConcat(match a[0] case Emit(_) => state case Enter(s) => s case Finish(_) => Done, a[1..], b);
    }
  }

  // ---------------------------------------------------------------------------
  // The output grammar

  /** Informational* Response (Body | ZeroCopySend)* then EndBody StreamClosed, or just
      StreamClosed when the application quits; server pushes may appear anywhere. */
  datatype Phase = Opening | Replying | Ended | Over | Quit | Broken

  function Advance(p: Phase, e: StreamEvent): Phase {
    if e == ServerPush then p
    else
      match p
      case Opening => if e.InformationalResponse? then Opening else if e.Response? then Replying else Broken
      case Replying =>
        if e.Body? || e.ZeroCopySend? then Replying
        else if e.EndBody? then Ended
        else if e.StreamClosed? then Quit
        else Broken
      case Ended => if e.StreamClosed? then Over else Broken
      case _ => Broken
  }

  function PhaseFrom(p: Phase, out: seq<StreamEvent>): Phase
    decreases |out|
  {
    if out == [] then p else PhaseFrom(Advance(p, out[0]), out[1..])
  }

  function PhaseOf(out: seq<StreamEvent>): Phase { PhaseFrom(Opening, out) }

  lemma {:induction false} PhaseConcat(p: Phase, a: seq<StreamEvent>, b: seq<StreamEvent>)
    ensures PhaseFrom(p, a + b) == PhaseFrom(PhaseFrom(p, a), b)
    decreases |a|
  {
    if a == [] {
      assert a + b == b;
    } else {
      assert (a + b)[1..] == a[1..] + b;
      PhaseConcat(Advance(p, a[0]), a[1..], b);
    }
  }

  lemma {:induction false} BrokenStays(out: seq<StreamEvent>)
    ensures PhaseFrom(Broken, out) == Broken
    decreases |out|
  {
    if out != [] {
      BrokenStays(out[1..]);
    }
  }

  /** A prefix of an output in the grammar is in the grammar. */
  lemma PrefixUnbroken(a: seq<StreamEvent>, b: seq<StreamEvent>)
    requires PhaseOf(a + b) != Broken
    ensures PhaseOf(a) != Broken
  {
    PhaseConcat(Opening, a, b);
    BrokenStays(b);
  }

  function CountResponses(out: seq<StreamEvent>): nat {
    if out == [] then 0 else (if out[0].Response? then 1 else 0) + CountResponses(out[1..])
  }

  function CountClosed(out: seq<StreamEvent>): nat {
    if out == [] then 0 else (if out[0].StreamClosed? then 1 else 0) + CountClosed(out[1..])
  }

  /** The phase counts the responses and closes. */
  lemma {:induction false} PhaseCounts(p: Phase, out: seq<StreamEvent>)
    requires p != Broken && PhaseFrom(p, out) != Broken
    ensures var q := PhaseFrom(p, out);
      && CountResponses(out) == (if p == Opening && q != Opening then 1 else 0)
      && CountClosed(out) == (if (q == Over || q == Quit) && p != q then 1 else 0)
      && (p == Over || p == Quit ==> q == p)
      && (q == Opening ==> p == Opening)
    decreases |out|
  {
    if out != [] {
      BrokenStays(out[1..]);
      PhaseCounts(Advance(p, out[0]), out[1..]);
    }
  }

  lemma {:induction false} CountClosedIn(out: seq<StreamEvent>)
    ensures CountClosed(out) > 0 <==> StreamClosed in out
  {
    if out != [] {
      CountClosedIn(out[1..]);
    }
  }

  // ---------------------------------------------------------------------------
  // What every run keeps

  predicate TrailersFree(ms: seq<AppMessage>) {
    forall m <- ms :: !m.Trailers?
  }

  function Bit(b: bool): nat { if b then 1 else 0 }

  ghost predicate Grammar(l: Live) {
    var p := PhaseOf(Out(l));
    match Final(l)
       case Requested => p == Opening
       case Responding => l.h.response.Some? && p == (if l.finished && StreamClosed in Out(l) then Quit else Replying)
       case Done => p == Over
  }

  ghost predicate Closes(l: Live) {
    && (StreamClosed in l.h.out ==> l.h.closed)
    && (l.h.closed ==> l.clientClosed || StreamClosed in l.h.out)
    && (l.clientClosed ==> l.h.closed)
    && (l.finished ==> l.h.closed || StreamClosed in Emits(l.todo))
    && (forall i :: 0 <= i < |l.h.toApp| ==> (l.h.toApp[i] == HttpDisconnect <==> l.h.closed && i == |l.h.toApp| - 1))
    && (l.h.closed ==> l.h.toApp != [])
  }

  ghost predicate Logged(l: Live) {
    && |l.h.log| == Bit(l.h.state == Done) + Bit(l.early)
    && (l.early ==> l.h.closed)
    && (l.h.closed ==> l.early || l.h.state == Done)
    && Finishes(l.todo) + Bit(l.h.state == Done) <= 1
    && (forall i :: 0 <= i < |l.todo| - 1 ==> l.todo[i] != Emit(StreamClosed))
    && (forall i :: 0 <= i < |l.todo| && l.todo[i].Enter? ==>
          l.todo[i].state == Responding && i == |l.todo| - 1 && l.h.state == Requested && Finishes(l.todo) == 0)
  }

  ghost predicate Inv(l: Live) {
    && Closes(l) && Logged(l)
    && (TrailersFree(l.sent) ==> Grammar(l) && EarlyOk(l))
  }

  /** Without the client, only an application that quits closes its stream early. */
  ghost predicate EarlyOk(l: Live) {
    l.early && !l.clientClosed ==> l.finished && PhaseOf(Out(l)) == Quit
  }

  lemma GoKeepsOut(scope: Scope, l: Live)
    requires l.todo != []
    ensures var l' := Step(scope, l, Go); Out(l') == Out(l) && Final(l') == Final(l)
  {
  }

  lemma GoKeeps(scope: Scope, l: Live)
    requires Inv(l) && Enabled(l, Go)
    ensures Inv(Step(scope, l, Go))
  {
    var l' := Step(scope, l, Go);
    GoKeepsOut(scope, l);
    assert Grammar(l) ==> Grammar(l') by {
      hide PhaseFrom;
      assert l'.h.response == l.h.response && l'.h.trailersExpected == l.h.trailersExpected;
    }
    assert l.todo == [l.todo[0]] + l'.todo;
    assert Closes(l') by { hide Logged, Grammar, EarlyOk; }
    if Grammar(l) && EarlyOk(l) {
      EarlyGoes(scope, l);
    }
    LogGoes(scope, l);
  }

  lemma EarlyGoes(scope: Scope, l: Live)
    requires Inv(l) && l.todo != [] && Grammar(l) && EarlyOk(l)
    ensures EarlyOk(Step(scope, l, Go))
  {
    GoKeepsOut(scope, l);
    if l.todo[0] == Emit(StreamClosed) && !l.h.closed && l.h.state != Done {
      assert |l.todo| == 1 && l.todo[1..] == [];
      assert StreamClosed in Emits(l.todo);
      OpenPhase(Out(l));
      assert Final(l) == l.h.state;
    }
  }

  lemma LogGoes(scope: Scope, l: Live)
    requires Logged(l) && l.todo != []
    ensures Logged(Step(scope, l, Go))
  {
    var l' := Step(scope, l, Go);
    assert forall i :: 0 <= i < |l'.todo| ==> l'.todo[i] == l.todo[i + 1];
    match l.todo[0]
    case Emit(e) =>
      if e == StreamClosed && !l.h.closed {
        assert !l.early;
      }
    case Enter(_) => assert |l.todo| == 1;
    case Finish(_) =>
  }

  lemma ClientKeeps(scope: Scope, l: Live, e: ClientEvent)
    requires Inv(l)
    ensures Inv(Step(scope, l, Client(e)))
  {
    var l' := Step(scope, l, Client(e));
    assert Out(l') == Out(l) && Final(l') == Final(l);
  }

  /** Steps that only send: no state is entered and nothing is logged. */
  lemma {:induction false} SendsOnly(state: State, todo: seq<Micro>)
    requires forall m <- todo :: m.Emit?
    ensures Finishes(todo) == 0 && EndState(state, todo) == state && |Emits(todo)| == |todo|
    ensures forall i :: 0 <= i < |todo| ==> Emits(todo)[i] == todo[i].e
    decreases |todo|
  {
    if todo != [] {
      assert todo[0].Emit?;
      SendsOnly(state, todo[1..]);
    }
  }

  lemma EndingShape(h: Http, more: bool, withHeaders: bool)
    requires h.response.Some?
    ensures var todo := Ending(h, more, withHeaders);
      if more || h.trailersExpected then todo == []
      else Emits(todo) == [EndBody(withHeaders), StreamClosed] && EndState(h.state, todo) == Done && Finishes(todo) == 1
  {
    if !more && !h.trailersExpected {
      var todo := Ending(h, more, withHeaders);
      var tail := [Emit(EndBody(withHeaders)), Emit(StreamClosed)];
      assert todo == [Finish(h.response.value)] + tail;
      SendsOnly(Done, tail);
      assert todo[1..] == tail;
      assert Emits(tail) == [EndBody(withHeaders), StreamClosed];
    }
  }

  lemma ErrorShape(state: State, status: int)
    ensures var todo := ErrorResponse(status) + [Emit(StreamClosed)];
      && Emits(todo) == [Response(status), EndBody(false), StreamClosed]
      && EndState(state, todo) == Done && Finishes(todo) == 1
  {
    var front := [Emit(Response(status)), Emit(EndBody(false))];
    var back := [Finish(status), Emit(StreamClosed)];
    assert ErrorResponse(status) + [Emit(StreamClosed)] == front + back;
    TodoConcat(state, front, back);
    SendsOnly(state, front);
    SendsOnly(Done, [Emit(StreamClosed)]);
    assert back[1..] == [Emit(StreamClosed)];
    assert Emits(front) == [Response(status), EndBody(false)];
    assert Emits([Emit(StreamClosed)]) == [StreamClosed];
  }

  lemma StartShape(status: int)
    ensures var todo := [Emit(Response(status)), Enter(Responding)];
      && Emits(todo) == [Response(status)] && EndState(Requested, todo) == Responding && Finishes(todo) == 0
  {
    var todo := [Emit(Response(status)), Enter(Responding)];
    var tail := [Enter(Responding)];
    assert todo[1..] == tail && tail[1..] == [];
    assert Emits(tail) == [] && Finishes(tail) == 0 && EndState(Requested, tail) == Responding;
  }

  /** The content a body message sends before it may end the response. */
  function Content(scope: Scope, h: Http, m: AppMessage): seq<Micro>
    requires h.response.Some?
  {
    var suppressed := SuppressBody(scope.verb, h.response.value);
    match m
    case BodyPart(data, _, flush, _) => if suppressed || data == [] then [] else [Emit(Body(data, flush))]
    case ZeroCopy(hasFile, _, _) => if suppressed || !hasFile then [] else [Emit(ZeroCopySend)]
    case PathSend(found, chunks, _) =>
      if suppressed || !found then []
      else if scope.sendfile then [Emit(ZeroCopySend)]
      else EmitBodies(Reads(chunks), false)
    case _ => []
  }

  predicate IsBody(m: AppMessage) { m.BodyPart? || m.ZeroCopy? || m.PathSend? }

  function WithHeaders(m: AppMessage): bool
    requires IsBody(m)
  {
    match m case BodyPart(_, _, _, w) => w case ZeroCopy(_, _, w) => w case _ => false
  }

  /** An accepted body message sends its content, then ends the response or not. */
  lemma BodyShape(scope: Scope, h: Http, m: AppMessage)
    requires IsBody(m) && h.state == Responding && h.response.Some?
    ensures Plan(scope, h, m) == (h, Content(scope, h, m) + Ending(h, m.more, WithHeaders(m)), false)
    ensures forall x <- Content(scope, h, m) :: x.Emit? && (x.e.Body? || x.e.ZeroCopySend?)
  {
  }

  /** What holds of every plan: one access record at most, and only before the response is
      done; a state is entered last. */
  ghost predicate PlanOk(h: Http, h': Http, todo: seq<Micro>) {
    && h' == h.(response := h'.response, trailersExpected := h'.trailersExpected)
    && Finishes(todo) <= (if h.state == Done then 0 else 1)
    && (forall i :: 0 <= i < |todo| && todo[i].Enter? ==>
          todo[i].state == Responding && i == |todo| - 1 && h.state == Requested && Finishes(todo) == 0)
    && (forall i :: 0 <= i < |todo| - 1 ==> todo[i] != Emit(StreamClosed))
  }

  lemma SendsOnlyOk(h: Http, todo: seq<Micro>)
    requires forall m <- todo :: m.Emit?
    requires forall i :: 0 <= i < |todo| - 1 ==> todo[i] != Emit(StreamClosed)
    ensures PlanOk(h, h, todo)
  {
    SendsOnly(h.state, todo);
    assert forall i :: 0 <= i < |todo| ==> todo[i].Emit?;
  }

  lemma FinishedOk(scope: Scope, h: Http)
    ensures var (h', todo, _) := Plan(scope, h, Finished);
      && h' == h && PlanOk(h, h, todo)
      && Emits(todo) == (if h.closed then []
                         else if h.state == Requested then [Response(500), EndBody(false), StreamClosed]
                         else [StreamClosed])
      && EndState(h.state, todo) == (if h.closed || h.state != Requested then h.state else Done)
  {
    ErrorShape(h.state, 500);
    SendsOnlyOk(h, [Emit(StreamClosed)]);
    SendsOnly(h.state, [Emit(StreamClosed)]);
    assert [] + [Emit(StreamClosed)] == [Emit(StreamClosed)];
    assert Emits([Emit(StreamClosed)]) == [StreamClosed];
  }

  lemma BodyOk(scope: Scope, h: Http, m: AppMessage)
    requires IsBody(m) && h.state == Responding && h.response.Some?
    ensures var (h', todo, _) := Plan(scope, h, m);
      && h' == h && PlanOk(h, h, todo)
      && Emits(todo) == Emits(Content(scope, h, m)) +
           (if m.more || h.trailersExpected then [] else [EndBody(WithHeaders(m)), StreamClosed])
      && EndState(h.state, todo) == (if m.more || h.trailersExpected then Responding else Done)
  {
    BodyShape(scope, h, m);
    hide Plan, Content;
    ContentThenEnding(h, Content(scope, h, m), m.more, WithHeaders(m));
  }

  lemma ContentThenEnding(h: Http, content: seq<Micro>, more: bool, withHeaders: bool)
    requires h.state == Responding && h.response.Some?
    requires forall x <- content :: x.Emit? && x.e != StreamClosed
    ensures var todo := content + Ending(h, more, withHeaders);
      && PlanOk(h, h, todo)
      && Emits(todo) ==
           Emits(content) + (if more || h.trailersExpected then [] else [EndBody(withHeaders), StreamClosed])
      && EndState(Responding, todo) == (if more || h.trailersExpected then Responding else Done)
  {
    var ending := Ending(h, more, withHeaders);
    SendsOnly(h.state, content);
    EndingShape(h, more, withHeaders);
    TodoConcat(h.state, content, ending);
    assert forall i :: 0 <= i < |content| ==> content[i].Emit? && content[i].e != StreamClosed;
    assert forall i :: 0 <= i < |content + ending| ==>
      (content + ending)[i] == if i < |content| then content[i] else ending[i - |content|];
  }

  lemma StartOk(scope: Scope, h: Http, m: AppMessage)
    requires m.Start?
    ensures var (h', todo, _) := Plan(scope, h, m);
      && PlanOk(h, h', todo)
      && Emits(todo) == (if h.state == Requested && m.valid then [Response(m.status)] else [])
      && EndState(h.state, todo) == (if h.state == Requested && m.valid then Responding else h.state)
      && (if h.state == Requested then h'.response == Some(m.status) && h'.trailersExpected == m.trailers else h' == h)
  {
    StartShape(m.status);
  }

  lemma PlanIsOk(scope: Scope, h: Http, m: AppMessage)
    ensures var (h', todo, _) := Plan(scope, h, m); PlanOk(h, h', todo)
  {
    hide Plan, PlanOk;
    if m == Finished {
      FinishedOk(scope, h);
    } else if m.Start? {
      StartOk(scope, h, m);
    } else if IsBody(m) && h.state == Responding && h.response.Some? {
      BodyOk(scope, h, m);
    } else {
      OtherShape(scope, h, m);
      SendsOnlyOk(h, Plan(scope, h, m).1);
    }
  }

  /** Every other message only sends. */
  lemma OtherShape(scope: Scope, h: Http, m: AppMessage)
    requires m != Finished && !m.Start?
    requires IsBody(m) ==> h.state != Responding || h.response == None
    ensures var (h', todo, _) := Plan(scope, h, m);
      && h' == h && (forall x <- todo :: x.Emit?)
      && (forall i :: 0 <= i < |todo| - 1 ==> todo[i] != Emit(StreamClosed))
  {
  }

  // ---------------------------------------------------------------------------
  // Messages keep the grammar

  lemma {:induction false} BodiesAdvance(out: seq<StreamEvent>)
    requires forall e <- out :: e.Body? || e.ZeroCopySend?
    ensures PhaseFrom(Replying, out) == Replying
    decreases |out|
  {
    if out != [] {
      assert out[0] in out;
      BodiesAdvance(out[1..]);
    }
  }

  lemma ShortPhases(status: int, withHeaders: bool)
    ensures PhaseFrom(Opening, [Response(status)]) == Replying
    ensures PhaseFrom(Replying, [EndBody(withHeaders), StreamClosed]) == Over
    ensures PhaseFrom(Replying, [StreamClosed]) == Quit
    ensures PhaseFrom(Opening, [Response(500), EndBody(false), StreamClosed]) == Over
    ensures PhaseFrom(Opening, [InformationalResponse(103)]) == Opening
    ensures forall p :: PhaseFrom(p, [ServerPush]) == p
  {
    var tail := [EndBody(withHeaders), StreamClosed];
    assert tail[1..] == [StreamClosed] && [StreamClosed][1..] == [];
    assert PhaseFrom(Ended, [StreamClosed]) == Over;
    var error := [Response(500), EndBody(false), StreamClosed];
    assert error[1..] == [EndBody(false), StreamClosed] && error[1..][1..] == [StreamClosed];
    assert PhaseFrom(Replying, [EndBody(false), StreamClosed]) == Over;
    forall p ensures PhaseFrom(p, [ServerPush]) == p {
      assert [ServerPush][1..] == [];
    }
  }

  lemma OtherEmits(scope: Scope, h: Http, m: AppMessage)
    requires m != Finished && !m.Start? && !m.Trailers?
    requires IsBody(m) ==> h.state != Responding || h.response == None
    ensures var (h', todo, _) := Plan(scope, h, m);
      && h' == h && EndState(h.state, todo) == h.state
      && (|| Emits(todo) == [] || Emits(todo) == [ServerPush]
          || (h.state == Requested && Emits(todo) == [InformationalResponse(103)]))
  {
    SendsOnly(h.state, [Emit(ServerPush)]);
    SendsOnly(h.state, [Emit(InformationalResponse(103))]);
    assert Emits([Emit(ServerPush)]) == [ServerPush];
    assert Emits([Emit(InformationalResponse(103))]) == [InformationalResponse(103)];
  }

  /** An unfinished reply has not closed the stream. */
  lemma OpenPhase(out: seq<StreamEvent>)
    requires PhaseOf(out) != Broken
    ensures StreamClosed in out <==> PhaseOf(out) == Over || PhaseOf(out) == Quit
  {
    PhaseCounts(Opening, out);
    CountClosedIn(out);
  }

  lemma MessageGrammar(scope: Scope, l: Live, m: AppMessage)
    requires Closes(l) && Grammar(l) && Enabled(l, App(m)) && TrailersFree([m])
    ensures Grammar(Step(scope, l, App(m)))
  {
    var l' := Step(scope, l, App(m));
    var h, out := l.h, l.h.out;
    var todo := l'.todo;
    assert Out(l) == out && Final(l) == h.state;
    assert m in [m];
    PhaseConcat(Opening, out, Emits(todo));
    OpenPhase(out);
    if m == Finished {
      FinishedOk(scope, h);
      ShortPhases(0, false);
      hide PhaseFrom, Plan, EndState, Emits;
      if h.closed {
        assert out + [] == out;
      }
    } else if m.Start? {
      StartOk(scope, h, m);
      ShortPhases(m.status, false);
      hide PhaseFrom, Plan, EndState, Emits;
      assert out + [] == out;
    } else if IsBody(m) && h.state == Responding && h.response.Some? {
      BodyGrammar(scope, l, m);
    } else {
      OtherEmits(scope, h, m);
      ShortPhases(0, false);
      hide PhaseFrom, Plan, EndState, Emits;
      assert out + [] == out;
    }
  }

  lemma BodyGrammar(scope: Scope, l: Live, m: AppMessage)
    requires Grammar(l) && Enabled(l, App(m)) && IsBody(m) && l.h.state == Responding && l.h.response.Some?
    ensures Grammar(Step(scope, l, App(m)))
  {
    var l' := Step(scope, l, App(m));
    var content := Content(scope, l.h, m);
    var ending := if m.more || l.h.trailersExpected then [] else [EndBody(WithHeaders(m)), StreamClosed];
    assert Out(l) == l.h.out && Final(l) == Responding;
    BodyOk(scope, l.h, m);
    BodyShape(scope, l.h, m);
    hide Content, Plan, EndState;
    SendsOnly(Responding, content);
    assert forall i :: 0 <= i < |content| ==> content[i].e.Body? || content[i].e.ZeroCopySend?;
    BodiesAdvance(Emits(content));
    ShortPhases(0, WithHeaders(m));
    PhaseConcat(Opening, l.h.out, Emits(content) + ending);
    PhaseConcat(Replying, Emits(content), ending);
  }

  lemma AppKeeps(scope: Scope, l: Live, m: AppMessage)
    requires Inv(l) && Enabled(l, App(m))
    ensures Inv(Step(scope, l, App(m)))
  {
    var l' := Step(scope, l, App(m));
    PlanIsOk(scope, l.h, m);
    if m == Finished {
      FinishedOk(scope, l.h);
    }
    assert Closes(l') && Logged(l') by { hide Plan, Grammar; }
    assert l'.sent == l.sent + [m];
    if TrailersFree(l'.sent) {
      assert TrailersFree(l.sent) && TrailersFree([m]) by {
        assert forall x <- l.sent :: x in l'.sent;
        assert m in l'.sent;
      }
      MessageGrammar(scope, l, m);
    }
  }

  lemma StepKeeps(scope: Scope, l: Live, a: Action)
    requires Inv(l) && Enabled(l, a)
    ensures Inv(Step(scope, l, a))
  {
    hide Inv, Step;
    match a
    case App(m) => AppKeeps(scope, l, m);
    case Go => GoKeeps(scope, l);
    case Client(e) => ClientKeeps(scope, l, e);
  }

  lemma {:induction false} RunKeeps(scope: Scope, l: Live, run: seq<Action>)
    requires Inv(l) && Legal(scope, l, run)
    ensures Inv(Run(scope, l, run))
    decreases |run|
  {
    hide Inv, Step;
    if run != [] {
      StepKeeps(scope, l, run[0]);
      RunKeeps(scope, Step(scope, l, run[0]), run[1..]);
    }
  }

  lemma NewOk()
    ensures Inv(NEW)
  {
  }

  // ---------------------------------------------------------------------------
  // A message without interruption

  lemma {:induction false} GoRuns(scope: Scope, l: Live) returns (run: seq<Action>)
    ensures Legal(scope, l, run) && Run(scope, l, run).h == TickAll(l.h, l.todo)
    ensures Run(scope, l, run).todo == [] && forall a <- run :: a == Go
    decreases |l.todo|
  {
    if l.todo == [] {
      run := [];
    } else {
      var rest := GoRuns(scope, Step(scope, l, Go));
      run := [Go] + rest;
      assert run[1..] == rest;
    }
  }

  /** Handling a message in one go, as the object does, is a run. */
  lemma MessageRuns(scope: Scope, l: Live, m: AppMessage) returns (run: seq<Action>)
    requires Enabled(l, App(m))
    ensures Legal(scope, l, run)
    ensures var (h, todo, _) := Plan(scope, l.h, m); Run(scope, l, run).h == TickAll(h, todo)
  {
    var rest := GoRuns(scope, Step(scope, l, App(m)));
    run := [App(m)] + rest;
    assert run[1..] == rest;
  }
}
