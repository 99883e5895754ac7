/** Trailer messages never end the response of an `HTTPStream`: it goes on accepting messages.
    Which message sequences therefore leave the output grammar is decided here, for all of
    them, by what each message means alone. */
module HttpTrailers {
  import opened Bytes
  import opened StreamEvents
  import opened HttpStreams
  import opened HttpRuns
  import opened HttpTheorems

  /** Where the messages so far have brought the response: not started; started; with its
      body ended by trailers; with its stream closed by them; over; or spoilt. */
  datatype Stage = Unstarted | Open(r: Reply) | BodyEnded(r: Reply) | ShutOff(r: Reply) | Gone | Spoilt

  datatype Reply = Reply(status: int, trailers: bool)

  /** The message has a body to send. */
  predicate HasContent(scope: Scope, r: Reply, m: AppMessage) {
    && !SuppressBody(scope.verb, r.status)
    && match m
       case BodyPart(data, _, _, _) => data != []
       case ZeroCopy(hasFile, _, _) => hasFile
       case PathSend(found, chunks, _) => found && (scope.sendfile || (chunks != [] && chunks[0] != []))
       case _ => false
  }

  predicate LastPart(r: Reply, m: AppMessage)
    requires IsBody(m)
  {
    !m.more && !r.trailers
  }

  /** What trailers do to a response that is not over: sent as trailers they are outside of
      the grammar; otherwise HTTP/1.1 ends the body, again with every message, and the last
      ones close the stream, over HTTP/2 and 3 after ending the body. */
  function AfterTrailers(scope: Scope, g: Stage, m: AppMessage): Stage
    requires (g.Open? || g.BodyEnded? || g.ShutOff?) && m.Trailers?
  {
    if scope.acceptsTrailers then (if m.valid then Spoilt else g)
    else if scope.version == V11 then
      if !g.Open? then Spoilt else if m.more then BodyEnded(g.r) else ShutOff(g.r)
    else if m.more then g
    else if g.Open? then ShutOff(g.r)
    else Spoilt
  }

  /** The stage after one more message. */
  function Next(scope: Scope, g: Stage, m: AppMessage): Stage {
    if g == Gone || g == Spoilt then g
    else if m == Finished then Gone
    else if g == Unstarted then (if m.Start? && m.valid then Open(Reply(m.status, m.trailers)) else g)
    else if m.Trailers? then AfterTrailers(scope, g, m)
    else if !IsBody(m) then g
    else if g.Open? then (if LastPart(g.r, m) then Gone else g)
    else if HasContent(scope, g.r, m) || LastPart(g.r, m) then Spoilt
    else g
  }

  function StageOf(scope: Scope, ms: seq<AppMessage>): Stage {
    if ms == [] then Unstarted else Next(scope, StageOf(scope, ms[..|ms| - 1]), ms[|ms| - 1])
  }

  // ---------------------------------------------------------------------------
  // What every run keeps

  /** The stage is right about the state and about the output of the messages so far. */
  ghost predicate Agrees(scope: Scope, g: Stage, l: Live) {
    var p := PhaseOf(Out(l));
    match g
    case Unstarted => Final(l) == Requested && p == Opening && !l.finished
    case Open(r) => Answers(l, r) && p == Replying
    case BodyEnded(r) => Answers(l, r) && p == Ended && scope.version == V11 && !scope.acceptsTrailers
    case ShutOff(r) => Answers(l, r) && (p == Over || p == Quit)
    case Gone => p != Broken && (l.finished || (Final(l) == Done && p == Over))
    case Spoilt => p == Broken
  }

  ghost predicate Answers(l: Live, r: Reply) {
    Final(l) == Responding && l.h.response == Some(r.status) && l.h.trailersExpected == r.trailers && !l.finished
  }

  lemma Sent(scope: Scope, l: Live, m: AppMessage)
    requires Enabled(l, App(m))
    ensures var l' := Step(scope, l, App(m)); var todo := Plan(scope, l.h, m).1;
      && l.todo == [] && Out(l) == l.h.out && Final(l) == l.h.state
      && Out(l') == Out(l) + Emits(todo) && Final(l') == EndState(l'.h.state, todo)
      && l'.finished == (m == Finished) && l'.h == Plan(scope, l.h, m).0
      && PhaseOf(Out(l')) == PhaseFrom(PhaseOf(Out(l)), Emits(todo))
  {
    PlanKeepsOut(scope, l.h, m);
    assert Out(l) == l.h.out && Final(l) == l.h.state;
    var todo := Plan(scope, l.h, m).1;
    hide Plan, EndState, PhaseFrom, Emits;
    PhaseConcat(Opening, l.h.out, Emits(todo));
  }

  /** Phases of the short outputs that can follow trailers. */
  lemma LatePhases(withHeaders: bool)
    ensures forall p :: PhaseFrom(p, []) == p
    ensures PhaseFrom(Replying, [EndBody(false)]) == Ended
    ensures PhaseFrom(Replying, [EndBody(false), StreamClosed]) == Over
    ensures PhaseFrom(Ended, [StreamClosed]) == Over
    ensures forall p :: p == Over || p == Quit ==> PhaseFrom(p, [StreamClosed]) == Broken
    ensures forall p :: p == Ended || p == Over || p == Quit ==>
      PhaseFrom(p, [EndBody(withHeaders)]) == Broken && PhaseFrom(p, [EndBody(withHeaders), StreamClosed]) == Broken
  {
    ShortPhases(0, false);
    assert [StreamClosed][1..] == [] && [EndBody(withHeaders)][1..] == [];
    assert [EndBody(withHeaders), StreamClosed][1..] == [StreamClosed];
    assert PhaseFrom(Broken, [StreamClosed]) == Broken by { BrokenStays([StreamClosed]); }
    forall p | p == Ended || p == Over || p == Quit
      ensures PhaseFrom(p, [EndBody(withHeaders), StreamClosed]) == Broken
    {
      assert Advance(p, EndBody(withHeaders)) == Broken;
    }
  }

  /** What a trailers message sends. */
  function TrailerEvents(scope: Scope, m: AppMessage): seq<StreamEvent>
    requires m.Trailers?
  {
    var modern := scope.version == V2 || scope.version == V3;
    (if scope.acceptsTrailers then [TrailerHeadersSend(!m.more)]
     else if scope.version == V11 then [EndBody(false)] else [])
    + (if m.more then [] else (if modern then [EndBody(false)] else []) + [StreamClosed])
  }

  lemma TrailersSend(scope: Scope, h: Http, m: AppMessage)
    requires m.Trailers? && h.state == Responding
    ensures var (h', todo, _) := Plan(scope, h, m);
      && h' == h && EndState(h.state, todo) == h.state
      && Emits(todo) == if scope.acceptsTrailers && !m.valid then [] else TrailerEvents(scope, m)
  {
    var todo := Plan(scope, h, m).1;
    SendsOnly(h.state, todo);
    assert Emits(todo) == if scope.acceptsTrailers && !m.valid then [] else TrailerEvents(scope, m);
  }

  lemma TrailerPhase(scope: Scope, g: Stage, p: Phase, m: AppMessage)
    requires m.Trailers? && !(scope.acceptsTrailers && !m.valid)
    requires g.BodyEnded? ==> scope.version == V11 && !scope.acceptsTrailers
    requires (g.Open? && p == Replying) || (g.BodyEnded? && p == Ended) || (g.ShutOff? && (p == Over || p == Quit))
    ensures var p' := PhaseFrom(p, TrailerEvents(scope, m)); var g' := AfterTrailers(scope, g, m);
      && (g'.Open? ==> p' == Replying && g' == g)
      && (g'.BodyEnded? ==> p' == Ended && g'.r == g.r && scope.version == V11 && !scope.acceptsTrailers)
      && (g'.ShutOff? ==> (p' == Over || p' == Quit) && g'.r == g.r)
      && (g' == Spoilt ==> p' == Broken)
  {
    var modern := scope.version == V2 || scope.version == V3;
    LatePhases(false);
    ShortPhases(0, false);
    if scope.acceptsTrailers {
      var rest := TrailerEvents(scope, m)[1..];
      assert Advance(p, TrailerHeadersSend(!m.more)) == Broken;
      BrokenStays(rest);
    } else {
      assert [] + [StreamClosed] == [StreamClosed];
      assert TrailerEvents(scope, m) ==
        if scope.version == V11 then (if m.more then [EndBody(false)] else [EndBody(false), StreamClosed])
        else if m.more then [] else if modern then [EndBody(false), StreamClosed] else [StreamClosed];
    }
  }

  lemma TrailersAgree(scope: Scope, g: Stage, l: Live, m: AppMessage)
    requires Agrees(scope, g, l) && Enabled(l, App(m)) && m.Trailers? && (g.Open? || g.BodyEnded? || g.ShutOff?)
    ensures Agrees(scope, Next(scope, g, m), Step(scope, l, App(m)))
  {
    hide Plan, Step, Out, Final, EndState, PhaseFrom, TrailerEvents;
    Sent(scope, l, m);
    TrailersSend(scope, l.h, m);
    if !(scope.acceptsTrailers && !m.valid) {
      TrailerPhase(scope, g, PhaseOf(Out(l)), m);
    } else {
      LatePhases(false);
    }
  }

  lemma {:induction false} ContentSpoils(p: Phase, content: seq<StreamEvent>)
    requires forall e <- content :: e.Body? || e.ZeroCopySend?
    requires p == Ended || p == Over || p == Quit
    ensures PhaseFrom(p, content) == if content == [] then p else Broken
  {
    if content != [] {
      assert content[0] in content;
      BrokenStays(content[1..]);
    }
  }

  lemma ContentIff(scope: Scope, h: Http, r: Reply, m: AppMessage)
    requires IsBody(m) && h.response == Some(r.status)
    ensures var content := Emits(Content(scope, h, m));
      (content != [] <==> HasContent(scope, r, m)) && forall e <- content :: e.Body? || e.ZeroCopySend?
  {
    var content := Content(scope, h, m);
    SendsOnly(Requested, content);
    assert forall i :: 0 <= i < |content| ==> content[i].e.Body? || content[i].e.ZeroCopySend?;
  }

  /** The content and the end of a response after trailers have ended its body. */
  lemma BodyPhase(p: Phase, content: seq<StreamEvent>, ends: bool, withHeaders: bool)
    requires forall e <- content :: e.Body? || e.ZeroCopySend?
    requires p == Replying || p == Ended || p == Over || p == Quit
    ensures var ending := if ends then [EndBody(withHeaders), StreamClosed] else [];
      PhaseFrom(p, content + ending) ==
        if p == Replying then (if ends then Over else Replying)
        else if content != [] || ends then Broken
        else p
  {
    var ending := if ends then [EndBody(withHeaders), StreamClosed] else [];
    ShortPhases(0, withHeaders);
    LatePhases(withHeaders);
    PhaseConcat(p, content, ending);
    BrokenStays(ending);
    if p == Replying {
      BodiesAdvance(content);
    } else {
      ContentSpoils(p, content);
    }
    hide PhaseFrom;
  }

  lemma BodyAgrees(scope: Scope, g: Stage, l: Live, m: AppMessage)
    requires Agrees(scope, g, l) && Enabled(l, App(m)) && IsBody(m) && (g.Open? || g.BodyEnded? || g.ShutOff?)
    ensures Agrees(scope, Next(scope, g, m), Step(scope, l, App(m)))
  {
    var ends := !m.more && !g.r.trailers;
    Sent(scope, l, m);
    assert l.h.state == Responding && l.h.response == Some(g.r.status) && l.h.trailersExpected == g.r.trailers;
    BodySends(scope, l.h, g.r, m, PhaseOf(Out(l)));
    hide Step, PhaseFrom, Out, HasContent, Plan, EndState, Final;
    assert Next(scope, g, m) ==
      if g.Open? then (if ends then Gone else g) else if HasContent(scope, g.r, m) || ends then Spoilt else g;
  }

  lemma BodySends(scope: Scope, h: Http, r: Reply, m: AppMessage, p: Phase)
    requires IsBody(m) && h.state == Responding && h.response == Some(r.status) && h.trailersExpected == r.trailers
    requires p == Replying || p == Ended || p == Over || p == Quit
    ensures var (h', todo, _) := Plan(scope, h, m); var ends := !m.more && !r.trailers;
      && h' == h && EndState(h.state, todo) == (if ends then Done else Responding)
      && PhaseFrom(p, Emits(todo)) ==
           if p == Replying then (if ends then Over else Replying)
           else if HasContent(scope, r, m) || ends then Broken
           else p
  {
    BodyOk(scope, h, m);
    ContentIff(scope, h, r, m);
    hide Plan, EndState, HasContent, PlanOk, Content, PhaseFrom;
    BodyPhase(p, Emits(Content(scope, h, m)), !m.more && !r.trailers, WithHeaders(m));
  }

  /** The application's end: the close, unless the stream is closed already. */
  lemma FinishAgrees(scope: Scope, g: Stage, l: Live)
    requires Agrees(scope, g, l) && Enabled(l, App(Finished)) && Closes(l)
    ensures Agrees(scope, Next(scope, g, Finished), Step(scope, l, App(Finished)))
  {
    var p := PhaseOf(Out(l));
    Sent(scope, l, Finished);
    FinishedOk(scope, l.h);
    LatePhases(false);
    ShortPhases(0, false);
    BrokenStays([StreamClosed]);
    BrokenStays([Response(500), EndBody(false), StreamClosed]);
    if p != Broken {
      OpenPhase(Out(l));
    }
    hide Plan, Step, EndState, PhaseFrom, PlanOk;
  }

  lemma StartAgrees(scope: Scope, g: Stage, l: Live, m: AppMessage)
    requires Agrees(scope, g, l) && Enabled(l, App(m)) && m.Start?
    ensures Agrees(scope, Next(scope, g, m), Step(scope, l, App(m)))
  {
    var p := PhaseOf(Out(l));
    Sent(scope, l, m);
    StartOk(scope, l.h, m);
    LatePhases(false);
    ShortPhases(m.status, false);
    BrokenStays([Response(m.status)]);
    hide Plan, Step, EndState, PhaseFrom, PlanOk;
  }

  /** Messages that are not accepted in the state, and pushes and hints. */
  lemma OtherAgrees(scope: Scope, g: Stage, l: Live, m: AppMessage)
    requires Agrees(scope, g, l) && Enabled(l, App(m)) && m != Finished && !m.Start?
    requires IsBody(m) || m.Trailers? ==> g == Unstarted || g == Gone
    ensures Agrees(scope, Next(scope, g, m), Step(scope, l, App(m)))
  {
    var p := PhaseOf(Out(l));
    Sent(scope, l, m);
    if m.Trailers? {
      assert Plan(scope, l.h, m).1 == [];
    } else {
      OtherEmits(scope, l.h, m);
    }
    LatePhases(false);
    ShortPhases(0, false);
    hide Plan, Step, EndState, PhaseFrom, PlanOk;
  }

  lemma MessageAgrees(scope: Scope, g: Stage, l: Live, m: AppMessage)
    requires Agrees(scope, g, l) && Enabled(l, App(m)) && Closes(l)
    ensures Agrees(scope, Next(scope, g, m), Step(scope, l, App(m)))
  {
    hide Agrees, Step, Enabled;
    if g == Spoilt {
      SpoiltStays(scope, l, m);
    } else if m == Finished {
      FinishAgrees(scope, g, l);
    } else if m.Start? {
      StartAgrees(scope, g, l, m);
    } else if g.Open? || g.BodyEnded? || g.ShutOff? {
      if m.Trailers? {
        TrailersAgree(scope, g, l, m);
      } else if IsBody(m) {
        BodyAgrees(scope, g, l, m);
      } else {
        OtherAgrees(scope, g, l, m);
      }
    } else {
      OtherAgrees(scope, g, l, m);
    }
  }

  lemma SpoiltStays(scope: Scope, l: Live, m: AppMessage)
    requires Agrees(scope, Spoilt, l) && Enabled(l, App(m))
    ensures Agrees(scope, Spoilt, Step(scope, l, App(m)))
  {
    Sent(scope, l, m);
    BrokenStays(Emits(Plan(scope, l.h, m).1));
  }

  lemma StepAgrees(scope: Scope, l: Live, a: Action)
    requires Inv(l) && Enabled(l, a) && Agrees(scope, StageOf(scope, l.sent), l)
    ensures var l' := Step(scope, l, a); Agrees(scope, StageOf(scope, l'.sent), l')
  {
    var l' := Step(scope, l, a);
    match a
    case App(m) =>
      MessageAgrees(scope, StageOf(scope, l.sent), l, m);
      assert l'.sent == l.sent + [m];
      assert l'.sent[..|l'.sent| - 1] == l.sent;
      hide Agrees, Next;
    case Go =>
      hide StageOf, PhaseFrom, Out, Final;
      GoKeepsOut(scope, l);
      assert l'.sent == l.sent && l'.finished == l.finished;
      assert l'.h.response == l.h.response && l'.h.trailersExpected == l.h.trailersExpected;
      hide Step;
    case Client(_) =>
      assert Out(l') == Out(l) && Final(l') == Final(l) && l'.sent == l.sent;
      hide StageOf, PhaseFrom, Out, Final;
  }

  lemma {:induction false} RunAgrees(scope: Scope, l: Live, run: seq<Action>)
    requires Inv(l) && Legal(scope, l, run) && Agrees(scope, StageOf(scope, l.sent), l)
    ensures var l' := Run(scope, l, run); Agrees(scope, StageOf(scope, l'.sent), l')
    decreases |run|
  {
    hide Inv, Step, Agrees, Enabled;
    if run != [] {
      StepKeeps(scope, l, run[0]);
      StepAgrees(scope, l, run[0]);
      RunAgrees(scope, Step(scope, l, run[0]), run[1..]);
    }
  }

  lemma ReachedAgrees(scope: Scope, l: Live, run: seq<Action>)
    requires Reached(scope, l, run)
    ensures Inv(l) && Agrees(scope, StageOf(scope, l.sent), l)
  {
    NewOk();
    assert Agrees(scope, Unstarted, NEW);
    RunAgrees(scope, NEW, run);
    HttpTheorems.ReachedInv(scope, l, run);
  }

  // ---------------------------------------------------------------------------
  // Access records

  /** A stream that was closed early, and not by the client, does not finish its response. */
  ghost predicate ClosedUnfinished(g: Stage, l: Live) {
    l.early && !l.clientClosed && g != Spoilt ==> Final(l) != Done
  }

  lemma MessageUnfinished(scope: Scope, g: Stage, l: Live, m: AppMessage)
    requires Closes(l) && Logged(l) && Agrees(scope, g, l) && ClosedUnfinished(g, l) && Enabled(l, App(m))
    ensures ClosedUnfinished(Next(scope, g, m), Step(scope, l, App(m)))
  {
    var l' := Step(scope, l, App(m));
    Sent(scope, l, m);
    MessageAgrees(scope, g, l, m);
    if l.early && !l.clientClosed && Next(scope, g, m) != Spoilt {
      assert StreamClosed in Out(l) && l.h.closed;
      OpenPhase(Out(l));
      if m == Finished {
        FinishedOk(scope, l.h);
      } else if m.Start? {
        StartOk(scope, l.h, m);
      } else if IsBody(m) && l.h.state == Responding && l.h.response.Some? {
        BodyOk(scope, l.h, m);
      } else if m.Trailers? && l.h.state == Responding {
        TrailersSend(scope, l.h, m);
      } else {
        OtherShape(scope, l.h, m);
        SendsOnly(l.h.state, Plan(scope, l.h, m).1);
      }
      hide Plan, EndState, PhaseFrom, PlanOk, Content, TrailerEvents;
    }
  }

  lemma StepUnfinished(scope: Scope, l: Live, a: Action)
    requires Inv(l) && Enabled(l, a) && Agrees(scope, StageOf(scope, l.sent), l)
    requires ClosedUnfinished(StageOf(scope, l.sent), l)
    ensures var l' := Step(scope, l, a); ClosedUnfinished(StageOf(scope, l'.sent), l')
  {
    var l' := Step(scope, l, a);
    match a
    case App(m) =>
      MessageUnfinished(scope, StageOf(scope, l.sent), l, m);
      assert l'.sent == l.sent + [m];
      assert l'.sent[..|l'.sent| - 1] == l.sent;
      hide ClosedUnfinished, Next;
    case Go =>
      GoKeepsOut(scope, l);
      if l.todo[0] == Emit(StreamClosed) {
        assert |l.todo| == 1 && l'.todo == [];
      }
      hide StageOf;
    case Client(_) => hide StageOf;
  }

  lemma {:induction false} RunUnfinished(scope: Scope, l: Live, run: seq<Action>)
    requires Inv(l) && Legal(scope, l, run) && Agrees(scope, StageOf(scope, l.sent), l)
    requires ClosedUnfinished(StageOf(scope, l.sent), l)
    ensures var l' := Run(scope, l, run); ClosedUnfinished(StageOf(scope, l'.sent), l')
    decreases |run|
  {
    hide Inv, Step, Agrees, Enabled, ClosedUnfinished;
    if run != [] {
      StepKeeps(scope, l, run[0]);
      StepAgrees(scope, l, run[0]);
      StepUnfinished(scope, l, run[0]);
      RunUnfinished(scope, Step(scope, l, run[0]), run[1..]);
    }
  }

  // ---------------------------------------------------------------------------
  // Results

  /** In every run the output of the messages so far keeps the grammar if and only if they
      do not spoil it. */
  lemma GrammarIff(scope: Scope, l: Live, run: seq<Action>)
    requires Reached(scope, l, run)
    ensures PhaseOf(Out(l)) != Broken <==> StageOf(scope, l.sent) != Spoilt
    ensures StageOf(scope, l.sent) != Spoilt ==> PhaseOf(l.h.out) != Broken
  {
    ReachedAgrees(scope, l, run);
    if StageOf(scope, l.sent) != Spoilt {
      PrefixUnbroken(l.h.out, Emits(l.todo));
    }
  }

  /** Without trailer messages nothing is spoilt. */
  lemma {:induction false} TrailersSpoil(scope: Scope, ms: seq<AppMessage>)
    requires TrailersFree(ms)
    ensures var g := StageOf(scope, ms); g == Unstarted || g.Open? || g == Gone
  {
    if ms != [] {
      assert ms[|ms| - 1] in ms;
      TrailersSpoil(scope, ms[..|ms| - 1]);
    }
  }

  /** After the application's end, if the client had not closed first, the output is
      complete, with one response, one close and one access record, if and only if its
      messages did not spoil it. */
  lemma CompleteIff(scope: Scope, l: Live, run: seq<Action>)
    requires Reached(scope, l, run) && l.finished && l.todo == [] && !l.clientClosed
    ensures PhaseOf(l.h.out) == Over || PhaseOf(l.h.out) == Quit <==> StageOf(scope, l.sent) != Spoilt
    ensures StageOf(scope, l.sent) != Spoilt ==>
      CountResponses(l.h.out) == 1 && CountClosed(l.h.out) == 1 && |l.h.log| == 1
  {
    ReachedAgrees(scope, l, run);
    NewOk();
    RunUnfinished(scope, NEW, run);
    AccessRecords(scope, l, run);
    assert Out(l) == l.h.out && StreamClosed in l.h.out;
    if PhaseOf(l.h.out) != Broken {
      OpenPhase(l.h.out);
      PhaseCounts(Opening, l.h.out);
    }
  }
}
