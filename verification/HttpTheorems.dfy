/** The results about `HTTPStream`, for every run. */
module HttpTheorems {
  import opened Bytes
  import opened StreamEvents
  import opened HttpStreams
  import opened HttpRuns

  lemma ReachedInv(scope: Scope, l: Live, run: seq<Action>)
    requires Reached(scope, l, run)
    ensures Inv(l)
  {
    hide Inv;
    NewOk();
    RunKeeps(scope, NEW, run);
  }

  /** Without trailers the output follows the grammar in every state of every run. */
  lemma OutputGrammar(scope: Scope, l: Live, run: seq<Action>)
    requires Reached(scope, l, run) && TrailersFree(l.sent)
    ensures PhaseOf(l.h.out) != Broken
  {
    ReachedInv(scope, l, run);
    PrefixUnbroken(l.h.out, Emits(l.todo));
  }

  /** So does the output with the rest of the current message. */
  lemma WholeGrammar(scope: Scope, l: Live, run: seq<Action>)
    requires Reached(scope, l, run) && TrailersFree(l.sent)
    ensures PhaseOf(Out(l)) != Broken
  {
    ReachedInv(scope, l, run);
  }

  /** Once the application has finished, and the client did not go away first, there is
      exactly one response, one close and one access record, and the output is complete. */
  lemma FinishedExactlyOnce(scope: Scope, l: Live, run: seq<Action>)
    requires Reached(scope, l, run) && TrailersFree(l.sent)
    requires l.finished && l.todo == [] && !l.clientClosed
    ensures PhaseOf(l.h.out) == Over || PhaseOf(l.h.out) == Quit
    ensures CountResponses(l.h.out) == 1 && CountClosed(l.h.out) == 1 && |l.h.log| == 1
  {
    ReachedInv(scope, l, run);
    assert Out(l) == l.h.out;
    OpenPhase(l.h.out);
    PhaseCounts(Opening, l.h.out);
  }

  /** Trailers or not: once the application has finished there are one or two access records,
      and two exactly when the stream was closed early and the response was finished anyway. */
  lemma AccessRecords(scope: Scope, l: Live, run: seq<Action>)
    requires Reached(scope, l, run) && l.finished && l.todo == []
    ensures |l.h.log| == if l.early && l.h.state == Done then 2 else 1
  {
    ReachedInv(scope, l, run);
  }

  /** The application gets at most one disconnect, and nothing after it; it has it exactly
      when the stream is closed. */
  lemma OneDisconnect(scope: Scope, l: Live, run: seq<Action>)
    requires Reached(scope, l, run)
    ensures l.h.closed <==> HttpDisconnect in l.h.toApp
    ensures forall i :: 0 <= i < |l.h.toApp| - 1 ==> l.h.toApp[i] != HttpDisconnect
  {
    ReachedInv(scope, l, run);
    if l.h.closed {
      assert l.h.toApp[|l.h.toApp| - 1] == HttpDisconnect;
    }
  }

  // ---------------------------------------------------------------------------
  // Body bytes

  /** The body an application asks for: the parts after the first valid start, up to the
      first that is final, or nothing when the method or status has no body. */
  function AppBody(scope: Scope, ms: seq<AppMessage>): Bytes {
    if ms == [] || ms[0] == Finished then []
    else if ms[0].Start? && ms[0].valid then
      if SuppressBody(scope.verb, ms[0].status) then [] else Parts(scope, ms[0].trailers, ms[1..])
    else AppBody(scope, ms[1..])
  }

  function Parts(scope: Scope, trailers: bool, ms: seq<AppMessage>): Bytes {
    if ms == [] || ms[0] == Finished then []
    else if IsBody(ms[0]) then
      PartBytes(scope, ms[0]) + if ms[0].more || trailers then Parts(scope, trailers, ms[1..]) else []
    else Parts(scope, trailers, ms[1..])
  }

  function PartBytes(scope: Scope, m: AppMessage): Bytes {
    match m
    case BodyPart(data, _, _, _) => data
    case PathSend(found, chunks, _) => if found && !scope.sendfile then Concat(Reads(chunks)) else []
    case _ => []
  }

  /** The body still to come when the messages `ms` follow in stream state `l`. */
  function Rest(scope: Scope, l: Live, ms: seq<AppMessage>): Bytes {
    if l.finished then []
    else
      match Final(l)
      case Requested => AppBody(scope, ms)
      case Responding =>
        if l.h.response.Some? && SuppressBody(scope.verb, l.h.response.value) then []
        else Parts(scope, l.h.trailersExpected, ms)
      case Done => []
  }

  function Messages(run: seq<Action>): seq<AppMessage> {
    if run == [] then [] else MessageOf(run[0]) + Messages(run[1..])
  }

  lemma {:induction false} NoBodyBytes(es: seq<StreamEvent>)
    requires forall e <- es :: BodyBytes(e) == []
    ensures AllBodyBytes(es) == []
  {
    if es != [] {
      assert es[|es| - 1] in es;
      NoBodyBytes(es[..|es| - 1]);
    }
  }

  lemma {:induction false} ChunksBytes(chunks: seq<Bytes>, flush: bool)
    ensures AllBodyBytes(Emits(EmitBodies(chunks, flush))) == Concat(chunks)
  {
    var todo := EmitBodies(chunks, flush);
    SendsOnly(Requested, todo);
    if chunks != [] {
      var n := |chunks| - 1;
      ChunksBytes(chunks[..n], flush);
      SendsOnly(Requested, EmitBodies(chunks[..n], flush));
      assert Emits(todo)[..n] == Emits(EmitBodies(chunks[..n], flush));
      ConcatSnoc(chunks[..n], chunks[n]);
      assert chunks == chunks[..n] + [chunks[n]];
    }
  }

  lemma ContentBytes(scope: Scope, h: Http, m: AppMessage)
    requires IsBody(m) && h.response.Some?
    ensures AllBodyBytes(Emits(Content(scope, h, m))) ==
      if SuppressBody(scope.verb, h.response.value) then [] else PartBytes(scope, m)
  {
    hide AllBodyBytes, Emits;
    match m
    case BodyPart(data, _, flush, _) => ChunkBytes(Body(data, flush));
    case ZeroCopy(_, _, _) => ChunkBytes(ZeroCopySend);
    case PathSend(_, chunks, _) => ChunkBytes(ZeroCopySend); ChunksBytes(Reads(chunks), false);
  }

  lemma ChunkBytes(e: StreamEvent)
    ensures AllBodyBytes(Emits([Emit(e)])) == BodyBytes(e)
    ensures Emits([]) == [] && AllBodyBytes([]) == []
  {
    SendsOnly(Requested, [Emit(e)]);
    assert Emits([Emit(e)]) == [e];
    assert [e][..0] == [];
  }

  /** A stream that replies has stored its response. */
  ghost predicate Responds(l: Live) {
    Final(l) == Responding ==> l.h.response.Some?
  }

  lemma GoBytes(scope: Scope, l: Live, a: Action, ms: seq<AppMessage>)
    requires Enabled(l, a) && !a.App? && Responds(l)
    ensures var l' := Step(scope, l, a);
      && Out(l') == Out(l) && Rest(scope, l', ms) == Rest(scope, l, ms) && Responds(l') && l'.sent == l.sent
  {
    if a == Go {
      GoKeepsOut(scope, l);
    }
  }

  /** Messages without body, and body messages out of turn, send no body bytes. */
  lemma QuietBytes(scope: Scope, h: Http, m: AppMessage)
    requires m != Finished && !m.Start? && !(IsBody(m) && h.state == Responding)
    ensures var (h', todo, _) := Plan(scope, h, m);
      h' == h && EndState(h.state, todo) == h.state && AllBodyBytes(Emits(todo)) == []
  {
    var todo := Plan(scope, h, m).1;
    OtherShape(scope, h, m);
    assert forall x <- todo :: BodyBytes(x.e) == [];
    hide Plan;
    SendsOnly(h.state, todo);
    assert forall i :: 0 <= i < |todo| ==> todo[i] in todo;
    NoBodyBytes(Emits(todo));
  }

  /** The body bytes a message adds to the output. */
  function Added(scope: Scope, l: Live, m: AppMessage): Bytes {
    if IsBody(m) && l.h.state == Responding && l.h.response.Some? && !SuppressBody(scope.verb, l.h.response.value)
    then PartBytes(scope, m) else []
  }

  lemma AddedOutput(scope: Scope, l: Live, m: AppMessage)
    requires Enabled(l, App(m)) && Responds(l)
    ensures var l' := Step(scope, l, App(m));
      AllBodyBytes(Out(l')) == AllBodyBytes(Out(l)) + Added(scope, l, m)
  {
    var h, todo := l.h, Plan(scope, l.h, m).1;
    AddedBytes(scope, l, m);
    hide Added, EndState, AllBodyBytes;
    assert l.todo == [] && Out(l) == h.out;
    assert Out(Step(scope, l, App(m))) == h.out + Emits(todo) by {
      PlanKeepsOut(scope, h, m);
    }
    hide Plan, Out, Step, Responds;
    AllBodyBytesConcat(h.out, Emits(todo));
  }

  lemma PlanKeepsOut(scope: Scope, h: Http, m: AppMessage)
    ensures Plan(scope, h, m).0.out == h.out
  {
  }

  lemma AddedBytes(scope: Scope, l: Live, m: AppMessage)
    requires Enabled(l, App(m)) && Responds(l)
    ensures AllBodyBytes(Emits(Plan(scope, l.h, m).1)) == Added(scope, l, m)
  {
    var h := l.h;
    hide Plan, AllBodyBytes, PartBytes;
    assert Final(l) == h.state;
    if m == Finished {
      FinishedOk(scope, h);
      NoBodyBytes(Emits(Plan(scope, h, m).1));
    } else if m.Start? {
      StartOk(scope, h, m);
      NoBodyBytes(Emits(Plan(scope, h, m).1));
    } else if IsBody(m) && h.state == Responding {
      AddedByPart(scope, h, m);
    } else {
      QuietBytes(scope, h, m);
    }
  }

  lemma AddedByPart(scope: Scope, h: Http, m: AppMessage)
    requires IsBody(m) && h.state == Responding && h.response.Some?
    ensures AllBodyBytes(Emits(Plan(scope, h, m).1)) ==
      if SuppressBody(scope.verb, h.response.value) then [] else PartBytes(scope, m)
  {
    var content := Emits(Content(scope, h, m));
    var ending := if m.more || h.trailersExpected then [] else [EndBody(WithHeaders(m)), StreamClosed];
    BodyOk(scope, h, m);
    ContentBytes(scope, h, m);
    hide Plan, Content, EndState, PlanOk, PartBytes;
    AllBodyBytesConcat(content, ending);
    NoBodyBytes(ending);
  }

  lemma AddedRest(scope: Scope, l: Live, m: AppMessage, ms: seq<AppMessage>)
    requires Enabled(l, App(m)) && Responds(l)
    ensures var l' := Step(scope, l, App(m));
      Rest(scope, l, [m] + ms) == Added(scope, l, m) + Rest(scope, l', ms) && Responds(l')
  {
    var h, l' := l.h, Step(scope, l, App(m));
    assert ([m] + ms)[1..] == ms;
    assert Final(l) == h.state;
    assert Final(l') == EndState(l'.h.state, Plan(scope, h, m).1);
    if m == Finished {
      FinishedOk(scope, h);
    } else if m.Start? {
      StartOk(scope, h, m);
    } else if IsBody(m) && h.state == Responding {
      BodyOk(scope, h, m);
      hide Plan, EndState, PlanOk, PartBytes;
      assert Final(l') == if m.more || h.trailersExpected then Responding else Done;
    } else {
      QuietBytes(scope, h, m);
      hide Plan, EndState;
    }
  }

  function MessageOf(a: Action): seq<AppMessage> {
    match a case App(m) => [m] case _ => []
  }

  lemma StepBytes(scope: Scope, l: Live, a: Action, ms: seq<AppMessage>)
    requires Enabled(l, a) && Responds(l)
    ensures var l' := Step(scope, l, a);
      && AllBodyBytes(Out(l')) + Rest(scope, l', ms) == AllBodyBytes(Out(l)) + Rest(scope, l, MessageOf(a) + ms)
      && Responds(l') && l'.sent == l.sent + MessageOf(a)
  {
    if a.App? {
      AddedOutput(scope, l, a.m);
      AddedRest(scope, l, a.m, ms);
      hide Out, Rest, Responds, Added;
      Regroup(AllBodyBytes(Out(l)), Added(scope, l, a.m), Rest(scope, Step(scope, l, a), ms));
    } else {
      hide Out, Rest, Responds;
      GoBytes(scope, l, a, ms);
      assert [] + ms == ms && l.sent + [] == l.sent;
    }
  }

  lemma Regroup(a: Bytes, b: Bytes, c: Bytes)
    ensures (a + b) + c == a + (b + c)
  {
  }

  lemma NothingRest(scope: Scope, l: Live)
    ensures Rest(scope, l, []) == []
  {
  }

  lemma {:induction false} BytesRun(scope: Scope, l: Live, run: seq<Action>)
    requires Legal(scope, l, run) && Responds(l)
    ensures AllBodyBytes(Out(Run(scope, l, run))) == AllBodyBytes(Out(l)) + Rest(scope, l, Messages(run))
    ensures Run(scope, l, run).sent == l.sent + Messages(run)
    decreases |run|
  {
    hide Step, Out, Rest, Enabled, Responds, AllBodyBytes, MessageOf;
    if run != [] {
      var ms, l' := Messages(run[1..]), Step(scope, l, run[0]);
      StepBytes(scope, l, run[0], ms);
      BytesRun(scope, l', run[1..]);
      assert Messages(run) == MessageOf(run[0]) + ms && Run(scope, l, run) == Run(scope, l', run[1..]);
      hide Messages, Run, Legal;
      assert l'.sent + ms == l.sent + (MessageOf(run[0]) + ms);
    } else {
      NothingRest(scope, l);
      assert l.sent + [] == l.sent && AllBodyBytes(Out(l)) + [] == AllBodyBytes(Out(l));
    }
  }

  /** Conservation: for any messages, in any interleaving, the body bytes sent by the
      messages so far are those the application asked for. */
  lemma BodyConservation(scope: Scope, l: Live, run: seq<Action>)
    requires Reached(scope, l, run)
    ensures AllBodyBytes(Out(l)) == AppBody(scope, l.sent)
  {
    BytesRun(scope, NEW, run);
    assert NEW.sent + Messages(run) == Messages(run);
    assert AllBodyBytes(Out(NEW)) == [];
  }

  /** `AppBody` on a plain response: the parts joined, or nothing when there is no body. */
  lemma {:induction false} PlainBody(scope: Scope, status: int, parts: seq<Bytes>, flush: bool)
    requires parts != []
    ensures var n := |parts|;
      var ms := seq(n, i requires 0 <= i < n => BodyPart(parts[i], i < n - 1, flush, false));
      AppBody(scope, [Start(true, status, false)] + ms) ==
        if scope.verb == "HEAD" || 100 <= status < 200 || status == 204 || status == 304 then [] else Concat(parts)
  {
    var n := |parts|;
    var ms := seq(n, i requires 0 <= i < n => BodyPart(parts[i], i < n - 1, flush, false));
    assert ([Start(true, status, false)] + ms)[1..] == ms;
    PlainParts(scope, parts, flush, ms);
  }

  lemma {:induction false} PlainParts(scope: Scope, parts: seq<Bytes>, flush: bool, ms: seq<AppMessage>)
    requires parts != [] && |ms| == |parts|
    requires forall i :: 0 <= i < |ms| ==> ms[i] == BodyPart(parts[i], i < |parts| - 1, flush, false)
    ensures Parts(scope, false, ms) == Concat(parts)
  {
    if |parts| == 1 {
      assert parts[1..] == [];
    } else {
      PlainParts(scope, parts[1..], flush, ms[1..]);
    }
  }

  // ---------------------------------------------------------------------------
  // Trailers

  lemma {:induction false} ReachedNext(scope: Scope, l: Live, run: seq<Action>, end: Live, a: Action)
    requires Legal(scope, l, run) && end == Run(scope, l, run) && Enabled(end, a)
    ensures Legal(scope, l, run + [a]) && Run(scope, l, run + [a]) == Step(scope, end, a)
    decreases |run|
  {
    hide Step, Enabled;
    if run == [] {
      assert run + [a] == [a] && [a][1..] == [];
    } else {
      assert (run + [a])[1..] == run[1..] + [a];
      ReachedNext(scope, Step(scope, l, run[0]), run[1..], end, a);
    }
  }

  const PLAIN_SCOPE := Scope("GET", V11, false, false)
  const MORE_TRAILERS := Trailers(true, true)

  lemma TrailerStep(l: Live, run: seq<Action>)
    requires Reached(PLAIN_SCOPE, l, run) && l.todo == [] && !l.finished && l.h.state == Responding
    ensures Legal(PLAIN_SCOPE, NEW, run + [App(MORE_TRAILERS)] + [Go])
    ensures var run' := run + [App(MORE_TRAILERS)] + [Go]; var l' := Run(PLAIN_SCOPE, NEW, run');
      && Reached(PLAIN_SCOPE, l', run')
      && l'.todo == [] && !l'.finished && l'.h == l.h.(out := l.h.out + [EndBody(false)])
  {
    var l1 := Step(PLAIN_SCOPE, l, App(MORE_TRAILERS));
    ReachedNext(PLAIN_SCOPE, NEW, run, l, App(MORE_TRAILERS));
    ReachedNext(PLAIN_SCOPE, NEW, run + [App(MORE_TRAILERS)], l1, Go);
  }

  const STARTING: Action := App(Start(true, 200, true))
  const STARTED: seq<Action> := [] + [STARTING] + [Go] + [Go]

  lemma StartSteps()
    ensures Legal(PLAIN_SCOPE, NEW, STARTED)
    ensures var l := Run(PLAIN_SCOPE, NEW, STARTED);
      l.todo == [] && !l.finished && l.h.state == Responding && l.h.out == [Response(200)]
  {
    var l1 := Step(PLAIN_SCOPE, NEW, STARTING);
    ReachedNext(PLAIN_SCOPE, NEW, [], NEW, STARTING);
    ReachedNext(PLAIN_SCOPE, NEW, [] + [STARTING], l1, Go);
    var l2 := Step(PLAIN_SCOPE, l1, Go);
    ReachedNext(PLAIN_SCOPE, NEW, [] + [STARTING] + [Go], l2, Go);
  }

  lemma EndedTwice()
    ensures PhaseOf([Response(200)] + [EndBody(false)] + [EndBody(false)]) == Broken
  {
    PhaseConcat(Opening, [Response(200)] + [EndBody(false)], [EndBody(false)]);
    PhaseConcat(Opening, [Response(200)], [EndBody(false)]);
    ShortPhases(200, false);
    assert [EndBody(false)][1..] == [];
  }

  /** Two trailer messages over HTTP/1.1, without `te: trailers`, end the body twice. */
  lemma TrailersBreakGrammar()
    ensures exists l, run :: Reached(PLAIN_SCOPE, l, run) && PhaseOf(l.h.out) == Broken
  {
    hide Legal, Run, Step, PhaseOf, PhaseFrom;
    StartSteps();
    TrailerStep(Run(PLAIN_SCOPE, NEW, STARTED), STARTED);
    var once := STARTED + [App(MORE_TRAILERS)] + [Go];
    TrailerStep(Run(PLAIN_SCOPE, NEW, once), once);
    var twice := once + [App(MORE_TRAILERS)] + [Go];
    var l := Run(PLAIN_SCOPE, NEW, twice);
    EndedTwice();
    assert l.h.out == [Response(200)] + [EndBody(false)] + [EndBody(false)];
    assert Reached(PLAIN_SCOPE, l, twice);
  }
}
