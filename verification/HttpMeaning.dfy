/** What the messages of an application mean, told from the messages alone: which events each
    one adds to the output. Every run sends exactly that. */
module HttpMeaning {
  import opened Bytes
  import opened StreamEvents
  import opened HttpStreams
  import opened HttpRuns
  import HttpTheorems
  import HttpTrailers
  import HttpAnswers

  // ---------------------------------------------------------------------------
  // Meaning

  /** Methods and statuses whose responses have no body. */
  predicate Bodiless(verb: string, status: int) {
    verb == "HEAD" || (100 <= status <= 199) || status == 204 || status == 304
  }

  /** The first valid start: the response's status and whether it announces trailers. */
  function StartOf(ms: seq<AppMessage>): Option<(int, bool)> {
    if ms == [] then None
    else
      var before, last := StartOf(ms[..|ms| - 1]), ms[|ms| - 1];
      if before.Some? then before
      else if last.Start? && last.valid then Some((last.status, last.trailers))
      else None
  }

  /** A last part was accepted: the response announced no trailers. */
  predicate Ended(ms: seq<AppMessage>) {
    ms != [] &&
    var before, last := ms[..|ms| - 1], ms[|ms| - 1];
    Ended(before) || (IsBody(last) && !last.more && StartOf(before).Some? && !StartOf(before).value.1)
  }

  function FileBodies(chunks: seq<Bytes>): seq<StreamEvent> {
    if chunks == [] || chunks[0] == [] then [] else [Body(chunks[0], false)] + FileBodies(chunks[1..])
  }

  function ContentOf(scope: Scope, m: AppMessage): seq<StreamEvent> {
    match m
    case BodyPart(data, _, flush, _) => if data == [] then [] else [Body(data, flush)]
    case ZeroCopy(hasFile, _, _) => if hasFile then [ZeroCopySend] else []
    case PathSend(found, chunks, _) =>
      if !found then [] else if scope.sendfile then [ZeroCopySend] else FileBodies(chunks)
    case _ => []
  }

  function TrailersOf(scope: Scope, valid: bool, more: bool): seq<StreamEvent> {
    if scope.acceptsTrailers && !valid then []
    else
      (if scope.acceptsTrailers then [TrailerHeadersSend(!more)]
       else if scope.version == V11 then [EndBody(false)]
       else [])
      + (if more then []
         else if scope.version == V2 || scope.version == V3 then [EndBody(false), StreamClosed]
         else [StreamClosed])
  }

  /** What message `m` adds after the messages `before`. */
  function Adds(scope: Scope, before: seq<AppMessage>, m: AppMessage): seq<StreamEvent> {
    var start := StartOf(before);
    var answering := start.Some? && !Ended(before);
    var modern := scope.version == V2 || scope.version == V3;
    match m
    case Start(valid, status, _) => if start == None && valid then [Response(status)] else []
    case Push(valid) => if modern && valid then [ServerPush] else []
    case EarlyHint => if modern && start == None then [InformationalResponse(103)] else []
    case Trailers(valid, more) => if answering then TrailersOf(scope, valid, more) else []
    case Unknown => []
    case Finished => []
    case _ =>
      if !answering then []
      else
        (if Bodiless(scope.verb, start.value.0) then [] else ContentOf(scope, m))
        + (if m.more || start.value.1 then [] else [EndBody(WithHeaders(m)), StreamClosed])
  }

  function Meaning(scope: Scope, ms: seq<AppMessage>): seq<StreamEvent> {
    if ms == [] then []
    else Meaning(scope, ms[..|ms| - 1]) + Adds(scope, ms[..|ms| - 1], ms[|ms| - 1])
  }

  /** What the end of the application adds: an error response when it had not answered, and
      the close of the stream. */
  function EndAdds(ms: seq<AppMessage>): seq<StreamEvent> {
    (if StartOf(ms) == None then [Response(500), EndBody(false)] else []) + [StreamClosed]
  }

  // ---------------------------------------------------------------------------
  // What every run keeps

  ghost predicate StateFits(l: Live) {
    var start := StartOf(l.sent);
    && Final(l) == (if start == None then Requested else if Ended(l.sent) then Done else Responding)
    && (start.Some? ==> l.h.response == Some(start.value.0) && l.h.trailersExpected == start.value.1)
  }

  ghost predicate Means(scope: Scope, l: Live) {
    if !l.finished then Out(l) == Meaning(scope, l.sent) && StateFits(l) && Finished !in l.sent
    else
      && l.sent != [] && l.sent[|l.sent| - 1] == Finished
      && var before := l.sent[..|l.sent| - 1]; var meant := Meaning(scope, before);
         && (Out(l) == meant || Out(l) == meant + EndAdds(before))
         && (!l.clientClosed ==> Out(l) == meant + if StreamClosed in meant then [] else EndAdds(before))
  }

  lemma Snoc(scope: Scope, ms: seq<AppMessage>, m: AppMessage)
    ensures Meaning(scope, ms + [m]) == Meaning(scope, ms) + Adds(scope, ms, m)
    ensures StartOf(ms + [m]) ==
      if StartOf(ms) == None && m.Start? && m.valid then Some((m.status, m.trailers)) else StartOf(ms)
    ensures Ended(ms + [m]) <==>
      Ended(ms) || (IsBody(m) && !m.more && StartOf(ms).Some? && !StartOf(ms).value.1)
  {
    assert (ms + [m])[..|ms|] == ms;
  }

  lemma {:induction false} FileEmits(chunks: seq<Bytes>)
    ensures Emits(EmitBodies(Reads(chunks), false)) == FileBodies(chunks)
  {
    var parts := Reads(chunks);
    if parts != [] {
      FileEmits(chunks[1..]);
      assert parts[1..] == Reads(chunks[1..]);
      assert EmitBodies(parts, false)[1..] == EmitBodies(parts[1..], false);
    }
  }

  lemma ContentMeans(scope: Scope, h: Http, m: AppMessage)
    requires IsBody(m) && h.response.Some?
    ensures Emits(Content(scope, h, m)) == if Bodiless(scope.verb, h.response.value) then [] else ContentOf(scope, m)
  {
    match m
    case BodyPart(data, _, flush, _) => OneEmit(Body(data, flush));
    case ZeroCopy(_, _, _) => OneEmit(ZeroCopySend);
    case PathSend(_, chunks, _) =>
      OneEmit(ZeroCopySend);
      FileEmits(chunks);
      hide Reads, EmitBodies, FileBodies;
  }

  lemma OneEmit(e: StreamEvent)
    ensures Emits([Emit(e)]) == [e] && Emits([]) == []
  {
    assert [Emit(e)][1..] == [];
  }

  /** One message, in the state its history leads to. */
  lemma MessageMeans(scope: Scope, h: Http, ms: seq<AppMessage>, m: AppMessage)
    requires m != Finished
    requires h.state == (if StartOf(ms) == None then Requested else if Ended(ms) then Done else Responding)
    requires StartOf(ms).Some? ==> h.response == Some(StartOf(ms).value.0) && h.trailersExpected == StartOf(ms).value.1
    requires Ended(ms) ==> StartOf(ms).Some?
    ensures var (h', todo, _) := Plan(scope, h, m);
      && Emits(todo) == Adds(scope, ms, m)
      && EndState(h'.state, todo) ==
           (if StartOf(ms + [m]) == None then Requested else if Ended(ms + [m]) then Done else Responding)
      && (StartOf(ms + [m]).Some? ==>
            && h'.response == Some(StartOf(ms + [m]).value.0)
            && h'.trailersExpected == StartOf(ms + [m]).value.1)
  {
    Snoc(scope, ms, m);
    var start := StartOf(ms);
    if m.Start? {
      StartOk(scope, h, m);
      hide Plan, EndState, Ended, StartOf;
    } else if IsBody(m) && h.state == Responding {
      BodyOk(scope, h, m);
      ContentMeans(scope, h, m);
      hide Plan, EndState, Ended, StartOf, Content, ContentOf, Bodiless;
    } else if m.Trailers? && h.state == Responding {
      HttpTrailers.TrailersSend(scope, h, m);
      assert HttpTrailers.TrailerEvents(scope, m) == TrailersOf(scope, true, m.more);
      hide Plan, EndState, Ended, StartOf;
    } else {
      OneEmit(ServerPush);
      OneEmit(InformationalResponse(103));
      SendsOnly(h.state, [Emit(ServerPush)]);
      SendsOnly(h.state, [Emit(InformationalResponse(103))]);
      hide Ended, StartOf;
    }
  }

  lemma {:induction false} EndedStarted(ms: seq<AppMessage>)
    ensures Ended(ms) ==> StartOf(ms).Some?
  {
    if ms != [] {
      EndedStarted(ms[..|ms| - 1]);
    }
  }

  lemma MessageStep(scope: Scope, l: Live, m: AppMessage)
    requires Means(scope, l) && Enabled(l, App(m)) && m != Finished
    ensures Means(scope, Step(scope, l, App(m)))
  {
    var l' := Step(scope, l, App(m));
    HttpTrailers.Sent(scope, l, m);
    assert l'.sent == l.sent + [m] && !l'.finished;
    hide Step, Out, Meaning, Plan, EndState, Final;
    Snoc(scope, l.sent, m);
    EndedStarted(l.sent);
    MessageMeans(scope, l.h, l.sent, m);
    hide StartOf, Ended, Adds;
  }

  lemma FinishStep(scope: Scope, l: Live)
    requires Means(scope, l) && Closes(l) && Enabled(l, App(Finished))
    ensures Means(scope, Step(scope, l, App(Finished)))
  {
    var l' := Step(scope, l, App(Finished));
    HttpTrailers.Sent(scope, l, Finished);
    FinishedOk(scope, l.h);
    assert l'.sent == l.sent + [Finished] && l'.finished && l'.clientClosed == l.clientClosed;
    assert l.h.closed ==> l.clientClosed || StreamClosed in l.h.out;
    assert StreamClosed in l.h.out ==> l.h.closed;
    hide Step, Out, Meaning, Plan, EndState, Final, Closes, StartOf, Ended, PlanOk;
    assert l'.sent[..|l'.sent| - 1] == l.sent;
    assert Out(l) + [] == Out(l);
  }

  lemma SameMeans(scope: Scope, l: Live, l': Live)
    requires Means(scope, l) && Out(l') == Out(l) && Final(l') == Final(l)
    requires l'.sent == l.sent && l'.finished == l.finished && (l.clientClosed ==> l'.clientClosed)
    requires l'.h.response == l.h.response && l'.h.trailersExpected == l.h.trailersExpected
    ensures Means(scope, l')
  {
    hide Meaning, StartOf, Ended, Out, Final;
  }

  lemma StepMeans(scope: Scope, l: Live, a: Action)
    requires Means(scope, l) && Closes(l) && Enabled(l, a)
    ensures Means(scope, Step(scope, l, a))
  {
    hide Means, Closes;
    match a
    case App(m) =>
      if m == Finished {
        FinishStep(scope, l);
      } else {
        MessageStep(scope, l, m);
      }
    case Go =>
      GoKeepsOut(scope, l);
      hide Out, Final;
      SameMeans(scope, l, Step(scope, l, Go));
    case Client(_) =>
      var l' := Step(scope, l, a);
      assert Out(l') == Out(l) && Final(l') == Final(l);
      hide Out, Final;
      SameMeans(scope, l, l');
  }

  lemma {:induction false} RunMeans(scope: Scope, l: Live, run: seq<Action>)
    requires Means(scope, l) && Inv(l) && Legal(scope, l, run)
    ensures Means(scope, Run(scope, l, run))
    decreases |run|
  {
    if run != [] {
      assert Closes(l);
      hide Inv, Step, Means, Enabled, Closes;
      StepKeeps(scope, l, run[0]);
      StepMeans(scope, l, run[0]);
      RunMeans(scope, Step(scope, l, run[0]), run[1..]);
    }
  }

  // ---------------------------------------------------------------------------
  // Results

  /** In every run, whatever the client does, the output is what the messages mean; when the
      application has ended, and the client did not close first, its end is added unless the
      stream was closed already. */
  lemma OutputIsMeaning(scope: Scope, l: Live, run: seq<Action>)
    requires Reached(scope, l, run) && l.todo == []
    ensures !l.finished ==> l.h.out == Meaning(scope, l.sent)
    ensures l.finished ==> l.sent != [] && var before := l.sent[..|l.sent| - 1]; var meant := Meaning(scope, before);
      && (l.h.out == meant || l.h.out == meant + EndAdds(before))
      && (!l.clientClosed ==> l.h.out == meant + if StreamClosed in meant then [] else EndAdds(before))
  {
    NewOk();
    RunMeans(scope, NEW, run);
    assert Out(l) == l.h.out;
  }

  predicate IsContent(e: StreamEvent) { e.Body? || e.ZeroCopySend? }

  lemma {:induction false} BodilessMeaning(scope: Scope, ms: seq<AppMessage>)
    requires scope.verb == "HEAD" || (StartOf(ms).Some? && Bodiless(scope.verb, StartOf(ms).value.0))
    ensures forall e <- Meaning(scope, ms) :: !IsContent(e)
  {
    if ms != [] {
      var before, last := ms[..|ms| - 1], ms[|ms| - 1];
      if scope.verb == "HEAD" || StartOf(before).Some? {
        BodilessMeaning(scope, before);
      } else {
        NothingBeforeStart(scope, before);
      }
      assert ms == before + [last];
      Snoc(scope, before, last);
      assert forall e <- Adds(scope, before, last) :: !IsContent(e);
    }
  }

  lemma {:induction false} NothingBeforeStart(scope: Scope, ms: seq<AppMessage>)
    requires StartOf(ms) == None
    ensures forall e <- Meaning(scope, ms) :: !IsContent(e) && !e.Response?
  {
    if ms != [] {
      NothingBeforeStart(scope, ms[..|ms| - 1]);
      assert ms == ms[..|ms| - 1] + [ms[|ms| - 1]];
    }
  }

  lemma {:induction false} ResponseStarts(scope: Scope, ms: seq<AppMessage>)
    ensures forall e <- Meaning(scope, ms) :: e.Response? ==> StartOf(ms).Some? && e.status == StartOf(ms).value.0
  {
    if ms != [] {
      ResponseStarts(scope, ms[..|ms| - 1]);
      NothingOrStart(scope, ms);
    }
  }

  lemma NothingOrStart(scope: Scope, ms: seq<AppMessage>)
    requires ms != []
    ensures var before, last := ms[..|ms| - 1], ms[|ms| - 1];
      forall e <- Adds(scope, before, last) :: e.Response? ==>
        StartOf(ms) == Some((e.status, last.Start? && last.trailers))
  {
    if !ms[|ms| - 1].Start? {
      AddsNoResponse(scope, ms[..|ms| - 1], ms[|ms| - 1]);
      hide Adds;
    }
  }

  lemma {:induction false} FilesAreContent(chunks: seq<Bytes>)
    ensures forall e <- FileBodies(chunks) :: IsContent(e)
  {
    if chunks != [] && chunks[0] != [] {
      FilesAreContent(chunks[1..]);
    }
  }

  lemma AddsNoResponse(scope: Scope, before: seq<AppMessage>, m: AppMessage)
    requires !m.Start?
    ensures forall e <- Adds(scope, before, m) :: !e.Response?
  {
    hide StartOf, Ended, Bodiless;
    if m.PathSend? {
      FilesAreContent(m.chunks);
    }
    assert forall e <- ContentOf(scope, m) :: IsContent(e);
    hide FileBodies;
  }

  /** A response to HEAD, or with an informational status, 204 or 304, has no body: in no run
      is there any content in its output. */
  lemma NoBodySent(scope: Scope, l: Live, run: seq<Action>)
    requires Reached(scope, l, run)
    requires scope.verb == "HEAD" ||
      exists e <- l.h.out :: e.Response? && (100 <= e.status < 200 || e.status == 204 || e.status == 304)
    ensures forall e <- l.h.out :: !e.Body? && !e.ZeroCopySend?
  {
    NewOk();
    RunMeans(scope, NEW, run);
    var ms := if l.finished then l.sent[..|l.sent| - 1] else l.sent;
    OutMeans(scope, l, ms);
    hide *;
    NoBodyMeant(scope, ms);
  }

  lemma OutMeans(scope: Scope, l: Live, ms: seq<AppMessage>)
    requires Means(scope, l) && ms == if l.finished then l.sent[..|l.sent| - 1] else l.sent
    ensures forall e <- l.h.out ::
      e in Meaning(scope, ms) || (!e.Body? && !e.ZeroCopySend? && (e.Response? ==> e.status == 500))
  {
    hide Meaning, StartOf, StateFits, Emits;
    assert forall e <- l.h.out :: e in Out(l);
    assert forall e <- EndAdds(ms) :: !e.Body? && !e.ZeroCopySend? && (e.Response? ==> e.status == 500);
  }

  lemma NoBodyMeant(scope: Scope, ms: seq<AppMessage>)
    ensures var meant := Meaning(scope, ms);
      (scope.verb == "HEAD"
       || exists e <- meant :: e.Response? && (100 <= e.status < 200 || e.status == 204 || e.status == 304)) ==>
      forall e <- meant :: !e.Body? && !e.ZeroCopySend?
  {
    ResponseStarts(scope, ms);
    if scope.verb == "HEAD" || (StartOf(ms).Some? && Bodiless(scope.verb, StartOf(ms).value.0)) {
      BodilessMeaning(scope, ms);
    }
  }
}
