/** What an `HTTPStream` puts on the application's queue and in the access log, and which
    messages it refuses, told from the history of the run. */
module HttpRecords {
  import opened Bytes
  import opened StreamEvents
  import opened HttpStreams
  import opened HttpRuns
  import HttpMeaning

  lemma {:induction false} SplitLast(scope: Scope, l: Live, run: seq<Action>)
    requires Legal(scope, l, run) && run != []
    ensures var n := |run| - 1;
      && Legal(scope, l, run[..n]) && Enabled(Run(scope, l, run[..n]), run[n])
      && Run(scope, l, run) == Step(scope, Run(scope, l, run[..n]), run[n])
    decreases |run|
  {
    hide Step, Enabled;
    var n := |run| - 1;
    if n == 0 {
      assert run[1..] == [];
    } else {
      SplitLast(scope, Step(scope, l, run[0]), run[1..]);
      assert run[1..][..n - 1] == run[..n][1..] && run[1..][n - 1] == run[n];
    }
  }

  // ---------------------------------------------------------------------------
  // The application's queue

  function Put(e: ClientEvent): seq<ToApp> {
    match e
    case ClientBody(data) => [HttpRequest(data, true)]
    case ClientEnd(withTrailers) =>
      if withTrailers then [HttpRequest([], false), RequestTrailers] else [HttpRequest([], false)]
    case ClientTrailers => [RequestTrailers]
    case ClientClosed => [HttpDisconnect]
  }

  /** The stream is closed once the client closes it, or the stream has said so itself. */
  ghost predicate ClosedBy(scope: Scope, run: seq<Action>)
    requires Legal(scope, NEW, run)
  {
    Client(ClientClosed) in run || StreamClosed in Run(scope, NEW, run).h.out
  }

  /** Every client event before the close, in order, and one disconnect for the close. */
  ghost function Queue(scope: Scope, run: seq<Action>): seq<ToApp>
    requires Legal(scope, NEW, run)
    decreases |run|
  {
    if run == [] then []
    else
      var before, last := run[..|run| - 1], run[|run| - 1];
      SplitLast(scope, NEW, run);
      if ClosedBy(scope, before) then Queue(scope, before)
      else if last.Client? then Queue(scope, before) + Put(last.e)
      else if ClosedBy(scope, run) then Queue(scope, before) + [HttpDisconnect]
      else Queue(scope, before)
  }

  /** Until its first send a message changes only what is stored about the response. */
  lemma PlanAlone(scope: Scope, h: Http, m: AppMessage)
    ensures var h' := Plan(scope, h, m).0;
      h' == h.(response := h'.response, trailersExpected := h'.trailersExpected)
  {
  }

  lemma QueueStep(scope: Scope, l: Live, a: Action)
    requires Enabled(l, a)
    ensures var h, h' := l.h, Step(scope, l, a).h;
      && (h'.closed <==>
            h.closed || a == Client(ClientClosed) || (h'.out != h.out && h'.out[|h.out|..] == [StreamClosed]))
      && (h'.out == h.out || exists e :: h'.out == h.out + [e])
      && h'.toApp ==
           (if h.closed then h.toApp else if a.Client? then h.toApp + Put(a.e)
            else if h'.closed then h.toApp + [HttpDisconnect] else h.toApp)
  {
    if a.App? {
      PlanAlone(scope, l.h, a.m);
      hide Plan;
    }
  }

  /** In every run the queue is what the history says: nothing is lost or reordered, and
      nothing comes after the close, whoever closes. */
  lemma {:induction false} QueueIsHistory(scope: Scope, run: seq<Action>)
    requires Legal(scope, NEW, run)
    ensures Run(scope, NEW, run).h.toApp == Queue(scope, run)
    ensures Run(scope, NEW, run).h.closed <==> ClosedBy(scope, run)
    decreases |run|
  {
    if run != [] {
      var before, last := run[..|run| - 1], run[|run| - 1];
      SplitLast(scope, NEW, run);
      QueueIsHistory(scope, before);
      var l, l' := Run(scope, NEW, before), Run(scope, NEW, run);
      QueueStep(scope, l, last);
      assert run == before + [last];
      hide Step, Enabled, Put;
      ClosesOnce(l.h.out, l'.h.out);
    }
  }

  lemma ClosesOnce(out: seq<StreamEvent>, out': seq<StreamEvent>)
    requires out' == out || exists e :: out' == out + [e]
    ensures StreamClosed in out' <==> StreamClosed in out || (out' != out && out'[|out|..] == [StreamClosed])
  {
    if out' != out {
      var e :| out' == out + [e];
      assert out'[|out|..] == [e];
    }
  }

  // ---------------------------------------------------------------------------
  // The access log

  /** The status an application is answered with: that of its first valid start, or 500. */
  function LoggedStatus(ms: seq<AppMessage>): int {
    if HttpMeaning.StartOf(ms).Some? then HttpMeaning.StartOf(ms).value.0 else 500
  }

  ghost predicate LogOk(l: Live) {
    && (forall x <- l.h.log :: x.Some? ==> x.value == LoggedStatus(l.sent))
    && (forall m <- l.todo :: m.Finish? ==> m.status == LoggedStatus(l.sent))
    && (None in l.h.log <==> l.early)
    && ((exists x <- l.h.log :: x.Some?) ==> HttpMeaning.StartOf(l.sent).Some? || l.finished)
    && ((exists m <- l.todo :: m.Finish?) ==> HttpMeaning.StartOf(l.sent).Some? || l.finished)
  }

  /** The records that a message plans. */
  lemma PlansStatus(scope: Scope, h: Http, m: AppMessage)
    requires h.state == Responding ==> h.response.Some?
    ensures forall x <- Plan(scope, h, m).1 :: x.Finish? ==>
      if m == Finished then h.state == Requested && x.status == 500
      else h.state == Responding && x.status == h.response.value
  {
    if m.PathSend? && h.state == Responding {
      assert forall x <- EmitBodies(Reads(m.chunks), false) :: !x.Finish?;
    }
    hide Reads, EmitBodies, SuppressBody;
  }

  lemma StepLogs(scope: Scope, l: Live, a: Action)
    requires HttpMeaning.Means(scope, l) && LogOk(l) && Enabled(l, a)
    ensures LogOk(Step(scope, l, a))
  {
    if a.App? {
      assert Final(l) == l.h.state;
      PlanAlone(scope, l.h, a.m);
      HttpMeaning.Snoc(scope, l.sent, a.m);
      PlansStatus(scope, l.h, a.m);
      hide Plan, HttpMeaning.StartOf, HttpMeaning.Ended, HttpMeaning.Meaning;
    } else {
      hide HttpMeaning.StartOf, HttpMeaning.Means;
    }
  }

  lemma {:induction false} RunLogs(scope: Scope, l: Live, run: seq<Action>)
    requires HttpMeaning.Means(scope, l) && Inv(l) && LogOk(l) && Legal(scope, l, run)
    ensures LogOk(Run(scope, l, run))
    decreases |run|
  {
    if run != [] {
      assert Closes(l) by { hide HttpMeaning.Means, LogOk; }
      hide Inv, Step, HttpMeaning.Means, Enabled, Closes, LogOk;
      StepKeeps(scope, l, run[0]);
      HttpMeaning.StepMeans(scope, l, run[0]);
      StepLogs(scope, l, run[0]);
      RunLogs(scope, Step(scope, l, run[0]), run[1..]);
    }
  }

  /** In every run an access record has the status of the application's first valid start, or
      500 when it ended without one; there is a record without a status if and only if the
      stream was closed before its response was done. */
  lemma RecordsTell(scope: Scope, l: Live, run: seq<Action>)
    requires Reached(scope, l, run)
    ensures forall x <- l.h.log :: x.Some? ==> x.value == LoggedStatus(l.sent)
    ensures None in l.h.log <==> l.early
  {
    NewOk();
    RunLogs(scope, NEW, run);
  }

  // ---------------------------------------------------------------------------
  // Refused messages

  /** The messages that come at the wrong time or are malformed: a second start, a body,
      file or trailers outside the response, a push or hint where the protocol has none. */
  predicate Refusable(scope: Scope, before: seq<AppMessage>, m: AppMessage) {
    var modern := scope.version == V2 || scope.version == V3;
    var answering := HttpMeaning.StartOf(before).Some? && !HttpMeaning.Ended(before);
    match m
    case Start(valid, _, _) => !valid || HttpMeaning.StartOf(before).Some?
    case Push(valid) => !modern || !valid
    case EarlyHint => !modern || HttpMeaning.StartOf(before).Some?
    case Trailers(valid, _) => !answering || (scope.acceptsTrailers && !valid)
    case Unknown => true
    case Finished => false
    case _ => !answering
  }

  /** In every reached state a message is refused with an exception if and only if what came
      before it says so. */
  lemma RefusedIff(scope: Scope, l: Live, run: seq<Action>, m: AppMessage)
    requires Reached(scope, l, run) && Enabled(l, App(m))
    ensures Plan(scope, l.h, m).2 <==> Refusable(scope, l.sent, m)
  {
    NewOk();
    HttpMeaning.RunMeans(scope, NEW, run);
    HttpMeaning.EndedStarted(l.sent);
    assert Final(l) == l.h.state;
    hide HttpMeaning.StartOf, HttpMeaning.Ended, HttpMeaning.Meaning, Reads, SuppressBody;
  }
}
