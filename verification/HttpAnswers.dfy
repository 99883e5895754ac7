/** The status with which an `HTTPStream` answers, and runs that handle given messages. */
module HttpAnswers {
  import opened Bytes
  import opened StreamEvents
  import opened HttpStreams
  import opened HttpRuns
  import HttpTheorems
  import HttpTrailers

  /** The status of the response: that of the first valid start, or 500 when the application
      finishes without one. */
  function AppStatus(ms: seq<AppMessage>): Option<int> {
    if ms == [] then None
    else
      var before, last := AppStatus(ms[..|ms| - 1]), ms[|ms| - 1];
      if before.Some? then before
      else if last.Start? && last.valid then Some(last.status)
      else if last == Finished then Some(500)
      else None
  }

  lemma AppStatusSnoc(ms: seq<AppMessage>, m: AppMessage)
    ensures AppStatus(ms + [m]) ==
      if AppStatus(ms).Some? then AppStatus(ms)
      else if m.Start? && m.valid then Some(m.status)
      else if m == Finished then Some(500)
      else None
  {
    assert (ms + [m])[..|ms|] == ms;
  }

  ghost predicate Responds(out: seq<StreamEvent>, status: Option<int>) {
    forall e <- out :: e.Response? ==> status == Some(e.status)
  }

  ghost predicate StatusOk(l: Live) {
    var status := AppStatus(l.sent);
    && Responds(Out(l), status)
    && (Final(l) != Requested ==> status.Some?)
    && (Final(l) == Requested && status.Some? ==> l.finished)
  }

  /** A message sends a response only when it starts one or ends the application. */
  lemma MessageResponds(scope: Scope, h: Http, m: AppMessage)
    ensures var (h', todo, _) := Plan(scope, h, m);
      && (forall e <- Emits(todo) :: e.Response? ==>
            && h.state == Requested && e.status == (if m.Start? then m.status else 500)
            && ((m.Start? && m.valid) || m == Finished))
      && (EndState(h'.state, todo) != h.state && h.state == Requested ==> (m.Start? && m.valid) || m == Finished)
      && (EndState(h'.state, todo) == Requested ==> h.state == Requested && !(m.Start? && m.valid))
  {
    if m == Finished {
      FinishedOk(scope, h);
    } else if m.Start? {
      StartOk(scope, h, m);
    } else if IsBody(m) && h.state == Responding && h.response.Some? {
      BodyOk(scope, h, m);
      HttpTrailers.ContentIff(scope, h, HttpTrailers.Reply(h.response.value, false), m);
    } else if m.Trailers? && h.state == Responding {
      HttpTrailers.TrailersSend(scope, h, m);
    } else if m.Trailers? {
      assert Plan(scope, h, m) == (h, [], true);
    } else {
      OtherEmits(scope, h, m);
    }
    hide Plan, EndState, Content;
  }

  /** Sending `events` for a message keeps the status, when they are as `MessageResponds` says. */
  lemma StatusAfter(l: Live, l': Live, m: AppMessage, events: seq<StreamEvent>)
    requires StatusOk(l) && !l.finished && l'.sent == l.sent + [m] && l'.finished == (m == Finished)
    requires Out(l') == Out(l) + events
    requires forall e <- events :: e.Response? ==>
      && Final(l) == Requested && e.status == (if m.Start? then m.status else 500)
      && ((m.Start? && m.valid) || m == Finished)
    requires Final(l') != Final(l) && Final(l) == Requested ==> (m.Start? && m.valid) || m == Finished
    requires Final(l') == Requested ==> Final(l) == Requested && !(m.Start? && m.valid)
    ensures StatusOk(l')
  {
    AppStatusSnoc(l.sent, m);
    hide AppStatus, Out, Final;
  }

  lemma StatusSame(l: Live, l': Live)
    requires StatusOk(l) && l'.sent == l.sent && l'.finished == l.finished && Out(l') == Out(l) && Final(l') == Final(l)
    ensures StatusOk(l')
  {
    hide AppStatus, Out, Final;
  }

  lemma {:induction false} RunStatus(scope: Scope, l: Live, run: seq<Action>)
    requires StatusOk(l) && Legal(scope, l, run)
    ensures StatusOk(Run(scope, l, run))
    decreases |run|
  {
    if run != [] {
      var l' := Step(scope, l, run[0]);
      hide StatusOk;
      match run[0] {
        case App(m) =>
          HttpTrailers.Sent(scope, l, m);
          MessageResponds(scope, l.h, m);
          hide Plan, Out, Final, EndState;
          StatusAfter(l, l', m, Emits(Plan(scope, l.h, m).1));
        case Go =>
          GoKeepsOut(scope, l);
          hide Out, Final;
          StatusSame(l, l');
        case Client(_) =>
          assert Out(l') == Out(l) && Final(l') == Final(l);
          hide Out, Final;
          StatusSame(l, l');
      }
      hide Step, Enabled;
      RunStatus(scope, l', run[1..]);
    }
  }

  /** Every response in the output of any run has the status its messages lead to. */
  lemma ResponseStatus(scope: Scope, l: Live, run: seq<Action>)
    requires Reached(scope, l, run)
    ensures forall e <- l.h.out :: e.Response? ==> AppStatus(l.sent) == Some(e.status)
  {
    RunStatus(scope, NEW, run);
    assert forall e <- l.h.out :: e in Out(l);
  }

  lemma {:induction false} RunsJoin(scope: Scope, l: Live, a: seq<Action>, b: seq<Action>)
    requires Legal(scope, l, a) && Legal(scope, Run(scope, l, a), b)
    ensures Legal(scope, l, a + b) && Run(scope, l, a + b) == Run(scope, Run(scope, l, a), b)
    decreases |a|
  {
    hide Step, Enabled;
    if a == [] {
      assert a + b == b;
    } else {
      assert (a + b)[1..] == a[1..] + b;
      RunsJoin(scope, Step(scope, l, a[0]), a[1..], b);
    }
  }

  lemma {:induction false} GoKeepsHistory(scope: Scope, l: Live, run: seq<Action>)
    requires Legal(scope, l, run) && forall a <- run :: a == Go
    ensures var l' := Run(scope, l, run);
      l'.sent == l.sent && l'.finished == l.finished && l'.clientClosed == l.clientClosed
    decreases |run|
  {
    if run != [] {
      assert run[0] in run && forall a <- run[1..] :: a in run;
      GoKeepsHistory(scope, Step(scope, l, run[0]), run[1..]);
    }
  }

  /** Any messages, the end of the application last if at all, are handled by some run
      without client events. */
  lemma {:induction false} MessagesRun(scope: Scope, l: Live, ms: seq<AppMessage>) returns (run: seq<Action>)
    requires l.todo == [] && !l.finished && forall i :: 0 <= i < |ms| - 1 ==> ms[i] != Finished
    ensures Legal(scope, l, run)
    ensures var l' := Run(scope, l, run);
      && l'.todo == [] && l'.sent == l.sent + ms && l'.clientClosed == l.clientClosed
      && l'.finished == (ms != [] && ms[|ms| - 1] == Finished)
    decreases |ms|
  {
    if ms == [] {
      run := [];
      assert l.sent + [] == l.sent;
    } else {
      var l1 := Step(scope, l, App(ms[0]));
      assert l1.sent == l.sent + [ms[0]] && l1.finished == (ms[0] == Finished) && l1.clientClosed == l.clientClosed;
      var going := GoRuns(scope, l1);
      GoKeepsHistory(scope, l1, going);
      var first := [App(ms[0])] + going;
      assert first[1..] == going;
      var l2 := Run(scope, l, first);
      assert l2 == Run(scope, l1, going);
      if |ms| == 1 {
        run := first;
        assert l.sent + ms == l.sent + [ms[0]];
      } else {
        var rest := MessagesRun(scope, l2, ms[1..]);
        RunsJoin(scope, l, first, rest);
        run := first + rest;
        assert l.sent + [ms[0]] + ms[1..] == l.sent + ms;
      }
    }
  }
}
