/** What the history of an HTTP/1.1 connection says about its state: when it is being closed,
    when its reader may go on, and whom the next body event goes to. */
module H11Laws {
  import opened Bytes
  import opened H11Protocols
  import opened H11Runs
  import opened H11Theorems

  lemma {:induction false} Prefix(s: System, maximum: int, run: seq<Action>)
    requires Legal(s, maximum, run) && run != []
    ensures var n := |run| - 1;
      && Legal(s, maximum, run[..n]) && Enabled(Run(s, maximum, run[..n]), run[n])
      && Run(s, maximum, run) == Step(Run(s, maximum, run[..n]), maximum, run[n])
    decreases |run|
  {
    hide Step, Enabled;
    var n := |run| - 1;
    if n == 0 {
      assert run[1..] == [];
    } else {
      Prefix(Step(s, maximum, run[0]), maximum, run[1..]);
      assert run[1..][..n - 1] == run[..n][1..] && run[1..][n - 1] == run[n];
    }
  }

  // ---------------------------------------------------------------------------
  // Closing

  /** A connection may only be used again on a running server, over HTTP, after a whole
      request and a whole response. */
  predicate MayGoOn(s: System) {
    var c := s.p.conn;
    !s.terminated && !c.webSocket && c.our == Done && c.their == Done
  }

  /** The end of a stream closes the connection if and only if the server is stopping, the
      connection is a WebSocket, or a side is not done. Otherwise both sides start again. */
  lemma CloseIff(s: System, maximum: int, i: nat)
    requires Enabled(s, Close(i)) && !s.p.closing
    ensures var p' := Step(s, maximum, Close(i)).p; var c := s.p.conn;
      && (p'.closing <==> s.terminated || c.webSocket || c.our != Done || c.their != Done)
      && p'.conn == (if p'.closing then c else c.(our := Idle, their := Idle))
      && p'.canRead && p'.stream == None && p'.requests == s.p.requests
  {
  }

  /** The history's say on closing: a protocol error, or the end of a stream on a connection
      that may not go on. */
  ghost predicate Closed(s: System, maximum: int, run: seq<Action>)
    requires Legal(s, maximum, run)
    decreases |run|
  {
    run != [] &&
    (Closes(s, run[0]) || Closed(Step(s, maximum, run[0]), maximum, run[1..]))
  }

  predicate Closes(s: System, a: Action) { a == Next(ProtocolError) || (a.Close? && !MayGoOn(s)) }

  lemma ClosesStep(s: System, maximum: int, a: Action)
    requires Enabled(s, a)
    ensures Step(s, maximum, a).p.closing <==> s.p.closing || Closes(s, a)
  {
    match a
    case Reply(i, status, close) => HeadAfter(s.p, maximum, status, close); hide SendResponseHead, Sendable;
    case _ =>
  }

  lemma {:induction false} ClosingIff(s: System, maximum: int, run: seq<Action>)
    requires Legal(s, maximum, run)
    ensures Run(s, maximum, run).p.closing <==> s.p.closing || Closed(s, maximum, run)
    decreases |run|
  {
    if run != [] {
      ClosesStep(s, maximum, run[0]);
      hide Step, Enabled, Closes;
      ClosingIff(Step(s, maximum, run[0]), maximum, run[1..]);
    }
  }

  /** A stopping server takes no request but one on a connection that is waiting for one. */
  lemma {:induction false} StopsTaking(s: System, maximum: int, run: seq<Action>)
    requires Inv(s, maximum) && Legal(s, maximum, run) && s.terminated
    ensures |Run(s, maximum, run).delivered| <= |s.delivered| + if s.p.conn.their == Idle then 1 else 0
    decreases |run|
  {
    if run != [] {
      var s' := Step(s, maximum, run[0]);
      StepKeeps(s, maximum, run[0]);
      StopStep(s, maximum, run[0]);
      hide Inv, Step, Enabled;
      StopsTaking(s', maximum, run[1..]);
    }
  }

  lemma StopStep(s: System, maximum: int, a: Action)
    requires OneAtATime(s) && Enabled(s, a) && s.terminated
    ensures var s' := Step(s, maximum, a);
      && s'.terminated
      && |s'.delivered| <= |s.delivered| + (if s.p.conn.their == Idle && s'.p.conn.their != Idle then 1 else 0)
      && (s'.p.conn.their == Idle ==> s.p.conn.their == Idle)
  {
    hide Increasing;
    match a
    case Next(e) => ConnAfter(s.p, e);
    case Reply(i, status, close) => HeadAfter(s.p, maximum, status, close);
    case _ =>
  }

  /** And none once an application has closed its stream. */
  lemma NoneAfterClose(s: System, maximum: int, run: seq<Action>, i: nat, more: seq<Action>)
    requires Reached(s, maximum, run) && s.terminated && Enabled(s, Close(i))
    requires Legal(Step(s, maximum, Close(i)), maximum, more)
    ensures var s' := Step(s, maximum, Close(i)); Run(s', maximum, more).delivered == s.delivered
  {
    ReachedInv(s, maximum, run);
    var s' := Step(s, maximum, Close(i));
    assert s'.p.conn.their != Idle && s'.terminated && s'.delivered == s.delivered;
    StepKeeps(s, maximum, Close(i));
    hide Inv, Step, Enabled;
    StopsTaking(s', maximum, more);
    DeliveredGrows(s', maximum, more);
  }

  lemma {:induction false} DeliveredGrows(s: System, maximum: int, run: seq<Action>)
    requires Legal(s, maximum, run)
    ensures s.delivered <= Run(s, maximum, run).delivered
    decreases |run|
  {
    if run != [] {
      DeliveredGrows(Step(s, maximum, run[0]), maximum, run[1..]);
    }
  }

  // ---------------------------------------------------------------------------
  // The reader and the stream

  /** The stream of the last request, unless it was closed since. */
  function StreamOf(run: seq<Action>): Option<nat>
    decreases |run|
  {
    if run == [] then None
    else
      match run[|run| - 1]
      case Next(e) => if e.Request? then Some(Requests(run) - 1) else StreamOf(run[..|run| - 1])
      case Close(_) => None
      case Lose => None
      case _ => StreamOf(run[..|run| - 1])
  }

  function Requests(run: seq<Action>): (n: nat)
    ensures run != [] && run[|run| - 1].Next? && run[|run| - 1].e.Request? ==> n > 0
  {
    if run == [] then 0
    else Requests(run[..|run| - 1]) + (match run[|run| - 1] case Next(e) => if e.Request? then 1 else 0 case _ => 0)
  }

  /** Whether a stream was closed since the reader last paused. */
  predicate Signalled(run: seq<Action>) {
    run != [] &&
    var before := run[..|run| - 1];
    match run[|run| - 1]
    case Close(_) => true
    case Next(e) => e != Paused && Signalled(before)
    case _ => Signalled(before)
  }

  /** Where the reader is: waiting since a pause, in its loop, or out of it. A request, a wake
      and new data put it into the loop, where body events keep it while there is a stream. */
  function PlaceOf(run: seq<Action>): ReaderAt {
    if run == [] then Outside
    else
      var before := run[..|run| - 1];
      match run[|run| - 1]
      case Arrive => Looping
      case Wake => Looping
      case Next(e) =>
        if e == Paused then Waiting
        else if e.Request? then Looping
        else if (e == BodyData || e == EndOfMessage || e == Passed) && StreamOf(before).Some? then Looping
        else Outside
      case _ => PlaceOf(before)
  }

  ghost predicate Tells(s: System, run: seq<Action>) {
    && s.p.stream == StreamOf(run) && s.p.requests == Requests(run)
    && (s.p.canRead <==> Signalled(run)) && s.reader == PlaceOf(run)
    && (s.terminated <==> Terminate in run) && (s.lost <==> Lose in run)
  }

  lemma NextAfter(p: Protocol, e: Event)
    ensures var (p', at) := HandleNext(p, e);
      && p'.stream == (if e.Request? then Some(p.requests) else p.stream)
      && p'.requests == p.requests + (if e.Request? then 1 else 0) && p'.canRead == (e != Paused && p.canRead)
      && at == (if e == Paused then Waiting
                else if e.Request? then Looping
                else if (e == BodyData || e == EndOfMessage || e == Passed) && p.stream.Some? then Looping
                else Outside)
  {
    hide Reported, SentEnd, SentResponse;
  }

  lemma TellsStep(s: System, maximum: int, run: seq<Action>, a: Action)
    requires Tells(s, run) && Enabled(s, a)
    ensures Tells(Step(s, maximum, a), run + [a])
  {
    assert (run + [a])[..|run|] == run;
    assert Terminate in run + [a] <==> Terminate in run || a == Terminate;
    assert Lose in run + [a] <==> Lose in run || a == Lose;
    match a
    case Next(e) => NextAfter(s.p, e); hide HandleNext;
    case Reply(i, status, close) => HeadAfter(s.p, maximum, status, close); hide SendResponseHead, Sendable;
    case _ =>
  }

  /** In every run the stream, the number of requests, `can_read` and the reader's place are
      what the history says. */
  lemma {:induction false} StateTellsHistory(maximum: int, run: seq<Action>)
    requires Legal(NEW, maximum, run)
    ensures Tells(Run(NEW, maximum, run), run)
    decreases |run|
  {
    if run != [] {
      var n := |run| - 1;
      Prefix(NEW, maximum, run);
      StateTellsHistory(maximum, run[..n]);
      hide Step, Enabled, Legal, Run, Tells;
      TellsStep(Run(NEW, maximum, run[..n]), maximum, run[..n], run[n]);
      assert run == run[..n] + [run[n]];
    }
  }

  // ---------------------------------------------------------------------------
  // Keeping the connection

  /** A response keeps the connection if and only if it was kept, the response does not close
      it and the number of requests is below the maximum. */
  lemma ReplyKeepsIff(s: System, maximum: int, i: nat, status: int, close: bool)
    requires Enabled(s, Reply(i, status, close)) && s.p.conn.our == SendResponse && 200 <= status < 1000
    ensures var s' := Step(s, maximum, Reply(i, status, close));
      && (s'.p.conn.keepAlive <==> s.p.conn.keepAlive && !close && s.p.requests < maximum)
      && s'.p.conn.our == SendBody
  {
  }

  /** An informational response leaves the response to come; a 101 that answers a proposed
      upgrade, or a WebSocket, switches the connection instead. */
  lemma InformationalIff(s: System, maximum: int, i: nat, status: int, close: bool)
    requires Enabled(s, Reply(i, status, close)) && s.p.conn.our == SendResponse && 100 <= status < 200
    ensures var s' := Step(s, maximum, Reply(i, status, close)); var taken := s.p.conn.upgrade || s.p.conn.webSocket;
      if status == 101 then
        && (s'.p.conn.our == Switched <==> taken) && (s'.replies == s.replies + [i] <==> taken)
        && (taken && s.p.conn.their == MightSwitch ==> s'.p.conn.their == Switched)
      else s'.p == s.p && s'.replies == s.replies + [i]
  {
  }

  /** A request keeps it unless it asks to close or its host is unknown: then it is answered
      at once and reaches no application. A WebSocket takes the connection over. */
  lemma RequestTaken(s: System, maximum: int, e: Event)
    requires Enabled(s, Next(e)) && e.Request?
    ensures var s' := Step(s, maximum, Next(e)); var c := s'.p.conn;
      && (c.keepAlive <==> !e.close && e.validHost) && c.webSocket == e.webSocket
      && c.our == (if e.validHost then SendResponse else MustClose)
      && s'.apps.Keys == s.apps.Keys + (if e.validHost then {s.p.requests} else {})
      && s'.delivered == s.delivered + if e.validHost then [s.p.requests] else []
  {
  }

  /** A protocol error is answered if and only if no response was begun, and always closes. */
  lemma ErrorAnsweredIff(s: System, maximum: int)
    requires Enabled(s, Next(ProtocolError)) && s.p.conn.our != MustClose
    ensures var s' := Step(s, maximum, Next(ProtocolError));
      && s'.p.closing && s'.p.conn.their == Erred
      && (s'.p.conn.our == MustClose <==> s.p.conn.our == Idle || s.p.conn.our == SendResponse)
  {
  }
}
