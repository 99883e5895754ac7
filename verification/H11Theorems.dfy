/** The results about an HTTP/1.1 connection, for every run. */
module H11Theorems {
  import opened Bytes
  import opened H11Protocols
  import opened H11Runs

  ghost predicate Reached(s: System, maximum: int, run: seq<Action>) {
    Legal(NEW, maximum, run) && s == Run(NEW, maximum, run)
  }

  lemma ReachedInv(s: System, maximum: int, run: seq<Action>)
    requires Reached(s, maximum, run)
    ensures Inv(s, maximum)
  {
    RunKeeps(NEW, maximum, run);
  }

  /** A stream is only created when none is active and every earlier application is done. */
  lemma OneStreamAtATime(s: System, maximum: int, run: seq<Action>, e: Event)
    requires Reached(s, maximum, run) && Enabled(s, Next(e)) && e.Request?
    ensures s.p.stream == None && forall i <- s.apps :: !Live(s, i)
  {
    ReachedInv(s, maximum, run);
    assert s.p.conn.their == Idle;
  }

  /** Pipelined requests reach their applications in arrival order, every body event goes to
      the stream of its own request, and responses leave in order, one per request. */
  lemma ArrivalOrder(s: System, maximum: int, run: seq<Action>)
    requires Reached(s, maximum, run)
    ensures forall i, j :: 0 <= i < j < |s.delivered| ==> s.delivered[i] < s.delivered[j]
    ensures forall i, j :: 0 <= i < j < |s.replies| ==> s.replies[i] < s.replies[j]
    ensures forall b <- s.bodies :: b.0 == b.1
  {
    ReachedInv(s, maximum, run);
  }

  /** At most `max(1, maximum)` requests reach an application on one connection. */
  lemma RequestsBounded(s: System, maximum: int, run: seq<Action>)
    requires Reached(s, maximum, run)
    ensures |s.delivered| <= Max(1, maximum)
  {
    ReachedInv(s, maximum, run);
  }

  /** As long as the peer has not erred, an application that sends has its turn: h11 takes a
      response head if and only if it takes its status, and the end of a response if and only
      if its status was at least 200. */
  lemma SendsInTurn(s: System, maximum: int, run: seq<Action>, i: nat, status: int, close: bool)
    requires Reached(s, maximum, run) && s.p.conn.their != Erred
    ensures Enabled(s, Reply(i, status, close)) ==>
      && s.p.conn.our == SendResponse
      && (Step(s, maximum, Reply(i, status, close)).replies == s.replies + [i] <==> Sendable(s.p.conn, status))
    ensures Enabled(s, EndReply(i)) ==> (s.p.conn.our == SendBody <==> s.apps[i].status >= 200)
  {
    ReachedInv(s, maximum, run);
  }

  /** No lost wakeup: while the reader waits for `can_read`, unless the connection is being
      closed, the last request's application is alive, or it has ended without a word on a
      lost connection. The close of a stream wakes the reader, recycled or not. */
  lemma WaitingReaderIsWoken(s: System, maximum: int, run: seq<Action>)
    requires Reached(s, maximum, run) && s.reader == Waiting && !s.p.canRead && !s.p.closing
    ensures LastLive(s) || (s.lost && LastVanished(s))
    ensures !s.lost ==> LastLive(s) && s.p.stream == Some(s.p.requests - 1)
    ensures forall i :: Enabled(s, Close(i)) ==> Enabled(Step(s, maximum, Close(i)), Wake)
  {
    ReachedInv(s, maximum, run);
  }

  /** After a recycle both sides are idle again with no stream and the event set, so a waiting
      reader goes on to the next request. */
  lemma RecycleRestarts(s: System, maximum: int, run: seq<Action>, i: nat)
    requires Reached(s, maximum, run) && Enabled(s, Close(i)) && Recyclable(s.p, s.terminated)
    ensures var s' := Step(s, maximum, Close(i));
      && s'.p.stream == None && s'.p.canRead && (s.reader == Waiting ==> Enabled(s', Wake))
      && s'.p.conn.our == Idle && s'.p.conn.their == Idle && s'.p.requests < maximum
  {
    ReachedInv(s, maximum, run);
  }

  // ---------------------------------------------------------------------------
  // Closing instead of recycling

  /** The reader waits, and nobody is left to set the event. */
  predicate Deserted(s: System) {
    s.reader == Waiting && !s.p.canRead && forall i <- s.apps :: !Live(s, i)
  }

  /** Exactly when the connection is being closed, or was lost and the last application has
      ended without a word: otherwise that application is alive and the end of its stream
      wakes the reader. */
  lemma DesertedIff(s: System, maximum: int, run: seq<Action>)
    requires Reached(s, maximum, run) && s.reader == Waiting && !s.p.canRead
    ensures Deserted(s) <==> s.p.closing || LastVanished(s)
    ensures LastVanished(s) ==> s.lost
  {
    ReachedInv(s, maximum, run);
  }

  /** An application that ends without a word while the reader waits always deserts it. */
  lemma VanishDeserts(s: System, maximum: int, run: seq<Action>, i: nat)
    requires Reached(s, maximum, run) && s.reader == Waiting && !s.p.canRead && Enabled(s, Vanish(i))
    ensures Deserted(Step(s, maximum, Vanish(i)))
  {
    ReachedInv(s, maximum, run);
  }

  /** What the guard of `_maybe_recycle` and h11 say when an application ends while the
      reader waits: the connection is closed, and the peer's side is still paused. */
  predicate PausedWithoutRecycle(s: System) {
    var c := s.p.conn;
    !Recyclable(s.p, s.terminated) && (c.their == MightSwitch || c.their == Switched || (c.their == Done && c.buffered))
  }

  /** When an application ends while the reader waits, the woken reader can be back in the
      wait after its next event exactly then, and is deserted if it is. */
  lemma CloseDesertsIff(s: System, maximum: int, run: seq<Action>, i: nat)
    requires Reached(s, maximum, run) && s.reader == Waiting && !s.p.canRead && Enabled(s, Close(i))
    ensures var s' := Step(s, maximum, Close(i)); var woken := [Wake, Next(Paused)];
      && (Legal(s', maximum, woken) <==> PausedWithoutRecycle(s))
      && (Legal(s', maximum, woken) ==> Deserted(Run(s', maximum, woken)))
  {
    ReachedInv(s, maximum, run);
    hide Legal, Reached;
    assert !s.p.conn.webSocket && forall j <- s.apps :: j != i ==> s.apps[j] == Over;
    hide Inv;
    var s1 := Step(s, maximum, Close(i));
    assert s1 == s.(p := MaybeRecycle(s.p, s.terminated), apps := s.apps[i := Over]);
    assert Enabled(s1, Wake);
    var s2 := Step(s1, maximum, Wake);
    assert s2 == s1.(reader := Looping);
    assert Enabled(s2, Next(Paused)) <==> PausedWithoutRecycle(s);
    TwoSteps(s1, maximum, Wake, Next(Paused));
    if Enabled(s2, Next(Paused)) {
      PauseWaits(s2, maximum);
    }
    hide Step, Enabled, MaybeRecycle;
  }

  lemma PauseWaits(s: System, maximum: int)
    requires Enabled(s, Next(Paused))
    ensures Step(s, maximum, Next(Paused)) == s.(p := s.p.(canRead := false), reader := Waiting)
  {
  }

  lemma TwoSteps(s: System, maximum: int, a: Action, b: Action)
    requires Enabled(s, a)
    ensures Legal(s, maximum, [a, b]) <==> Enabled(Step(s, maximum, a), b)
    ensures Legal(s, maximum, [a, b]) ==> Run(s, maximum, [a, b]) == Step(Step(s, maximum, a), maximum, b)
  {
    hide Step, Enabled;
    assert [a, b][1..] == [b] && [b][1..] == [];
    var s1 := Step(s, maximum, a);
    if Enabled(s1, b) {
      var s2 := Step(s1, maximum, b);
      assert Legal(s2, maximum, []) && Run(s2, maximum, []) == s2;
      assert Legal(s1, maximum, [b]) && Run(s1, maximum, [b]) == s2;
    }
  }

  lemma {:induction false} DesertedForever(s: System, maximum: int, run: seq<Action>)
    requires Deserted(s) && Legal(s, maximum, run)
    ensures Deserted(Run(s, maximum, run))
    decreases |run|
  {
    if run != [] {
      assert Deserted(Step(s, maximum, run[0]));
      DesertedForever(Step(s, maximum, run[0]), maximum, run[1..]);
    }
  }

  const QUIT: seq<Action> := [
    Arrive, Next(Request(false, false, false, true)), Next(EndOfMessage), Next(Paused),
    Reply(0, 200, false), Close(0), Wake, Next(Paused)]

  const PIPELINED := NEW.(
    p := Protocol(Conn(SendResponse, Done, true, false, true, false), Some(0), false, 1, false),
    reader := Waiting, apps := map[0 := Fresh], delivered := [0], bodies := [(0, 0)])

  const QUITTED := PIPELINED.(
    p := Protocol(Conn(SendBody, Done, true, false, true, false), None, false, 1, true),
    apps := map[0 := Over], replies := [0])

  const LOST: seq<Action> := [Lose, Vanish(0)]

  /** The connection is lost while the reader waits behind a pipelined request, and the
      application then ends on its closed stream: nothing is closing, and nobody is left. */
  lemma LossDesertsReader(maximum: int)
    ensures Legal(NEW, maximum, QUIT[..4] + LOST)
    ensures var s := Run(NEW, maximum, QUIT[..4] + LOST); Deserted(s) && !s.p.closing
  {
    PipelinedSteps(maximum);
    TwoSteps(PIPELINED, maximum, Lose, Vanish(0));
    RunConcat(NEW, maximum, QUIT[..4], LOST);
  }

  lemma PipelinedSteps(maximum: int)
    ensures Legal(NEW, maximum, QUIT[..4]) && Run(NEW, maximum, QUIT[..4]) == PIPELINED
  {
    var s1 := Step(NEW, maximum, QUIT[0]);
    var s2 := Step(s1, maximum, QUIT[1]);
    assert s2.apps == map[0 := Fresh] && s2.delivered == [0];
    var s3 := Step(s2, maximum, QUIT[2]);
    assert s3.bodies == [(0, 0)];
    assert Step(s3, maximum, QUIT[3]) == PIPELINED;
    var run := QUIT[..4];
    Four(NEW, maximum, run, PIPELINED);
  }

  lemma QuitSteps(maximum: int)
    requires maximum > 1
    ensures Legal(PIPELINED, maximum, QUIT[4..]) && Run(PIPELINED, maximum, QUIT[4..]) == QUITTED
  {
    var s1 := Step(PIPELINED, maximum, QUIT[4]);
    assert s1.replies == [0] && s1.apps == map[0 := Replied(200)];
    var s2 := Step(s1, maximum, QUIT[5]);
    assert s2.apps == map[0 := Over];
    var s3 := Step(s2, maximum, QUIT[6]);
    assert Step(s3, maximum, QUIT[7]) == QUITTED;
    var run := QUIT[4..];
    Four(PIPELINED, maximum, run, QUITTED);
  }

  lemma Four(s: System, maximum: int, run: seq<Action>, end: System)
    requires |run| == 4 && Enabled(s, run[0])
    requires var s1 := Step(s, maximum, run[0]); Enabled(s1, run[1])
    requires var s2 := Step(Step(s, maximum, run[0]), maximum, run[1]); Enabled(s2, run[2])
    requires var s3 := Step(Step(Step(s, maximum, run[0]), maximum, run[1]), maximum, run[2]);
      Enabled(s3, run[3]) && Step(s3, maximum, run[3]) == end
    ensures Legal(s, maximum, run) && Run(s, maximum, run) == end
  {
    hide Step, Enabled;
    var s1 := Step(s, maximum, run[0]);
    var s2 := Step(s1, maximum, run[1]);
    var s3 := Step(s2, maximum, run[2]);
    assert run[1..][1..][1..][1..] == [];
    assert Legal(end, maximum, []) && Run(end, maximum, []) == end;
    assert run[3..][1..] == [] && Legal(s3, maximum, run[3..]) && Run(s3, maximum, run[3..]) == end;
    assert run[2..][1..] == run[3..] && Legal(s2, maximum, run[2..]) && Run(s2, maximum, run[2..]) == end;
    assert run[1..][1..] == run[2..] && Legal(s1, maximum, run[1..]) && Run(s1, maximum, run[1..]) == end;
  }

  /** An application quits in the middle of its response while the next request is already
      buffered: the connection is closed instead of recycled, the woken reader pauses again,
      and no application is left to wake it. */
  lemma QuitDesertsReader(maximum: int)
    requires maximum > 1
    ensures Legal(NEW, maximum, QUIT) && Deserted(Run(NEW, maximum, QUIT))
  {
    PipelinedSteps(maximum);
    QuitSteps(maximum);
    assert QUIT == QUIT[..4] + QUIT[4..];
    RunConcat(NEW, maximum, QUIT[..4], QUIT[4..]);
  }

  lemma {:induction false} RunConcat(s: System, maximum: int, a: seq<Action>, b: seq<Action>)
    requires Legal(s, maximum, a) && Legal(Run(s, maximum, a), maximum, b)
    ensures Legal(s, maximum, a + b) && Run(s, maximum, a + b) == Run(Run(s, maximum, a), maximum, b)
    decreases |a|
  {
    hide Step, Enabled;
    if a == [] {
      assert a + b == b;
    } else {
      assert (a + b)[1..] == a[1..] + b;
      RunConcat(Step(s, maximum, a[0]), maximum, a[1..], b);
    }
  }
}
