/** Where the promises of the HTTP/2 sender end: concrete runs in which they fail, and what
    holds for every run from there. */
module H2Limits {
  import opened Bytes
  import opened StreamEvents
  import opened StreamBuffers
  import opened H2Tables
  import opened H2System
  import opened H2Invariant
  import opened H2Theorems

  ghost predicate Leads(s: System, run: seq<Action>, s': System) {
    Legal(s, run) && Run(s, run) == s'
  }

  lemma {:induction false} LeadsOn(s: System, a: seq<Action>, s1: System, b: seq<Action>, s2: System)
    requires Leads(s, a, s1) && Leads(s1, b, s2)
    ensures Leads(s, a + b, s2)
    decreases |a|
  {
    hide Step, Enabled;
    if a == [] {
      assert a + b == b;
    } else {
      LeadsOn(Step(s, a[0]), a[1..], s1, b, s2);
      assert (a + b)[1..] == a[1..] + b;
    }
  }

  lemma LeadsBy(s: System, a: Action, b: Action, s': System)
    requires Enabled(s, a) && Enabled(Step(s, a), b) && s' == Step(Step(s, a), b)
    ensures Leads(s, [a, b], s')
  {
    hide Step, Enabled;
    var s1 := Step(s, a);
    assert Leads(s', [], s');
    assert [b][1..] == [];
    assert Leads(s1, [b], s');
    assert [a, b][1..] == [b];
  }

  const WINDOW := 65535

  /** One open stream, number 1. */
  const OPEN := System(
    Tables(map[1 := EMPTY_BUFFER], map[], {1}, Tree({1}, {}),
           H2(map[1 := H2Stream(Sendable, WINDOW, [])], WINDOW, MIN_MAX_FRAME, false, {}), false, false),
    Ready, map[1 := Producer(Idle, [], [])], [], {}, {}, {})

  const OPENING: seq<Action> := [Receive(HeadersFrame(1, WINDOW)), Read(false)]

  lemma Opening()
    ensures Leads(Init(WINDOW), OPENING, OPEN)
  {
    LeadsBy(Init(WINDOW), OPENING[0], OPENING[1], OPEN);
  }

  // ---------------------------------------------------------------------------
  // A PRIORITY frame for a removed stream

  const CHUNK := Body([7], false)
  const RESET_STREAM: seq<Action> := [Receive(ResetFrame(1)), Read(false)]
  const REFUSED_CHUNK: seq<Action> := [Send(1, CHUNK), Pick(1)]
  const NAMED_AGAIN: seq<Action> := [Receive(PriorityFrame({1})), Read(false)]
  const LATE_PRIORITY: seq<Action> := OPENING + RESET_STREAM + REFUSED_CHUNK + NAMED_AGAIN

  const WAS_RESET := OPEN.(t := OPEN.t.(
    tree := Tree({1}, {1}), streams := {}, hasData := true,
    h2 := H2(map[1 := H2Stream(Reset, WINDOW, [])], WINDOW, MIN_MAX_FRAME, false, {})))

  const FILLED_LATE := WAS_RESET.(
    t := WAS_RESET.t.(bufs := map[1 := Buffer([7], false, false, false)]),
    prods := map[1 := Producer(Idle, [7], [CHUNK])])

  const REMOVED := FILLED_LATE.(
    t := WAS_RESET.t.(bufs := map[], retired := map[1 := Close(EMPTY_BUFFER)], tree := Tree({}, {})), forced := {1})

  const HAUNTED := REMOVED.(t := REMOVED.t.(tree := Tree({1}, {})), revived := {1})

  lemma ResetSteps()
    ensures Leads(OPEN, RESET_STREAM, WAS_RESET)
  {
    LeadsBy(OPEN, RESET_STREAM[0], RESET_STREAM[1], WAS_RESET);
  }

  lemma LateChunk()
    ensures Enabled(WAS_RESET, REFUSED_CHUNK[0]) && Step(WAS_RESET, REFUSED_CHUNK[0]) == FILLED_LATE
  {
    assert EMPTY_BUFFER.data + [7] == [7] && [] + [CHUNK] == [CHUNK];
  }

  lemma ChunkRefused()
    ensures Enabled(FILLED_LATE, REFUSED_CHUNK[1]) && Step(FILLED_LATE, REFUSED_CHUNK[1]) == REMOVED
  {
    assert Pop(FILLED_LATE.t.bufs[1], MIN_MAX_FRAME).1 == [7];
  }

  lemma RemovalSteps()
    ensures Leads(WAS_RESET, REFUSED_CHUNK, REMOVED)
  {
    LateChunk();
    ChunkRefused();
    hide Step, Enabled;
    LeadsBy(WAS_RESET, REFUSED_CHUNK[0], REFUSED_CHUNK[1], REMOVED);
  }

  lemma NamedSteps()
    ensures Leads(REMOVED, NAMED_AGAIN, HAUNTED)
  {
    LeadsBy(REMOVED, NAMED_AGAIN[0], NAMED_AGAIN[1], HAUNTED);
  }

  /** A stream is reset and removed, a PRIORITY frame puts its node back, the application
      sends one more chunk: the sending task then picks a node without a buffer and dies. */
  lemma LatePriorityKillsSender()
    ensures Reached(HAUNTED, WINDOW, LATE_PRIORITY)
    ensures var s := Step(HAUNTED, Send(1, CHUNK));
      Enabled(HAUNTED, Send(1, CHUNK)) && Enabled(s, Pick(1)) && Step(s, Pick(1)).sender == Crashed
  {
    hide Step;
    Opening();
    ResetSteps();
    RemovalSteps();
    NamedSteps();
    LeadsOn(Init(WINDOW), OPENING, OPEN, RESET_STREAM, WAS_RESET);
    LeadsOn(Init(WINDOW), OPENING + RESET_STREAM, WAS_RESET, REFUSED_CHUNK, REMOVED);
    LeadsOn(Init(WINDOW), OPENING + RESET_STREAM + REFUSED_CHUNK, REMOVED, NAMED_AGAIN, HAUNTED);
    FatalSendIff(HAUNTED, WINDOW, LATE_PRIORITY, 1, CHUNK);
  }

  /** The events that unblock their stream before they look for its buffer. */
  predicate UnblocksFirst(e: StreamEvent) {
    e.Data? || e.TrailerHeadersSend? || (e.Body? && !e.flush)
  }

  /** Exactly then: whatever event is sent on a stream, the next pick of the stream is fatal
      if and only if its buffer is gone, and its node, put back by a PRIORITY frame, is
      unblocked already or by the event. */
  lemma FatalSendIff(s: System, connWindow: int, run: seq<Action>, k: Sid, e: StreamEvent)
    requires Reached(s, connWindow, run) && Enabled(s, Send(k, e))
    requires s.sender == Ready && !s.t.closed
    ensures var s' := Step(s, Send(k, e));
      (Enabled(s', Pick(k)) && Step(s', Pick(k)).sender == Crashed) <==>
        k in s.t.retired && (k in s.t.tree.active || (k in s.t.tree.nodes && UnblocksFirst(e)))
  {
    hide Reached, Inv, Step, SendStep, StreamSend;
    ReachedInv(s, connWindow, run);
    Homes(s, k);
    EventSent(s, k, e);
    var s' := Step(s, Send(k, e));
    SendStepCrashes(s'.t, k);
    assert Enabled(s', Pick(k)) <==> k in s'.t.tree.active;
    hide Enabled;
    if Enabled(s', Pick(k)) {
      PickResult(s', k);
    }
  }

  /** A producer's stream has its buffer in the table, with a node, or retired. */
  lemma Homes(s: System, k: Sid)
    requires Inv(s) && k in s.prods
    ensures k in s.t.bufs <==> k !in s.t.retired
    ensures k in s.t.bufs ==> k in s.t.tree.nodes
    ensures k in s.t.tree.active ==> k in s.t.tree.nodes
  {
    hide StreamOk, RequestsFresh;
  }

  lemma EventSent(s: System, k: Sid, e: StreamEvent)
    requires Enabled(s, Send(k, e))
    ensures var s' := Step(s, Send(k, e));
      && s'.sender == s.sender && s'.t.closed == s.t.closed && (k in s'.t.bufs <==> k in s.t.bufs)
      && s'.t.tree.nodes == s.t.tree.nodes
      && (k !in s.t.bufs ==>
            (k in s'.t.tree.active <==> k in s.t.tree.active || (k in s.t.tree.nodes && UnblocksFirst(e))))
  {
    hide Push, Pushed;
  }

  lemma PickResult(s: System, k: Sid)
    requires Enabled(s, Pick(k))
    ensures Step(s, Pick(k)).sender == SendStep(s.t, k).1
  {
    hide SendStep;
  }

  // ---------------------------------------------------------------------------
  // An empty chunk

  const FIRST_CHUNK: seq<Action> := [Send(1, Body([7], false)), Pick(1)]
  const EMPTY_CHUNK: seq<Action> := [Send(1, Body([], false)), Send(1, EndBody(false))]
  const FINISHING: seq<Action> := [Flushed, Flushed]
  const EMPTY_LAST_CHUNK: seq<Action> := OPENING + FIRST_CHUNK + EMPTY_CHUNK + FINISHING

  const FLUSHING := OPEN.(
    t := OPEN.t.(
      bufs := map[1 := Buffer([], false, true, true)], tree := Tree({1}, {1}), hasData := true,
      h2 := H2(
        map[1 := H2Stream(Sendable, WINDOW - 1, [SendData([7], MIN_MAX_FRAME)])],
        WINDOW - 1, MIN_MAX_FRAME, false, {})),
    sender := Flushing(1), prods := map[1 := Producer(Idle, [7], [Body([7], false)])])

  const DRAINING := FLUSHING.(
    t := FLUSHING.t.(bufs := map[1 := Buffer([], true, false, true)]),
    prods := map[1 := Producer(InDrain, [7], [Body([7], false), Body([], false), EndBody(false)])],
    blank := {1})

  const STUCK := DRAINING.(
    t := DRAINING.t.(
      bufs := map[], retired := map[1 := Buffer([], true, false, true)], tree := Tree({}, {}),
      h2 := H2(
        map[1 := H2Stream(Ended, WINDOW - 1, [SendData([7], MIN_MAX_FRAME), EndStream])],
        WINDOW - 1, MIN_MAX_FRAME, false, {})),
    sender := Ready)

  const FILLED := OPEN.(
    t := OPEN.t.(bufs := map[1 := Buffer([7], false, false, false)], tree := Tree({1}, {1}), hasData := true),
    prods := FLUSHING.prods)

  lemma FirstChunkPushed()
    ensures Enabled(OPEN, FIRST_CHUNK[0]) && Step(OPEN, FIRST_CHUNK[0]) == FILLED
  {
    assert EMPTY_BUFFER.data + [7] == [7] && OPEN.prods[1].ops + [Body([7], false)] == [Body([7], false)];
  }

  lemma FirstChunkPicked()
    ensures Enabled(FILLED, FIRST_CHUNK[1]) && Step(FILLED, FIRST_CHUNK[1]) == FLUSHING
  {
    var taken := Pop(FILLED.t.bufs[1], MIN_MAX_FRAME);
    assert taken.0 == Buffer([], false, true, true) && taken.1 == [7];
    assert OPEN.t.h2.streams[1].calls + [SendData([7], MIN_MAX_FRAME)] == [SendData([7], MIN_MAX_FRAME)];
  }

  lemma FirstChunkSteps()
    ensures Leads(OPEN, FIRST_CHUNK, FLUSHING)
  {
    FirstChunkPushed();
    FirstChunkPicked();
    hide Step, Enabled;
    LeadsBy(OPEN, FIRST_CHUNK[0], FIRST_CHUNK[1], FLUSHING);
  }

  lemma EmptyChunkSteps()
    ensures Leads(FLUSHING, EMPTY_CHUNK, DRAINING)
  {
    var s1 := Step(FLUSHING, EMPTY_CHUNK[0]);
    assert FLUSHING.t.bufs[1].data + [] == [] && FLUSHING.prods[1].pushed + [] == [7];
    assert [Body([7], false)] + [Body([], false)] == [Body([7], false), Body([], false)];
    assert s1 == FLUSHING.(
      t := FLUSHING.t.(bufs := map[1 := Buffer([], false, false, true)]),
      prods := map[1 := Producer(Idle, [7], [Body([7], false), Body([], false)])], blank := {1});
    assert s1.prods[1].ops + [EndBody(false)] == DRAINING.prods[1].ops;
    LeadsBy(FLUSHING, EMPTY_CHUNK[0], EMPTY_CHUNK[1], DRAINING);
  }

  lemma FinishingSteps()
    ensures Leads(DRAINING, FINISHING, STUCK)
  {
    var s1 := Step(DRAINING, FINISHING[0]);
    assert DRAINING.t.h2.streams[1].calls + [EndStream] == STUCK.t.h2.streams[1].calls;
    assert s1 == DRAINING.(t := DRAINING.t.(h2 := STUCK.t.h2), sender := Ending(1));
    assert Step(s1, FINISHING[1]).t == STUCK.t;
    LeadsBy(DRAINING, FINISHING[0], FINISHING[1], STUCK);
  }

  /** An empty last chunk pushed while the sending task flushes the previous one: the stream
      is ended and removed, but the producer waits in `drain` for an event that is clear. */
  lemma EmptyChunkStrandsProducer()
    ensures Reached(STUCK, WINDOW, EMPTY_LAST_CHUNK)
    ensures 1 in STUCK.t.retired && STUCK.prods[1].pos == InDrain && !Released(STUCK.t, 1, InDrain)
  {
    hide Step, Enabled;
    Opening();
    FirstChunkSteps();
    EmptyChunkSteps();
    FinishingSteps();
    LeadsOn(Init(WINDOW), OPENING, OPEN, FIRST_CHUNK, FLUSHING);
    LeadsOn(Init(WINDOW), OPENING + FIRST_CHUNK, FLUSHING, EMPTY_CHUNK, DRAINING);
    LeadsOn(Init(WINDOW), OPENING + FIRST_CHUNK + EMPTY_CHUNK, DRAINING, FINISHING, STUCK);
  }

  // ---------------------------------------------------------------------------
  // Producers that stay suspended

  ghost predicate Stranded(s: System, k: Sid) {
    k in s.prods && s.prods[k].pos != Idle && (k in s.t.bufs || k in s.t.retired) && !Released(s.t, k, s.prods[k].pos)
  }

  /** What `k` waits for, and the buffer object that would release it, stay the same. */
  ghost predicate SameWait(s: System, s': System, k: Sid)
    requires k in s.prods && (k in s.t.bufs || k in s.t.retired)
  {
    && k in s'.prods && s'.prods[k] == s.prods[k]
    && (k in s.t.bufs <==> k in s'.t.bufs) && (k in s.t.retired <==> k in s'.t.retired)
    && s'.t.Object(k) == s.t.Object(k)
  }

  lemma ProducersLeaveWait(s: System, a: Action, k: Sid)
    requires Enabled(s, a) && Stranded(s, k) && (a.Send? || a.Continue?)
    ensures SameWait(s, Step(s, a), k)
  {
    hide StreamOk, Step;
    match a
    case Send(j, e) => SendIsProducerStep(s, j, e);
    case Continue(j, raw) => ContinueIsProducerStep(s, j, raw);
  }

  lemma ReaderLeavesWait(s: System, a: Action, k: Sid)
    requires RequestsFresh(s) && Enabled(s, a) && Stranded(s, k) && k in s.t.h2.streams
    requires a.Receive? || a.Read? || a.Promise? || a.Lost? || a.Park? || a.Wake? || a.Exit?
    ensures SameWait(s, Step(s, a), k)
  {
    if a.Read? {
      ReadLeavesWait(s, a.refuse, k);
    } else {
      hide RequestsFresh;
    }
  }

  lemma ReadLeavesWait(s: System, refuse: bool, k: Sid)
    requires RequestsFresh(s) && s.pending != [] && Stranded(s, k)
    ensures SameWait(s, Step(s, Read(refuse)), k)
  {
    hide Released;
    assert s.pending[0] in s.pending;
    assert s.pending[0] != RequestReceived(k);
    hide RequestsFresh;
  }

  lemma SenderLeavesRemoved(s: System, a: Action, k: Sid)
    requires Enabled(s, a) && Stranded(s, k) && k in s.t.retired && (a.Pick? || a.Flushed?)
    requires k !in s.t.bufs && (s.sender.Flushing? || s.sender.Ending? ==> s.sender.k in s.t.bufs)
    ensures SameWait(s, Step(s, a), k)
  {
    hide StreamOk;
    var j := if a.Pick? then a.k else s.sender.k;
    if j == k {
      assert a.Pick? && k !in s.t.bufs;
    }
  }

  /** A producer waiting on a buffer that has left the table waits in every continuation. */
  lemma {:induction false} RemovedStaysStranded(s: System, run: seq<Action>, k: Sid)
    requires Inv(s) && Legal(s, run) && Stranded(s, k) && k in s.t.retired
    ensures Stranded(Run(s, run), k)
    decreases |run|
  {
    if run != [] {
      var a := run[0];
      hide Inv, Step, Enabled;
      StepKeeps(s, a);
      InvBasics(s);
      if a.Send? || a.Continue? {
        ProducersLeaveWait(s, a, k);
      } else if a.Pick? || a.Flushed? {
        SenderLeavesRemoved(s, a, k);
      } else {
        ReaderLeavesWait(s, a, k);
      }
      RemovedStaysStranded(Step(s, a), run[1..], k);
    }
  }

  // ---------------------------------------------------------------------------
  // A lost connection

  const BULK: Bytes := seq(HIGH_WATER, i => 7)
  const LEAVING: seq<Action> := [Lost, Exit]
  const BULK_SEND: Action := Send(1, Body(BULK, false))

  const FULL := OPEN.(
    t := OPEN.t.(bufs := map[1 := Buffer(BULK, false, false, false)], tree := Tree({1}, {1}), hasData := true),
    prods := map[1 := Producer(InPush, BULK, [Body(BULK, false)])])

  const LEFT_BEHIND := FULL.(t := FULL.t.(streams := {}, closed := true), sender := Exited)

  lemma BulkStep()
    ensures Enabled(OPEN, BULK_SEND) && Step(OPEN, BULK_SEND) == FULL
  {
    assert EMPTY_BUFFER.data + BULK == BULK && [] + [Body(BULK, false)] == [Body(BULK, false)];
    assert |BULK| == HIGH_WATER && BULK != [];
  }

  lemma BulkSteps()
    ensures Leads(OPEN, [BULK_SEND], FULL)
  {
    BulkStep();
    hide Step, Enabled;
    assert [BULK_SEND][1..] == [];
    assert Legal(FULL, []) && Run(FULL, []) == FULL;
  }

  lemma LeavingSteps()
    ensures Leads(FULL, LEAVING, LEFT_BEHIND)
  {
    LeadsBy(FULL, LEAVING[0], LEAVING[1], LEFT_BEHIND);
  }

  /** A producer fills its buffer and waits, the connection is lost, and the sending task
      returns: nothing was released. */
  lemma LossStrandsProducer()
    ensures Reached(LEFT_BEHIND, WINDOW, OPENING + [BULK_SEND] + LEAVING)
    ensures LEFT_BEHIND.sender == Exited && Stranded(LEFT_BEHIND, 1)
  {
    hide Step, Enabled;
    Opening();
    BulkSteps();
    LeavingSteps();
    LeadsOn(Init(WINDOW), OPENING, OPEN, [BULK_SEND], FULL);
    LeadsOn(Init(WINDOW), OPENING + [BULK_SEND], FULL, LEAVING, LEFT_BEHIND);
  }

  /** Only the sending task sets the events producers wait for: once it has returned because
      the connection was lost, whoever waits unreleased waits in every continuation. */
  lemma {:induction false} NothingReleasesAfterExit(s: System, run: seq<Action>, k: Sid)
    requires Inv(s) && Legal(s, run) && Stranded(s, k)
    requires s.sender == Exited || s.sender == Crashed
    ensures Stranded(Run(s, run), k)
    decreases |run|
  {
    if run != [] {
      var a := run[0];
      SenderStaysGone(s, a);
      hide Inv, Step, Enabled;
      StepKeeps(s, a);
      InvBasics(s);
      if a.Send? || a.Continue? {
        ProducersLeaveWait(s, a, k);
      } else {
        ReaderLeavesWait(s, a, k);
      }
      NothingReleasesAfterExit(Step(s, a), run[1..], k);
    }
  }

  /** The run leads to the producer of `k` going on. */
  ghost predicate GoesOn(s: System, run: seq<Action>, k: Sid, raw: Bytes) {
    Legal(s, run) && Enabled(Run(s, run), Continue(k, raw))
  }

  /** So after that a producer can ever go on if and only if it has been released already. */
  lemma GoesOnAfterExitIff(s: System, k: Sid)
    requires Inv(s) && (s.sender == Exited || s.sender == Crashed) && k in s.prods && s.prods[k].pos != Idle
    ensures (exists run, raw :: GoesOn(s, run, k, raw)) <==> Released(s.t, k, s.prods[k].pos)
  {
    hide Inv, Step, Released, Enabled;
    Homes(s, k);
    if Released(s.t, k, s.prods[k].pos) {
      MayGoOn(s, k, []);
      assert GoesOn(s, [], k, []);
    } else {
      assert Stranded(s, k);
      forall run, raw
        ensures !GoesOn(s, run, k, raw)
      {
        if Legal(s, run) {
          NothingReleasesAfterExit(s, run, k);
          MayGoOn(Run(s, run), k, raw);
        }
      }
    }
  }

  lemma MayGoOn(s: System, k: Sid, raw: Bytes)
    requires k in s.prods && s.prods[k].pos != Idle
    ensures Enabled(s, Continue(k, raw)) <==> Released(s.t, k, s.prods[k].pos)
  {
  }

  lemma SenderStaysGone(s: System, a: Action)
    requires Enabled(s, a) && (s.sender == Exited || s.sender == Crashed)
    ensures Step(s, a).sender == s.sender && !a.Pick? && !a.Flushed?
  {
  }
}
