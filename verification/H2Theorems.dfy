/** The results about the HTTP/2 system, for every run from an open connection. */
module H2Theorems {
  import opened Bytes
  import opened StreamEvents
  import opened StreamBuffers
  import opened H2Tables
  import opened H2System
  import opened H2Invariant

  /** The state a run reaches. */
  ghost predicate Reached(s: System, connWindow: int, run: seq<Action>) {
    Legal(Init(connWindow), run) && s == Run(Init(connWindow), run)
  }

  lemma ReachedInv(s: System, connWindow: int, run: seq<Action>)
    requires Reached(s, connWindow, run)
    ensures Inv(s)
  {
    hide Inv;
    InitOk(connWindow);
    RunKeeps(Init(connWindow), run);
  }

  // ---------------------------------------------------------------------------
  // Bytes

  /** Bytes are neither lost, duplicated nor reordered, and no send exceeds flow control:
      on every stream that was not force-closed, what h2 was given followed by what is
      buffered is what the application's events asked for, up to their end of body. */
  lemma Conservation(s: System, connWindow: int, run: seq<Action>, k: Sid)
    requires Reached(s, connWindow, run) && k in s.prods
    ensures k in s.t.h2.streams
    ensures var calls := s.t.h2.streams[k].calls;
      && (forall c <- calls :: c.SendData? ==> 0 < |c.data| <= c.room)
      && Delivered(calls) <= Payload(s.prods[k].ops)
      && (k in s.t.bufs ==> Delivered(calls) + s.t.bufs[k].data == Payload(s.prods[k].ops))
      && (k !in s.t.bufs && k !in s.forced ==> Delivered(calls) == Payload(s.prods[k].ops))
  {
    ReachedInv(s, connWindow, run);
    assert StreamOk(s, k);
  }

  /** `end_stream` is called at most once per stream, as its last call, only after the end
      of the body was announced and every byte before it handed over. */
  lemma EndOfStream(s: System, connWindow: int, run: seq<Action>, k: Sid)
    requires Reached(s, connWindow, run) && k in s.prods
    requires k in s.t.h2.streams && EndStream in s.t.h2.streams[k].calls
    ensures var calls := s.t.h2.streams[k].calls;
      && calls[|calls| - 1] == EndStream
      && (forall i :: 0 <= i < |calls| - 1 ==> calls[i] != EndStream)
      && BodyEnded(s.prods[k].ops)
      && Delivered(calls) == Payload(s.prods[k].ops)
      && (s.sender != Ending(k) ==> k !in s.t.bufs && (k in s.t.tree.nodes ==> k in s.revived))
  {
    ReachedInv(s, connWindow, run);
    assert StreamOk(s, k) && TablesOk(s) by { hide StreamOk, TablesOk, RequestsFresh; }
    hide Inv, Reached;
    EndedOnce(s, k);
    hide StreamOk;
    assert k !in s.t.bufs ==> k in s.t.retired;
  }

  lemma EndedOnce(s: System, k: Sid)
    requires StreamOk(s, k) && EndStream in s.t.h2.streams[k].calls
    ensures var calls := s.t.h2.streams[k].calls;
      && calls[|calls| - 1] == EndStream
      && (forall i :: 0 <= i < |calls| - 1 ==> calls[i] != EndStream)
      && BodyEnded(s.prods[k].ops)
      && Delivered(calls) == Payload(s.prods[k].ops)
      && (s.sender != Ending(k) ==> k !in s.t.bufs)
  {
    hide Delivered, Payload, BodyEnded;
    var calls := s.t.h2.streams[k].calls;
    var i :| 0 <= i < |calls| && calls[i] == EndStream;
    assert Final(calls[i]);
  }

  /** `drain` is a barrier: a producer that may leave it (after the end of its body, or
      before trailers) has every byte it pushed handed to h2, unless it was force-closed. */
  lemma DrainBarrier(s: System, connWindow: int, run: seq<Action>, k: Sid, raw: Bytes)
    requires Reached(s, connWindow, run) && Enabled(s, Continue(k, raw))
    requires s.prods[k].pos == InDrain || s.prods[k].pos.InTrailers?
    requires k !in s.forced
    ensures k in s.t.h2.streams
    ensures Delivered(s.t.h2.streams[k].calls) == s.prods[k].pushed == Payload(s.prods[k].ops)
  {
    ReachedInv(s, connWindow, run);
    assert StreamOk(s, k);
  }

  predicate Flushes(e: StreamEvent) { e.Body? && e.flush }

  /** Only flushed bodies are sent around the buffer. */
  ghost predicate DirectOk(s: System, k: Sid) {
    k in s.prods && k in s.t.h2.streams && (exists c <- s.t.h2.streams[k].calls :: c.SendDirect?)
    ==> exists e <- s.prods[k].ops :: Flushes(e)
  }

  /** The calls `stream_send` makes go around the buffer only for flushed bodies. */
  lemma DirectCall(t: Tables, k: Sid, e: StreamEvent)
    requires k in t.h2.streams
    ensures k in StreamSend(t, k, e).0.h2.streams
    ensures forall c <- StreamSend(t, k, e).0.h2.streams[k].calls ::
      c in t.h2.streams[k].calls || (c.SendDirect? ==> Flushes(e))
  {
  }

  lemma DirectSend(s: System, k: Sid, e: StreamEvent)
    requires Enabled(s, Send(k, e)) && k in s.t.h2.streams && DirectOk(s, k)
    ensures DirectOk(Step(s, Send(k, e)), k)
  {
    hide Pushed, StreamSend;
    DirectCall(s.t, k, e);
    var s' := Step(s, Send(k, e));
    assert s'.prods[k].ops == s.prods[k].ops + [e];
    assert forall x :: x in s'.prods[k].ops <==> x in s.prods[k].ops || x == e;
  }

  lemma DirectContinue(s: System, k: Sid, raw: Bytes)
    requires Enabled(s, Continue(k, raw)) && DirectOk(s, k)
    ensures DirectOk(Step(s, Continue(k, raw)), k)
  {
    hide Pushed;
    var ops := s.prods[k].ops;
    assert forall x :: x in ops ==> x in ops + [Data(raw)];
  }

  lemma DirectSender(s: System, a: Action, k: Sid)
    requires Enabled(s, a) && DirectOk(s, k)
    requires a.Pick? || a.Flushed?
    ensures DirectOk(Step(s, a), k)
  {
  }

  lemma DirectOther(s: System, a: Action, k: Sid)
    requires RequestsFresh(s) && Enabled(s, a) && DirectOk(s, k)
    requires !a.Pick? && !a.Flushed? && !(a.Send? && a.k == k) && !(a.Continue? && a.k == k)
    ensures DirectOk(Step(s, a), k)
  {
    if a.Read? {
      assert s.pending[0] in s.pending;
    } else if a.Send? {
      SendIsProducerStep(s, a.k, a.e);
      hide Step;
    } else if a.Continue? {
      ContinueIsProducerStep(s, a.k, a.raw);
      hide Step;
    }
  }

  lemma SenderKnown(s: System, a: Action)
    requires Enabled(s, a) && a.Send?
    ensures a.k in s.prods
  {
  }

  lemma {:induction false} DirectRun(s: System, run: seq<Action>, k: Sid)
    requires Inv(s) && Legal(s, run) && DirectOk(s, k)
    ensures DirectOk(Run(s, run), k)
    decreases |run|
  {
    if run != [] {
      var a := run[0];
      hide Inv, Step, Enabled, DirectOk;
      StepKeeps(s, a);
      InvBasics(s);
      if a.Send? && a.k == k {
        SenderKnown(s, a);
        DirectSend(s, k, a.e);
      } else if a.Continue? && a.k == k {
        DirectContinue(s, k, a.raw);
      } else if a.Pick? || a.Flushed? {
        DirectSender(s, a, k);
      } else {
        DirectOther(s, a, k);
      }
      DirectRun(Step(s, a), run[1..], k);
    }
  }

  /** Without flushed bodies all data of a stream goes through its buffer. */
  lemma NothingBypassesBuffer(s: System, connWindow: int, run: seq<Action>, k: Sid)
    requires Reached(s, connWindow, run) && k in s.prods && k in s.t.h2.streams
    requires forall e <- s.prods[k].ops :: !Flushes(e)
    ensures forall c <- s.t.h2.streams[k].calls :: !c.SendDirect?
  {
    InitOk(connWindow);
    DirectRun(Init(connWindow), run, k);
  }

  // ---------------------------------------------------------------------------
  // Wakeups

  /** No lost wakeup: when the sending task waits and `has_data` is clear, every stream
      with a buffer is blocked for a reason. */
  lemma NoLostWakeup(s: System, connWindow: int, run: seq<Action>, k: Sid)
    requires Reached(s, connWindow, run)
    requires s.sender == Parked && !s.t.hasData && k in s.t.bufs
    ensures k !in s.t.tree.active && k in s.prods && k in s.t.h2.streams
    ensures
      || (s.t.bufs[k].data == [] && !s.t.bufs[k].complete)
      || s.t.h2.Window(k) <= 0
      || Covered(s.pending, k)
  {
    ReachedInv(s, connWindow, run);
    assert k in s.prods.Keys;
    assert StreamOk(s, k);
  }

  /** At rest: the sending task waits, nothing will wake it, the reader has caught up. */
  ghost predicate AtRest(s: System) {
    s.sender == Parked && !s.t.hasData && s.pending == []
  }

  /** At rest every byte pushed to a stream with a buffer and window left has been handed to
      h2, its body has not ended, and no producer waits for an event that is unset: `push`
      never waits at all at rest, `drain` only for window. */
  lemma RestIsComplete(s: System, connWindow: int, run: seq<Action>, k: Sid)
    requires Reached(s, connWindow, run) && AtRest(s) && k in s.t.bufs
    ensures k in s.prods && k in s.t.h2.streams
    ensures s.t.h2.Window(k) > 0 ==>
      && Delivered(s.t.h2.streams[k].calls) == Payload(s.prods[k].ops)
      && !BodyEnded(s.prods[k].ops)
    ensures s.prods[k].pos == InPush ==> Released(s.t, k, InPush)
    ensures s.t.h2.Window(k) > 0 ==> Released(s.t, k, s.prods[k].pos)
  {
    ReachedInv(s, connWindow, run);
    assert k in s.prods.Keys;
    assert StreamOk(s, k);
  }

  predicate HasEmptyChunk(ops: seq<StreamEvent>) {
    exists e <- ops :: Chunk(e) == Some([])
  }

  /** Only streams whose events include an empty chunk can be in `blank`. */
  ghost predicate BlankOk(s: System) {
    forall k <- s.blank :: k in s.prods && HasEmptyChunk(s.prods[k].ops)
  }

  /** A producer's events only grow by the event that is sent. */
  lemma BlankProducerStep(s: System, a: Action)
    requires Enabled(s, a) && BlankOk(s) && (a.Send? || a.Continue?)
    ensures BlankOk(Step(s, a))
  {
    hide StreamSend, ResumePush, ResumeTrailers, Pushed;
    var k, s' := a.k, Step(s, a);
    var ops := s.prods[k].ops;
    assert forall e :: forall x :: x in ops + [e] <==> x in ops || x == e;
    assert a.Send? ==> a.e in ops + [a.e];
  }

  lemma BlankStep(s: System, a: Action)
    requires RequestsFresh(s) && s.prods.Keys <= s.t.h2.streams.Keys && Enabled(s, a) && BlankOk(s)
    ensures BlankOk(Step(s, a))
  {
    if a.Send? || a.Continue? {
      BlankProducerStep(s, a);
    } else if a.Read? {
      assert s.pending[0] in s.pending;
    }
  }

  lemma {:induction false} BlankRun(s: System, run: seq<Action>)
    requires Inv(s) && Legal(s, run) && BlankOk(s)
    ensures BlankOk(Run(s, run))
    decreases |run|
  {
    hide Inv, Step, Enabled, BlankOk;
    if run != [] {
      StepKeeps(s, run[0]);
      InvBasics(s);
      BlankStep(s, run[0]);
      BlankRun(Step(s, run[0]), run[1..]);
    }
  }

  /** A producer is never left in `push`: once its buffer is gone the event is set. And it
      is only ever left in `drain` on a stream it pushed an empty chunk to. */
  lemma RemovedStreamsReleaseProducers(s: System, connWindow: int, run: seq<Action>, k: Sid)
    requires Reached(s, connWindow, run) && k in s.prods && k !in s.t.bufs
    ensures s.prods[k].pos == InPush ==> Released(s.t, k, InPush)
    ensures !HasEmptyChunk(s.prods[k].ops) ==> Released(s.t, k, s.prods[k].pos)
  {
    ReachedInv(s, connWindow, run);
    InitOk(connWindow);
    BlankRun(Init(connWindow), run);
    assert StreamOk(s, k);
  }

  // ---------------------------------------------------------------------------
  // Tables

  /** Buffers and tree agree: every buffer has a node, and every unblocked node has a
      buffer unless a PRIORITY frame named the stream after it was removed. */
  lemma TablesAgree(s: System, connWindow: int, run: seq<Action>, k: Sid)
    requires Reached(s, connWindow, run)
    ensures k in s.t.bufs ==> k in s.t.tree.nodes
    ensures k in s.t.tree.active && k !in s.t.bufs ==> k in s.revived && k in s.t.retired
  {
    ReachedInv(s, connWindow, run);
  }

  /** The sending task dies on stream `k` exactly when it picks a node without a buffer. */
  lemma PickCrashesIff(s: System, connWindow: int, run: seq<Action>, k: Sid)
    requires Reached(s, connWindow, run) && Enabled(s, Pick(k))
    ensures Step(s, Pick(k)).sender == Crashed <==> k !in s.t.bufs
  {
    hide Reached, Inv, SendStep;
    TablesAgree(s, connWindow, run, k);
    SendStepCrashes(s.t, k);
  }

  lemma SendStepCrashes(t: Tables, k: Sid)
    requires k in t.bufs ==> k in t.tree.nodes
    ensures SendStep(t, k).1 == Crashed <==> k !in t.bufs
  {
    hide Pop;
  }

  /** A run in which the reader never handles a PRIORITY event for a removed stream. */
  ghost predicate NoLatePriority(s: System, run: seq<Action>)
    requires Legal(s, run)
    decreases |run|
  {
    run == [] ||
    (&& (run[0].Read? && s.pending[0].PriorityUpdated? ==> s.pending[0].names !! s.t.retired.Keys)
     && NoLatePriority(Step(s, run[0]), run[1..]))
  }

  lemma {:induction false} NothingRevived(s: System, run: seq<Action>)
    requires Legal(s, run) && NoLatePriority(s, run) && s.revived == {}
    ensures Run(s, run).revived == {}
    decreases |run|
  {
    if run != [] {
      var s' := Step(s, run[0]);
      assert s'.revived == {} by {
        if run[0].Read? && s.pending[0].PriorityUpdated? {
          assert (s.pending[0].names - s.t.tree.nodes) * s.t.retired.Keys == {};
        }
      }
      NothingRevived(s', run[1..]);
    }
  }

  /** Without late PRIORITY frames the sending task always finds its buffer. */
  lemma SenderSurvives(s: System, connWindow: int, run: seq<Action>)
    requires Reached(s, connWindow, run) && NoLatePriority(Init(connWindow), run)
    ensures s.sender != Crashed && s.t.tree.active <= s.t.bufs.Keys
  {
    ReachedInv(s, connWindow, run);
    NothingRevived(Init(connWindow), run);
  }
}
