/** What every reachable state of the HTTP/2 system satisfies, for any interleaving. */
module H2Invariant {
  import opened Bytes
  import opened StreamEvents
  import opened StreamBuffers
  import opened H2Tables
  import opened H2System

  // ---------------------------------------------------------------------------
  // The invariant

  /** Buffers and tree nodes agree, the sending task's stream is in both, and a parked
      sending task without a wakeup has nothing to choose from. */
  ghost predicate TablesOk(s: System) {
    var t := s.t;
    && t.bufs.Keys <= t.tree.nodes
    && t.tree.active <= t.tree.nodes
    && t.tree.active <= t.bufs.Keys + s.revived
    && t.tree.nodes * t.retired.Keys <= s.revived
    && t.bufs.Keys !! t.retired.Keys
    && s.prods.Keys == t.bufs.Keys + t.retired.Keys
    && s.prods.Keys <= t.h2.streams.Keys
    && s.revived <= t.retired.Keys
    && s.forced <= t.retired.Keys
    && s.blank <= s.prods.Keys
    && t.h2.maxFrame >= 1
    && (s.sender.Flushing? || s.sender.Ending? ==> s.sender.k in t.bufs)
    && (s.sender == Parked && !t.hasData ==> t.tree.active == {})
    && (s.sender == Crashed ==> s.revived != {})
    && (s.sender == Exited ==> t.closed)
  }

  /** A request h2 has reported but the reader has not handled has left no trace yet. */
  ghost predicate RequestsFresh(s: System) {
    && (forall k :: k in s.t.h2.streams && k !in s.prods ==> s.t.h2.streams[k].calls == [])
    && (forall k :: RequestReceived(k) in s.pending ==> k in s.t.h2.streams && k !in s.prods)
    && (forall i, j :: 0 <= i < j < |s.pending| && s.pending[i].RequestReceived? ==> s.pending[i] != s.pending[j])
  }

  /** Why a stream with a buffer may be blocked. */
  ghost predicate BlockedForReason(s: System, k: Sid)
    requires k in s.t.bufs && k in s.t.h2.streams
  {
    || (s.t.bufs[k].data == [] && !s.t.bufs[k].complete)
    || s.t.h2.Window(k) <= 0
    || Covered(s.pending, k)
    || s.sender == Ending(k)
  }

  /** The event a suspended producer waits for is set, or the sending task will set it. */
  ghost predicate ProducerOk(s: System, k: Sid)
    requires k in s.prods && (k in s.t.bufs || k in s.t.retired)
  {
    var b := s.t.Object(k);
    var drained := b.isEmpty || k in s.blank;
    && (b.isEmpty ==> b.data == [] && k !in s.blank)
    && (k in s.t.retired ==> b.isEmpty || k in s.blank)
    && match s.prods[k].pos
       case Idle => true
       case InPush => if k in s.t.bufs then !b.complete && (b.paused || k in s.t.tree.active) else b.paused
       case _ =>
         || b.isEmpty
         || (if k in s.t.bufs then k in s.t.tree.active || b.data != [] || s.sender == Ending(k) else k in s.blank)
  }

  /** Byte accounting for the stream, its end of body, and the calls made for it. */
  ghost predicate BytesOk(s: System, k: Sid)
    requires k in s.prods && k in s.t.h2.streams && (k in s.t.bufs || k in s.t.retired)
  {
    var p, b, st := s.prods[k], s.t.Object(k), s.t.h2.streams[k];
    && CallsOk(st)
    && if k in s.forced then Delivered(st.calls) <= p.pushed <= Payload(p.ops) && !EndedBySender(st)
       else
         && p.pushed == Payload(p.ops)
         && (b.complete <==> BodyEnded(p.ops))
         && (k in s.t.bufs ==> p.pushed == Delivered(st.calls) + b.data)
         && (k in s.t.retired ==> p.pushed == Delivered(st.calls) && b.complete && EndedBySender(st))
         && (k in s.t.bufs && EndedBySender(st) ==> s.sender == Ending(k))
  }

  /** What holds while the sending task flushes data or the end of stream `k`. */
  ghost predicate SenderOk(s: System, k: Sid)
    requires k in s.prods && k in s.t.h2.streams && (k in s.t.bufs || k in s.t.retired)
  {
    var b := s.t.Object(k);
    && (s.sender == Flushing(k) && b.data == [] ==> b.isEmpty || k in s.blank)
    && (s.sender == Ending(k) ==>
          b.Exhausted() && (b.isEmpty || k in s.blank) && EndedBySender(s.t.h2.streams[k])
          && !s.prods[k].pos.InPush? && s.t.h2.streams[k].status != Sendable)
  }

  /** Stream `k` has one buffer object, in the table together with a tree node, or retired. */
  ghost predicate Placed(s: System, k: Sid) {
    && k in s.prods && k in s.t.h2.streams
    && (k in s.t.bufs ==> k in s.t.tree.nodes)
    && (k in s.t.bufs <==> k !in s.t.retired)
    && (k in s.forced ==> k in s.t.retired)
    && (s.sender == Flushing(k) || s.sender == Ending(k) ==> k in s.t.bufs)
  }

  ghost predicate StreamOk(s: System, k: Sid) {
    && Placed(s, k)
    && (k in s.t.bufs && k !in s.t.tree.active ==> BlockedForReason(s, k))
    && ProducerOk(s, k)
    && BytesOk(s, k)
    && SenderOk(s, k)
  }

  ghost predicate Inv(s: System) {
    && TablesOk(s)
    && RequestsFresh(s)
    && (forall k <- s.prods :: StreamOk(s, k))
  }

  predicate SenderBuffered(s: System) {
    s.sender.Flushing? || s.sender.Ending? ==> s.sender.k in s.t.bufs
  }

  /** What the invariant says without looking into a stream. */
  lemma InvBasics(s: System)
    requires Inv(s)
    ensures RequestsFresh(s) && SenderBuffered(s)
    ensures s.sender.Flushing? || s.sender.Ending? ==> s.sender.k in s.t.bufs
    ensures s.prods.Keys <= s.t.h2.streams.Keys && s.t.bufs.Keys !! s.t.retired.Keys && s.t.h2.maxFrame >= 1
  {
    hide StreamOk, RequestsFresh;
  }

  // ---------------------------------------------------------------------------
  // Histories grow by one

  lemma PayloadSnoc(ops: seq<StreamEvent>, e: StreamEvent)
    ensures Payload(ops + [e]) ==
      (if Chunk(e).Some? && !BodyEnded(ops) then Payload(ops) + Chunk(e).value else Payload(ops))
    ensures BodyEnded(ops + [e]) <==> BodyEnded(ops) || EndsBody(e)
  {
    assert (ops + [e])[..|ops|] == ops;
    if BodyEnded(ops) {
      var x :| x in ops && EndsBody(x);
      assert x in ops + [e];
    }
    if EndsBody(e) {
      assert e in ops + [e];
    }
  }

  lemma DeliveredSnoc(calls: seq<Call>, c: Call)
    ensures Delivered(calls + [c]) == Delivered(calls) + (if c.SendData? then c.data else [])
  {
    assert (calls + [c])[..|calls|] == calls;
  }

  /** A call on a stream that may still be sent on keeps its calls in order. */
  lemma CallsSnoc(st: H2Stream, c: Call, status: Status, window: int)
    requires CallsOk(st) && st.status == Sendable
    requires c.SendData? ==> 0 < |c.data| <= c.room
    requires Final(c) <==> status != Sendable
    ensures var st' := H2Stream(status, window, st.calls + [c]);
      CallsOk(st') && !EndedBySender(st) && (EndedBySender(st') <==> c == EndStream)
  {
    assert forall x :: x in st.calls + [c] <==> x in st.calls || x == c;
  }

  // ---------------------------------------------------------------------------
  // Streams a step does not touch

  /** Nothing of stream `k` changes, except that it may be unblocked, and a reason for
      being blocked stays one. */
  ghost predicate Untouched(s: System, s': System, k: Sid)
    requires k in s.t.h2.streams && k in s.prods
  {
    && k in s'.prods && s'.prods[k] == s.prods[k]
    && (k in s.t.bufs <==> k in s'.t.bufs) && (k in s.t.bufs ==> s'.t.bufs[k] == s.t.bufs[k])
    && (k in s.t.retired <==> k in s'.t.retired) && (k in s.t.retired ==> s'.t.retired[k] == s.t.retired[k])
    && (k in s.forced <==> k in s'.forced)
    && (k in s.blank <==> k in s'.blank)
    && (k in s.t.tree.nodes ==> k in s'.t.tree.nodes)
    && k in s'.t.h2.streams && s'.t.h2.streams[k].calls == s.t.h2.streams[k].calls
    && (k in s.t.tree.active ==> k in s'.t.tree.active)
    && (s'.sender == s.sender || (s.sender != Ending(k) && s'.sender != Ending(k) && s'.sender != Flushing(k)))
  }

  ghost predicate StillBlocked(s: System, s': System, k: Sid)
    requires k in s.t.h2.streams && k in s'.t.h2.streams
  {
    var status, status' := s.t.h2.streams[k].status, s'.t.h2.streams[k].status;
    && (status != Sendable ==> status' != Sendable)
    && (s'.t.h2.Window(k) <= s.t.h2.Window(k) || Covered(s'.pending, k) || k in s'.t.tree.active)
    && (Covered(s.pending, k) ==> Covered(s'.pending, k) || k in s'.t.tree.active)
  }

  lemma UntouchedKeeps(s: System, s': System, k: Sid)
    requires StreamOk(s, k)
    requires Untouched(s, s', k) && StillBlocked(s, s', k)
    ensures StreamOk(s', k)
  {
    hide Delivered, Payload, BodyEnded, Covered;
  }

  // ---------------------------------------------------------------------------
  // The peer and the reader

  lemma ReceiveKeepsStream(s: System, frame: Frame, k: Sid)
    requires StreamOk(s, k) && Enabled(s, Receive(frame))
    ensures StreamOk(Step(s, Receive(frame)), k)
  {
    hide CallsOk, EndedBySender, Delivered, Payload, BodyEnded, Final;
    var s' := Step(s, Receive(frame));
    StreamKnown(s, k);
    hide StreamOk;
    assert forall e :: e in s.pending ==> e in s'.pending;
    assert forall e <- Reported(frame) :: e in s'.pending;
    assert Covered(s.pending, k) ==> Covered(s'.pending, k);
    UntouchedKeeps(s, s', k);
  }

  lemma ReceiveKeeps(s: System, frame: Frame)
    requires Inv(s) && Enabled(s, Receive(frame))
    ensures Inv(Step(s, Receive(frame)))
  {
    hide StreamOk;
    forall k <- s.prods ensures StreamOk(Step(s, Receive(frame)), k) {
      ReceiveKeepsStream(s, frame, k);
    }
    var s' := Step(s, Receive(frame));
    ReceiveKeepsTables(s, frame);
    ReceiveKeepsRequests(s, frame);
    hide TablesOk, RequestsFresh;
  }

  lemma ReceiveKeepsTables(s: System, frame: Frame)
    requires TablesOk(s) && Enabled(s, Receive(frame))
    ensures TablesOk(Step(s, Receive(frame)))
  {
  }

  lemma ReceiveKeepsRequests(s: System, frame: Frame)
    requires RequestsFresh(s) && s.prods.Keys <= s.t.h2.streams.Keys && Enabled(s, Receive(frame))
    ensures RequestsFresh(Step(s, Receive(frame)))
  {
    var s' := Step(s, Receive(frame));
    assert forall e :: e in s'.pending <==> e in s.pending || e in Reported(frame);
  }

  lemma NewStreamOk(s: System, k: Sid)
    requires Inv(s) && k in s.t.h2.streams && k !in s.prods
    ensures StreamOk(DoCreate(s, k), k)
  {
    assert Payload([]) == [] && Delivered([]) == [];
  }

  lemma CreateKeeps(s: System, k: Sid)
    requires Inv(s) && k in s.t.h2.streams && k !in s.prods && RequestReceived(k) !in s.pending
    ensures Inv(DoCreate(s, k))
  {
    hide StreamOk;
    var s' := DoCreate(s, k);
    forall j <- s'.prods ensures StreamOk(s', j) {
      if j != k {
        assert StreamOk(s, j);
        UntouchedKeeps(s, s', j);
      } else {
        NewStreamOk(s, k);
      }
    }
  }

  /** The first event is handled by unblocking at least the streams it covers. */
  ghost predicate Unblocks(s: System, s': System)
    requires s.pending != []
  {
    && s' == s.(pending := s.pending[1..], t := s.t.(tree := s'.t.tree, streams := s'.t.streams, hasData := true))
    && s'.t.tree.nodes == s.t.tree.nodes && s.t.tree.active <= s'.t.tree.active <= s.t.tree.active + s.t.bufs.Keys
    && (forall k <- s.t.bufs :: Covered(s.pending, k) ==> Covered(s'.pending, k) || k in s'.t.tree.active)
  }

  lemma UnblockKeeps(s: System, s': System)
    requires Inv(s) && s.pending != [] && Unblocks(s, s')
    ensures Inv(s')
  {
    assert forall e <- s'.pending :: e in s.pending;
    assert forall i :: 0 <= i < |s'.pending| ==> s'.pending[i] == s.pending[i + 1];
    assert TablesOk(s') && RequestsFresh(s') by { hide StreamOk, Covered; }
    forall k <- s'.prods ensures StreamOk(s', k) {
      UnblockKeepsStream(s, s', k) by { hide StreamOk; }
    }
    hide StreamOk;
  }

  lemma UnblockKeepsStream(s: System, s': System, k: Sid)
    requires StreamOk(s, k)
    requires s' == s.(pending := s'.pending, t := s.t.(tree := s'.t.tree, streams := s'.t.streams, hasData := true))
    requires s'.t.tree.nodes == s.t.tree.nodes && s.t.tree.active <= s'.t.tree.active
    requires k in s.t.bufs && Covered(s.pending, k) ==> Covered(s'.pending, k) || k in s'.t.tree.active
    ensures StreamOk(s', k)
  {
    hide Covered;
  }

  /** Taking a request off the list, and refusing it. */
  lemma RequestTaken(s: System, k: Sid)
    requires Inv(s) && s.pending != [] && s.pending[0] == RequestReceived(k)
    ensures Inv(s.(pending := s.pending[1..])) && RequestReceived(k) !in s.pending[1..]
    ensures k in s.t.h2.streams && k !in s.prods
    ensures Inv(Step(s, Read(true)))
  {
    hide StreamOk;
    var rest, s' := s.(pending := s.pending[1..]), Step(s, Read(true));
    TailFresh(s, rest);
    assert TablesOk(rest);
    RequestIsNew(s, k);
    hide TablesOk, RequestsFresh;
    assert forall x :: x in s.pending <==> x == s.pending[0] || x in rest.pending;
    forall j <- s.prods ensures StreamOk(rest, j) {
      UntouchedKeeps(s, rest, j) by { StreamKnown(s, j); }
    }
    RequestRefused(rest, k, s');
  }

  lemma RequestIsNew(s: System, k: Sid)
    requires RequestsFresh(s) && s.pending != [] && s.pending[0] == RequestReceived(k)
    ensures RequestReceived(k) !in s.pending[1..] && k in s.t.h2.streams && k !in s.prods
  {
    assert s.pending[0] in s.pending;
    assert forall i :: 0 < i < |s.pending| ==> s.pending[i] != s.pending[0];
  }

  lemma RequestRefused(s: System, k: Sid, s': System)
    requires Inv(s) && k in s.t.h2.streams && k !in s.prods
    requires s' == s.(t := s.t.(h2 := s.t.h2.(streams := s.t.h2.streams[k := s.t.h2.streams[k].(status := Reset)])))
    ensures Inv(s')
  {
    hide StreamOk;
    forall j <- s.prods ensures StreamOk(s', j) {
      UntouchedKeeps(s, s', j) by { StreamKnown(s, j); }
    }
  }

  lemma ReprioritizeKeeps(s: System, refuse: bool)
    requires Inv(s) && s.pending != [] && s.pending[0].PriorityUpdated?
    ensures Inv(Step(s, Read(refuse)))
  {
    hide StreamOk;
    var s' := Step(s, Read(refuse));
    ReprioritizeKeepsTables(s, refuse);
    TailFresh(s, s');
    hide TablesOk, RequestsFresh;
    assert forall x :: x in s.pending <==> x == s.pending[0] || x in s'.pending;
    forall j <- s.prods ensures StreamOk(s', j) {
      UntouchedKeeps(s, s', j) by { StreamKnown(s, j); }
    }
  }

  lemma ReprioritizeKeepsTables(s: System, refuse: bool)
    requires TablesOk(s) && s.pending != [] && s.pending[0].PriorityUpdated?
    ensures TablesOk(Step(s, Read(refuse)))
  {
  }

  /** Handling an event leaves the requests that were not handled fresh. */
  lemma TailFresh(s: System, s': System)
    requires RequestsFresh(s) && s.pending != [] && s'.pending == s.pending[1..]
    requires s'.prods == s.prods && s'.t.h2 == s.t.h2
    ensures RequestsFresh(s')
  {
    assert forall x <- s'.pending :: x in s.pending;
    assert forall i :: 0 <= i < |s'.pending| ==> s'.pending[i] == s.pending[i + 1];
  }

  lemma ReadKeeps(s: System, refuse: bool)
    requires Inv(s) && Enabled(s, Read(refuse))
    ensures Inv(Step(s, Read(refuse)))
  {
    hide StreamOk;
    var e := s.pending[0];
    assert e in s.pending;
    assert forall x :: x in s.pending <==> x == e || x in s.pending[1..];
    match e
    case RequestReceived(k) =>
      RequestTaken(s, k);
      if !refuse {
        CreateKeeps(s.(pending := s.pending[1..]), k);
      }
    case PriorityUpdated(names) => ReprioritizeKeeps(s, refuse);
    case _ => UnblockReadKeeps(s, refuse);
  }

  /** The events that unblock streams. */
  lemma UnblockReadKeeps(s: System, refuse: bool)
    requires Inv(s) && s.pending != [] && !s.pending[0].RequestReceived? && !s.pending[0].PriorityUpdated?
    ensures Inv(Step(s, Read(refuse)))
  {
    assert forall k <- s.t.bufs :: k in s.t.tree.nodes by { hide StreamOk, RequestsFresh; }
    hide Inv;
    EventUnblocks(s, refuse);
    hide Unblocks, Step;
    UnblockKeeps(s, Step(s, Read(refuse)));
  }

  lemma EventUnblocks(s: System, refuse: bool)
    requires s.pending != [] && !s.pending[0].RequestReceived? && !s.pending[0].PriorityUpdated?
    requires forall k <- s.t.bufs :: k in s.t.tree.nodes
    ensures Unblocks(s, Step(s, Read(refuse)))
  {
    forall k ensures CoverMoves(s.pending, k) {
      CoverTaken(s.pending, k);
    }
    hide Covered;
    var s' := Step(s, Read(refuse));
    assert s'.pending == s.pending[1..];
    match s.pending[0]
    case StreamReset(k) => assert s'.t.tree == (if k in s.t.bufs then s.t.tree.Unblock(k) else s.t.tree);
    case WindowUpdated(k) => assert s'.t.tree == (if k in s.t.bufs then s.t.tree.Unblock(k) else s.t.tree);
    case AllWindowsUpdated => assert s'.t.tree.active == s.t.tree.active + s.t.bufs.Keys;
  }

  /** Handling an event takes away only its own cover. */
  ghost predicate CoverMoves(pending: seq<H2Event>, k: Sid)
    requires pending != []
  {
    Covered(pending, k) ==>
      || Covered(pending[1..], k)
      || pending[0] == AllWindowsUpdated || pending[0] == WindowUpdated(k) || pending[0] == StreamReset(k)
  }

  lemma CoverTaken(pending: seq<H2Event>, k: Sid)
    requires pending != []
    ensures CoverMoves(pending, k)
  {
    assert forall x :: x in pending <==> x == pending[0] || x in pending[1..];
  }

  lemma PromiseKeeps(s: System, k: Sid, window: int)
    requires Inv(s) && Enabled(s, Promise(k, window))
    ensures Inv(Step(s, Promise(k, window)))
  {
    hide StreamOk;
    var s1 := s.(t := s.t.(h2 := ReceiveH2(s.t.h2, HeadersFrame(k, window))));
    forall j <- s.prods ensures StreamOk(s1, j) {
      assert StreamOk(s, j);
      UntouchedKeeps(s, s1, j);
    }
    CreateKeeps(s1, k);
  }

  lemma LostKeeps(s: System)
    requires Inv(s)
    ensures Inv(Step(s, Lost))
  {
    hide StreamOk;
    forall k <- s.prods ensures StreamOk(Step(s, Lost), k) {
      assert StreamOk(s, k);
      UntouchedKeeps(s, Step(s, Lost), k);
    }
  }

  // ---------------------------------------------------------------------------
  // Producers

  /** All that a step of the producer of `k` may change in the tables. */
  ghost predicate TablesStep(t: Tables, t': Tables, k: Sid) {
    && t'.bufs.Keys == t.bufs.Keys && t'.retired.Keys == t.retired.Keys
    && (forall j <- t.bufs :: j != k ==> t'.bufs[j] == t.bufs[j])
    && (forall j <- t.retired :: j != k ==> t'.retired[j] == t.retired[j])
    && t'.tree.nodes == t.tree.nodes
    && (t'.tree.active == t.tree.active || (k in t.tree.nodes && t'.tree.active == t.tree.active + {k} && t'.hasData))
    && (t.hasData ==> t'.hasData)
    && t'.closed == t.closed
    && t'.h2.streams.Keys == t.h2.streams.Keys && t'.h2.connWindow <= t.h2.connWindow
    && t'.h2.maxFrame == t.h2.maxFrame
    && (forall j <- t.h2.streams :: j != k ==> t'.h2.streams[j] == t.h2.streams[j])
  }

  ghost predicate ProducerStep(s: System, s': System, k: Sid) {
    && k in s.prods && k in s'.prods && s'.prods == s.prods[k := s'.prods[k]]
    && s'.sender == s.sender && s'.pending == s.pending
    && s'.forced == s.forced && s'.revived == s.revived && (s'.blank == s.blank || s'.blank == s.blank + {k})
    && TablesStep(s.t, s'.t, k)
  }

  lemma BodyIsTablesStep(t: Tables, k: Sid, data: Bytes)
    ensures TablesStep(t, SendBody(t, k, data).0, k)
  {
  }

  lemma HeadersAreTablesStep(t: Tables, k: Sid, endStream: bool, data: Bytes)
    ensures TablesStep(t, SendHeaderBlock(t, k, endStream), k)
    ensures TablesStep(t, SendFlushed(t, k, data), k)
  {
    FlushIsTablesStep(t, k, data);
    hide SendFlushed;
  }

  lemma FlushIsTablesStep(t: Tables, k: Sid, data: Bytes)
    ensures TablesStep(t, SendFlushed(t, k, data), k)
  {
  }

  lemma EndIsTablesStep(t: Tables, k: Sid, endStream: bool)
    ensures TablesStep(t, SendEnd(t, k).0, k)
    ensures TablesStep(t, SendTrailers(t, k, endStream).0, k)
    ensures TablesStep(t, CloseStream(t, k), k)
    ensures TablesStep(t, t, k)
  {
  }

  lemma SendIsTablesStep(t: Tables, k: Sid, e: StreamEvent)
    ensures TablesStep(t, StreamSend(t, k, e).0, k)
  {
    hide TablesStep;
    BodyIsTablesStep(t, k, BodyBytes(e));
    HeadersAreTablesStep(t, k, false, BodyBytes(e));
    HeadersAreTablesStep(t, k, true, []);
    EndIsTablesStep(t, k, e.TrailerHeadersSend? && e.endStream);
  }

  lemma TablesStepsCompose(t: Tables, t1: Tables, t2: Tables, k: Sid)
    requires TablesStep(t, t1, k) && TablesStep(t1, t2, k)
    ensures TablesStep(t, t2, k)
  {
  }

  lemma ResumeIsTablesStep(t: Tables, k: Sid, endStream: bool, raw: Bytes)
    ensures TablesStep(t, ResumePush(t, k), k)
    ensures TablesStep(t, ResumeTrailers(t, k, endStream, raw).0, k)
  {
    assert TablesStep(t, ResumePush(t, k), k);
    hide SendBody, SendHeaderBlock, TablesStep, ResumePush;
    var t1 := SendHeaderBlock(t, k, endStream);
    HeadersAreTablesStep(t, k, endStream, []);
    BodyIsTablesStep(t1, k, raw);
    TablesStepsCompose(t, t1, SendBody(t1, k, raw).0, k);
    EndIsTablesStep(t, k, endStream);
  }

  lemma SendIsProducerStep(s: System, k: Sid, e: StreamEvent)
    requires Enabled(s, Send(k, e))
    ensures ProducerStep(s, Step(s, Send(k, e)), k)
  {
    hide TablesStep, StreamSend;
    SendIsTablesStep(s.t, k, e);
  }

  lemma ContinueIsProducerStep(s: System, k: Sid, raw: Bytes)
    requires Enabled(s, Continue(k, raw))
    ensures ProducerStep(s, Step(s, Continue(k, raw)), k)
  {
    assert TablesStep(s.t, s.t, k);
    hide TablesStep, ResumeTrailers, ResumePush;
    if s.prods[k].pos.InTrailers? {
      ResumeIsTablesStep(s.t, k, s.prods[k].pos.endStream, raw);
    } else {
      ResumeIsTablesStep(s.t, k, true, raw);
    }
  }

  lemma ProducerStepKeeps(s: System, s': System, k: Sid)
    requires Inv(s) && ProducerStep(s, s', k) && StreamOk(s', k)
    ensures Inv(s')
  {
    hide StreamOk;
    OthersKeep(s, s', k);
    assert k in s.t.tree.nodes ==> k in s.t.bufs || k in s.revived;
    assert TablesOk(s');
  }

  /** A step of the producer of `k` leaves the other streams alone. */
  lemma OthersKeep(s: System, s': System, k: Sid)
    requires Inv(s) && ProducerStep(s, s', k)
    ensures forall j <- s.prods :: j != k ==> StreamOk(s', j)
  {
    hide StreamOk;
    forall j <- s.prods | j != k ensures StreamOk(s', j) {
      StreamKnown(s, j);
      UntouchedKeeps(s, s', j);
    }
  }

  lemma StreamKnown(s: System, k: Sid)
    ensures StreamOk(s, k) ==> Placed(s, k)
  {
  }

  lemma FlushedKeepsStream(s: System, k: Sid, e: StreamEvent)
    requires StreamOk(s, k) && Enabled(s, Send(k, e)) && e.Body? && e.flush
    ensures StreamOk(Step(s, Send(k, e)), k)
  {
    hide CallsOk, EndedBySender, Delivered, Payload, BodyEnded, Covered;
    var st := s.t.h2.streams[k];
    PayloadSnoc(s.prods[k].ops, e);
    DeliveredSnoc(st.calls, SendDirect(e.data));
    if s.t.h2.CanSend(k) {
      CallsSnoc(st, SendDirect(e.data), Sendable, st.window - |e.data|);
    }
  }

  predicate HeadersOnly(e: StreamEvent) {
    e.Response? || e.InformationalResponse? || e == EndBody(true)
  }

  lemma HeadersKeepStream(s: System, k: Sid, e: StreamEvent)
    requires StreamOk(s, k) && Enabled(s, Send(k, e)) && HeadersOnly(e)
    ensures StreamOk(Step(s, Send(k, e)), k)
  {
    hide CallsOk, EndedBySender, Delivered, Payload, BodyEnded, Covered;
    var st, ending := s.t.h2.streams[k], e.EndBody?;
    PayloadSnoc(s.prods[k].ops, e);
    DeliveredSnoc(st.calls, SendHeaders(ending));
    if s.t.h2.CanSend(k) {
      CallsSnoc(st, SendHeaders(ending), if ending then Ended else Sendable, st.window);
    }
  }

  /** Trailers up to their drain, closing, and what HTTP/2 ignores. */
  lemma OtherEventKeepsStream(s: System, k: Sid, e: StreamEvent)
    requires StreamOk(s, k) && Enabled(s, Send(k, e))
    requires e.TrailerHeadersSend? || e.StreamClosed? || e.ZeroCopySend? || e.ServerPush?
    ensures StreamOk(Step(s, Send(k, e)), k)
  {
    hide CallsOk, EndedBySender, Delivered, Payload, BodyEnded, Covered, Final;
    PayloadSnoc(s.prods[k].ops, e);
  }

  lemma PushKeepsStream(s: System, k: Sid, e: StreamEvent)
    requires StreamOk(s, k) && Enabled(s, Send(k, e)) && Chunk(e).Some?
    ensures StreamOk(Step(s, Send(k, e)), k)
  {
    hide CallsOk, EndedBySender, Delivered, Payload, BodyEnded, Covered, Final;
    PayloadSnoc(s.prods[k].ops, e);
  }

  lemma EndKeepsStream(s: System, k: Sid, e: StreamEvent)
    requires StreamOk(s, k) && Enabled(s, Send(k, e)) && EndsBody(e)
    ensures StreamOk(Step(s, Send(k, e)), k)
  {
    hide CallsOk, EndedBySender, Delivered, Payload, BodyEnded, Covered, Final;
    PayloadSnoc(s.prods[k].ops, e);
  }

  lemma SendKeeps(s: System, k: Sid, e: StreamEvent)
    requires Inv(s) && Enabled(s, Send(k, e))
    ensures Inv(Step(s, Send(k, e)))
  {
    hide StreamOk, Step;
    StreamKnown(s, k);
    SendIsProducerStep(s, k, e);
    if Chunk(e).Some? {
      PushKeepsStream(s, k, e);
    } else if EndsBody(e) {
      EndKeepsStream(s, k, e);
    } else if HeadersOnly(e) {
      HeadersKeepStream(s, k, e);
    } else if e.Body? {
      FlushedKeepsStream(s, k, e);
    } else {
      OtherEventKeepsStream(s, k, e);
    }
    ProducerStepKeeps(s, Step(s, Send(k, e)), k);
  }

  lemma ContinuePushKeepsStream(s: System, k: Sid, raw: Bytes)
    requires StreamOk(s, k) && Enabled(s, Continue(k, raw)) && !s.prods[k].pos.InTrailers?
    ensures StreamOk(Step(s, Continue(k, raw)), k)
  {
    hide CallsOk, EndedBySender, Delivered, Payload, BodyEnded, Covered, Final;
  }

  lemma ContinueTrailersKeepsStream(s: System, k: Sid, raw: Bytes)
    requires StreamOk(s, k) && Enabled(s, Continue(k, raw)) && s.prods[k].pos.InTrailers?
    ensures StreamOk(Step(s, Continue(k, raw)), k)
  {
    hide Delivered, Payload, BodyEnded, Covered, CallsOk, EndedBySender;
    if s.t.h2.CanSend(k) {
      var endStream := s.prods[k].pos.endStream;
      var s1 := s.(t := SendHeaderBlock(s.t, k, endStream), prods := s.prods[k := s.prods[k].(pos := Idle)]);
      TrailerBlockKeepsStream(s, k);
      hide StreamOk;
      if !endStream && raw != [] {
        hide Step;
        TrailerFrameKeepsStream(s1, k, raw);
        TrailerFrameSplit(s, k, raw);
      }
    }
  }

  /** The trailer block itself. */
  lemma TrailerBlockKeepsStream(s: System, k: Sid)
    requires StreamOk(s, k) && s.prods[k].pos.InTrailers? && s.t.h2.CanSend(k)
    ensures var endStream := s.prods[k].pos.endStream;
      StreamOk(s.(t := SendHeaderBlock(s.t, k, endStream), prods := s.prods[k := s.prods[k].(pos := Idle)]), k)
  {
    hide Delivered, Payload, BodyEnded, Covered, CallsOk, EndedBySender;
    var st := s.t.h2.streams[k];
    var ending := s.prods[k].pos.endStream;
    DeliveredSnoc(st.calls, SendHeaders(ending));
    CallsSnoc(st, SendHeaders(ending), if ending then Ended else Sendable, st.window);
  }

  /** The frame pushed after it is a chunk like any other. */
  lemma TrailerFrameKeepsStream(s: System, k: Sid, raw: Bytes)
    requires StreamOk(s, k) && Enabled(s, Send(k, Data(raw))) && raw != []
    ensures StreamOk(Step(s, Send(k, Data(raw))), k)
  {
    PushKeepsStream(s, k, Data(raw));
  }

  lemma TrailerFrameSplit(s: System, k: Sid, raw: Bytes)
    requires Enabled(s, Continue(k, raw)) && s.prods[k].pos == InTrailers(false) && raw != [] && s.t.h2.CanSend(k)
    ensures var s1 := s.(t := SendHeaderBlock(s.t, k, false), prods := s.prods[k := s.prods[k].(pos := Idle)]);
      Step(s, Continue(k, raw)) == Step(s1, Send(k, Data(raw)))
  {
    hide SendBody, Payload;
    var s1 := s.(t := SendHeaderBlock(s.t, k, false), prods := s.prods[k := s.prods[k].(pos := Idle)]);
    assert s1.blank == s.blank && Pushed(s1, k, Data(raw)) == Pushed(s, k, Data(raw));
    var p := Producer(SendBody(s1.t, k, raw).1, Pushed(s, k, Data(raw)), s.prods[k].ops + [Data(raw)]);
    assert s1.prods[k := p] == s.prods[k := p];
  }

  lemma ContinueKeeps(s: System, k: Sid, raw: Bytes)
    requires Inv(s) && Enabled(s, Continue(k, raw))
    ensures Inv(Step(s, Continue(k, raw)))
  {
    hide StreamOk, Step;
    StreamKnown(s, k);
    ContinueIsProducerStep(s, k, raw);
    if s.prods[k].pos.InTrailers? {
      ContinueTrailersKeepsStream(s, k, raw);
    } else {
      ContinuePushKeepsStream(s, k, raw);
    }
    ProducerStepKeeps(s, Step(s, Continue(k, raw)), k);
  }

  // ---------------------------------------------------------------------------
  // The sending task

  /** All that a step of the sending task on stream `k` may change. */
  ghost predicate SenderStep(s: System, s': System, k: Sid) {
    && (s.sender == Ready || s.sender == Flushing(k) || s.sender == Ending(k))
    && (s'.sender == Ready || s'.sender == Flushing(k) || s'.sender == Ending(k))
    && s'.prods == s.prods && s'.pending == s.pending && s'.revived == s.revived
    && s'.blank <= s.blank && (forall j <- s.blank :: j != k ==> j in s'.blank)
    && (forall j <- s.forced :: j in s'.forced) && (forall j <- s'.forced :: j != k ==> j in s.forced)
    && (forall j :: j != k ==> (j in s.t.bufs <==> j in s'.t.bufs) && (j in s.t.retired <==> j in s'.t.retired))
    && (forall j <- s.t.bufs :: j != k ==> s'.t.bufs[j] == s.t.bufs[j])
    && (forall j <- s.t.retired :: j != k ==> s'.t.retired[j] == s.t.retired[j])
    && (forall j :: j != k ==> (j in s.t.tree.active <==> j in s'.t.tree.active))
    && (forall j :: j != k ==> (j in s.t.tree.nodes <==> j in s'.t.tree.nodes))
    && k in s.t.bufs
    && (k in s'.t.bufs <==> k !in s'.t.retired)
    && (k in s'.t.tree.nodes <==> k in s'.t.bufs) && (k in s'.t.tree.active ==> k in s'.t.bufs)
    && (k in s'.forced ==> k in s'.t.retired)
    && (s'.sender != Ready ==> k in s'.t.bufs)
    && s'.t.closed == s.t.closed
    && s'.t.h2.streams.Keys == s.t.h2.streams.Keys && s'.t.h2.connWindow <= s.t.h2.connWindow
    && s'.t.h2.maxFrame == s.t.h2.maxFrame
    && (forall j <- s.t.h2.streams :: j != k ==> s'.t.h2.streams[j] == s.t.h2.streams[j])
  }

  lemma SenderOthersKeep(s: System, s': System, k: Sid, j: Sid)
    requires StreamOk(s, j) && SenderStep(s, s', k) && j != k
    ensures StreamOk(s', j)
  {
    StreamKnown(s, j);
    UntouchedKeeps(s, s', j) by { hide StreamOk; }
  }

  lemma SenderStepKeeps(s: System, s': System, k: Sid)
    requires Inv(s) && SenderStep(s, s', k) && StreamOk(s', k)
    ensures Inv(s')
  {
    hide StreamOk;
    forall j <- s.prods ensures StreamOk(s', j) {
      if j != k { SenderOthersKeep(s, s', k, j); }
    }
    StreamKnown(s', k);
    SenderStepKeepsTables(s, s', k);
  }

  lemma SenderStepKeepsTables(s: System, s': System, k: Sid)
    requires TablesOk(s) && RequestsFresh(s) && SenderStep(s, s', k) && Placed(s', k)
    ensures TablesOk(s') && RequestsFresh(s')
  {
    assert forall j :: j in s'.prods <==> j in s'.t.bufs || j in s'.t.retired;
    assert s'.prods.Keys == s'.t.bufs.Keys + s'.t.retired.Keys;
  }

  /** The sending task takes data off a buffer and hands it to h2. */
  lemma PickData(s: System, k: Sid)
    requires StreamOk(s, k) && k in s.t.bufs && Enabled(s, Pick(k)) && s.t.h2.maxFrame >= 1
    requires SendStep(s.t, k).1 == Flushing(k)
    ensures var s' := Step(s, Pick(k)); StreamOk(s', k) && SenderStep(s, s', k)
  {
    StreamKnown(s, k);
    PickDataKeepsStream(s, k);
    PickDataMoves(s, k) by { hide StreamOk; }
    hide StreamOk, Step, SenderStep;
  }

  lemma PickDataMoves(s: System, k: Sid)
    requires Placed(s, k) && k in s.t.bufs && Enabled(s, Pick(k)) && SendStep(s.t, k).1 == Flushing(k)
    ensures SenderStep(s, Step(s, Pick(k)), k)
  {
    hide Pop;
  }

  lemma PickDataKeepsStream(s: System, k: Sid)
    requires StreamOk(s, k) && k in s.t.bufs && Enabled(s, Pick(k)) && s.t.h2.maxFrame >= 1
    requires SendStep(s.t, k).1 == Flushing(k)
    ensures StreamOk(Step(s, Pick(k)), k)
  {
    var s' := Step(s, Pick(k));
    PickDataEffect(s, k);
    PickDataKeepsBytes(s, k);
    hide Step, SendStep, CallsOk, EndedBySender, Delivered, Payload, BodyEnded, Covered, BytesOk;
    assert ProducerOk(s', k) && SenderOk(s', k);
  }

  /** What taking data changes: the buffer, the calls on the stream and the windows. */
  lemma PickDataEffect(s: System, k: Sid)
    requires k in s.t.bufs && Enabled(s, Pick(k)) && SendStep(s.t, k).1 == Flushing(k)
    ensures k in s.t.h2.streams && s.t.h2.CanSend(k)
    ensures var s', room := Step(s, Pick(k)), Min(s.t.h2.Window(k), s.t.h2.maxFrame);
      var (b, data) := Pop(s.t.bufs[k], Max(0, room));
      && data != []
      && s' == s.(sender := Flushing(k), blank := s.blank - {k},
           t := s.t.(bufs := s.t.bufs[k := b], h2 := s.t.h2.Record(k, SendData(data, room), Sendable, |data|)))
  {
    hide Pop;
  }

  lemma PickDataKeepsBytes(s: System, k: Sid)
    requires Placed(s, k) && BytesOk(s, k) && k in s.t.bufs && Enabled(s, Pick(k)) && s.t.h2.maxFrame >= 1
    requires SendStep(s.t, k).1 == Flushing(k)
    ensures Placed(Step(s, Pick(k)), k) && BytesOk(Step(s, Pick(k)), k)
  {
    PickDataEffect(s, k);
    var s' := Step(s, Pick(k));
    hide Step, SendStep, BytesOk;
    var room := Min(s.t.h2.Window(k), s.t.h2.maxFrame);
    var (b, data) := Pop(s.t.bufs[k], Max(0, room));
    assert s.t.bufs[k].data == data + b.data && b.complete == s.t.bufs[k].complete && |data| <= room;
    hide Pop;
    TakenKeepsBytes(s, s', k, data, room);
  }

  lemma TakenKeepsBytes(s: System, s': System, k: Sid, data: Bytes, room: int)
    requires Placed(s, k) && Placed(s', k) && BytesOk(s, k) && k in s.t.bufs && k in s'.t.bufs
    requires s'.sender == Flushing(k)
    requires s.sender == Ready && s'.prods[k] == s.prods[k]
    requires s.t.bufs[k].data == data + s'.t.bufs[k].data && s'.t.bufs[k].complete == s.t.bufs[k].complete
    requires var st := s.t.h2.streams[k];
      st.status == Sendable && 0 < |data| <= room
      && s'.t.h2.streams[k] == H2Stream(Sendable, st.window - |data|, st.calls + [SendData(data, room)])
    ensures BytesOk(s', k)
  {
    hide CallsOk, EndedBySender, Delivered, Payload, BodyEnded;
    var st := s.t.h2.streams[k];
    DeliveredSnoc(st.calls, SendData(data, room));
    CallsSnoc(st, SendData(data, room), Sendable, st.window - |data|);
    Regroup(Delivered(st.calls), data, s'.t.bufs[k].data);
  }

  lemma Regroup(a: Bytes, b: Bytes, c: Bytes)
    ensures a + (b + c) == a + b + c
  {
  }

  /** Nothing could be taken: the stream is blocked, or ended when it is exhausted. */
  lemma PickNothing(s: System, k: Sid)
    requires StreamOk(s, k) && k in s.t.bufs && Enabled(s, Pick(k)) && s.t.h2.maxFrame >= 1
    requires s.t.h2.HasWindow(k)
    requires Pop(s.t.bufs[k], Max(0, Min(s.t.h2.Window(k), s.t.h2.maxFrame))).1 == []
    requires !s.t.bufs[k].Exhausted() || s.t.h2.CanSend(k)
    ensures var s' := Step(s, Pick(k)); StreamOk(s', k) && SenderStep(s, s', k)
  {
    hide CallsOk, EndedBySender, Delivered, Payload, BodyEnded, Covered;
    var st := s.t.h2.streams[k];
    var b := s.t.bufs[k];
    assert b.data[0..] == b.data;
    DeliveredSnoc(st.calls, EndStream);
    if s.t.h2.CanSend(k) {
      CallsSnoc(st, EndStream, Ended, st.window);
    }
  }

  ghost predicate ForceClosed(s: System, s': System, k: Sid) {
    s' == s.(t := s.t.Retire(k, Close(EMPTY_BUFFER)), sender := Ready, forced := s.forced + {k}, blank := s.blank - {k})
  }

  lemma ForceClosedOk(s: System, s': System, k: Sid)
    requires StreamOk(s, k) && k in s.t.bufs && ForceClosed(s, s', k)
    requires s.sender == Ready || s.sender == Flushing(k)
    ensures StreamOk(s', k) && SenderStep(s, s', k)
  {
    hide CallsOk, EndedBySender, Delivered, Payload, BodyEnded, Covered;
  }

  lemma PickFails(s: System, k: Sid)
    requires k in s.t.bufs && k in s.t.tree.nodes && Enabled(s, Pick(k)) && k !in s.forced
    requires SendStep(s.t, k).1 == Ready && k !in SendStep(s.t, k).0.bufs
    ensures ForceClosed(s, Step(s, Pick(k)), k)
  {
    var s' := Step(s, Pick(k));
    assert s'.t.bufs == s.t.bufs - {k};
    assert s'.t.retired == s.t.retired[k := Close(EMPTY_BUFFER)];
    assert s'.t.tree == s.t.tree.Remove(k);
  }

  lemma PickKeeps(s: System, k: Sid)
    requires Inv(s) && Enabled(s, Pick(k))
    ensures Inv(Step(s, Pick(k)))
  {
    hide StreamOk, Step;
    if k in s.t.bufs {
      var s' := Step(s, Pick(k));
      StreamKnown(s, k);
      if SendStep(s.t, k).1 == Flushing(k) {
        PickData(s, k);
      } else if SendStep(s.t, k).1 == Ending(k) || k in SendStep(s.t, k).0.bufs {
        PickNothing(s, k);
      } else {
        PickFails(s, k);
        ForceClosedOk(s, s', k);
      }
      SenderStepKeeps(s, s', k);
    } else {
      CrashKeeps(s, k);
    }
  }

  /** A tree node without a buffer was chosen: the `except` branch raises again. */
  lemma CrashKeeps(s: System, k: Sid)
    requires Inv(s) && Enabled(s, Pick(k)) && k !in s.t.bufs
    ensures Step(s, Pick(k)) == s.(sender := Crashed)
    ensures Inv(Step(s, Pick(k)))
  {
    assert Step(s, Pick(k)) == s.(sender := Crashed) by { hide Inv; }
    hide StreamOk, Step, RequestsFresh;
    SenderMoveKeeps(s, s.(sender := Crashed));
  }

  /** The sending task moves without touching the tables, except for `has_data`. */
  lemma SenderMoveKeeps(s: System, s': System)
    requires Inv(s) && TablesOk(s')
    requires !s.sender.Ending? && !s'.sender.Ending? && !s'.sender.Flushing?
    requires s' == s.(sender := s'.sender, t := s.t.(hasData := s'.t.hasData))
    ensures Inv(s')
  {
    hide StreamOk;
    forall k <- s.prods ensures StreamOk(s', k) {
      StreamKnown(s, k);
      UntouchedKeeps(s, s', k);
    }
  }

  lemma FlushedKeeps(s: System)
    requires Inv(s) && Enabled(s, Flushed)
    ensures Inv(Step(s, Flushed))
  {
    hide StreamOk, Step;
    var k := s.sender.k;
    var s' := Step(s, Flushed);
    StreamKnown(s, k);
    if s.sender.Ending? {
      FinishOk(s, k);
    } else if CheckComplete(s.t, k).1 == Ending(k) || k in CheckComplete(s.t, k).0.bufs {
      CheckCompleteOk(s, k);
    } else {
      CheckCompleteFails(s, k);
      ForceClosedOk(s, s', k);
    }
    SenderStepKeeps(s, s', k);
  }

  lemma FinishOk(s: System, k: Sid)
    requires StreamOk(s, k) && s.sender == Ending(k)
    ensures var s' := Step(s, Flushed); StreamOk(s', k) && SenderStep(s, s', k)
  {
    hide CallsOk, EndedBySender, Delivered, Payload, BodyEnded, Covered;
  }

  lemma CheckCompleteOk(s: System, k: Sid)
    requires StreamOk(s, k) && s.sender == Flushing(k) && k in CheckComplete(s.t, k).0.bufs
    ensures var s' := Step(s, Flushed); StreamOk(s', k) && SenderStep(s, s', k)
  {
    hide CallsOk, EndedBySender, Delivered, Payload, BodyEnded, Covered;
    var st := s.t.h2.streams[k];
    DeliveredSnoc(st.calls, EndStream);
    if s.t.h2.CanSend(k) {
      CallsSnoc(st, EndStream, Ended, st.window);
    }
  }

  lemma CheckCompleteFails(s: System, k: Sid)
    requires Placed(s, k) && s.sender == Flushing(k) && k !in CheckComplete(s.t, k).0.bufs
    ensures ForceClosed(s, Step(s, Flushed), k)
  {
  }

  // ---------------------------------------------------------------------------
  // Every run

  lemma InitOk(connWindow: int)
    ensures Inv(Init(connWindow))
  {
  }

  lemma StepKeeps(s: System, a: Action)
    requires Inv(s) && Enabled(s, a)
    ensures Inv(Step(s, a))
  {
    hide StreamOk;
    match a
    case Receive(frame) => ReceiveKeeps(s, frame);
    case Read(refuse) => ReadKeeps(s, refuse);
    case Lost => LostKeeps(s);
    case Promise(k, window) => PromiseKeeps(s, k, window);
    case Send(k, e) => SendKeeps(s, k, e);
    case Continue(k, raw) => ContinueKeeps(s, k, raw);
    case Pick(k) => PickKeeps(s, k);
    case Flushed => FlushedKeeps(s);
    case _ => SenderMoveKeeps(s, Step(s, a));
  }

  /** The invariant holds in every state of every run. */
  lemma {:induction false} RunKeeps(s: System, run: seq<Action>)
    requires Inv(s) && Legal(s, run)
    ensures Inv(Run(s, run))
    decreases |run|
  {
    hide Inv, Step;
    if run != [] {
      StepKeeps(s, run[0]);
      RunKeeps(Step(s, run[0]), run[1..]);
    }
  }
}
