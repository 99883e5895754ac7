/** What h2 is told on a stream, and why: each call in the history of a stream goes back to an
    event of its application or a pick of the sending task. */
module H2Laws {
  import opened Bytes
  import opened StreamEvents
  import opened StreamBuffers
  import opened H2Tables
  import opened H2System
  import opened H2Invariant
  import opened H2Theorems

  // ---------------------------------------------------------------------------
  // What h2 is told

  /** h2 still takes frames on the stream. */
  predicate TakenBy(h: H2, k: Sid) {
    k in h.streams && h.streams[k].status == Sendable && !h.terminated
  }

  predicate Takes(s: System, k: Sid) { TakenBy(s.t.h2, k) }

  /** A head for a response or an informational response, a head that ends the stream for an
      end of body with headers, and a flushed body when windows and frame size have room. */
  function EventCalls(h: H2, k: Sid, e: StreamEvent): seq<Call>
    requires k in h.streams
  {
    match e
    case Response(_) => [SendHeaders(false)]
    case InformationalResponse(_) => [SendHeaders(false)]
    case EndBody(withHeaders) => if withHeaders then [SendHeaders(true)] else []
    case Body(data, flush) =>
      if flush && |data| <= h.connWindow && |data| <= h.streams[k].window && |data| <= h.maxFrame
      then [SendDirect(data)] else []
    case _ => []
  }

  /** As much of the buffer as both windows and the frame size allow, or the end of the stream
      when nothing is left and nothing will come. */
  function PickCalls(h: H2, k: Sid, b: Buffer): seq<Call>
    requires k in h.streams
  {
    var room :=
      if h.connWindow <= h.streams[k].window && h.connWindow <= h.maxFrame then h.connWindow
      else if h.streams[k].window <= h.maxFrame then h.streams[k].window
      else h.maxFrame;
    if room > 0 && b.data != [] then [SendData(if |b.data| <= room then b.data else b.data[..room], room)]
    else if b.data == [] && b.complete then [EndStream]
    else []
  }

  /** The calls an action makes on stream `k`: none when h2 does not take them. */
  function Told(s: System, a: Action, k: Sid): seq<Call> {
    if !Takes(s, k) then []
    else
      match a
      case Send(j, e) => if j == k then EventCalls(s.t.h2, k, e) else []
      case Continue(j, _) =>
        if j == k && k in s.prods && s.prods[k].pos.InTrailers? then [SendHeaders(s.prods[k].pos.endStream)] else []
      case Pick(j) =>
        if j == k && k in s.t.bufs && k !in s.t.h2.purged then PickCalls(s.t.h2, k, s.t.bufs[k]) else []
      case Flushed =>
        if s.sender == Flushing(k) && k in s.t.bufs && s.t.bufs[k].data == [] && s.t.bufs[k].complete
        then [EndStream] else []
      case _ => []
  }

  /** h2 after calls on stream `k`: DATA uses up both windows, an end of stream ends it. */
  ghost predicate After(h: H2, h': H2, k: Sid, calls: seq<Call>)
    requires k in h.streams
  {
    && k in h'.streams && h'.terminated == h.terminated
    && h'.streams[k].calls == h.streams[k].calls + calls
    && h'.streams[k].status == (if exists c <- calls :: Final(c) then Ended else h.streams[k].status)
    && h'.connWindow == h.connWindow - Used(calls) && h'.streams[k].window == h.streams[k].window - Used(calls)
  }

  /** The bytes of the DATA calls. */
  function Used(calls: seq<Call>): nat {
    if calls == [] then 0
    else
      Used(calls[1..]) + match calls[0] case SendData(data, _) => |data| case SendDirect(data) => |data| case _ => 0
  }

  lemma OneCall(h: H2, k: Sid, c: Call, status: Status, used: nat)
    requires k in h.streams && used == Used([c]) && status == (if Final(c) then Ended else h.streams[k].status)
    ensures After(h, h.Record(k, c, status, used), k, [c])
  {
    assert [c][0] == c && [c][1..] == [];
    assert c in [c];
  }

  lemma NoCall(h: H2, k: Sid)
    requires k in h.streams
    ensures After(h, h, k, [])
  {
    assert h.streams[k].calls + [] == h.streams[k].calls;
  }

  lemma UsedOne(c: Call)
    ensures Used([c]) == match c case SendData(data, _) => |data| case SendDirect(data) => |data| case _ => 0
  {
    assert [c][1..] == [];
  }

  lemma EventTold(t: Tables, k: Sid, e: StreamEvent)
    requires k in t.h2.streams
    ensures After(t.h2, StreamSend(t, k, e).0.h2, k, if TakenBy(t.h2, k) then EventCalls(t.h2, k, e) else [])
  {
    var h := t.h2;
    NoCall(h, k);
    if TakenBy(h, k) {
      UsedOne(SendHeaders(false));
      UsedOne(SendHeaders(true));
      OneCall(h, k, SendHeaders(false), Sendable, 0);
      OneCall(h, k, SendHeaders(true), Ended, 0);
      if e.Body? {
        UsedOne(SendDirect(e.data));
        OneCall(h, k, SendDirect(e.data), Sendable, |e.data|);
      }
    }
    hide After, Push, SetComplete;
  }

  lemma TrailersTold(t: Tables, k: Sid, endStream: bool, raw: Bytes)
    requires k in t.h2.streams
    ensures var told := if TakenBy(t.h2, k) then [SendHeaders(endStream)] else [];
      After(t.h2, ResumeTrailers(t, k, endStream, raw).0.h2, k, told)
  {
    NoCall(t.h2, k);
    if TakenBy(t.h2, k) {
      UsedOne(SendHeaders(endStream));
      OneCall(t.h2, k, SendHeaders(endStream), if endStream then Ended else Sendable, 0);
    }
    hide After, Push;
  }

  /** How much of the buffer a pick takes. */
  lemma PopTakes(b: Buffer, h: H2, k: Sid)
    requires k in h.streams
    ensures var room := Min(h.Window(k), h.maxFrame); var (rest, data) := Pop(b, Max(0, room));
      && PickCalls(h, k, b) ==
           (if data != [] then [SendData(data, room)] else if b.data == [] && b.complete then [EndStream] else [])
      && rest.complete == b.complete && (data == [] ==> rest.data == b.data)
  {
    assert b.data[..|b.data|] == b.data && b.data[0..] == b.data;
  }

  /** h2 after a pick, with the buffer that is left and the data taken from it. */
  lemma PickH2(t: Tables, k: Sid)
    requires k in t.h2.streams && k in t.bufs && k !in t.h2.purged
    ensures var room := Min(t.h2.Window(k), t.h2.maxFrame); var (rest, data) := Pop(t.bufs[k], Max(0, room));
      SendStep(t, k).0.h2 ==
        if !t.h2.CanSend(k) then t.h2
        else if data != [] then t.h2.Record(k, SendData(data, room), Sendable, |data|)
        else if rest.Exhausted() then t.h2.Record(k, EndStream, Ended, 0)
        else t.h2
  {
    hide Pop, Close;
  }

  lemma NoPickH2(t: Tables, k: Sid)
    requires k !in t.bufs || k in t.h2.purged
    ensures SendStep(t, k).0.h2 == t.h2
  {
    hide Pop, Close;
  }

  lemma PickTold(t: Tables, k: Sid)
    requires k in t.h2.streams
    ensures After(t.h2, SendStep(t, k).0.h2, k,
      if TakenBy(t.h2, k) && k in t.bufs && k !in t.h2.purged then PickCalls(t.h2, k, t.bufs[k]) else [])
  {
    hide After, Used, SendStep, PickCalls, Pop;
    NoCall(t.h2, k);
    if k in t.bufs && k !in t.h2.purged {
      var room := Min(t.h2.Window(k), t.h2.maxFrame);
      var data := Pop(t.bufs[k], Max(0, room)).1;
      PopTakes(t.bufs[k], t.h2, k);
      PickH2(t, k);
      UsedOne(SendData(data, room));
      UsedOne(EndStream);
      if TakenBy(t.h2, k) {
        OneCall(t.h2, k, SendData(data, room), Sendable, |data|);
        OneCall(t.h2, k, EndStream, Ended, 0);
      }
    } else {
      NoPickH2(t, k);
    }
  }

  lemma FlushTold(t: Tables, k: Sid)
    requires k in t.h2.streams && k in t.bufs
    ensures After(t.h2, CheckComplete(t, k).0.h2, k,
      if TakenBy(t.h2, k) && t.bufs[k].data == [] && t.bufs[k].complete then [EndStream] else [])
    ensures FinishStream(t, k).0.h2 == t.h2
  {
    NoCall(t.h2, k);
    UsedOne(EndStream);
    if TakenBy(t.h2, k) {
      OneCall(t.h2, k, EndStream, Ended, 0);
    }
    hide After, Close;
  }

  /** Nothing of the stream changes but by the peer, which may only end or widen it. */
  ghost predicate LeftAlone(s: System, s': System, k: Sid)
    requires k in s.t.h2.streams
  {
    && k in s'.t.h2.streams && s'.t.h2.streams[k].calls == s.t.h2.streams[k].calls && (Takes(s', k) ==> Takes(s, k))
  }

  lemma ProducerLeaves(s: System, a: Action, k: Sid)
    requires Enabled(s, a) && k in s.t.h2.streams && (a.Send? || a.Continue?) && a.k != k
    ensures LeftAlone(s, Step(s, a), k) && Step(s, a).t.h2.streams[k].window == s.t.h2.streams[k].window
  {
    SameTermination(s, a);
    hide Step, Enabled;
    if a.Send? {
      SendIsProducerStep(s, a.k, a.e);
    } else {
      ContinueIsProducerStep(s, a.k, a.raw);
    }
  }

  lemma SenderLeaves(t: Tables, j: Sid, k: Sid)
    requires j != k && k in t.h2.streams
    ensures forall t' <- [SendStep(t, j).0, CheckComplete(t, j).0, FinishStream(t, j).0] ::
      k in t'.h2.streams && t'.h2.streams[k] == t.h2.streams[k] && t'.h2.terminated == t.h2.terminated
  {
    hide Pop, Close;
  }

  lemma PickLeaves(s: System, a: Action, k: Sid)
    requires Enabled(s, a) && SenderBuffered(s) && k in s.t.h2.streams
    requires (a.Pick? && a.k != k) || (a.Flushed? && s.sender.k != k)
    ensures LeftAlone(s, Step(s, a), k) && Step(s, a).t.h2.streams[k].window == s.t.h2.streams[k].window
  {
    var j := if a.Pick? then a.k else s.sender.k;
    SenderLeaves(s.t, j, k);
    assert Step(s, a).t in [SendStep(s.t, j).0, CheckComplete(s.t, j).0, FinishStream(s.t, j).0] by {
      hide SendStep, CheckComplete, FinishStream;
    }
    hide SendStep, CheckComplete, FinishStream, Step;
  }

  lemma ReaderLeaves(s: System, a: Action, k: Sid)
    requires RequestsFresh(s) && Enabled(s, a) && k in s.t.h2.streams
    requires !a.Pick? && !a.Flushed? && !a.Send? && !a.Continue?
    ensures LeftAlone(s, Step(s, a), k)
    ensures !a.Receive? ==> Step(s, a).t.h2.streams[k].window == s.t.h2.streams[k].window
  {
    if a.Read? {
      ReadLeaves(s, a.refuse);
      hide Step;
    }
  }

  /** The reader refuses a stream, or leaves h2 alone. */
  lemma ReadLeaves(s: System, refuse: bool)
    requires Enabled(s, Read(refuse))
    ensures var h := s.t.h2; var e := s.pending[0];
      Step(s, Read(refuse)).t.h2 ==
        if e.RequestReceived? && refuse && e.k in h.streams
        then h.(streams := h.streams[e.k := h.streams[e.k].(status := Reset)]) else h
  {
  }

  /** Calls on another stream leave this one alone, but for the connection's window. */
  lemma OtherStreams(s: System, a: Action, k: Sid)
    requires RequestsFresh(s) && SenderBuffered(s) && Enabled(s, a) && k in s.t.h2.streams
    requires !(a == Pick(k)) && !(a.Flushed? && s.sender.k == k)
    requires !(a.Send? && a.k == k) && !(a.Continue? && a.k == k)
    ensures LeftAlone(s, Step(s, a), k)
    ensures !a.Receive? ==> Step(s, a).t.h2.streams[k].window == s.t.h2.streams[k].window
  {
    hide Step, RequestsFresh, SenderBuffered, LeftAlone;
    if a.Send? || a.Continue? {
      ProducerLeaves(s, a, k);
    } else if a.Pick? || a.Flushed? {
      PickLeaves(s, a, k);
    } else {
      ReaderLeaves(s, a, k);
    }
  }

  lemma SameTermination(s: System, a: Action)
    requires Enabled(s, a) && (a.Send? || a.Continue?)
    ensures Step(s, a).t.h2.terminated == s.t.h2.terminated
  {
    hide Push, SetComplete, Resume, Pushed;
  }

  lemma OwnStep(s: System, a: Action, k: Sid)
    requires Enabled(s, a) && SenderBuffered(s) && k in s.t.h2.streams
    requires (a.Send? && a.k == k) || (a.Continue? && a.k == k) || a == Pick(k) || (a.Flushed? && s.sender.k == k)
    ensures After(s.t.h2, Step(s, a).t.h2, k, Told(s, a, k))
  {
    match a
    case Send(_, e) => EventTold(s.t, k, e); hide StreamSend, EventCalls, After;
    case Continue(_, raw) =>
      NoCall(s.t.h2, k);
      if s.prods[k].pos.InTrailers? {
        TrailersTold(s.t, k, s.prods[k].pos.endStream, raw);
      }
      hide ResumeTrailers, After;
    case Pick(_) => PickTold(s.t, k); hide SendStep, PickCalls, After;
    case Flushed =>
      NoCall(s.t.h2, k);
      FlushTold(s.t, k);
      hide CheckComplete, FinishStream, After;
  }

  lemma OthersTellNothing(s: System, a: Action, k: Sid)
    requires Enabled(s, a)
    requires !(a == Pick(k)) && !(a.Flushed? && s.sender.k == k)
    requires !(a.Send? && a.k == k) && !(a.Continue? && a.k == k)
    ensures Told(s, a, k) == []
  {
  }

  /** What h2 has been told on a stream grows by what the action tells, and once it takes
      nothing more it never does again. */
  lemma StepTells(s: System, a: Action, k: Sid)
    requires RequestsFresh(s) && SenderBuffered(s) && Enabled(s, a) && k in s.t.h2.streams
    ensures var s' := Step(s, a);
      && k in s'.t.h2.streams && s'.t.h2.streams[k].calls == s.t.h2.streams[k].calls + Told(s, a, k)
      && (Takes(s', k) ==> Takes(s, k))
      && ((exists c <- Told(s, a, k) :: Final(c)) ==> !Takes(s', k))
      && (!a.Receive? ==> s'.t.h2.streams[k].window == s.t.h2.streams[k].window - Used(Told(s, a, k)))
  {
    hide Step, RequestsFresh, SenderBuffered, Used;
    if (a.Send? && a.k == k) || (a.Continue? && a.k == k) || a == Pick(k) || (a.Flushed? && s.sender.k == k) {
      OwnStep(s, a, k);
      hide Told, Enabled;
    } else {
      OtherStreams(s, a, k);
      OthersTellNothing(s, a, k);
      NothingUsed();
      hide Told, Enabled;
      assert s.t.h2.streams[k].calls + [] == s.t.h2.streams[k].calls;
    }
  }

  lemma NothingUsed()
    ensures Used([]) == 0
  {
  }

  ghost function ToldInRun(s: System, run: seq<Action>, k: Sid): seq<Call>
    requires Legal(s, run)
    decreases |run|
  {
    if run == [] then [] else Told(s, run[0], k) + ToldInRun(Step(s, run[0]), run[1..], k)
  }

  /** In every run h2 is told on a stream exactly what the events of its application and the
      picks of the sending task ask for while h2 takes it, in their order. */
  lemma {:induction false} CallsAreTold(s: System, run: seq<Action>, k: Sid)
    requires Inv(s) && Legal(s, run) && k in s.t.h2.streams
    ensures var s' := Run(s, run);
      k in s'.t.h2.streams && s'.t.h2.streams[k].calls == s.t.h2.streams[k].calls + ToldInRun(s, run, k)
    decreases |run|
  {
    hide Inv, Step, Enabled, Told, RequestsFresh, SenderBuffered;
    if run != [] {
      InvBasics(s);
      StepKeeps(s, run[0]);
      StepTells(s, run[0], k);
      CallsAreTold(Step(s, run[0]), run[1..], k);
    } else {
      assert s.t.h2.streams[k].calls + [] == s.t.h2.streams[k].calls;
    }
  }

  /** Both windows pay for every DATA call, whoever makes it. */
  lemma WindowsPay(s: System, a: Action, k: Sid)
    requires Enabled(s, a) && SenderBuffered(s) && k in s.t.h2.streams
    requires (a.Send? && a.k == k) || (a.Continue? && a.k == k) || a == Pick(k) || (a.Flushed? && s.sender.k == k)
    ensures var s' := Step(s, a); var used := Used(Told(s, a, k));
      && k in s'.t.h2.streams
      && s'.t.h2.connWindow == s.t.h2.connWindow - used
      && s'.t.h2.streams[k].window == s.t.h2.streams[k].window - used
  {
    OwnStep(s, a, k);
    hide Step, Told, Used;
  }

  // ---------------------------------------------------------------------------
  // The head comes first

  predicate IsHead(e: StreamEvent) { e.Response? || e.InformationalResponse? }

  predicate OnlyPushes(ops: seq<StreamEvent>) { forall e <- ops :: e.ServerPush? }

  /** The first event other than a server push is a head. */
  predicate HeadFirst(ops: seq<StreamEvent>) {
    ops != [] && if ops[0].ServerPush? then HeadFirst(ops[1..]) else IsHead(ops[0])
  }

  lemma {:induction false} HeadSnoc(ops: seq<StreamEvent>, e: StreamEvent)
    ensures OnlyPushes(ops + [e]) <==> OnlyPushes(ops) && e.ServerPush?
    ensures HeadFirst(ops + [e]) <==> HeadFirst(ops) || (OnlyPushes(ops) && IsHead(e))
    ensures HeadFirst(ops) ==> !OnlyPushes(ops)
  {
    assert forall x :: x in ops + [e] <==> x in ops || x == e;
    if ops == [] {
      assert ops + [e] == [e] && [e][1..] == [];
    } else {
      HeadSnoc(ops[1..], e);
      assert (ops + [e])[1..] == ops[1..] + [e];
      assert ops == [ops[0]] + ops[1..];
    }
  }

  /** Nothing is told to h2 before the head, and nothing at all when h2 refused it. */
  ghost predicate HeadOk(s: System, k: Sid)
    requires k in s.prods && k in s.t.h2.streams
  {
    var ops, calls := s.prods[k].ops, s.t.h2.streams[k].calls;
    && (OnlyPushes(ops) ==> calls == [] && s.prods[k].pos == Idle)
    && (HeadFirst(ops) ==> if calls == [] then !Takes(s, k) else calls[0] == SendHeaders(false))
  }

  /** Before the head the sending task has nothing to tell: the buffer is empty and the body
      has not ended; and no producer waits to go on. */
  lemma NothingBeforeHead(s: System, a: Action, k: Sid)
    requires StreamOk(s, k) && Enabled(s, a) && OnlyPushes(s.prods[k].ops) && s.t.h2.streams[k].calls == []
    requires a.Pick? || a.Flushed?
    ensures Told(s, a, k) == []
  {
    NoPayload(s.prods[k].ops);
    hide Payload, BodyEnded;
    assert Delivered([]) == [];
    assert k in s.t.bufs ==> s.t.bufs[k].data == [] && !s.t.bufs[k].complete;
    hide StreamOk;
  }

  lemma {:induction false} NoPayload(ops: seq<StreamEvent>)
    requires OnlyPushes(ops)
    ensures Payload(ops) == [] && !BodyEnded(ops)
  {
    if ops != [] {
      assert ops[|ops| - 1] in ops && forall e <- ops[..|ops| - 1] :: e in ops;
      NoPayload(ops[..|ops| - 1]);
    }
  }

  /** How a producer's events grow. */
  lemma OpsStep(s: System, a: Action, k: Sid)
    requires RequestsFresh(s) && s.prods.Keys <= s.t.h2.streams.Keys && Enabled(s, a) && k in s.prods
    ensures k in Step(s, a).prods
    ensures var p, p' := s.prods[k], Step(s, a).prods[k];
      && (a.Send? && a.k == k ==> p'.ops == p.ops + [a.e] && (a.e.ServerPush? || IsHead(a.e) ==> p'.pos == p.pos))
      && (a.Continue? && a.k == k ==> p'.ops == p.ops || exists raw :: p'.ops == p.ops + [Data(raw)])
      && (!(a.Send? && a.k == k) && !(a.Continue? && a.k == k) ==> p' == p)
  {
    assert a.Read? ==> s.pending[0] in s.pending;
    hide Pushed, SendBody, SendEnd, SendTrailers, SendFlushed, SendHeaderBlock, SendStep, CheckComplete, FinishStream;
  }

  lemma StepKeepsHead(s: System, a: Action, k: Sid)
    requires Inv(s) && Enabled(s, a) && k in s.prods && k in s.t.h2.streams && HeadOk(s, k)
    ensures var s' := Step(s, a); k in s'.prods && k in s'.t.h2.streams && HeadOk(s', k)
  {
    InvBasics(s);
    assert StreamOk(s, k);
    hide Inv;
    OpsStep(s, a, k);
    StepTells(s, a, k);
    var ops, told := s.prods[k].ops, Told(s, a, k);
    if a.Send? && a.k == k {
      HeadSnoc(ops, a.e);
      SendsHead(s, a.e, k);
      hide Step, StreamOk, RequestsFresh, OnlyPushes, HeadFirst, Told, Enabled;
    } else if a.Continue? && a.k == k {
      hide Step, StreamOk, RequestsFresh;
      HeadContinues(s, Step(s, a), k, told);
    } else {
      if OnlyPushes(ops) && (a.Pick? || a.Flushed?) {
        NothingBeforeHead(s, a, k);
      }
      hide Step, StreamOk, RequestsFresh, OnlyPushes, HeadFirst;
    }
  }

  lemma SendsHead(s: System, e: StreamEvent, k: Sid)
    requires k in s.t.h2.streams
    ensures e.ServerPush? ==> Told(s, Send(k, e), k) == []
    ensures IsHead(e) && Takes(s, k) ==> Told(s, Send(k, e), k) == [SendHeaders(false)]
  {
  }

  lemma HeadContinues(s: System, s': System, k: Sid, told: seq<Call>)
    requires k in s.prods && k in s.t.h2.streams && HeadOk(s, k) && s.prods[k].pos != Idle
    requires k in s'.prods && k in s'.t.h2.streams
    requires s'.prods[k].ops == s.prods[k].ops || exists raw :: s'.prods[k].ops == s.prods[k].ops + [Data(raw)]
    requires s'.t.h2.streams[k].calls == s.t.h2.streams[k].calls + told && (told != [] ==> Takes(s, k))
    requires Takes(s', k) ==> Takes(s, k)
    ensures HeadOk(s', k)
  {
    var ops := s.prods[k].ops;
    if s'.prods[k].ops != ops {
      var raw :| s'.prods[k].ops == ops + [Data(raw)];
      HeadSnoc(ops, Data(raw));
    }
    hide OnlyPushes, HeadFirst, Takes;
  }

  lemma NewStreamHead(s: System, a: Action, k: Sid)
    requires RequestsFresh(s) && Enabled(s, a) && k !in s.prods && k in Step(s, a).prods
    requires s.prods.Keys <= s.t.h2.streams.Keys
    ensures var s' := Step(s, a);
      && s'.prods[k].ops == [] && s'.prods[k].pos == Idle
      && (k in s'.t.h2.streams ==> s'.t.h2.streams[k].calls == [])
  {
    assert a.Read? ==> s.pending[0] in s.pending;
    hide StreamSend, ResumeTrailers, ResumePush, Pushed, SendStep, CheckComplete, FinishStream;
  }

  ghost predicate HeadsOk(s: System) {
    forall k <- s.prods :: k in s.t.h2.streams && HeadOk(s, k)
  }

  lemma {:induction false} RunKeepsHeads(s: System, run: seq<Action>)
    requires Inv(s) && Legal(s, run) && HeadsOk(s)
    ensures HeadsOk(Run(s, run))
    decreases |run|
  {
    if run != [] {
      var a, s' := run[0], Step(s, run[0]);
      InvBasics(s);
      StepKeeps(s, a);
      InvBasics(s');
      forall k <- s'.prods
        ensures k in s'.t.h2.streams && HeadOk(s', k)
      {
        if k in s.prods {
          StepKeepsHead(s, a, k);
        } else {
          hide Inv, Step;
          NewStreamHead(s, a, k);
        }
      }
      hide Inv, Step, Enabled, HeadOk, RequestsFresh;
      RunKeepsHeads(s', run[1..]);
    }
  }

  /** In every run, on a stream whose application begins with a head, nothing is told to h2
      before that head: it is the first call, or h2 refused it and there is no call at all. */
  lemma HeadComesFirst(s: System, connWindow: int, run: seq<Action>, k: Sid)
    requires Reached(s, connWindow, run) && k in s.prods && HeadFirst(s.prods[k].ops)
    ensures k in s.t.h2.streams
    ensures var calls := s.t.h2.streams[k].calls; calls != [] ==> calls[0] == SendHeaders(false)
  {
    InitOk(connWindow);
    hide Inv, HeadFirst, Legal, Run;
    RunKeepsHeads(Init(connWindow), run);
  }

  // ---------------------------------------------------------------------------
  // All heads

  function HeadOf(e: StreamEvent): seq<Call> {
    match e
    case Response(_) => [SendHeaders(false)]
    case InformationalResponse(_) => [SendHeaders(false)]
    case EndBody(withHeaders) => if withHeaders then [SendHeaders(true)] else []
    case _ => []
  }

  function HeadsOf(ops: seq<StreamEvent>): seq<Call> {
    if ops == [] then [] else HeadsOf(ops[..|ops| - 1]) + HeadOf(ops[|ops| - 1])
  }

  function HeadCalls(calls: seq<Call>): seq<Call> {
    if calls == [] then []
    else
      var last := calls[|calls| - 1];
      HeadCalls(calls[..|calls| - 1]) + if last.SendHeaders? then [last] else []
  }

  predicate NoTrailers(ops: seq<StreamEvent>) { forall e <- ops :: !e.TrailerHeadersSend? }

  /** The events before the first end of body. */
  function UpToEnd(ops: seq<StreamEvent>): (before: seq<StreamEvent>)
    ensures before <= ops
  {
    if ops == [] || EndsBody(ops[0]) then [] else [ops[0]] + UpToEnd(ops[1..])
  }

  lemma {:induction false} UpToEndSnoc(ops: seq<StreamEvent>, e: StreamEvent)
    ensures BodyEnded(ops) ==> UpToEnd(ops + [e]) == UpToEnd(ops)
    ensures !BodyEnded(ops) ==> UpToEnd(ops) == ops
  {
    if ops != [] {
      UpToEndSnoc(ops[1..], e);
      assert (ops + [e])[1..] == ops[1..] + [e];
      assert ops == [ops[0]] + ops[1..];
    }
  }

  lemma {:induction false} HeadsPrefix(a: seq<StreamEvent>, b: seq<StreamEvent>)
    requires a <= b
    ensures HeadsOf(a) <= HeadsOf(b)
    decreases |b|
  {
    if a == b {
    } else {
      HeadsPrefix(a, b[..|b| - 1]);
    }
  }

  lemma {:induction false} HeadCallsConcat(calls: seq<Call>, told: seq<Call>)
    ensures HeadCalls(calls + told) == HeadCalls(calls) + HeadCalls(told)
    decreases |told|
  {
    if told == [] {
      assert calls + told == calls;
    } else {
      HeadCallsConcat(calls, told[..|told| - 1]);
      assert (calls + told)[..|calls + told| - 1] == calls + told[..|told| - 1];
    }
  }

  lemma HeadOfOne(c: Call)
    ensures HeadCalls([c]) == (if c.SendHeaders? then [c] else []) && HeadCalls([]) == []
  {
    assert [c][..0] == [];
  }

  /** The heads among the calls: all that the events ask for while h2 takes them, and on an
      ended stream at least those before the end of the body. */
  ghost predicate HeadsFit(s: System, k: Sid)
    requires k in s.prods && k in s.t.h2.streams
  {
    var ops, calls := s.prods[k].ops, s.t.h2.streams[k].calls;
    NoTrailers(ops) ==>
      && !s.prods[k].pos.InTrailers?
      && HeadCalls(calls) <= HeadsOf(ops)
      && (Takes(s, k) ==> HeadCalls(calls) == HeadsOf(ops))
      && (EndStream in calls ==> HeadsOf(UpToEnd(ops)) <= HeadCalls(calls))
  }

  /** What one more event and the calls it tells do to the heads. */
  lemma FitsMore(s: System, s': System, k: Sid, e: StreamEvent, told: seq<Call>)
    requires k in s.prods && k in s.t.h2.streams && HeadsFit(s, k)
    requires k in s'.prods && k in s'.t.h2.streams && s'.prods[k].ops == s.prods[k].ops + [e]
    requires s'.prods[k].pos.InTrailers? ==> e.TrailerHeadersSend?
    requires s'.t.h2.streams[k].calls == s.t.h2.streams[k].calls + told && (Takes(s', k) ==> Takes(s, k))
    requires EndStream !in told && HeadCalls(told) == if Takes(s, k) then HeadOf(e) else []
    requires EndStream in s.t.h2.streams[k].calls ==> BodyEnded(s.prods[k].ops)
    ensures HeadsFit(s', k)
  {
    var ops, calls := s.prods[k].ops, s.t.h2.streams[k].calls;
    assert (ops + [e])[..|ops|] == ops;
    assert forall x :: x in ops + [e] <==> x in ops || x == e;
    assert EndStream in calls + told <==> EndStream in calls;
    UpToEndSnoc(ops, e);
    HeadCallsConcat(calls, told);
    hide HeadCalls, UpToEnd, Takes;
  }

  /** And what calls of the sending task do. */
  lemma FitsTold(s: System, s': System, k: Sid, told: seq<Call>)
    requires k in s.prods && k in s.t.h2.streams && HeadsFit(s, k)
    requires k in s'.prods && k in s'.t.h2.streams && s'.prods[k] == s.prods[k]
    requires s'.t.h2.streams[k].calls == s.t.h2.streams[k].calls + told && (Takes(s', k) ==> Takes(s, k))
    requires told != [] ==> Takes(s, k)
    requires HeadCalls(told) == []
    ensures HeadsFit(s', k)
  {
    var ops, calls := s.prods[k].ops, s.t.h2.streams[k].calls;
    HeadCallsConcat(calls, told);
    HeadsPrefix(UpToEnd(ops), ops);
    hide HeadCalls, UpToEnd, HeadsOf, Takes;
    assert HeadCalls(calls) + [] == HeadCalls(calls);
    assert told == [] ==> calls + told == calls;
  }

  lemma EndedMeans(s: System, k: Sid)
    requires StreamOk(s, k) && EndStream in s.t.h2.streams[k].calls
    ensures BodyEnded(s.prods[k].ops)
  {
    EndedOnce(s, k);
    hide StreamOk;
  }

  /** The heads among the calls of one event. */
  lemma EventHeads(s: System, k: Sid, e: StreamEvent)
    requires k in s.t.h2.streams
    ensures var told := Told(s, Send(k, e), k);
      EndStream !in told && HeadCalls(told) == if Takes(s, k) then HeadOf(e) else []
  {
    HeadOfOne(SendHeaders(false));
    HeadOfOne(SendHeaders(true));
    HeadOfOne(if e.Body? then SendDirect(e.data) else EndStream);
    hide HeadCalls;
  }

  lemma SenderHeads(s: System, a: Action, k: Sid)
    requires k in s.t.h2.streams && !(a.Send? && a.k == k) && !(a.Continue? && a.k == k)
    ensures HeadCalls(Told(s, a, k)) == [] && (Told(s, a, k) != [] ==> Takes(s, k))
  {
    var told := Told(s, a, k);
    assert |told| <= 1;
    HeadOfOne(if told == [] then EndStream else told[0]);
    assert told != [] ==> told == [told[0]];
    hide HeadCalls;
  }

  lemma StepFits(s: System, a: Action, k: Sid)
    requires Inv(s) && Enabled(s, a) && k in s.prods && k in s.t.h2.streams && HeadsFit(s, k)
    ensures var s' := Step(s, a); k in s'.prods && k in s'.t.h2.streams && HeadsFit(s', k)
  {
    InvBasics(s);
    assert StreamOk(s, k);
    hide Inv;
    OpsStep(s, a, k);
    StepTells(s, a, k);
    if EndStream in s.t.h2.streams[k].calls {
      EndedMeans(s, k);
    }
    hide StreamOk;
    var s' := Step(s, a);
    if a.Send? && a.k == k {
      EventHeads(s, k, a.e);
      PositionAfter(s, k, a.e);
      hide Step, RequestsFresh, HeadsFit, Told;
      FitsMore(s, s', k, a.e, Told(s, a, k));
    } else if a.Continue? && a.k == k {
      ContinueFits(s, k, a.raw);
    } else {
      SenderHeads(s, a, k);
      hide Step, RequestsFresh, HeadsFit, Told;
      FitsTold(s, s', k, Told(s, a, k));
    }
  }

  lemma PositionAfter(s: System, k: Sid, e: StreamEvent)
    requires Enabled(s, Send(k, e))
    ensures k in Step(s, Send(k, e)).prods && (Step(s, Send(k, e)).prods[k].pos.InTrailers? ==> e.TrailerHeadersSend?)
  {
    hide Pushed, SendFlushed, SendHeaderBlock;
  }

  /** A producer that goes on without trailers makes no call and sends no event. */
  lemma ContinueFits(s: System, k: Sid, raw: Bytes)
    requires Enabled(s, Continue(k, raw)) && k in s.t.h2.streams && HeadsFit(s, k)
    requires var s' := Step(s, Continue(k, raw));
      && k in s'.prods && k in s'.t.h2.streams
      && s'.t.h2.streams[k].calls == s.t.h2.streams[k].calls + Told(s, Continue(k, raw), k)
      && (Takes(s', k) ==> Takes(s, k))
      && (s'.prods[k].ops == s.prods[k].ops || exists r :: s'.prods[k].ops == s.prods[k].ops + [Data(r)])
    ensures HeadsFit(Step(s, Continue(k, raw)), k)
  {
    var s' := Step(s, Continue(k, raw));
    var calls := s.t.h2.streams[k].calls;
    if NoTrailers(s'.prods[k].ops) {
      assert NoTrailers(s.prods[k].ops) by {
        assert forall e <- s.prods[k].ops :: e in s'.prods[k].ops;
      }
      assert s'.prods[k].ops == s.prods[k].ops && s'.prods[k].pos == Idle;
      assert Told(s, Continue(k, raw), k) == [] && calls + [] == calls;
    }
    hide HeadCalls, HeadsOf, UpToEnd, Step;
  }

  ghost predicate AllFit(s: System) {
    forall k <- s.prods :: k in s.t.h2.streams && HeadsFit(s, k)
  }

  lemma {:induction false} RunFits(s: System, run: seq<Action>)
    requires Inv(s) && Legal(s, run) && AllFit(s)
    ensures AllFit(Run(s, run))
    decreases |run|
  {
    if run != [] {
      var a, s' := run[0], Step(s, run[0]);
      InvBasics(s);
      StepKeeps(s, a);
      InvBasics(s');
      forall k <- s'.prods
        ensures k in s'.t.h2.streams && HeadsFit(s', k)
      {
        if k in s.prods {
          StepFits(s, a, k);
        } else {
          hide Inv, Step;
          NewStreamHead(s, a, k);
          hide Takes;
        }
      }
      hide Inv, Step, Enabled, HeadsFit, RequestsFresh;
      RunFits(s', run[1..]);
    }
  }

  /** In every run, on a stream without trailers, the heads given to h2 are those its events
      ask for, in order, all of them while h2 takes them, and once the sending task has
      ended the stream at least all before the end of the body. */
  lemma HeadsAreAsked(s: System, connWindow: int, run: seq<Action>, k: Sid)
    requires Reached(s, connWindow, run) && k in s.prods && NoTrailers(s.prods[k].ops)
    ensures k in s.t.h2.streams
    ensures var calls, ops := s.t.h2.streams[k].calls, s.prods[k].ops;
      && HeadCalls(calls) <= HeadsOf(ops)
      && (Takes(s, k) ==> HeadCalls(calls) == HeadsOf(ops))
      && (EndStream in calls ==> HeadsOf(UpToEnd(ops)) <= HeadCalls(calls))
  {
    InitOk(connWindow);
    hide Inv, Legal, Run;
    RunFits(Init(connWindow), run);
    hide HeadCalls, HeadsOf, UpToEnd;
  }
}
