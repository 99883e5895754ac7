/** The HTTP/2 protocol with all its tasks: any number of producers, the sending task,
    the reader and the peer, interleaved at every await. */
module H2System {
  import opened Bytes
  import opened StreamEvents
  import opened StreamBuffers
  import opened H2Tables

  /** What h2 reports to the reader, in order. */
  datatype H2Event =
    | RequestReceived(k: Sid)
    | StreamReset(k: Sid)
    | WindowUpdated(k: Sid)
    | AllWindowsUpdated
    | PriorityUpdated(names: set<Sid>)

  /** What arrives from the peer, and h2 purging a closed stream meanwhile. Settings change
      the stream windows only when they contain a new initial window size. */
  datatype Frame =
    | HeadersFrame(k: Sid, window: int)
    | WindowFrame(k: Sid, increment: nat)
    | ConnectionWindowFrame(increment: nat)
    | SettingsFrame(windowDelta: Option<int>, maxFrame: nat)
    | ResetFrame(k: Sid)
    | PriorityFrame(names: set<Sid>)
    | EndOfRequest(k: Sid)
    | GoAway
    | Forget(k: Sid)

  /** A stream's producer: its position, the bytes `push` accepted and the events it
      handed to `stream_send`. */
  datatype Producer = Producer(pos: Pos, pushed: Bytes, ops: seq<StreamEvent>)

  /** `pending` are h2 events the reader has not handled yet. The last three fields are
      history: streams force-closed by the sending task, streams removed from the tree
      and put back by a later PRIORITY frame, streams whose buffer has accepted an empty chunk
      since the sending task last took from it or closed it. */
  datatype System = System(
    t: Tables, sender: Sender, prods: map<Sid, Producer>, pending: seq<H2Event>,
    forced: set<Sid>, revived: set<Sid>, blank: set<Sid>)

  datatype Action =
    | Receive(frame: Frame)
    | Read(refuse: bool)
    | Lost
    | Promise(k: Sid, window: int)
    | Send(k: Sid, e: StreamEvent)
    | Continue(k: Sid, raw: Bytes)
    | Pick(k: Sid)
    | Park
    | Wake
    | Flushed
    | Exit

  const MIN_MAX_FRAME := 16384

  function Init(connWindow: int): System {
    System(
      Tables(map[], map[], {}, Tree({}, {}), H2(map[], connWindow, MIN_MAX_FRAME, false, {}), false, false),
      Ready, map[], [], {}, {}, {})
  }

  // ---------------------------------------------------------------------------
  // The peer

  predicate FrameAllowed(h: H2, frame: Frame) {
    match frame
    case HeadersFrame(k, _) => k !in h.streams
    case WindowFrame(k, _) => h.IsOpen(k)
    case ResetFrame(k) => h.IsOpen(k)
    case Forget(k) => k in h.streams && !h.IsOpen(k)
    case EndOfRequest(k) => k in h.streams
    case SettingsFrame(_, maxFrame) => maxFrame >= MIN_MAX_FRAME
    case _ => true
  }

  function ReceiveH2(h: H2, frame: Frame): H2
    requires FrameAllowed(h, frame)
  {
    match frame
    case HeadersFrame(k, window) => h.(streams := h.streams[k := H2Stream(Sendable, window, [])])
    case WindowFrame(k, n) =>
      h.(streams := h.streams[k := h.streams[k].(window := h.streams[k].window + n)])
    case ConnectionWindowFrame(n) => h.(connWindow := h.connWindow + n)
    case SettingsFrame(delta, maxFrame) =>
      h.(streams := map k | k in h.streams :: h.streams[k].(window := h.streams[k].window + delta.GetOr(0)),
         maxFrame := maxFrame)
    case ResetFrame(k) => h.(streams := h.streams[k := h.streams[k].(status := Reset)])
    case EndOfRequest(k) =>
      if h.streams[k].status == Ended
      then h.(streams := h.streams[k := h.streams[k].(status := Finished)]) else h
    case PriorityFrame(_) => h
    case GoAway => h.(terminated := true)
    case Forget(k) => h.(purged := h.purged + {k})
  }

  function Reported(frame: Frame): seq<H2Event> {
    match frame
    case HeadersFrame(k, _) => [RequestReceived(k)]
    case WindowFrame(k, _) => [WindowUpdated(k)]
    case ConnectionWindowFrame(_) => [AllWindowsUpdated]
    case SettingsFrame(delta, _) => if delta.Some? then [AllWindowsUpdated] else []
    case ResetFrame(k) => [StreamReset(k)]
    case PriorityFrame(names) => [PriorityUpdated(names)]
    case EndOfRequest(_) => []
    case GoAway => []
    case Forget(_) => []
  }

  // ---------------------------------------------------------------------------
  // Steps

  /** An event that was set for the producer of `k`, or that it does not wait for. */
  predicate Released(t: Tables, k: Sid, pos: Pos) {
    (k in t.bufs || k in t.retired) &&
    match pos
    case Idle => true
    case InPush => t.Object(k).paused
    case _ => t.Object(k).isEmpty
  }

  predicate Enabled(s: System, a: Action) {
    match a
    case Receive(frame) => FrameAllowed(s.t.h2, frame)
    case Read(_) => s.pending != []
    case Lost => true
    case Promise(k, _) => k !in s.t.h2.streams
    case Send(k, _) => k in s.prods && s.prods[k].pos == Idle
    case Continue(k, _) => k in s.prods && s.prods[k].pos != Idle && Released(s.t, k, s.prods[k].pos)
    case Pick(k) => s.sender == Ready && !s.t.closed && k in s.t.tree.active
    case Park => s.sender == Ready && !s.t.closed && s.t.tree.active == {}
    case Wake => s.sender == Parked && s.t.hasData
    case Flushed => s.sender.Flushing? || s.sender.Ending?
    case Exit => s.sender == Ready && s.t.closed
  }

  predicate Accepts(t: Tables, k: Sid) {
    k in t.tree.nodes && k in t.bufs && !t.bufs[k].complete
  }

  /** The chunk that an event pushes into the stream's buffer, if any. */
  function Chunk(e: StreamEvent): Option<Bytes> {
    match e
    case Body(data, flush) => if flush then None else Some(data)
    case Data(data) => Some(data)
    case _ => None
  }

  function Pushed(s: System, k: Sid, e: StreamEvent): Bytes
    requires k in s.prods
  {
    var chunk := Chunk(e);
    if chunk.Some? && Accepts(s.t, k) then s.prods[k].pushed + chunk.value else s.prods[k].pushed
  }

  function DoSend(s: System, k: Sid, e: StreamEvent): System
    requires Enabled(s, Send(k, e))
  {
    var (t, pos) := StreamSend(s.t, k, e);
    s.(t := t,
       prods := s.prods[k := Producer(pos, Pushed(s, k, e), s.prods[k].ops + [e])],
       blank := if Chunk(e) == Some([]) && Accepts(s.t, k) then s.blank + {k} else s.blank)
  }

  /** A producer goes on. A pushed trailer frame counts as one more chunk. */
  function DoContinue(s: System, k: Sid, raw: Bytes): System
    requires Enabled(s, Continue(k, raw))
  {
    var p := s.prods[k];
    match p.pos
    case InTrailers(endStream) =>
      var (t, pos) := ResumeTrailers(s.t, k, endStream, raw);
      var frame := !endStream && raw != [] && s.t.h2.CanSend(k);
      s.(t := t,
         prods := s.prods[k := if frame then Producer(pos, Pushed(s, k, Data(raw)), p.ops + [Data(raw)])
                               else p.(pos := Idle)])
    case InPush => s.(t := ResumePush(s.t, k), prods := s.prods[k := p.(pos := Idle)])
    case _ => s.(prods := s.prods[k := p.(pos := Idle)])
  }

  function DoCreate(s: System, k: Sid): System {
    s.(t := Create(s.t, k), prods := s.prods[k := Producer(Idle, [], [])])
  }

  function DoRead(s: System, refuse: bool): System
    requires s.pending != []
  {
    var rest := s.(pending := s.pending[1..]);
    match s.pending[0]
    case RequestReceived(k) =>
      if !refuse then DoCreate(rest, k)
      else if k in s.t.h2.streams
      then rest.(t := s.t.(h2 := s.t.h2.(streams := s.t.h2.streams[k := s.t.h2.streams[k].(status := Reset)])))
      else rest
    case StreamReset(k) => rest.(t := UnblockOne(CloseStream(s.t, k), k))
    case WindowUpdated(k) => rest.(t := UnblockOne(s.t, k))
    case AllWindowsUpdated => rest.(t := UnblockAll(s.t))
    case PriorityUpdated(names) =>
      rest.(t := Reprioritize(s.t, names),
            revived := s.revived + (names - s.t.tree.nodes) * s.t.retired.Keys)
  }

  function AfterSender(s: System, k: Sid, result: (Tables, Sender)): System {
    var forceClosed := k in s.t.bufs && k !in result.0.bufs && !s.sender.Ending?;
    s.(t := result.0, sender := result.1,
       forced := if forceClosed then s.forced + {k} else s.forced,
       blank := if k in s.t.bufs && (s.sender == Ready || forceClosed) then s.blank - {k} else s.blank)
  }

  function Step(s: System, a: Action): System
    requires Enabled(s, a)
  {
    match a
    case Receive(frame) =>
      s.(t := s.t.(h2 := ReceiveH2(s.t.h2, frame)), pending := s.pending + Reported(frame))
    case Read(refuse) => DoRead(s, refuse)
    case Lost => s.(t := Disconnect(s.t))
    case Promise(k, window) =>
      DoCreate(s.(t := s.t.(h2 := ReceiveH2(s.t.h2, HeadersFrame(k, window)))), k)
    case Send(k, e) => DoSend(s, k, e)
    case Continue(k, raw) => DoContinue(s, k, raw)
    case Pick(k) => AfterSender(s, k, SendStep(s.t, k))
    case Park => s.(sender := Parked)
    case Wake => s.(sender := Ready, t := s.t.(hasData := false))
    case Flushed =>
      var k := s.sender.k;
      AfterSender(s, k, if s.sender.Flushing? then CheckComplete(s.t, k) else FinishStream(s.t, k))
    case Exit => s.(sender := Exited)
  }

  ghost predicate Legal(s: System, run: seq<Action>)
    decreases |run|
  {
    run == [] || (Enabled(s, run[0]) && Legal(Step(s, run[0]), run[1..]))
  }

  ghost function Run(s: System, run: seq<Action>): System
    requires Legal(s, run)
    decreases |run|
  {
    if run == [] then s else Run(Step(s, run[0]), run[1..])
  }

  // ---------------------------------------------------------------------------
  // What the history says

  /** The body bytes a producer's events ask for: every chunk up to the end of the body. */
  function Payload(ops: seq<StreamEvent>): Bytes {
    if ops == [] then []
    else
      var before := ops[..|ops| - 1];
      var chunk := Chunk(ops[|ops| - 1]);
      if chunk.Some? && !BodyEnded(before) then Payload(before) + chunk.value else Payload(before)
  }

  predicate EndsBody(e: StreamEvent) {
    e == EndBody(false) || e == EndData
  }

  predicate BodyEnded(ops: seq<StreamEvent>) {
    exists e <- ops :: EndsBody(e)
  }

  /** The bytes handed to `send_data` by the sending task. */
  function Delivered(calls: seq<Call>): Bytes {
    if calls == [] then []
    else
      var before := Delivered(calls[..|calls| - 1]);
      match calls[|calls| - 1]
      case SendData(data, _) => before + data
      case _ => before
  }

  predicate Final(c: Call) {
    c == EndStream || c == SendHeaders(true)
  }

  /** Every send has data and fits; nothing follows the call that ends the stream. */
  predicate CallsOk(st: H2Stream) {
    && (forall c <- st.calls :: c.SendData? ==> 0 < |c.data| <= c.room)
    && (forall i :: 0 <= i < |st.calls| - 1 ==> !Final(st.calls[i]))
    && (st.status == Sendable ==> forall c <- st.calls :: !Final(c))
  }

  predicate EndedBySender(st: H2Stream) {
    EndStream in st.calls
  }

  /** Some unhandled h2 event will unblock stream `k`. */
  predicate Covered(pending: seq<H2Event>, k: Sid) {
    AllWindowsUpdated in pending || WindowUpdated(k) in pending || StreamReset(k) in pending
  }
}
