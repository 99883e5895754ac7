/** The shared data of `H2Protocol` and what every stretch of its code between two
    awaits does to them. h2 and priority are foreign libraries: their part is a small
    contract (flow-control windows, which streams may still be sent on, the calls made,
    and the set of blocked and unblocked tree nodes). */
module H2Tables {
  import opened Bytes
  import opened StreamEvents
  import opened StreamBuffers

  type Sid = nat

  // ---------------------------------------------------------------------------
  // The libraries

  /** `priority.PriorityTree`: its nodes, and the nodes that are not blocked. */
  datatype Tree = Tree(nodes: set<Sid>, active: set<Sid>) {
    function Unblock(k: Sid): Tree { this.(active := active + {k}) }
    function Block(k: Sid): Tree { this.(active := active - {k}) }
    function Remove(k: Sid): Tree { Tree(nodes - {k}, active - {k}) }
    /** New nodes are inserted blocked, known ones keep their state. */
    function Insert(ks: set<Sid>): Tree { this.(nodes := nodes + ks) }
  }

  /** Whether this side may send on a stream: yes; no, it has ended it; it has ended it
      and the peer is done too; no, the stream was reset. */
  datatype Status = Sendable | Ended | Finished | Reset

  /** Calls on the h2 connection. `room` is what window and frame size allowed. */
  datatype Call =
    | SendData(data: Bytes, room: int)
    | SendDirect(data: Bytes)
    | SendHeaders(endStream: bool)
    | EndStream

  datatype H2Stream = H2Stream(status: Status, window: int, calls: seq<Call>)

  /** `purged` are closed streams that h2 has forgotten. */
  datatype H2 = H2(
    streams: map<Sid, H2Stream>, connWindow: int, maxFrame: nat, terminated: bool, purged: set<Sid>)
  {
    /** `send_data`, `send_headers` and `end_stream` do not raise. */
    predicate CanSend(k: Sid) {
      k in streams && streams[k].status == Sendable && !terminated
    }
    /** The peer may still send on the stream. */
    predicate IsOpen(k: Sid) {
      k in streams && (streams[k].status == Sendable || streams[k].status == Ended)
    }
    /** `local_flow_control_window` does not raise, even for a closed stream, until h2 purges it. */
    predicate HasWindow(k: Sid) { k in streams && k !in purged }
    function Window(k: Sid): int
      requires k in streams
    {
      Min(connWindow, streams[k].window)
    }
    function Record(k: Sid, call: Call, status: Status, used: nat): H2
      requires k in streams
    {
      var st := streams[k];
      this.(streams := streams[k := H2Stream(status, st.window - used, st.calls + [call])],
            connWindow := connWindow - used)
    }
  }

  // ---------------------------------------------------------------------------
  // The protocol's own data

  /** `retired` are buffers deleted from the table: a suspended producer may still
      hold one. */
  datatype Tables = Tables(
    bufs: map<Sid, Buffer>, retired: map<Sid, Buffer>, streams: set<Sid>,
    tree: Tree, h2: H2, hasData: bool, closed: bool)
  {
    /** The buffer object that stream `k` was given, wherever it is now. */
    function Object(k: Sid): Buffer
      requires k in bufs || k in retired
    {
      if k in bufs then bufs[k] else retired[k]
    }
    function Retire(k: Sid, b: Buffer): Tables {
      this.(bufs := bufs - {k}, retired := retired[k := b], tree := tree.Remove(k))
    }
  }

  // ---------------------------------------------------------------------------
  // Producers: `stream_send`

  /** Where the code sending for a stream is: not in `stream_send`, waiting for room in
      `push`, or waiting for `drain` (after an end of body, or before trailers). */
  datatype Pos = Idle | InPush | InDrain | InTrailers(endStream: bool)

  function SendBody(t: Tables, k: Sid, data: Bytes): (Tables, Pos) {
    if k !in t.tree.nodes then (t, Idle)  // MissingStreamError
    else
      var t1 := t.(tree := t.tree.Unblock(k), hasData := true);
      if k !in t.bufs then (t1, Idle)  // KeyError
      else
        var (b, outcome) := Push(t.bufs[k], data);
        (t1.(bufs := t.bufs[k := b]), if outcome == Waiting then InPush else Idle)
  }

  function SendFlushed(t: Tables, k: Sid, data: Bytes): Tables {
    if t.h2.CanSend(k) && |data| <= t.h2.Window(k) && |data| <= t.h2.maxFrame
    then t.(h2 := t.h2.Record(k, SendDirect(data), Sendable, |data|))
    else t
  }

  function SendHeaderBlock(t: Tables, k: Sid, endStream: bool): Tables {
    if t.h2.CanSend(k)
    then t.(h2 := t.h2.Record(k, SendHeaders(endStream), if endStream then Ended else Sendable, 0))
    else t
  }

  function SendEnd(t: Tables, k: Sid): (Tables, Pos) {
    if k !in t.bufs then (t, Idle)  // KeyError
    else
      var t1 := t.(bufs := t.bufs[k := SetComplete(t.bufs[k])]);
      if k !in t.tree.nodes then (t1, Idle)  // MissingStreamError
      else (t1.(tree := t.tree.Unblock(k), hasData := true), InDrain)
  }

  function SendTrailers(t: Tables, k: Sid, endStream: bool): (Tables, Pos) {
    if k !in t.tree.nodes then (t, Idle)
    else
      var t1 := t.(tree := t.tree.Unblock(k), hasData := true);
      (t1, if k in t.bufs then InTrailers(endStream) else Idle)
  }

  function CloseStream(t: Tables, k: Sid): Tables {
    if k in t.streams then t.(streams := t.streams - {k}, hasData := true) else t
  }

  /** `stream_send` up to its first wait. A server push creates another stream: see `Create`. */
  function StreamSend(t: Tables, k: Sid, e: StreamEvent): (Tables, Pos) {
    match e
    case Response(_) => (SendHeaderBlock(t, k, false), Idle)
    case InformationalResponse(_) => (SendHeaderBlock(t, k, false), Idle)
    case Body(data, flush) => if flush then (SendFlushed(t, k, data), Idle) else SendBody(t, k, data)
    case Data(data) => SendBody(t, k, data)
    case ZeroCopySend => (t, Idle)
    case EndBody(withHeaders) => if withHeaders then (SendHeaderBlock(t, k, true), Idle) else SendEnd(t, k)
    case EndData => SendEnd(t, k)
    case TrailerHeadersSend(endStream) => SendTrailers(t, k, endStream)
    case ServerPush => (t, Idle)
    case StreamClosed => (CloseStream(t, k), Idle)
  }

  function ResumePush(t: Tables, k: Sid): Tables {
    if k in t.bufs then t.(bufs := t.bufs[k := Resume(t.bufs[k])])
    else if k in t.retired then t.(retired := t.retired[k := Resume(t.retired[k])])
    else t
  }

  /** After the drain before trailers. When the trailers do not end the stream, the
      encoded frame `raw` is pushed as if it were body. */
  function ResumeTrailers(t: Tables, k: Sid, endStream: bool, raw: Bytes): (Tables, Pos) {
    if !t.h2.CanSend(k) then (t, Idle)
    else
      var t1 := SendHeaderBlock(t, k, endStream);
      if endStream || raw == [] then (t1, Idle) else SendBody(t1, k, raw)
  }

  // ---------------------------------------------------------------------------
  // The sending task

  /** Where `send_task` is: at the top of its loop, waiting for `has_data`, flushing data
      or the end of stream `k`, returned, or dead from an uncaught exception. */
  datatype Sender = Ready | Parked | Flushing(k: Sid) | Ending(k: Sid) | Exited | Crashed

  /** The `except` branch of `_send_data`. */
  function ForceClose(t: Tables, k: Sid): (Tables, Sender) {
    if k !in t.bufs || k !in t.tree.nodes then (t, Crashed)  // raised again
    else (t.Retire(k, Close(t.bufs[k])), Ready)
  }

  /** `_send_data` after the data: ends the stream when its buffer is exhausted. */
  function CheckComplete(t: Tables, k: Sid): (Tables, Sender) {
    if k !in t.bufs then ForceClose(t, k)
    else if !t.bufs[k].Exhausted() then (t, Ready)
    else if t.h2.CanSend(k) then (t.(h2 := t.h2.Record(k, EndStream, Ended, 0)), Ending(k))
    else ForceClose(t, k)
  }

  /** `_send_data` up to its first flush. */
  function SendStep(t: Tables, k: Sid): (Tables, Sender) {
    if !t.h2.HasWindow(k) || k !in t.bufs then ForceClose(t, k)
    else
      var room := Min(t.h2.Window(k), t.h2.maxFrame);
      var (b, data) := Pop(t.bufs[k], Max(0, room));
      var t1 := t.(bufs := t.bufs[k := b]);
      if data == [] then CheckComplete(t1.(tree := t.tree.Block(k)), k)
      else if t.h2.CanSend(k) then (t1.(h2 := t.h2.Record(k, SendData(data, room), Sendable, |data|)), Flushing(k))
      else ForceClose(t1, k)
  }

  /** `_send_data` after the end of stream was flushed. */
  function FinishStream(t: Tables, k: Sid): (Tables, Sender) {
    if k !in t.bufs || k !in t.tree.nodes then ForceClose(t, k)
    else (t.Retire(k, t.bufs[k]), Ready)
  }

  // ---------------------------------------------------------------------------
  // The reader

  /** `_create_stream`: the tables get stream `k`; its node starts blocked unless a
      PRIORITY frame has already made one. */
  function Create(t: Tables, k: Sid): Tables {
    t.(streams := t.streams + {k}, bufs := t.bufs[k := EMPTY_BUFFER], tree := t.tree.Insert({k}))
  }

  /** `_window_updated` for every stream. */
  function UnblockAll(t: Tables): Tables {
    t.(tree := t.tree.(active := t.tree.active + t.bufs.Keys), hasData := true)
  }

  /** `_window_updated` for one stream. */
  function UnblockOne(t: Tables, k: Sid): Tables {
    t.(tree := if k in t.bufs then t.tree.Unblock(k) else t.tree, hasData := true)
  }

  /** `_priority_updated`: `names` are the nodes the frame mentions. */
  function Reprioritize(t: Tables, names: set<Sid>): Tables {
    t.(tree := t.tree.Insert(names), hasData := true)
  }

  /** `handle(Closed())`. */
  function Disconnect(t: Tables): Tables {
    t.(closed := true, streams := {}, hasData := true)
  }
}
