/** Which streams, nodes and signals the HTTP/2 protocol has, told from what it did last: each
    of them for every action of every task. */
module H2Signals {
  import opened Bytes
  import opened StreamEvents
  import opened StreamBuffers
  import opened H2Tables
  import opened H2System
  import opened H2Invariant
  import opened H2Theorems
  import H2Laws

  /** The event the reader handles. */
  predicate Reads(s: System, a: Action, e: H2Event) {
    a.Read? && s.pending != [] && s.pending[0] == e
  }

  /** The action makes stream `k`: a request that is not refused, or a promised stream. */
  predicate Makes(s: System, a: Action, k: Sid) {
    (Reads(s, a, RequestReceived(k)) && !a.refuse) || (a.Promise? && a.k == k)
  }

  predicate Names(s: System, a: Action, k: Sid) {
    a.Read? && s.pending != [] && s.pending[0].PriorityUpdated? && k in s.pending[0].names
  }

  // ---------------------------------------------------------------------------
  // Streams

  /** A stream is open from its making until its application closes it, the peer resets it or
      the connection is lost. */
  ghost predicate OpenBy(s: System, run: seq<Action>, k: Sid)
    requires Legal(s, run)
    decreases |run|
  {
    if run == [] then k in s.t.streams
    else
      var n := |run| - 1;
      SplitLast(s, run);
      var before := Run(s, run[..n]);
      if Makes(before, run[n], k) then true
      else if run[n] == Send(k, StreamClosed) || Reads(before, run[n], StreamReset(k)) || run[n] == Lost then false
      else OpenBy(s, run[..n], k)
  }

  lemma {:induction false} SplitLast(s: System, run: seq<Action>)
    requires Legal(s, run) && run != []
    ensures var n := |run| - 1;
      && Legal(s, run[..n]) && Enabled(Run(s, run[..n]), run[n])
      && Run(s, run) == Step(Run(s, run[..n]), run[n])
    decreases |run|
  {
    hide Step, Enabled;
    var n := |run| - 1;
    if n == 0 {
      assert run[1..] == [];
    } else {
      SplitLast(Step(s, run[0]), run[1..]);
      assert run[1..][..n - 1] == run[..n][1..] && run[1..][n - 1] == run[n];
    }
  }

  lemma CheckKeepsSignals(t: Tables, k: Sid)
    ensures var t' := CheckComplete(t, k).0;
      t'.streams == t.streams && t'.hasData == t.hasData && t'.closed == t.closed
    ensures var t' := FinishStream(t, k).0;
      t'.streams == t.streams && t'.hasData == t.hasData && t'.closed == t.closed
  {
    hide Close;
  }

  lemma SendKeepsSignals(t: Tables, k: Sid)
    ensures var t' := SendStep(t, k).0;
      t'.streams == t.streams && t'.hasData == t.hasData && t'.closed == t.closed
  {
    if t.h2.HasWindow(k) && k in t.bufs {
      var b := Pop(t.bufs[k], Max(0, Min(t.h2.Window(k), t.h2.maxFrame))).0;
      CheckKeepsSignals(t.(bufs := t.bufs[k := b], tree := t.tree.Block(k)), k);
    }
    hide Pop, Close, CheckComplete;
  }

  lemma EventStreams(t: Tables, j: Sid, e: StreamEvent)
    ensures StreamSend(t, j, e).0.streams == if e == StreamClosed then t.streams - {j} else t.streams
  {
    hide Push, SetComplete;
  }

  lemma ContinueStreams(s: System, j: Sid, raw: Bytes)
    requires Enabled(s, Continue(j, raw))
    ensures Step(s, Continue(j, raw)).t.streams == s.t.streams
  {
    hide Push, Pushed, Resume;
  }

  lemma StreamsStep(s: System, a: Action, k: Sid)
    requires Enabled(s, a)
    ensures k in Step(s, a).t.streams <==>
      Makes(s, a, k) ||
      (k in s.t.streams && !(a == Send(k, StreamClosed)) && !Reads(s, a, StreamReset(k)) && a != Lost)
  {
    match a
    case Send(j, e) => EventStreams(s.t, j, e); hide StreamSend, Pushed;
    case Continue(j, raw) => ContinueStreams(s, j, raw); hide Step;
    case Pick(j) => SendKeepsSignals(s.t, j); hide SendStep;
    case Flushed => CheckKeepsSignals(s.t, s.sender.k); hide CheckComplete, FinishStream;
    case _ =>
  }

  /** In every run the open streams are those the history says. */
  lemma {:induction false} StreamsAreOpen(s: System, run: seq<Action>, k: Sid)
    requires Legal(s, run)
    ensures k in Run(s, run).t.streams <==> OpenBy(s, run, k)
    decreases |run|
  {
    if run != [] {
      var n := |run| - 1;
      SplitLast(s, run);
      StreamsAreOpen(s, run[..n], k);
      StreamsStep(Run(s, run[..n]), run[n], k);
      hide Step, Enabled, Makes, Reads, Legal, Run;
    }
  }

  // ---------------------------------------------------------------------------
  // The tree

  /** The sending task takes stream `k` off the tables: it has ended it, or h2 takes nothing
      more of what it has to send or end. */
  predicate Drops(s: System, a: Action, k: Sid) {
    k in s.t.bufs && k in s.t.tree.nodes &&
    var b, takes := s.t.bufs[k], H2Laws.Takes(s, k);
    match a
    case Pick(j) =>
      && j == k
      && (|| k !in s.t.h2.streams || k in s.t.h2.purged
          || (!takes && ((b.data != [] && Room(s, k) > 0) || (b.data == [] && b.complete))))
    case Flushed =>
      s.sender == Ending(k) || (s.sender == Flushing(k) && b.data == [] && b.complete && !takes)
    case _ => false
  }

  function Room(s: System, k: Sid): int {
    if k !in s.t.h2.streams then 0
    else
      var w := s.t.h2.streams[k].window;
      if s.t.h2.connWindow <= w && s.t.h2.connWindow <= s.t.h2.maxFrame then s.t.h2.connWindow
      else if w <= s.t.h2.maxFrame then w
      else s.t.h2.maxFrame
  }

  /** The node of `k` is blocked: nothing could be taken. */
  predicate Blocks(s: System, a: Action, k: Sid) {
    a == Pick(k) && k in s.t.bufs && (s.t.bufs[k].data == [] || Room(s, k) <= 0)
  }

  /** The node of `k` is unblocked: by a chunk, trailers or the end of its body, by trailers
      pushed as body, or by an event that may have widened its window. */
  predicate Unblocked(s: System, a: Action, k: Sid) {
    match a
    case Send(j, e) =>
      && j == k && k in s.t.tree.nodes
      && (e.Data? || e.TrailerHeadersSend? || (e.Body? && !e.flush)
          || (k in s.t.bufs && (e == EndData || e == EndBody(false))))
    case Continue(j, raw) =>
      && j == k && k in s.t.tree.nodes && k in s.prods && s.prods[k].pos == InTrailers(false)
      && raw != [] && H2Laws.Takes(s, k)
    case Read(_) =>
      && s.pending != [] && k in s.t.bufs
      && (s.pending[0] == AllWindowsUpdated || s.pending[0] == WindowUpdated(k) || s.pending[0] == StreamReset(k))
    case _ => false
  }

  lemma NodesStep(s: System, a: Action, k: Sid)
    requires Enabled(s, a)
    ensures k in Step(s, a).t.tree.nodes <==>
      Makes(s, a, k) || Names(s, a, k) || (k in s.t.tree.nodes && !Drops(s, a, k))
  {
    if a.Send? {
      SendIsTablesStep(s.t, a.k, a.e);
      hide StreamSend, Pushed;
    } else if a.Continue? {
      ContinueIsProducerStep(s, a.k, a.raw);
      hide Step;
    } else if a.Pick? {
      PickNodes(s.t, a.k);
      PickTables(s, a.k);
      hide Step, SendStep;
    } else if a.Flushed? {
      FlushedTree(s);
      hide Step;
    } else if a.Read? {
      ReadTree(s, a.refuse);
      hide Step;
    }
  }

  lemma PickTables(s: System, k: Sid)
    requires Enabled(s, Pick(k))
    ensures Step(s, Pick(k)).t == SendStep(s.t, k).0
  {
    hide SendStep;
  }

  /** What a pick does to the tree. */
  lemma PickNodes(t: Tables, k: Sid)
    ensures var tree := SendStep(t, k).0.tree;
      var room := if k in t.h2.streams then Min(t.h2.Window(k), t.h2.maxFrame) else 0;
      if k !in t.bufs || (k !in t.tree.nodes && (k !in t.h2.streams || k in t.h2.purged)) then tree == t.tree
      else if k !in t.h2.streams || k in t.h2.purged then tree == t.tree.Remove(k)
      else if t.bufs[k].data != [] && room > 0 then
        tree == (if t.h2.CanSend(k) || k !in t.tree.nodes then t.tree else t.tree.Remove(k))
      else if t.bufs[k].data == [] && t.bufs[k].complete && !t.h2.CanSend(k) && k in t.tree.nodes then
        tree == t.tree.Remove(k)
      else tree == t.tree.Block(k)
  {
    if k in t.h2.streams && k in t.bufs {
      PopLeaves(t.bufs[k], Min(t.h2.Window(k), t.h2.maxFrame));
    }
    hide Pop, Close;
  }

  lemma PopLeaves(b: Buffer, room: int)
    ensures var (rest, data) := Pop(b, Max(0, room));
      && (data == [] <==> b.data == [] || room <= 0) && rest.complete == b.complete
      && (data == [] ==> rest.data == b.data)
  {
  }

  lemma SendWakes(t: Tables, k: Sid, e: StreamEvent)
    ensures var t' := StreamSend(t, k, e).0;
      var unblocks := k in t.tree.nodes
        && (e.Data? || e.TrailerHeadersSend? || (e.Body? && !e.flush)
            || (k in t.bufs && (e == EndData || e == EndBody(false))));
      && t'.tree == (if unblocks then t.tree.Unblock(k) else t.tree) && t'.closed == t.closed
      && (t'.hasData <==> t.hasData || unblocks || (e == StreamClosed && k in t.streams))
  {
    hide Push, SetComplete;
  }

  lemma TrailersWake(t: Tables, k: Sid, endStream: bool, raw: Bytes)
    ensures var t' := ResumeTrailers(t, k, endStream, raw).0;
      var unblocks := k in t.tree.nodes && !endStream && raw != [] && H2Laws.TakenBy(t.h2, k);
      && t'.tree == (if unblocks then t.tree.Unblock(k) else t.tree) && t'.closed == t.closed
      && (t'.hasData <==> t.hasData || unblocks)
  {
    hide Push;
  }

  lemma ContinueWakes(s: System, k: Sid, raw: Bytes)
    requires Enabled(s, Continue(k, raw))
    ensures var t' := Step(s, Continue(k, raw)).t;
      var unblocks := Unblocked(s, Continue(k, raw), k);
      && t'.tree == (if unblocks then s.t.tree.Unblock(k) else s.t.tree) && t'.closed == s.t.closed
      && (t'.hasData <==> s.t.hasData || unblocks)
  {
    if s.prods[k].pos.InTrailers? {
      TrailersWake(s.t, k, s.prods[k].pos.endStream, raw);
    }
    hide ResumeTrailers, Pushed, Resume, SendBody;
  }

  lemma FlushedTree(s: System)
    requires Enabled(s, Flushed)
    ensures var k, t' := s.sender.k, Step(s, Flushed).t;
      && t'.tree == (if Drops(s, Flushed, k) then s.t.tree.Remove(k) else s.t.tree)
      && t'.hasData == s.t.hasData && t'.closed == s.t.closed
  {
    hide Close;
  }

  lemma PickSignals(s: System, k: Sid)
    requires Enabled(s, Pick(k))
    ensures var t' := Step(s, Pick(k)).t; t'.hasData == s.t.hasData && t'.closed == s.t.closed
  {
    PickTables(s, k);
    SendKeepsSignals(s.t, k);
    hide *;
  }

  lemma ActiveStep(s: System, a: Action, k: Sid)
    requires Enabled(s, a) && (k in s.t.tree.active || k in s.t.bufs ==> k in s.t.tree.nodes) && SenderBuffered(s)
    ensures k in Step(s, a).t.tree.active <==>
      Unblocked(s, a, k) || (k in s.t.tree.active && !Drops(s, a, k) && !Blocks(s, a, k))
  {
    if a.Pick? {
      ActivePick(s, a.k, k);
      hide Step, Unblocked, Drops, Blocks;
    } else if a.Flushed? {
      FlushedTree(s);
      hide Step;
    } else if a.Send? {
      SendWakes(s.t, a.k, a.e);
      hide StreamSend, Pushed;
    } else if a.Continue? {
      ContinueWakes(s, a.k, a.raw);
      hide Step;
    } else {
      ActiveOther(s, a, k);
      hide Step, Unblocked, Drops, Blocks;
    }
  }

  lemma ActivePick(s: System, j: Sid, k: Sid)
    requires Enabled(s, Pick(j)) && (k in s.t.tree.active || k in s.t.bufs ==> k in s.t.tree.nodes)
    ensures k in Step(s, Pick(j)).t.tree.active <==>
      Unblocked(s, Pick(j), k) || (k in s.t.tree.active && !Drops(s, Pick(j), k) && !Blocks(s, Pick(j), k))
  {
    PickNodes(s.t, j);
    PickTables(s, j);
    hide Step, SendStep;
  }

  lemma ActiveOther(s: System, a: Action, k: Sid)
    requires Enabled(s, a) && !a.Pick? && !a.Flushed? && !a.Send? && !a.Continue?
    requires k in s.t.tree.active || k in s.t.bufs ==> k in s.t.tree.nodes
    ensures k in Step(s, a).t.tree.active <==>
      Unblocked(s, a, k) || (k in s.t.tree.active && !Drops(s, a, k) && !Blocks(s, a, k))
  {
    if a.Read? {
      ReadTree(s, a.refuse);
      hide Step;
    }
  }

  /** What the reader does to the tree. */
  lemma ReadTree(s: System, refuse: bool)
    requires Enabled(s, Read(refuse))
    ensures var tree := s.t.tree;
      Step(s, Read(refuse)).t.tree ==
        match s.pending[0]
        case RequestReceived(k) => if refuse then tree else tree.Insert({k})
        case PriorityUpdated(names) => tree.Insert(names)
        case AllWindowsUpdated => tree.(active := tree.active + s.t.bufs.Keys)
        case WindowUpdated(k) => if k in s.t.bufs then tree.Unblock(k) else tree
        case StreamReset(k) => if k in s.t.bufs then tree.Unblock(k) else tree
  {
  }

  /** In every reached state the tree changes as its last cause says: a stream's node is there
      from its making, or a PRIORITY frame that names it, until the sending task drops it. It
      starts blocked, and is unblocked and blocked for the given reasons only. */
  lemma TreeTells(s: System, connWindow: int, run: seq<Action>, a: Action, k: Sid)
    requires Reached(s, connWindow, run) && Enabled(s, a)
    ensures var tree, tree' := s.t.tree, Step(s, a).t.tree;
      && (k in tree'.nodes <==> Makes(s, a, k) || Names(s, a, k) || (k in tree.nodes && !Drops(s, a, k)))
      && (k in tree'.active <==> Unblocked(s, a, k) || (k in tree.active && !Drops(s, a, k) && !Blocks(s, a, k)))
  {
    TablesAgree(s, connWindow, run, k);
    ReachedInv(s, connWindow, run);
    InvBasics(s);
    ActiveNodes(s, k);
    hide Inv, Reached, Step, Enabled, Drops, Blocks, Unblocked, Makes, Names;
    NodesStep(s, a, k);
    ActiveStep(s, a, k);
  }

  lemma ActiveNodes(s: System, k: Sid)
    requires Inv(s)
    ensures k in s.t.tree.active || k in s.t.bufs ==> k in s.t.tree.nodes
  {
    hide StreamOk, RequestsFresh;
  }

  // ---------------------------------------------------------------------------
  // `has_data` and the end of the connection

  /** The actions that wake the sending task: what unblocks a node, the end of an open stream,
      every window, reset or PRIORITY event, and the loss of the connection. */
  predicate Signals(s: System, a: Action) {
    match a
    case Send(k, e) => Unblocked(s, a, k) || (e == StreamClosed && k in s.t.streams)
    case Continue(k, _) => Unblocked(s, a, k)
    case Read(_) => s.pending != [] && !s.pending[0].RequestReceived?
    case Lost => true
    case _ => false
  }

  lemma SignalStep(s: System, a: Action)
    requires Enabled(s, a)
    ensures Step(s, a).t.hasData <==> Signals(s, a) || (s.t.hasData && a != Wake)
    ensures Step(s, a).t.closed <==> s.t.closed || a == Lost
  {
    if a.Pick? {
      PickSignals(s, a.k);
      hide Step;
    } else if a.Flushed? {
      FlushedTree(s);
      hide Step;
    } else if a.Send? {
      SendWakes(s.t, a.k, a.e);
      hide StreamSend, Pushed;
    } else if a.Continue? {
      ContinueWakes(s, a.k, a.raw);
      hide Step;
    } else {
      hide Push, Pushed, SetComplete, Resume;
    }
  }

  ghost predicate SignalledBy(s: System, run: seq<Action>)
    requires Legal(s, run)
    decreases |run|
  {
    if run == [] then s.t.hasData
    else
      var n := |run| - 1;
      SplitLast(s, run);
      Signals(Run(s, run[..n]), run[n]) || (run[n] != Wake && SignalledBy(s, run[..n]))
  }

  /** In every run `has_data` is set if and only if something signalled since the sending task
      last woke up, and the connection is closed once it was lost. */
  lemma {:induction false} HasDataIff(s: System, run: seq<Action>)
    requires Legal(s, run)
    ensures Run(s, run).t.hasData <==> SignalledBy(s, run)
    ensures Run(s, run).t.closed <==> s.t.closed || Lost in run
    decreases |run|
  {
    if run != [] {
      var n := |run| - 1;
      SplitLast(s, run);
      HasDataIff(s, run[..n]);
      SignalStep(Run(s, run[..n]), run[n]);
      assert run == run[..n] + [run[n]];
      hide Step, Enabled, Signals, Legal, Run;
    }
  }

  /** A lost connection always lets the sending task return: it is not left waiting. */
  lemma LossEndsSender(s: System, connWindow: int, run: seq<Action>)
    requires Reached(s, connWindow, run) && s.t.closed && s.sender == Parked
    ensures s.t.hasData && Enabled(s, Wake) && Enabled(Step(s, Wake), Exit)
  {
    ClosedWakes(Init(connWindow), run);
  }

  lemma {:induction false} ClosedWakes(s: System, run: seq<Action>)
    requires Legal(s, run) && (s.t.closed && s.sender == Parked ==> s.t.hasData)
    ensures var s' := Run(s, run); s'.t.closed && s'.sender == Parked ==> s'.t.hasData
    decreases |run|
  {
    if run != [] {
      var s' := Step(s, run[0]);
      SignalStep(s, run[0]);
      ParkedStays(s, run[0]);
      hide Step, Enabled, Signals;
      ClosedWakes(s', run[1..]);
    }
  }

  lemma NotParked(t: Tables, k: Sid)
    ensures !SendStep(t, k).1.Parked? && !CheckComplete(t, k).1.Parked? && !FinishStream(t, k).1.Parked?
  {
    hide Pop, Close;
  }

  lemma ParkedStays(s: System, a: Action)
    requires Enabled(s, a)
    ensures Step(s, a).sender == Parked ==> (a == Park && !s.t.closed) || (s.sender == Parked && a != Wake)
  {
    if a.Pick? {
      NotParked(s.t, a.k);
    } else if a.Flushed? {
      NotParked(s.t, s.sender.k);
    }
    hide StreamSend, ResumeTrailers, ResumePush, Pushed, SendStep, CheckComplete, FinishStream;
  }

  // ---------------------------------------------------------------------------
  // Where a producer waits

  /** A chunk that is taken fills the buffer up to 32768 bytes or more. */
  predicate Fills(s: System, k: Sid, chunk: Bytes) {
    && k in s.t.tree.nodes && k in s.t.bufs && !s.t.bufs[k].complete
    && |s.t.bufs[k].data| + |chunk| >= 32768
  }

  /** A producer waits for room after a chunk that fills the buffer, for the buffer to drain
      after the end of its body and before its trailers, and nowhere else. */
  lemma WaitsIff(s: System, k: Sid, e: StreamEvent)
    requires Enabled(s, Send(k, e))
    ensures k in Step(s, Send(k, e)).prods
    ensures var pos := Step(s, Send(k, e)).prods[k].pos; var known := k in s.t.tree.nodes && k in s.t.bufs;
      && (pos == InPush <==> (e.Data? || (e.Body? && !e.flush)) && Fills(s, k, e.data))
      && (pos == InDrain <==> (e == EndData || e == EndBody(false)) && known)
      && (pos == InTrailers(true) <==> e == TrailerHeadersSend(true) && known)
      && (pos == InTrailers(false) <==> e == TrailerHeadersSend(false) && known)
  {
    hide SendHeaderBlock, SendFlushed, Pushed;
  }

  /** It goes on for good, unless it pushes its trailers as a chunk that fills the buffer. */
  lemma GoesOnIff(s: System, k: Sid, raw: Bytes)
    requires Enabled(s, Continue(k, raw))
    ensures k in Step(s, Continue(k, raw)).prods
    ensures var pos, pos' := s.prods[k].pos, Step(s, Continue(k, raw)).prods[k].pos;
      pos' == if pos == InTrailers(false) && raw != [] && H2Laws.Takes(s, k) && Fills(s, k, raw) then InPush else Idle
  {
    hide Pushed;
  }
}
