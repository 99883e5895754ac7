/** Runs of one stream buffer with one producer and one consumer: first in first out, and
    what back-pressure guarantees. */
module BufferRuns {
  import opened Bytes
  import opened StreamBuffers

  datatype BufferOp =
    | DoPush(chunk: Bytes)
    | DoResume
    | DoPop(maxLength: nat)
    | DoSetComplete
    | DoClose

  /** A buffer with its producer's position and what happened so far: `accepted` and
      `popped` bytes, finished pushes that had reached the high-water mark, pops that
      returned less than the low-water mark, and closes. */
  datatype Tracked = Tracked(
    buf: Buffer, waiting: bool,
    accepted: Bytes, popped: Bytes,
    hits: nat, shortPops: nat, closes: nat)

  const TRACKED_START := Tracked(EMPTY_BUFFER, false, [], [], 0, 0, 0)

  /** One producer: it neither pushes nor completes while its last push is waiting. */
  predicate Enabled(t: Tracked, op: BufferOp) {
    match op
    case DoPush(_) => !t.waiting
    case DoResume => t.waiting && t.buf.paused
    case DoSetComplete => !t.waiting
    case _ => true
  }

  function Step(t: Tracked, op: BufferOp): Tracked
    requires Enabled(t, op)
  {
    match op
    case DoPush(chunk) =>
      var (b, outcome) := Push(t.buf, chunk);
      t.(buf := b, waiting := outcome == Waiting,
         accepted := if outcome == Rejected then t.accepted else t.accepted + chunk)
    case DoResume => t.(buf := Resume(t.buf), waiting := false, hits := t.hits + 1)
    case DoPop(n) =>
      var (b, data) := Pop(t.buf, n);
      t.(buf := b, popped := t.popped + data,
         shortPops := t.shortPops + if |data| < LOW_WATER then 1 else 0)
    case DoSetComplete => t.(buf := SetComplete(t.buf))
    case DoClose => t.(buf := Close(t.buf), closes := t.closes + 1)
  }

  ghost predicate Legal(t: Tracked, ops: seq<BufferOp>)
    decreases |ops|
  {
    ops == [] || (Enabled(t, ops[0]) && Legal(Step(t, ops[0]), ops[1..]))
  }

  ghost function Run(t: Tracked, ops: seq<BufferOp>): Tracked
    requires Legal(t, ops)
    decreases |ops|
  {
    if ops == [] then t else Run(Step(t, ops[0]), ops[1..])
  }

  predicate ChunksAtMost(ops: seq<BufferOp>, c: nat) {
    forall op <- ops :: op.DoPush? ==> |op.chunk| <= c
  }

  ghost predicate Accounted(t: Tracked, c: nat) {
    && (t.buf.isEmpty ==> t.buf.data == [])
    && t.hits + (if t.buf.paused then 1 else 0) <= t.shortPops + t.closes
    && |t.buf.data| <= HIGH_WATER - 1 + c * (t.hits + if t.waiting then 1 else 0)
    && (t.closes == 0 ==> t.accepted == t.popped + t.buf.data)
    && (t.closes > 0 ==> t.popped <= t.accepted && t.buf.data == [] && t.buf.complete)
  }

  lemma StepAccounted(t: Tracked, op: BufferOp, c: nat)
    requires Enabled(t, op) && Accounted(t, c)
    requires op.DoPush? ==> |op.chunk| <= c
    ensures Accounted(Step(t, op), c)
  {
    var t' := Step(t, op);
    var hits, hits' := t.hits + if t.waiting then 1 else 0, t'.hits + if t'.waiting then 1 else 0;
    assert c * (hits + 1) == c * hits + c;
    assert hits' == hits || (op.DoPush? && hits' == hits + 1);
    Scaled(c, hits, hits');
    if !op.DoPush? {
      assert |t'.buf.data| <= |t.buf.data|;
    }
  }

  lemma {:induction false} RunAccounted(t: Tracked, ops: seq<BufferOp>, c: nat)
    requires Legal(t, ops) && Accounted(t, c) && ChunksAtMost(ops, c)
    ensures Accounted(Run(t, ops), c)
    decreases |ops|
  {
    if ops != [] {
      StepAccounted(t, ops[0], c);
      RunAccounted(Step(t, ops[0]), ops[1..], c);
    }
  }

  lemma Bounded(t: Tracked, c: nat)
    requires Accounted(t, c)
    ensures |t.buf.data| <= HIGH_WATER - 1 + c * (t.shortPops + 1)
  {
    if t.closes == 0 {
      Scaled(c, t.hits + if t.waiting then 1 else 0, t.shortPops + 1);
    } else {
      Scaled(c, 0, t.shortPops + 1);
    }
  }

  lemma Scaled(c: nat, a: nat, b: nat)
    requires a <= b
    ensures c * a <= c * b
  {
  }

  /** Back-pressure: every finished push that had hit the high-water mark, and a pending
      release, is paid for by a distinct short pop or close. So a producer of chunks of at
      most `c` bytes never holds more than `HIGH_WATER - 1 + c * (shortPops + 1)` bytes. */
  lemma BackPressure(ops: seq<BufferOp>, c: nat)
    requires Legal(TRACKED_START, ops) && ChunksAtMost(ops, c)
    ensures var t := Run(TRACKED_START, ops);
      && t.hits + (if t.buf.paused then 1 else 0) <= t.shortPops + t.closes
      && |t.buf.data| <= HIGH_WATER - 1 + c * (t.shortPops + 1)
  {
    RunAccounted(TRACKED_START, ops, c);
    Bounded(Run(TRACKED_START, ops), c);
  }

  /** First in, first out, in every run: what came out followed by what is held is what
      went in, and a set `_is_empty` event really means that nothing is held. */
  lemma Fifo(ops: seq<BufferOp>)
    requires Legal(TRACKED_START, ops)
    requires forall op <- ops :: !op.DoClose?
    ensures var t := Run(TRACKED_START, ops);
      && t.accepted == t.popped + t.buf.data
      && (t.buf.isEmpty ==> t.accepted == t.popped)
  {
    var c := LongestChunk(ops);
    RunAccounted(TRACKED_START, ops, c);
    NoCloses(TRACKED_START, ops);
  }

  ghost function LongestChunk(ops: seq<BufferOp>): (c: nat)
    ensures ChunksAtMost(ops, c)
  {
    if ops == [] then 0
    else
      var rest := LongestChunk(ops[1..]);
      assert ops == [ops[0]] + ops[1..];
      if ops[0].DoPush? then Max(|ops[0].chunk|, rest) else rest
  }

  lemma {:induction false} NoCloses(t: Tracked, ops: seq<BufferOp>)
    requires Legal(t, ops) && forall op <- ops :: !op.DoClose?
    ensures Run(t, ops).closes == t.closes
    decreases |ops|
  {
    if ops != [] {
      NoCloses(Step(t, ops[0]), ops[1..]);
    }
  }

  // ---------------------------------------------------------------------------
  // Events

  lemma {:induction false} Prefix(t: Tracked, ops: seq<BufferOp>)
    requires Legal(t, ops) && ops != []
    ensures var n := |ops| - 1;
      && Legal(t, ops[..n]) && Enabled(Run(t, ops[..n]), ops[n])
      && Run(t, ops) == Step(Run(t, ops[..n]), ops[n])
    decreases |ops|
  {
    hide Step, Enabled;
    var n := |ops| - 1;
    if n == 0 {
      assert ops[1..] == [];
    } else {
      Prefix(Step(t, ops[0]), ops[1..]);
      assert ops[1..][..n - 1] == ops[..n][1..] && ops[1..][n - 1] == ops[n];
    }
  }

  /** The bytes held after a run. */
  ghost function Held(ops: seq<BufferOp>): Bytes
    requires Legal(TRACKED_START, ops)
  {
    Run(TRACKED_START, ops).buf.data
  }

  predicate CompletedBy(ops: seq<BufferOp>) { DoSetComplete in ops || DoClose in ops }

  /** A pop of less than 16384 bytes or a close, and no resumed push after it. */
  ghost predicate PausedBy(ops: seq<BufferOp>)
    requires Legal(TRACKED_START, ops)
    decreases |ops|
  {
    ops != [] &&
    var before, last := ops[..|ops| - 1], ops[|ops| - 1];
    Prefix(TRACKED_START, ops);
    if last.DoPop? then last.maxLength < 16384 || |Held(before)| < 16384 || PausedBy(before)
    else last.DoClose? || (!last.DoResume? && PausedBy(before))
  }

  /** A pop of all there was or a close, and no accepted push after it. */
  ghost predicate EmptiedBy(ops: seq<BufferOp>)
    requires Legal(TRACKED_START, ops)
    decreases |ops|
  {
    ops != [] &&
    var before, last := ops[..|ops| - 1], ops[|ops| - 1];
    Prefix(TRACKED_START, ops);
    if last.DoPop? then |Held(before)| <= last.maxLength || EmptiedBy(before)
    else last.DoClose? || (!(last.DoPush? && !CompletedBy(before)) && EmptiedBy(before))
  }

  /** The last push left 32768 bytes or more, and was not resumed. */
  ghost predicate WaitingBy(ops: seq<BufferOp>)
    requires Legal(TRACKED_START, ops)
    decreases |ops|
  {
    ops != [] &&
    var before, last := ops[..|ops| - 1], ops[|ops| - 1];
    Prefix(TRACKED_START, ops);
    if last.DoPush? then !CompletedBy(before) && |Held(before)| + |last.chunk| >= 32768
    else !last.DoResume? && WaitingBy(before)
  }

  lemma CompletedSnoc(ops: seq<BufferOp>)
    requires ops != []
    ensures var before, last := ops[..|ops| - 1], ops[|ops| - 1];
      CompletedBy(ops) <==> CompletedBy(before) || last == DoSetComplete || last == DoClose
  {
    var before, last := ops[..|ops| - 1], ops[|ops| - 1];
    assert ops == before + [last];
  }

  /** In every run each of the buffer's events, and whether the producer waits, is what the
      last operations that bear on it say; and a push is accepted before the end only. */
  lemma {:induction false} EventsTellHistory(ops: seq<BufferOp>)
    requires Legal(TRACKED_START, ops)
    ensures var t := Run(TRACKED_START, ops);
      && (t.buf.complete <==> DoSetComplete in ops || DoClose in ops)
      && (t.buf.paused <==> PausedBy(ops))
      && (t.buf.isEmpty <==> EmptiedBy(ops))
      && (t.waiting <==> WaitingBy(ops))
    decreases |ops|
  {
    if ops != [] {
      Prefix(TRACKED_START, ops);
      EventsTellHistory(ops[..|ops| - 1]);
      CompletedSnoc(ops);
      hide Legal, Run, Enabled;
    }
  }

  /** What a push and a pop add: the whole chunk unless the end was marked, and all that is
      held or the length that was asked for. */
  lemma BytesMoved(ops: seq<BufferOp>)
    requires Legal(TRACKED_START, ops) && ops != []
    ensures Legal(TRACKED_START, ops[..|ops| - 1])
    ensures var before, t := Run(TRACKED_START, ops[..|ops| - 1]), Run(TRACKED_START, ops);
      match ops[|ops| - 1]
      case DoPush(chunk) =>
        && t.popped == before.popped
        && t.accepted == before.accepted + if CompletedBy(ops[..|ops| - 1]) then [] else chunk
      case DoPop(n) =>
        && t.accepted == before.accepted && before.popped <= t.popped
        && |t.popped| - |before.popped| == (if n <= |before.buf.data| then n else |before.buf.data|)
      case DoClose => t.accepted == before.accepted && t.popped == before.popped && t.buf.data == []
      case _ => t.accepted == before.accepted && t.popped == before.popped && t.buf.data == before.buf.data
  {
    Prefix(TRACKED_START, ops);
    EventsTellHistory(ops[..|ops| - 1]);
    hide Legal, Run, Enabled, PausedBy, EmptiedBy, WaitingBy;
  }
}
