/** Who is left waiting in `drain`: exactly when the removal of a stream strands its producer. */
module H2Drain {
  import opened Bytes
  import opened StreamEvents
  import opened StreamBuffers
  import opened H2Tables
  import opened H2System
  import opened H2Invariant
  import opened H2Theorems

  // ---------------------------------------------------------------------------
  // The last push

  /** The action pushes an empty chunk that the buffer of `k` accepts. */
  predicate PushesEmpty(s: System, a: Action, k: Sid) {
    a.Send? && a.k == k && Enabled(s, a) && Chunk(a.e) == Some([]) && Accepts(s.t, k)
  }

  /** The sending task takes from the buffer of `k`, or closes it. */
  predicate Takes(s: System, a: Action, k: Sid) {
    k in s.t.bufs &&
    (a == Pick(k) || (a.Flushed? && s.sender == Flushing(k) && k !in CheckComplete(s.t, k).0.bufs))
  }

  lemma {:induction false} LegalPrefix(s: System, run: seq<Action>, n: nat)
    requires Legal(s, run) && n <= |run|
    ensures Legal(s, run[..n])
    ensures n < |run| ==> Enabled(Run(s, run[..n]), run[n])
    ensures n < |run| ==> Legal(s, run[..n + 1]) && Run(s, run[..n + 1]) == Step(Run(s, run[..n]), run[n])
    decreases |run|
  {
    hide Step, Enabled;
    if n > 0 {
      LegalPrefix(Step(s, run[0]), run[1..], n - 1);
      assert run[..n][1..] == run[1..][..n - 1];
      if n < |run| {
        assert run[..n + 1][1..] == run[1..][..n];
      }
    } else if run != [] {
      assert run[..1][1..] == [] && run[..0] == [];
      assert Legal(Step(s, run[0]), []);
    }
  }

  /** In `run` an empty chunk was accepted for `k`, and since then the sending task has
      neither taken from the buffer nor closed it. */
  ghost predicate EmptyLast(s: System, run: seq<Action>, k: Sid)
    requires Legal(s, run)
    decreases |run|
  {
    run != [] &&
    (var n := |run| - 1;
     LegalPrefix(s, run, n);
     var before := Run(s, run[..n]);
     PushesEmpty(before, run[n], k) || (EmptyLast(s, run[..n], k) && !Takes(before, run[n], k)))
  }

  /** The history set says the same. */
  lemma BlankStepIff(s: System, a: Action, k: Sid)
    requires Enabled(s, a) && SenderBuffered(s)
    ensures k in Step(s, a).blank <==> PushesEmpty(s, a, k) || (k in s.blank && !Takes(s, a, k))
  {
    hide Step, Accepts, CheckComplete;
    match a
    case Send(j, e) => SendBlank(s, j, e);
    case Pick(j) => hide Enabled; PickBlank(s, j);
    case Flushed => FlushBlank(s);
    case _ => hide Enabled; OtherBlank(s, a);
  }

  lemma SendBlank(s: System, k: Sid, e: StreamEvent)
    requires Enabled(s, Send(k, e))
    ensures Step(s, Send(k, e)).blank == if Chunk(e) == Some([]) && Accepts(s.t, k) then s.blank + {k} else s.blank
  {
    hide StreamSend, Pushed;
  }

  lemma OtherBlank(s: System, a: Action)
    requires Enabled(s, a) && !a.Send? && !a.Pick? && !a.Flushed?
    ensures Step(s, a).blank == s.blank
  {
    hide ResumeTrailers, ResumePush, Pushed, Create, ReceiveH2;
  }

  lemma PickBlank(s: System, k: Sid)
    requires Enabled(s, Pick(k))
    ensures Step(s, Pick(k)).blank == if k in s.t.bufs then s.blank - {k} else s.blank
  {
    hide SendStep;
  }

  lemma FlushBlank(s: System)
    requires Enabled(s, Flushed) && s.sender.k in s.t.bufs
    ensures Step(s, Flushed).blank ==
      if s.sender.Flushing? && s.sender.k !in CheckComplete(s.t, s.sender.k).0.bufs
      then s.blank - {s.sender.k} else s.blank
  {
    hide CheckComplete;
  }

  lemma {:induction false} BlankIff(s: System, run: seq<Action>, k: Sid)
    requires Inv(s) && Legal(s, run) && k !in s.blank
    ensures k in Run(s, run).blank <==> EmptyLast(s, run, k)
    decreases |run|
  {
    if run != [] {
      var n := |run| - 1;
      LegalPrefix(s, run, n);
      assert run[..n + 1] == run;
      hide Inv, Step, Enabled, PushesEmpty, Takes;
      RunKeeps(s, run[..n]);
      BlankIff(s, run[..n], k);
      InvBasics(Run(s, run[..n]));
      BlankStepIff(Run(s, run[..n]), run[n], k);
    }
  }

  // ---------------------------------------------------------------------------
  // Leaving `drain`

  predicate Draining(pos: Pos) { pos == InDrain || pos.InTrailers? }

  /** Ending a stream releases a producer in `drain` if and only if `_is_empty` is set. */
  lemma EndingReleasesIff(s: System, k: Sid)
    requires StreamOk(s, k) && s.sender == Ending(k) && Draining(s.prods[k].pos)
    ensures Enabled(s, Flushed) && k in s.t.bufs
    ensures Released(Step(s, Flushed).t, k, s.prods[k].pos) <==> s.t.bufs[k].isEmpty
    ensures s.t.bufs[k].isEmpty <==> k !in s.blank
  {
    hide BytesOk, BlockedForReason;
    assert k in s.t.bufs && k in s.t.tree.nodes && (s.t.bufs[k].isEmpty <==> k !in s.blank);
    hide StreamOk;
    FinishEffect(s, k);
    hide Step, FinishStream;
  }

  lemma FinishEffect(s: System, k: Sid)
    requires s.sender == Ending(k) && k in s.t.bufs && k in s.t.tree.nodes
    ensures Enabled(s, Flushed) && Step(s, Flushed).t == s.t.Retire(k, s.t.bufs[k])
  {
  }

  /** Force-closing always releases. */
  lemma ForceCloseReleases(t: Tables, k: Sid, pos: Pos)
    requires k in t.bufs && k in t.tree.nodes
    ensures Released(ForceClose(t, k).0, k, pos)
  {
  }

  /** Once the buffer is gone, a producer in `drain` is released if and only if
      since the sending task last took from it no empty chunk was accepted. One that is not
      released waits for ever (`RemovedStaysStranded`). */
  lemma DrainReleasedIff(s: System, connWindow: int, run: seq<Action>, k: Sid)
    requires Reached(s, connWindow, run) && k in s.prods && k !in s.t.bufs && Draining(s.prods[k].pos)
    ensures Released(s.t, k, s.prods[k].pos) <==> !EmptyLast(Init(connWindow), run, k)
  {
    ReachedInv(s, connWindow, run);
    InitOk(connWindow);
    BlankIff(Init(connWindow), run, k);
    hide EmptyLast, Legal, Run;
    assert StreamOk(s, k);
    hide Inv, BytesOk, BlockedForReason;
    assert k in s.t.retired && (s.t.retired[k].isEmpty <==> k !in s.blank);
    hide StreamOk;
  }

  /** The same, said of the step that removes an ended stream. */
  lemma EndedDrainReleasedIff(s: System, connWindow: int, run: seq<Action>, k: Sid)
    requires Reached(s, connWindow, run) && s.sender == Ending(k) && k in s.prods && Draining(s.prods[k].pos)
    ensures Enabled(s, Flushed)
    ensures Released(Step(s, Flushed).t, k, s.prods[k].pos) <==> !EmptyLast(Init(connWindow), run, k)
  {
    ReachedInv(s, connWindow, run);
    InitOk(connWindow);
    BlankIff(Init(connWindow), run, k);
    hide EmptyLast, Legal, Run, Step, Enabled, Released;
    assert StreamOk(s, k);
    hide Inv, StreamOk;
    EndingReleasesIff(s, k);
  }
}
