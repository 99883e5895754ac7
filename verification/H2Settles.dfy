/** The sending task always comes to rest: left alone, it makes a bounded number of steps
    and stops only by waiting, returning or dying. */
module H2Settles {
  import opened Bytes
  import opened StreamEvents
  import opened StreamBuffers
  import opened H2Tables
  import opened H2System
  import opened H2Invariant
  import opened H2Theorems

  predicate SenderAction(a: Action) {
    a.Pick? || a.Park? || a.Wake? || a.Flushed? || a.Exit?
  }

  /** All bytes held in the buffers of `ks`. */
  ghost function Held(bufs: map<Sid, Buffer>, ks: set<Sid>): nat
    requires ks <= bufs.Keys
  {
    if ks == {} then 0
    else
      var k :| k in ks;
      |bufs[k].data| + Held(bufs, ks - {k})
  }

  lemma {:induction false} HeldRemove(bufs: map<Sid, Buffer>, ks: set<Sid>, k: Sid)
    requires ks <= bufs.Keys && k in ks
    ensures Held(bufs, ks) == |bufs[k].data| + Held(bufs, ks - {k})
    decreases ks
  {
    var j :| j in ks && Held(bufs, ks) == |bufs[j].data| + Held(bufs, ks - {j});
    if j != k {
      HeldRemove(bufs, ks - {j}, k);
      HeldRemove(bufs, ks - {k}, j);
      assert ks - {j} - {k} == ks - {k} - {j};
    }
  }

  lemma {:induction false} HeldSame(bufs: map<Sid, Buffer>, bufs': map<Sid, Buffer>, ks: set<Sid>)
    requires ks <= bufs.Keys && ks <= bufs'.Keys && forall k <- ks :: bufs'[k] == bufs[k]
    ensures Held(bufs', ks) == Held(bufs, ks)
    decreases ks
  {
    if ks != {} {
      var k :| k in ks;
      HeldRemove(bufs, ks, k);
      HeldRemove(bufs', ks, k);
      HeldSame(bufs, bufs', ks - {k});
    }
  }

  function Weight(sender: Sender): nat {
    match sender
    case Flushing(_) => 4
    case Ending(_) => 3
    case Ready => 2
    case Parked => 1
    case _ => 0
  }

  ghost function HeldOf(s: System): nat { Held(s.t.bufs, s.t.bufs.Keys) }

  /** Bounds the number of steps the sending task can make on its own. */
  ghost function Budget(s: System): nat {
    3 * HeldOf(s) + 3 * |s.t.tree.active| + Weight(s.sender) + if s.t.hasData then 2 else 0
  }

  /** What one stream's buffer contributes before and after a step of the sending task. */
  lemma HeldStep(s: System, s': System, k: Sid)
    requires SenderStep(s, s', k)
    ensures k in s.t.bufs
    ensures k in s'.t.bufs ==> HeldOf(s') + |s.t.bufs[k].data| == HeldOf(s) + |s'.t.bufs[k].data|
    ensures k !in s'.t.bufs ==> HeldOf(s') + |s.t.bufs[k].data| == HeldOf(s)
  {
    var rest := s.t.bufs.Keys - {k};
    assert forall j :: j in rest <==> j in s'.t.bufs.Keys - {k};
    assert rest == s'.t.bufs.Keys - {k};
    HeldRemove(s.t.bufs, s.t.bufs.Keys, k);
    HeldSame(s.t.bufs, s'.t.bufs, rest);
    if k in s'.t.bufs {
      HeldRemove(s'.t.bufs, s'.t.bufs.Keys, k);
    } else {
      assert s'.t.bufs.Keys == rest;
    }
  }

  lemma ActiveStep(s: System, s': System, k: Sid)
    requires SenderStep(s, s', k)
    ensures (k in s'.t.tree.active ==> k in s.t.tree.active) ==> |s'.t.tree.active| <= |s.t.tree.active|
    ensures k in s.t.tree.active && k !in s'.t.tree.active ==> |s'.t.tree.active| < |s.t.tree.active|
  {
    if k in s.t.tree.active && k !in s'.t.tree.active {
      assert s'.t.tree.active == s.t.tree.active - {k};
    } else if k in s'.t.tree.active ==> k in s.t.tree.active {
      assert s'.t.tree.active == s.t.tree.active;
    }
  }

  /** Every picked stream gives up bytes or leaves the unblocked set. */
  lemma SendStepPays(t: Tables, k: Sid)
    requires k in t.bufs && k in t.tree.nodes && t.h2.maxFrame >= 1
    ensures var (t', sender) := SendStep(t, k);
      && t'.hasData == t.hasData
      && (|| k !in t'.tree.active
          || (sender == Flushing(k) && k in t'.bufs && |t'.bufs[k].data| < |t.bufs[k].data|))
      && (k in t'.bufs ==> |t'.bufs[k].data| <= |t.bufs[k].data|)
      && (sender == Ready || sender == Flushing(k) || (sender == Ending(k) && k in t'.bufs))
  {
  }

  lemma CheckCompletePays(t: Tables, k: Sid)
    requires k in t.bufs && k in t.tree.nodes
    ensures var (t', sender) := CheckComplete(t, k);
      && t'.hasData == t.hasData && (k in t'.tree.active ==> k in t.tree.active)
      && (k in t'.bufs ==> t'.bufs[k] == t.bufs[k]) && (sender == Ready || sender == Ending(k))
    ensures var (t', sender) := FinishStream(t, k);
      t'.hasData == t.hasData && k !in t'.tree.active && k !in t'.bufs && sender == Ready
  {
  }

  lemma PickIsSenderStep(s: System, k: Sid)
    requires StreamOk(s, k) && Enabled(s, Pick(k)) && k in s.t.bufs && s.t.h2.maxFrame >= 1
    ensures SenderStep(s, Step(s, Pick(k)), k) && k in s.t.tree.nodes
  {
    StreamKnown(s, k);
    hide StreamOk, SenderStep, Step;
    if SendStep(s.t, k).1 == Flushing(k) {
      PickData(s, k);
    } else if SendStep(s.t, k).1 == Ending(k) || k in SendStep(s.t, k).0.bufs {
      PickNothing(s, k);
    } else {
      PickFails(s, k);
      ForceClosedOk(s, Step(s, Pick(k)), k);
    }
  }

  lemma FlushedIsSenderStep(s: System)
    requires Enabled(s, Flushed) && StreamOk(s, s.sender.k)
    ensures SenderStep(s, Step(s, Flushed), s.sender.k) && s.sender.k in s.t.tree.nodes
  {
    var k := s.sender.k;
    StreamKnown(s, k);
    hide StreamOk, SenderStep, Step;
    if s.sender.Ending? {
      FinishOk(s, k);
    } else if CheckComplete(s.t, k).1 == Ending(k) || k in CheckComplete(s.t, k).0.bufs {
      CheckCompleteOk(s, k);
    } else {
      CheckCompleteFails(s, k);
      ForceClosedOk(s, Step(s, Flushed), k);
    }
  }

  lemma StreamOfSender(s: System, k: Sid)
    requires Inv(s)
    ensures k in s.t.bufs ==> StreamOk(s, k)
  {
    hide StreamOk, RequestsFresh;
    assert k in s.t.bufs ==> k in s.prods.Keys;
  }

  lemma PickEffect(s: System, k: Sid)
    requires Enabled(s, Pick(k))
    ensures s.sender == Ready && k in s.t.tree.active
    ensures var s' := Step(s, Pick(k)); s'.t == SendStep(s.t, k).0 && s'.sender == SendStep(s.t, k).1
  {
    hide SendStep;
  }

  /** Fewer bytes or fewer unblocked streams pay for any move of the sending task, and a
      move that ends a flush pays for itself. */
  lemma BudgetFalls(s: System, s': System)
    requires s'.t.hasData == s.t.hasData
    requires HeldOf(s') <= HeldOf(s) && |s'.t.tree.active| <= |s.t.tree.active|
    requires
      || (s.sender == Ready && (HeldOf(s') < HeldOf(s) || |s'.t.tree.active| < |s.t.tree.active|))
      || (s.sender.Flushing? && (s'.sender == Ready || s'.sender.Ending?))
      || (s.sender.Ending? && s'.sender == Ready)
    ensures Budget(s') < Budget(s)
  {
    hide HeldOf;
  }

  lemma PickPays(s: System, k: Sid)
    requires Inv(s) && Enabled(s, Pick(k)) && k in s.t.bufs
    ensures Budget(Step(s, Pick(k))) < Budget(s)
  {
    hide *;
    var s' := Step(s, Pick(k));
    InvBasics(s);
    PickEffect(s, k);
    StreamOfSender(s, k);
    PickIsSenderStep(s, k);
    SendStepPays(s.t, k);
    HeldStep(s, s', k);
    ActiveStep(s, s', k);
    BudgetFalls(s, s');
  }

  lemma FlushedEffect(s: System)
    requires Enabled(s, Flushed)
    ensures s.sender.Flushing? || s.sender.Ending?
    ensures var s', k := Step(s, Flushed), s.sender.k;
      var result := if s.sender.Flushing? then CheckComplete(s.t, k) else FinishStream(s.t, k);
      s'.t == result.0 && s'.sender == result.1
  {
  }

  lemma FlushPays(s: System)
    requires Inv(s) && Enabled(s, Flushed)
    ensures Budget(Step(s, Flushed)) < Budget(s)
  {
    hide *;
    InvBasics(s);
    FlushedEffect(s);
    var s', k := Step(s, Flushed), s.sender.k;
    StreamOfSender(s, k);
    FlushedIsSenderStep(s);
    CheckCompletePays(s.t, k);
    HeldStep(s, s', k);
    ActiveStep(s, s', k);
    BudgetFalls(s, s');
  }

  lemma StepPays(s: System, a: Action)
    requires Inv(s) && Enabled(s, a) && SenderAction(a)
    ensures Budget(Step(s, a)) < Budget(s)
  {
    hide Inv, Held;
    match a
    case Pick(k) =>
      if k in s.t.bufs {
        PickPays(s, k);
      } else {
        CrashKeeps(s, k);
      }
    case Flushed => FlushPays(s);
    case _ =>
  }

  /** Left alone, the sending task makes at most `Budget(s)` steps. */
  lemma {:induction false} SenderSettles(s: System, run: seq<Action>)
    requires Inv(s) && Legal(s, run) && forall a <- run :: SenderAction(a)
    ensures |run| + Budget(Run(s, run)) <= Budget(s)
    decreases |run|
  {
    hide Inv, Step, Enabled, Budget;
    if run != [] {
      StepKeeps(s, run[0]);
      StepPays(s, run[0]);
      SenderSettles(Step(s, run[0]), run[1..]);
    }
  }

  /** It can make no step exactly when it waits for `has_data`, has returned or has died. So
      on an open connection with the reader caught up the state is then at rest, and
      `RestIsComplete` says what has been delivered. */
  lemma SettledIffRest(s: System)
    ensures (exists a :: SenderAction(a) && Enabled(s, a)) <==>
      !((s.sender == Parked && !s.t.hasData) || s.sender == Exited || s.sender == Crashed)
  {
    if s.sender == Parked && s.t.hasData {
      assert SenderAction(Wake) && Enabled(s, Wake);
    } else if s.sender.Flushing? || s.sender.Ending? {
      assert SenderAction(Flushed) && Enabled(s, Flushed);
    } else if s.sender == Ready && s.t.closed {
      assert SenderAction(Exit) && Enabled(s, Exit);
    } else if s.sender == Ready && s.t.tree.active == {} {
      assert SenderAction(Park) && Enabled(s, Park);
    } else if s.sender == Ready {
      var k :| k in s.t.tree.active;
      assert SenderAction(Pick(k)) && Enabled(s, Pick(k));
    }
  }
}
