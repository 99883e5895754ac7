/** From the messages of an ASGI application to the DATA bytes of its HTTP/2 stream: an
    `HTTPStream` as the producer of one stream of the HTTP/2 system. */
module EndToEnd {
  import opened Bytes
  import opened StreamEvents
  import Http = HttpStreams
  import HttpRuns
  import HttpTheorems
  import opened H2Tables
  import opened H2System
  import opened H2Invariant
  import H2Theorems
  import H2Settles
  import H2Laws

  predicate FlushFree(ms: seq<Http.AppMessage>) {
    forall m <- ms :: m.BodyPart? ==> !m.flush
  }

  predicate NoFlush(es: seq<StreamEvent>) {
    forall e <- es :: !H2Theorems.Flushes(e)
  }

  lemma {:induction false} EmitsOf(todo: seq<Http.Micro>)
    ensures forall e <- HttpRuns.Emits(todo) :: Http.Emit(e) in todo
  {
    if todo != [] {
      EmitsOf(todo[1..]);
      assert forall x <- todo[1..] :: x in todo;
    }
  }

  lemma PlanFlush(scope: Http.Scope, h: Http.Http, m: Http.AppMessage)
    requires m.BodyPart? ==> !m.flush
    ensures NoFlush(HttpRuns.Emits(Http.Plan(scope, h, m).1))
  {
    var todo := Http.Plan(scope, h, m).1;
    assert forall x <- todo :: x.Emit? ==> !H2Theorems.Flushes(x.e);
    EmitsOf(todo);
  }

  /** Messages that do not flush lead to events that do not flush. */
  lemma {:induction false} FlushRun(scope: Http.Scope, l: HttpRuns.Live, run: seq<HttpRuns.Action>)
    requires HttpRuns.Legal(scope, l, run) && NoFlush(HttpRuns.Out(l)) && FlushFree(HttpRuns.Run(scope, l, run).sent)
    ensures NoFlush(HttpRuns.Out(HttpRuns.Run(scope, l, run)))
    ensures l.sent <= HttpRuns.Run(scope, l, run).sent
    decreases |run|
  {
    if run != [] {
      var l' := HttpRuns.Step(scope, l, run[0]);
      SentGrows(scope, l', run[1..]);
      assert NoFlush(HttpRuns.Out(l')) by {
        if run[0].App? {
          assert run[0].m == l'.sent[|l.sent|];
          assert run[0].m in HttpRuns.Run(scope, l, run).sent;
          PlanFlush(scope, l.h, run[0].m);
          hide Http.Plan;
        } else if run[0].Go? {
          HttpRuns.GoKeepsOut(scope, l);
        }
      }
      hide HttpRuns.Step, HttpRuns.Enabled, HttpRuns.Out;
      FlushRun(scope, l', run[1..]);
    }
  }

  lemma {:induction false} SentGrows(scope: Http.Scope, l: HttpRuns.Live, run: seq<HttpRuns.Action>)
    requires HttpRuns.Legal(scope, l, run)
    ensures l.sent <= HttpRuns.Run(scope, l, run).sent
    decreases |run|
  {
    if run != [] {
      SentGrows(scope, HttpRuns.Step(scope, l, run[0]), run[1..]);
    }
  }

  /** In the output grammar the body ends where the last body event is, so what the HTTP/2
      producer counts as its payload is all the body bytes. */
  lemma {:induction false} PayloadIsBody(out: seq<StreamEvent>)
    requires HttpRuns.PhaseOf(out) != HttpRuns.Broken && NoFlush(out)
    ensures Payload(out) == AllBodyBytes(out)
    ensures BodyEnded(out) ==> HttpRuns.PhaseOf(out) != HttpRuns.Opening && HttpRuns.PhaseOf(out) != HttpRuns.Replying
  {
    if out != [] {
      var before, last := out[..|out| - 1], out[|out| - 1];
      assert out == before + [last];
      HttpRuns.PrefixUnbroken(before, [last]);
      HttpRuns.PhaseConcat(HttpRuns.Opening, before, [last]);
      assert [last][1..] == [];
      assert HttpRuns.PhaseOf(out) == HttpRuns.Advance(HttpRuns.PhaseOf(before), last);
      assert forall e <- before :: e in out;
      assert last in out && !H2Theorems.Flushes(last);
      PayloadIsBody(before);
      PayloadSnoc(before, last);
      assert AllBodyBytes(out) == AllBodyBytes(before) + BodyBytes(last);
      if Chunk(last).Some? {
        assert HttpRuns.PhaseOf(before) == HttpRuns.Replying;
        assert Chunk(last).value == BodyBytes(last);
      } else {
        assert BodyBytes(last) == [];
      }
    }
  }

  lemma {:induction false} NothingAfterEnd(p: HttpRuns.Phase, es: seq<StreamEvent>)
    requires p == HttpRuns.Ended || p == HttpRuns.Over || p == HttpRuns.Quit
    requires HttpRuns.PhaseFrom(p, es) != HttpRuns.Broken
    ensures forall e <- es :: BodyBytes(e) == []
    decreases |es|
  {
    if es != [] {
      HttpRuns.BrokenStays(es[1..]);
      NothingAfterEnd(HttpRuns.Advance(p, es[0]), es[1..]);
      assert es == [es[0]] + es[1..];
    }
  }

  /** Once the end of the body is out, the payload is the whole body of the application. */
  lemma EndedBodyIsWhole(scope: Http.Scope, l: HttpRuns.Live, run: seq<HttpRuns.Action>)
    requires HttpRuns.Reached(scope, l, run) && HttpRuns.TrailersFree(l.sent) && FlushFree(l.sent)
    requires BodyEnded(l.h.out)
    ensures NoFlush(l.h.out) && Payload(l.h.out) == HttpTheorems.AppBody(scope, l.sent)
  {
    var rest := HttpRuns.Emits(l.todo);
    FlushRun(scope, HttpRuns.NEW, run);
    assert forall e <- l.h.out :: e in HttpRuns.Out(l);
    HttpTheorems.OutputGrammar(scope, l, run);
    HttpTheorems.WholeGrammar(scope, l, run);
    HttpTheorems.BodyConservation(scope, l, run);
    hide HttpRuns.Legal, HttpRuns.Run, HttpRuns.PhaseFrom, HttpTheorems.AppBody, Payload;
    PayloadIsBody(l.h.out);
    HttpRuns.PhaseConcat(HttpRuns.Opening, l.h.out, rest);
    NothingAfterEnd(HttpRuns.PhaseOf(l.h.out), rest);
    HttpTheorems.NoBodyBytes(rest);
    AllBodyBytesConcat(l.h.out, rest);
  }

  // ---------------------------------------------------------------------------
  // No empty chunks

  predicate NoEmptyBody(es: seq<StreamEvent>) {
    forall e <- es :: Chunk(e) != Some([])
  }

  lemma PlanNoEmptyBody(scope: Http.Scope, h: Http.Http, m: Http.AppMessage)
    ensures NoEmptyBody(HttpRuns.Emits(Http.Plan(scope, h, m).1))
  {
    var todo := Http.Plan(scope, h, m).1;
    EmitsOf(todo);
    if HttpRuns.IsBody(m) && h.state == Http.Responding && h.response.Some? {
      HttpRuns.BodyShape(scope, h, m);
      ContentNoEmpty(scope, h, m);
      hide Http.Plan, HttpRuns.Content;
    } else {
      hide Http.Reads, Http.EmitBodies, HttpRuns.Emits;
    }
  }

  lemma ContentNoEmpty(scope: Http.Scope, h: Http.Http, m: Http.AppMessage)
    requires HttpRuns.IsBody(m) && h.response.Some?
    ensures forall x <- HttpRuns.Content(scope, h, m) :: x.Emit? ==> Chunk(x.e) != Some([])
  {
    if m.PathSend? {
      var parts := Http.Reads(m.chunks);
      assert forall i :: 0 <= i < |parts| ==> parts[i] in parts;
      hide Http.Reads;
    }
  }

  /** An HTTP stream never pushes an empty chunk. */
  lemma {:induction false} NoEmptyRun(scope: Http.Scope, l: HttpRuns.Live, run: seq<HttpRuns.Action>)
    requires HttpRuns.Legal(scope, l, run) && NoEmptyBody(HttpRuns.Out(l))
    ensures NoEmptyBody(HttpRuns.Out(HttpRuns.Run(scope, l, run)))
    decreases |run|
  {
    if run != [] {
      var l' := HttpRuns.Step(scope, l, run[0]);
      assert NoEmptyBody(HttpRuns.Out(l')) by {
        if run[0].App? {
          PlanNoEmptyBody(scope, l.h, run[0].m);
          hide Http.Plan;
        } else if run[0].Go? {
          HttpRuns.GoKeepsOut(scope, l);
        }
      }
      hide HttpRuns.Step, HttpRuns.Enabled, HttpRuns.Out;
      NoEmptyRun(scope, l', run[1..]);
    }
  }

  /** So its producer is never left behind: once its buffer is gone, whatever it waits for,
      in `push` or in `drain`, is set. This holds with flushed bodies and trailers too. */
  lemma HttpNeverStranded(
    scope: Http.Scope, l: HttpRuns.Live, httpRun: seq<HttpRuns.Action>,
    s: System, connWindow: int, run: seq<Action>, k: Sid)
    requires HttpRuns.Reached(scope, l, httpRun)
    requires H2Theorems.Reached(s, connWindow, run) && k in s.prods && k !in s.t.bufs
    requires forall e <- s.prods[k].ops :: e in l.h.out || (e.Data? && e.data != [])
    ensures H2System.Released(s.t, k, s.prods[k].pos)
  {
    NoEmptyRun(scope, HttpRuns.NEW, httpRun);
    assert forall e <- l.h.out :: e in HttpRuns.Out(l);
    assert !H2Theorems.HasEmptyChunk(s.prods[k].ops);
    hide HttpRuns.Legal, HttpRuns.Run, Legal, Run;
    H2Theorems.RemovedStreamsReleaseProducers(s, connWindow, run, k);
    if s.prods[k].pos == Idle {
      H2Theorems.ReachedInv(s, connWindow, run);
      assert StreamOk(s, k);
    }
  }

  /** The stream `k` of the HTTP/2 system is produced by the HTTP stream `l`, which neither
      uses trailers nor asks for flushing. */
  ghost predicate Produces(
    scope: Http.Scope, l: HttpRuns.Live, httpRun: seq<HttpRuns.Action>,
    s: System, connWindow: int, run: seq<Action>, k: Sid)
  {
    && HttpRuns.Reached(scope, l, httpRun) && HttpRuns.TrailersFree(l.sent) && FlushFree(l.sent)
    && H2Theorems.Reached(s, connWindow, run) && k in s.prods && k in s.t.h2.streams
    && s.prods[k].ops == l.h.out
  }

  // ---------------------------------------------------------------------------
  // Heads

  /** An output in the grammar that is under way begins with a head, has no trailers, and has
      no head after the end of its body. */
  lemma {:induction false} HeadsInGrammar(p: HttpRuns.Phase, out: seq<StreamEvent>)
    requires HttpRuns.PhaseFrom(p, out) != HttpRuns.Broken && p != HttpRuns.Broken
    ensures H2Laws.NoTrailers(out)
    ensures p == HttpRuns.Opening && HttpRuns.PhaseFrom(p, out) != HttpRuns.Opening ==> H2Laws.HeadFirst(out)
    ensures p != HttpRuns.Opening && p != HttpRuns.Replying ==> H2Laws.HeadsOf(out) == []
    ensures p != HttpRuns.Opening && p != HttpRuns.Replying ==> !BodyEnded(out)
    decreases |out|
  {
    if out != [] {
      var e, rest := out[0], out[1..];
      var q := HttpRuns.Advance(p, e);
      HttpRuns.BrokenStays(rest);
      HeadsInGrammar(q, rest);
      assert out == [e] + rest;
      HeadsCons(e, rest);
      EndedCons(e, rest);
      hide HttpRuns.PhaseFrom, H2Laws.HeadsOf, BodyEnded;
    }
  }

  lemma {:induction false} HeadsCons(e: StreamEvent, rest: seq<StreamEvent>)
    ensures H2Laws.HeadsOf([e] + rest) == H2Laws.HeadOf(e) + H2Laws.HeadsOf(rest)
    decreases |rest|
  {
    var es := [e] + rest;
    hide H2Laws.HeadOf;
    if rest == [] {
      assert es == [e] && es[..0] == [] && H2Laws.HeadsOf([]) == [];
    } else {
      HeadsCons(e, rest[..|rest| - 1]);
      assert es[..|es| - 1] == [e] + rest[..|rest| - 1];
    }
  }

  lemma EndedCons(e: StreamEvent, rest: seq<StreamEvent>)
    ensures BodyEnded([e] + rest) <==> EndsBody(e) || BodyEnded(rest)
  {
    assert forall x :: x in [e] + rest <==> x == e || x in rest;
    if EndsBody(e) {
      assert e in [e] + rest;
    }
    if BodyEnded(rest) {
      var x :| x in rest && EndsBody(x);
      assert x in [e] + rest;
    }
  }

  /** All heads stand before the end of the body. */
  lemma {:induction false} HeadsBeforeEnd(p: HttpRuns.Phase, out: seq<StreamEvent>)
    requires HttpRuns.PhaseFrom(p, out) != HttpRuns.Broken && p != HttpRuns.Broken
    ensures H2Laws.HeadsOf(H2Laws.UpToEnd(out)) == H2Laws.HeadsOf(out)
    decreases |out|
  {
    if out != [] {
      var e, rest := out[0], out[1..];
      var q := HttpRuns.Advance(p, e);
      HttpRuns.BrokenStays(rest);
      assert out == [e] + rest;
      HeadsCons(e, rest);
      if EndsBody(e) {
        HeadsInGrammar(q, rest);
      } else {
        HeadsBeforeEnd(q, rest);
        HeadsCons(e, H2Laws.UpToEnd(rest));
      }
      hide HttpRuns.PhaseFrom, H2Laws.HeadsOf;
    }
  }

  /** The heads of an ended response were given to h2 first, all of them and no others. */
  lemma HeadsAreResponse(
    scope: Http.Scope, l: HttpRuns.Live, httpRun: seq<HttpRuns.Action>,
    s: System, connWindow: int, run: seq<Action>, k: Sid)
    requires Produces(scope, l, httpRun, s, connWindow, run, k)
    requires EndStream in s.t.h2.streams[k].calls
    ensures var calls := s.t.h2.streams[k].calls;
      calls[0] == SendHeaders(false) && H2Laws.HeadCalls(calls) == H2Laws.HeadsOf(l.h.out)
  {
    HttpTheorems.OutputGrammar(scope, l, httpRun);
    H2Theorems.EndOfStream(s, connWindow, run, k);
    FlushRun(scope, HttpRuns.NEW, httpRun);
    assert forall e <- l.h.out :: e in HttpRuns.Out(l);
    hide HttpRuns.Legal, HttpRuns.Run, Legal, Run, HttpRuns.PhaseFrom, H2Laws.HeadsOf, H2Laws.HeadCalls;
    PayloadIsBody(l.h.out);
    HeadsInGrammar(HttpRuns.Opening, l.h.out);
    HeadsBeforeEnd(HttpRuns.Opening, l.h.out);
    H2Laws.HeadComesFirst(s, connWindow, run, k);
    H2Laws.HeadsAreAsked(s, connWindow, run, k);
  }

  /** End to end, for any chunking of the body, any other streams, any scheduling, windows
      and priorities: the first call is the response's head, or an informational one before it,
      all its heads are given to h2, and the DATA bytes before END_STREAM are the application's
      body, all of it and nothing else, or nothing when method or status forbid a body. */
  lemma DataIsAppBody(
    scope: Http.Scope, l: HttpRuns.Live, httpRun: seq<HttpRuns.Action>,
    s: System, connWindow: int, run: seq<Action>, k: Sid)
    requires Produces(scope, l, httpRun, s, connWindow, run, k)
    requires EndStream in s.t.h2.streams[k].calls
    ensures var calls := s.t.h2.streams[k].calls;
      && Delivered(calls) == HttpTheorems.AppBody(scope, l.sent)
      && (forall c <- calls :: !c.SendDirect?)
      && calls[|calls| - 1] == EndStream
      && calls[0] == SendHeaders(false) && H2Laws.HeadCalls(calls) == H2Laws.HeadsOf(l.h.out)
  {
    HeadsAreResponse(scope, l, httpRun, s, connWindow, run, k);
    H2Theorems.EndOfStream(s, connWindow, run, k);
    EndedBodyIsWhole(scope, l, httpRun);
    H2Theorems.NothingBypassesBuffer(s, connWindow, run, k);
  }

  /** And END_STREAM does come: in a state at rest, a response whose end was sent, on a stream
      that was not force-closed and has window left, has been delivered whole. */
  lemma DeliveredAtRest(
    scope: Http.Scope, l: HttpRuns.Live, httpRun: seq<HttpRuns.Action>,
    s: System, connWindow: int, run: seq<Action>, k: Sid)
    requires Produces(scope, l, httpRun, s, connWindow, run, k)
    requires H2Theorems.AtRest(s) && k !in s.forced && BodyEnded(l.h.out)
    requires k in s.t.bufs ==> s.t.h2.Window(k) > 0
    ensures EndStream in s.t.h2.streams[k].calls
    ensures Delivered(s.t.h2.streams[k].calls) == HttpTheorems.AppBody(scope, l.sent)
  {
    if k in s.t.bufs {
      H2Theorems.RestIsComplete(s, connWindow, run, k);
    }
    H2Theorems.ReachedInv(s, connWindow, run);
    assert EndStream in s.t.h2.streams[k].calls by {
      hide HttpRuns.Legal, HttpRuns.Run;
      assert StreamOk(s, k);
    }
    DataIsAppBody(scope, l, httpRun, s, connWindow, run, k);
  }
}
