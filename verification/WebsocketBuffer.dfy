/** `WebsocketBuffer` and the loop that fills it: fragments of a message are collected and
    delivered when the last one arrives, unless the message outgrows the limit. */
module WebsocketBuffers {
  import opened Bytes

  /** The data of a fragment or message; text counts characters, binary counts bytes. */
  datatype Payload = Text(chars: string) | Binary(bytes: Bytes) {
    function Size(): nat { match this case Text(c) => |c| case Binary(b) => |b| }
    predicate SameKind(p: Payload) { Text? <==> p.Text? }
    function Append(p: Payload): Payload
      requires SameKind(p)
    {
      match this case Text(c) => Text(c + p.chars) case Binary(b) => Binary(b + p.bytes)
    }
    function Empty(): Payload { match this case Text(_) => Text("") case Binary(_) => Binary([]) }
  }

  datatype Fragment = Fragment(payload: Payload, last: bool)

  datatype Event =
    | Message(fragment: Fragment)
    | Ping(data: Bytes)
    | Pong(data: Bytes)

  datatype Buffer = Buffer(value: Option<Payload>, length: nat)

  const CLEARED := Buffer(None, 0)

  /** `extend` returns, raises FrameTooLargeError, or raises TypeError for mixed kinds. */
  datatype Outcome = Extended | TooLarge | WrongKind

  function Extend(b: Buffer, limit: int, p: Payload): (Buffer, Outcome) {
    var value := b.value.GetOr(p.Empty());
    if !value.SameKind(p) then (b, WrongKind)
    else
      var b' := Buffer(Some(value.Append(p)), b.length + p.Size());
      (b', if b'.length > limit then TooLarge else Extended)
  }

  // ---------------------------------------------------------------------------
  // Events

  datatype AppPut = Receive(message: Payload) | AppPing(data: Bytes) | AppPong(data: Bytes)

  datatype Reply = PongReply(data: Bytes) | TooBigClose

  /** The buffer, what was put on the application's queue and what was answered. */
  datatype Assembly = Assembly(buf: Buffer, puts: seq<AppPut>, replies: seq<Reply>)

  const START := Assembly(CLEARED, [], [])

  /** One round of the loop in `_handle_events`, and whether it leaves the loop. */
  function Process(a: Assembly, limit: int, handlePing: bool, e: Event): (Assembly, bool) {
    match e
    case Message(f) =>
      var (b, outcome) := Extend(a.buf, limit, f.payload);
      (match outcome
       case WrongKind => (a, true)
       case TooLarge => (a.(buf := b, replies := a.replies + [TooBigClose]), true)
       case Extended =>
         if f.last then (a.(buf := CLEARED, puts := a.puts + [Receive(b.value.GetOr(f.payload))]), false)
         else (a.(buf := b), false))
    case Ping(data) =>
      if handlePing then (a.(replies := a.replies + [PongReply(data)]), false)
      else (a.(puts := a.puts + [AppPing(data)]), false)
    case Pong(data) => if handlePing then (a, false) else (a.(puts := a.puts + [AppPong(data)]), false)
  }

  /** One call of `_handle_events`: what it leaves is handled by the next call. */
  function Batch(a: Assembly, limit: int, handlePing: bool, es: seq<Event>): (Assembly, seq<Event>)
    decreases |es|
  {
    if es == [] then (a, [])
    else
      var (a', stop) := Process(a, limit, handlePing, es[0]);
      if stop then (a', es[1..]) else Batch(a', limit, handlePing, es[1..])
  }

  /** All events of a connection, over any number of calls. */
  function ProcessAll(a: Assembly, limit: int, handlePing: bool, es: seq<Event>): Assembly
    decreases |es|
  {
    if es == [] then a else ProcessAll(Process(a, limit, handlePing, es[0]).0, limit, handlePing, es[1..])
  }

  /** However the events are split over calls, the result is the same. */
  lemma {:induction false} BatchesCompose(a: Assembly, limit: int, handlePing: bool, es: seq<Event>, more: seq<Event>)
    ensures var (a', rest) := Batch(a, limit, handlePing, es);
      && ProcessAll(a, limit, handlePing, es + more) == ProcessAll(a', limit, handlePing, rest + more)
      && |rest| <= |es|
    decreases |es|
  {
    if es == [] {
      assert es + more == more && [] + more == more;
    } else {
      var (a', stop) := Process(a, limit, handlePing, es[0]);
      assert (es + more)[1..] == es[1..] + more;
      if !stop {
        BatchesCompose(a', limit, handlePing, es[1..], more);
      }
    }
  }

  // ---------------------------------------------------------------------------
  // What a peer sent

  function Fragments(es: seq<Event>): seq<Fragment> {
    if es == [] then []
    else (match es[0] case Message(f) => [f] case _ => []) + Fragments(es[1..])
  }

  /** The complete messages, each the list of its fragments; `open` are the fragments of the
      message that is being received. */
  function Messages(open: seq<Fragment>, fs: seq<Fragment>): seq<seq<Fragment>>
    decreases |fs|
  {
    if fs == [] then []
    else
      var grown := open + [fs[0]];
      if fs[0].last then [grown] + Messages([], fs[1..]) else Messages(grown, fs[1..])
  }

  /** All fragments of a message are of one kind (section 5.4 of RFC 6455). */
  predicate WellTyped(open: seq<Fragment>, fs: seq<Fragment>)
    decreases |fs|
  {
    fs == [] ||
    (&& (open != [] ==> open[0].payload.SameKind(fs[0].payload))
     && WellTyped(if fs[0].last then [] else open + [fs[0]], fs[1..]))
  }

  predicate OneKind(fs: seq<Fragment>) {
    forall f <- fs :: f.payload.SameKind(fs[0].payload)
  }

  /** The data of a message: its fragments in order. */
  function Joined(fs: seq<Fragment>): (joined: Payload)
    requires fs != [] && OneKind(fs)
    ensures joined.SameKind(fs[0].payload)
  {
    if |fs| == 1 then fs[0].payload
    else
      var front := fs[..|fs| - 1];
      Joined(front).Append(fs[|fs| - 1].payload)
  }

  function TotalSize(fs: seq<Fragment>): nat {
    if fs == [] then 0 else TotalSize(fs[..|fs| - 1]) + fs[|fs| - 1].payload.Size()
  }

  /** The messages up to the first that is too large. */
  function Fitting(limit: int, messages: seq<seq<Fragment>>): seq<seq<Fragment>> {
    if messages == [] || TotalSize(messages[0]) > limit then []
    else [messages[0]] + Fitting(limit, messages[1..])
  }

  function Received(puts: seq<AppPut>): seq<Payload> {
    if puts == [] then []
    else Received(puts[..|puts| - 1]) + match puts[|puts| - 1] case Receive(m) => [m] case _ => []
  }

  function JoinedAll(messages: seq<seq<Fragment>>): seq<Payload> {
    if messages == [] then []
    else (if messages[0] != [] && OneKind(messages[0]) then [Joined(messages[0])] else []) + JoinedAll(messages[1..])
  }

  // ---------------------------------------------------------------------------
  // Reassembly

  /** The buffer holds the open fragments. */
  ghost predicate Holds(b: Buffer, open: seq<Fragment>) {
    && b.length == TotalSize(open)
    && OneKind(open)
    && b.value == if open == [] then None else Some(Joined(open))
  }

  lemma JoinedSnoc(open: seq<Fragment>, f: Fragment)
    requires OneKind(open) && (open != [] ==> open[0].payload.SameKind(f.payload))
    ensures OneKind(open + [f]) && TotalSize(open + [f]) == TotalSize(open) + f.payload.Size()
    ensures Joined(open + [f]) == if open == [] then f.payload else Joined(open).Append(f.payload)
    ensures f.payload.Empty().Append(f.payload) == f.payload
  {
    assert (open + [f])[..|open|] == open;
    if open == [] {
      assert open + [f] == [f];
      assert f.payload.Text? ==> "" + f.payload.chars == f.payload.chars;
    }
  }

  /** One more fragment in the buffer. */
  lemma ExtendHolds(b: Buffer, limit: int, open: seq<Fragment>, f: Fragment)
    requires Holds(b, open) && (open != [] ==> open[0].payload.SameKind(f.payload))
    ensures var (b', outcome) := Extend(b, limit, f.payload);
      && Holds(b', open + [f]) && (outcome == TooLarge <==> TotalSize(open + [f]) > limit) && outcome != WrongKind
  {
    JoinedSnoc(open, f);
  }

  /** A buffer that has outgrown the limit never delivers again. */
  lemma {:induction false} OversizedSilent(a: Assembly, limit: int, handlePing: bool, es: seq<Event>)
    requires a.buf.length > limit
    ensures Received(ProcessAll(a, limit, handlePing, es).puts) == Received(a.puts)
    decreases |es|
  {
    if es != [] {
      var a' := Process(a, limit, handlePing, es[0]).0;
      if !es[0].Message? {
        ControlKeeps(a, limit, handlePing, es[0]);
      }
      OversizedSilent(a', limit, handlePing, es[1..]);
    }
  }

  lemma PutsSnoc(puts: seq<AppPut>, p: AppPut)
    ensures Received(puts + [p]) == Received(puts) + match p case Receive(m) => [m] case _ => []
  {
    assert (puts + [p])[..|puts|] == puts;
  }

  /** The next complete message extends the open fragments. */
  lemma {:induction false} NextMessageExtends(open: seq<Fragment>, fs: seq<Fragment>)
    ensures var ms := Messages(open, fs); ms != [] ==> TotalSize(ms[0]) >= TotalSize(open)
    decreases |fs|
  {
    if fs != [] {
      assert (open + [fs[0]])[..|open|] == open;
      if !fs[0].last {
        NextMessageExtends(open + [fs[0]], fs[1..]);
      }
    }
  }

  /** A control frame changes neither the buffer nor what was received. */
  lemma ControlKeeps(a: Assembly, limit: int, handlePing: bool, e: Event)
    requires !e.Message?
    ensures var a' := Process(a, limit, handlePing, e).0;
      a'.buf == a.buf && Received(a'.puts) == Received(a.puts)
  {
    var a' := Process(a, limit, handlePing, e).0;
    if a'.puts != a.puts {
      PutsSnoc(a.puts, a'.puts[|a.puts|]);
    }
  }

  /** A fragment within the limit: the buffer holds it, or the message is delivered. */
  lemma FragmentStep(a: Assembly, limit: int, handlePing: bool, open: seq<Fragment>, f: Fragment)
    requires Holds(a.buf, open) && (open != [] ==> open[0].payload.SameKind(f.payload))
    ensures var (a', _) := Process(a, limit, handlePing, Message(f)); var grown := open + [f];
      && OneKind(grown)
      && if TotalSize(grown) > limit then a'.buf.length > limit && a'.puts == a.puts
         else if f.last then
           Holds(a'.buf, []) && a'.buf.length == 0 && Received(a'.puts) == Received(a.puts) + [Joined(grown)]
         else Holds(a'.buf, grown) && a'.buf.length == TotalSize(grown) && a'.puts == a.puts
  {
    ExtendHolds(a.buf, limit, open, f);
    PutsSnoc(a.puts, Receive(Joined(open + [f])));
  }

  lemma Unfold(open: seq<Fragment>, es: seq<Event>)
    requires es != [] && es[0].Message? && WellTyped(open, Fragments(es))
    ensures var f, rest := es[0].fragment, Fragments(es[1..]); var grown := open + [f];
      && (open != [] ==> open[0].payload.SameKind(f.payload))
      && Messages(open, Fragments(es)) == (if f.last then [grown] + Messages([], rest) else Messages(grown, rest))
      && WellTyped(if f.last then [] else grown, rest)
  {
    assert Fragments(es)[0] == es[0].fragment && Fragments(es)[1..] == Fragments(es[1..]);
  }

  /** From any state of the buffer, what is delivered is what fits of what was sent. */
  lemma {:induction false} ReassemblyFrom(
    a: Assembly, limit: nat, handlePing: bool, open: seq<Fragment>, es: seq<Event>)
    requires Holds(a.buf, open) && a.buf.length <= limit && WellTyped(open, Fragments(es))
    ensures Received(ProcessAll(a, limit, handlePing, es).puts) ==
      Received(a.puts) + JoinedAll(Fitting(limit, Messages(open, Fragments(es))))
    decreases |es|, 1
  {
    if es == [] {
      assert Received(a.puts) + [] == Received(a.puts);
    } else if es[0].Message? {
      MessageFrom(a, limit, handlePing, open, es);
    } else {
      assert Fragments(es) == Fragments(es[1..]);
      ControlKeeps(a, limit, handlePing, es[0]);
      var a' := Process(a, limit, handlePing, es[0]).0;
      ReassemblyFrom(a', limit, handlePing, open, es[1..]);
    }
  }

  lemma {:induction false} MessageFrom(a: Assembly, limit: nat, handlePing: bool, open: seq<Fragment>, es: seq<Event>)
    requires es != [] && es[0].Message?
    requires Holds(a.buf, open) && a.buf.length <= limit && WellTyped(open, Fragments(es))
    ensures Received(ProcessAll(a, limit, handlePing, es).puts) ==
      Received(a.puts) + JoinedAll(Fitting(limit, Messages(open, Fragments(es))))
    decreases |es|, 0
  {
    var a' := Process(a, limit, handlePing, es[0]).0;
    var f, rest := es[0].fragment, Fragments(es[1..]);
    var grown := open + [f];
    assert ProcessAll(a, limit, handlePing, es) == ProcessAll(a', limit, handlePing, es[1..]);
    hide *;
    Unfold(open, es);
    assert es[0] == Message(f);
    FragmentStep(a, limit, handlePing, open, f);
    if TotalSize(grown) > limit {
      OversizedSilent(a', limit, handlePing, es[1..]);
      NothingFits(limit, grown, f.last, rest);
      assert Received(a.puts) + [] == Received(a.puts);
    } else if f.last {
      ReassemblyFrom(a', limit, handlePing, [], es[1..]);
      LastMessage(limit, grown, rest);
      Regroup(Received(a.puts), [Joined(grown)], JoinedAll(Fitting(limit, Messages([], rest))));
    } else {
      ReassemblyFrom(a', limit, handlePing, grown, es[1..]);
    }
  }

  lemma Regroup(a: seq<Payload>, b: seq<Payload>, c: seq<Payload>)
    ensures a + (b + c) == a + b + c
  {
  }

  /** The message that is too large already, and all behind it, are not delivered. */
  lemma NothingFits(limit: int, grown: seq<Fragment>, last: bool, rest: seq<Fragment>)
    requires TotalSize(grown) > limit
    ensures JoinedAll(Fitting(limit, if last then [grown] + Messages([], rest) else Messages(grown, rest))) == []
  {
    NextMessageExtends(grown, rest);
  }

  lemma LastMessage(limit: int, message: seq<Fragment>, rest: seq<Fragment>)
    requires message != [] && OneKind(message) && TotalSize(message) <= limit
    ensures JoinedAll(Fitting(limit, [message] + Messages([], rest))) ==
      [Joined(message)] + JoinedAll(Fitting(limit, Messages([], rest)))
  {
    var ms := [message] + Messages([], rest);
    assert ms[1..] == Messages([], rest);
    assert Fitting(limit, ms)[1..] == Fitting(limit, Messages([], rest));
  }

  /** Reassembly: for well-typed fragments with control frames anywhere between them, the
      application receives exactly the messages before the first that exceeds the limit, each
      the join of its fragments, and from then on nothing. */
  lemma Reassembly(limit: nat, handlePing: bool, es: seq<Event>)
    requires WellTyped([], Fragments(es))
    ensures Received(ProcessAll(START, limit, handlePing, es).puts) ==
      JoinedAll(Fitting(limit, Messages([], Fragments(es))))
  {
    ReassemblyFrom(START, limit, handlePing, [], es);
  }

  lemma {:induction false} SizeOfJoined(fs: seq<Fragment>)
    requires fs != [] && OneKind(fs)
    ensures Joined(fs).Size() == TotalSize(fs)
  {
    if |fs| == 1 {
      assert fs[..0] == [];
    } else {
      SizeOfJoined(fs[..|fs| - 1]);
      JoinedSnoc(fs[..|fs| - 1], fs[|fs| - 1]);
    }
  }

  lemma {:induction false} FittingSizes(limit: int, messages: seq<seq<Fragment>>)
    ensures forall p <- JoinedAll(Fitting(limit, messages)) :: p.Size() <= limit
  {
    if messages != [] && TotalSize(messages[0]) <= limit {
      FittingSizes(limit, messages[1..]);
      assert Fitting(limit, messages)[1..] == Fitting(limit, messages[1..]);
      if messages[0] != [] && OneKind(messages[0]) {
        SizeOfJoined(messages[0]);
      }
    }
  }

  /** No delivered message exceeds the limit. */
  lemma DeliveredWithinLimit(limit: nat, handlePing: bool, es: seq<Event>)
    requires WellTyped([], Fragments(es))
    ensures forall p <- Received(ProcessAll(START, limit, handlePing, es).puts) :: p.Size() <= limit
  {
    Reassembly(limit, handlePing, es);
    FittingSizes(limit, Messages([], Fragments(es)));
  }

  // ---------------------------------------------------------------------------
  // One call

  /** How many events one call handles: those up to the first fragment with which its message,
      `open` before it, exceeds the limit. */
  function HandledOf(limit: int, open: seq<Fragment>, es: seq<Event>): (n: nat)
    ensures n <= |es|
    decreases |es|
  {
    if es == [] then 0
    else if !es[0].Message? then 1 + HandledOf(limit, open, es[1..])
    else
      var grown := open + [es[0].fragment];
      if TotalSize(grown) > limit then 1
      else 1 + HandledOf(limit, if es[0].fragment.last then [] else grown, es[1..])
  }

  /** What the application is given: pings and pongs where they stand, unless they are handled
      here, and each complete message where its last fragment stands. */
  ghost function Given(limit: int, handlePing: bool, open: seq<Fragment>, es: seq<Event>): seq<AppPut>
    decreases |es|
  {
    if es == [] then []
    else
      match es[0]
      case Ping(data) => (if handlePing then [] else [AppPing(data)]) + Given(limit, handlePing, open, es[1..])
      case Pong(data) => (if handlePing then [] else [AppPong(data)]) + Given(limit, handlePing, open, es[1..])
      case Message(f) =>
        var grown := open + [f];
        if TotalSize(grown) > limit || !OneKind(grown) then []
        else if f.last then [Receive(Joined(grown))] + Given(limit, handlePing, [], es[1..])
        else Given(limit, handlePing, grown, es[1..])
  }

  /** What the peer is answered: a pong for each ping that is handled here, and a close for the
      fragment that exceeds the limit. */
  function Answers(limit: int, handlePing: bool, open: seq<Fragment>, es: seq<Event>): seq<Reply>
    decreases |es|
  {
    if es == [] then []
    else
      match es[0]
      case Ping(data) => (if handlePing then [PongReply(data)] else []) + Answers(limit, handlePing, open, es[1..])
      case Pong(_) => Answers(limit, handlePing, open, es[1..])
      case Message(f) =>
        var grown := open + [f];
        if TotalSize(grown) > limit then [TooBigClose]
        else Answers(limit, handlePing, if f.last then [] else grown, es[1..])
  }

  lemma OneFragment(a: Assembly, limit: int, handlePing: bool, open: seq<Fragment>, f: Fragment)
    requires Holds(a.buf, open) && (open != [] ==> open[0].payload.SameKind(f.payload))
    ensures var (a', stop) := Process(a, limit, handlePing, Message(f)); var grown := open + [f];
      && OneKind(grown) && (stop <==> TotalSize(grown) > limit)
      && a'.replies == a.replies + (if stop then [TooBigClose] else [])
      && a'.puts == a.puts + (if !stop && f.last then [Receive(Joined(grown))] else [])
      && (!stop ==> Holds(a'.buf, if f.last then [] else grown))
  {
    ExtendHolds(a.buf, limit, open, f);
  }

  lemma Group<T>(a: seq<T>, b: seq<T>, c: seq<T>)
    ensures a + b + c == a + (b + c) && a + [] == a && [] + c == c
  {
  }

  /** What the first event gives and answers, whether it is left out with those behind it,
      and the fragments that are open then. */
  lemma OneEvent(a: Assembly, limit: int, handlePing: bool, open: seq<Fragment>, es: seq<Event>)
    returns (puts: seq<AppPut>, replies: seq<Reply>, open': seq<Fragment>)
    requires es != [] && Holds(a.buf, open) && WellTyped(open, Fragments(es))
    ensures var (a', stop) := Process(a, limit, handlePing, es[0]);
      && a'.puts == a.puts + puts && a'.replies == a.replies + replies
      && Given(limit, handlePing, open, es) == puts + (if stop then [] else Given(limit, handlePing, open', es[1..]))
      && Answers(limit, handlePing, open, es) ==
           replies + (if stop then [] else Answers(limit, handlePing, open', es[1..]))
      && HandledOf(limit, open, es) == 1 + (if stop then 0 else HandledOf(limit, open', es[1..]))
      && (!stop ==> Holds(a'.buf, open') && WellTyped(open', Fragments(es[1..])))
  {
    puts, replies, open' := [], [], open;
    match es[0]
    case Message(f) =>
      Unfold(open, es);
      OneFragment(a, limit, handlePing, open, f);
      open' := if f.last then [] else open + [f];
      if TotalSize(open + [f]) > limit {
        replies := [TooBigClose];
      } else if f.last {
        puts := [Receive(Joined(open + [f]))];
      }
      hide Process, Holds, WellTyped, TotalSize, Joined, OneKind;
    case Ping(data) =>
      assert Fragments(es) == Fragments(es[1..]);
      if handlePing {
        replies := [PongReply(data)];
      } else {
        puts := [AppPing(data)];
      }
      hide Holds, WellTyped, TotalSize, Joined, OneKind;
    case Pong(data) =>
      assert Fragments(es) == Fragments(es[1..]);
      if !handlePing {
        puts := [AppPong(data)];
      }
      hide Holds, WellTyped, TotalSize, Joined, OneKind;
  }

  /** One call handles the events up to the first fragment that exceeds the limit, if any, and
      leaves the others; it gives and answers what those events say, in order. */
  lemma {:induction false} CallTells(a: Assembly, limit: int, handlePing: bool, open: seq<Fragment>, es: seq<Event>)
    requires Holds(a.buf, open) && WellTyped(open, Fragments(es))
    ensures var (a', rest) := Batch(a, limit, handlePing, es);
      && rest == es[HandledOf(limit, open, es)..]
      && a'.puts == a.puts + Given(limit, handlePing, open, es)
      && a'.replies == a.replies + Answers(limit, handlePing, open, es)
    decreases |es|
  {
    if es == [] {
      Group(a.puts, [], []);
      Group(a.replies, [], []);
    } else {
      var (a', stop) := Process(a, limit, handlePing, es[0]);
      var puts, replies, open' := OneEvent(a, limit, handlePing, open, es);
      hide Process, Holds, WellTyped, Given, Answers, HandledOf;
      if stop {
        Group(puts, [], []);
        Group(replies, [], []);
      } else {
        CallTells(a', limit, handlePing, open', es[1..]);
        Group(a.puts, puts, Given(limit, handlePing, open', es[1..]));
        Group(a.replies, replies, Answers(limit, handlePing, open', es[1..]));
      }
    }
  }

  // ---------------------------------------------------------------------------
  // The object

  class WebsocketBuffer {
    var value: Option<Payload>
    var length: nat
    const limit: int

    function View(): Buffer
      reads this
    {
      Buffer(value, length)
    }

    constructor (limit: int)
      ensures View() == CLEARED && this.limit == limit
    {
      value, length := None, 0;
      this.limit := limit;
    }

    method ExtendWith(p: Payload) returns (outcome: Outcome)
      modifies this
      ensures (View(), outcome) == Extend(old(View()), limit, p)
    {
      var current := value.GetOr(p.Empty());
      if !current.SameKind(p) {
        return WrongKind;
      }
      value := Some(current.Append(p));
      length := length + p.Size();
      outcome := if length > limit then TooLarge else Extended;
    }

    method Clear()
      modifies this
      ensures View() == CLEARED
    {
      value, length := None, 0;
    }
  }

  /** The loop of `_handle_events` over the events of one call. */
  method HandleEvents(buffer: WebsocketBuffer, handlePing: bool, es: seq<Event>)
    returns (puts: seq<AppPut>, replies: seq<Reply>, rest: seq<Event>)
    modifies buffer
    ensures (Assembly(buffer.View(), puts, replies), rest) ==
      Batch(Assembly(old(buffer.View()), [], []), buffer.limit, handlePing, es)
  {
    puts, replies, rest := [], [], es;
    ghost var start := Assembly(buffer.View(), [], []);
    var stop := false;
    while rest != [] && !stop
      invariant Batch(start, buffer.limit, handlePing, es) ==
        if stop then (Assembly(buffer.View(), puts, replies), rest)
        else Batch(Assembly(buffer.View(), puts, replies), buffer.limit, handlePing, rest)
      decreases |rest|
    {
      match rest[0] {
        case Message(f) =>
          var outcome := buffer.ExtendWith(f.payload);
          if outcome == TooLarge {
            replies := replies + [TooBigClose];
            stop := true;
          } else if outcome == WrongKind {
            stop := true;
          } else if f.last {
            puts := puts + [Receive(buffer.value.GetOr(f.payload))];
            buffer.Clear();
          }
        case Ping(data) =>
          if handlePing {
            replies := replies + [PongReply(data)];
          } else {
            puts := puts + [AppPing(data)];
          }
        case Pong(data) =>
          if !handlePing {
            puts := puts + [AppPong(data)];
          }
      }
      rest := rest[1..];
    }
  }
}
