/** The WSGI wrapper: reads a request body up to a limit, folds the headers into CGI
    variables and relays what the WSGI application answers. */
module Wsgi {
  import opened Bytes
  import opened StreamEvents
  import opened HttpStreams
  import opened Texts
  import HttpTheorems
  import HttpRuns
  import HttpAnswers
  import Headers

  // ---------------------------------------------------------------------------
  // Reading the body

  /** A message without the key has no body, and one without `more_body` is the last. */
  function PartOf(m: ToApp): Bytes {
    match m case HttpRequest(body, _) => body case _ => []
  }

  function More(m: ToApp): bool {
    match m case HttpRequest(_, more) => more case _ => false
  }

  function BodyOf(messages: seq<ToApp>): Bytes {
    if messages == [] then [] else BodyOf(messages[..|messages| - 1]) + PartOf(messages[|messages| - 1])
  }

  /** Only the first `n` messages are needed, all but the last of them with more to come. */
  predicate ReadsTo(messages: seq<ToApp>, n: nat) {
    0 < n <= |messages| && forall i :: 0 <= i < n - 1 ==> More(messages[i])
  }

  predicate EndsAt(messages: seq<ToApp>, n: nat) {
    ReadsTo(messages, n) && !More(messages[n - 1])
  }

  ghost predicate Ends(messages: seq<ToApp>) {
    exists n: nat :: EndsAt(messages, n)
  }

  datatype Reading = Waiting | TooLarge | Complete(body: Bytes)

  lemma {:induction false} BodyGrows(messages: seq<ToApp>, i: nat, n: nat)
    requires i <= n <= |messages|
    ensures |BodyOf(messages[..i])| <= |BodyOf(messages[..n])|
    decreases n
  {
    if i < n {
      BodyGrows(messages, i, n - 1);
      assert messages[..n][..n - 1] == messages[..n - 1];
    }
  }

  /** Reads until the body is complete or too large, or the queue is empty. */
  method ReadBody(messages: seq<ToApp>, limit: nat) returns (r: Reading, n: nat)
    ensures r.Waiting? <==> n == |messages| && (forall m <- messages :: More(m)) && |BodyOf(messages)| <= limit
    ensures r.Complete? <==> EndsAt(messages, n) && |BodyOf(messages[..n])| <= limit
    ensures r.Complete? ==> r.body == BodyOf(messages[..n])
    ensures r.TooLarge? ==> ReadsTo(messages, n) && |BodyOf(messages[..n - 1])| <= limit < |BodyOf(messages[..n])|
  {
    var body: Bytes := [];
    n := 0;
    while n < |messages|
      invariant n <= |messages| && body == BodyOf(messages[..n]) && |body| <= limit
      invariant forall i :: 0 <= i < n ==> More(messages[i])
    {
      var m := messages[n];
      n := n + 1;
      assert messages[..n][..n - 1] == messages[..n - 1];
      body := body + PartOf(m);
      if |body| > limit {
        return TooLarge, n;
      }
      if !More(m) {
        return Complete(body), n;
      }
    }
    assert messages[..n] == messages;
    assert n > 0 ==> More(messages[n - 1]);
    r := Waiting;
  }

  // ---------------------------------------------------------------------------
  // What the client sent

  /** The stream after the client's events. */
  function HandleAll(h: Http, es: seq<ClientEvent>): Http
    decreases |es|
  {
    if es == [] then h else HandleAll(Handle(h, es[0]), es[1..])
  }

  /** The body events before anything else happens: its end, trailers or a close. */
  function Leading(es: seq<ClientEvent>): (k: nat)
    ensures k <= |es| && forall i :: 0 <= i < k ==> es[i].ClientBody?
    ensures k < |es| ==> !es[k].ClientBody?
  {
    if es == [] || !es[0].ClientBody? then 0 else 1 + Leading(es[1..])
  }

  function DataOf(es: seq<ClientEvent>): Bytes {
    if es == [] then [] else (match es[0] case ClientBody(data) => data case _ => []) + DataOf(es[1..])
  }

  /** The message that ends the reading. */
  function LastMessage(e: ClientEvent): ToApp {
    match e
    case ClientBody(data) => HttpRequest(data, true)
    case ClientEnd(_) => HttpRequest([], false)
    case ClientTrailers => RequestTrailers
    case ClientClosed => HttpDisconnect
  }

  lemma {:induction false} QueueGrows(h: Http, es: seq<ClientEvent>)
    ensures h.toApp <= HandleAll(h, es).toApp
    decreases |es|
  {
    if es != [] {
      QueueGrows(Handle(h, es[0]), es[1..]);
    }
  }

  lemma {:induction false} QueueShape(h: Http, es: seq<ClientEvent>)
    requires !h.closed
    ensures var queue, k, n := HandleAll(h, es).toApp, Leading(es), |h.toApp|;
      && |queue| >= n + k && queue[..n] == h.toApp
      && (forall i :: 0 <= i < k ==> queue[n + i] == LastMessage(es[i]))
      && (k < |es| ==> |queue| > n + k && queue[n + k] == LastMessage(es[k]))
      && (k == |es| ==> |queue| == n + k)
    decreases |es|
  {
    if es != [] {
      var h1 := Handle(h, es[0]);
      if es[0].ClientBody? {
        QueueShape(h1, es[1..]);
        var queue := HandleAll(h, es).toApp;
        assert queue[..|h.toApp|] == queue[..|h.toApp| + 1][..|h.toApp|];
        assert queue[|h.toApp|] == queue[..|h.toApp| + 1][|h.toApp|];
      } else {
        QueueGrows(h1, es[1..]);
      }
    }
  }

  lemma {:induction false} BodyOfLeading(messages: seq<ToApp>, es: seq<ClientEvent>, k: nat)
    requires k <= |messages| && k <= |es|
    requires forall i :: 0 <= i < k ==> es[i].ClientBody? && messages[i] == LastMessage(es[i])
    ensures BodyOf(messages[..k]) == DataOf(es[..k])
  {
    if k > 0 {
      BodyOfLeading(messages, es, k - 1);
      assert messages[..k][..k - 1] == messages[..k - 1];
      DataSnoc(es[..k - 1], es[k - 1]);
      assert es[..k] == es[..k - 1] + [es[k - 1]];
    }
  }

  lemma {:induction false} DataSnoc(es: seq<ClientEvent>, e: ClientEvent)
    requires e.ClientBody?
    ensures DataOf(es + [e]) == DataOf(es) + e.data
  {
    if es == [] {
      assert es + [e] == [e] && [e][1..] == [];
    } else {
      DataSnoc(es[1..], e);
      assert (es + [e])[1..] == es[1..] + [e];
    }
  }

  /** The body that is read is what the client had sent when its body ended, its trailers
      came or it closed the stream. It is the client's whole body if and only if it was not
      closed: a disconnect in the middle counts as the end. */
  lemma ReadsClientBody(es: seq<ClientEvent>)
    ensures var messages, k := HandleAll(NEW_STREAM, es).toApp, Leading(es);
      && (Ends(messages) <==> k < |es|)
      && (k < |es| ==> EndsAt(messages, k + 1) && BodyOf(messages[..k + 1]) == DataOf(es[..k]))
      && (k < |es| ==> (messages[k] == HttpDisconnect <==> es[k] == ClientClosed))
  {
    hide *;
    var messages, k := HandleAll(NEW_STREAM, es).toApp, Leading(es);
    QueueMessages(es);
    BodyOfLeading(messages, es, k);
    if k < |es| {
      EndsNext(messages, k);
    } else {
      NeverEnds(messages);
    }
  }

  lemma QueueMessages(es: seq<ClientEvent>)
    ensures var messages, k := HandleAll(NEW_STREAM, es).toApp, Leading(es);
      && k <= |messages| && k <= |es|
      && (forall i :: 0 <= i < k ==> es[i].ClientBody? && messages[i] == LastMessage(es[i]) && More(messages[i]))
      && (k == |es| ==> |messages| == k)
      && (k < |es| ==>
            && k < |messages| && !More(messages[k]) && PartOf(messages[k]) == []
            && (messages[k] == HttpDisconnect <==> es[k] == ClientClosed))
  {
    QueueShape(NEW_STREAM, es);
    hide HandleAll;
  }

  lemma NeverEnds(messages: seq<ToApp>)
    requires forall i :: 0 <= i < |messages| ==> More(messages[i])
    ensures !Ends(messages)
  {
    hide More;
  }

  lemma EndsNext(messages: seq<ToApp>, k: nat)
    requires k < |messages| && (forall i :: 0 <= i < k ==> More(messages[i]))
    requires !More(messages[k]) && PartOf(messages[k]) == []
    ensures EndsAt(messages, k + 1) && Ends(messages) && BodyOf(messages[..k + 1]) == BodyOf(messages[..k])
  {
    hide More;
    assert messages[..k + 1][..k] == messages[..k];
    assert EndsAt(messages, k + 1);
  }

  // ---------------------------------------------------------------------------
  // The environment

  type Header = (Bytes, Bytes)

  datatype Request = Request(
    verb: string, path: string, rootPath: string, query: Bytes, host: string, port: int, version: string,
    scheme: string, client: Option<string>, headers: seq<Header>)

  /** The values of the environment: texts, the port, a version, flags, the body as a stream,
      and the standard output. */
  datatype Value = Text(text: string) | Number(n: int) | Pair(first: int, second: int) | Flag(on: bool)
    | Input(body: Bytes) | Errors

  type Environ = map<string, Value>

  /** `InvalidPath` is answered with 404; `Undecodable` is the UnicodeDecodeError of a query
      that is not ASCII. */
  datatype Built = Built(environ: Environ) | InvalidPath | Undecodable

  function UpperChar(c: char): string {
    var n := c as int;
    if 'a' <= c <= 'z' || (0xE0 <= n <= 0xFE && n != 0xF7) then [(n - 32) as char]
    else if n == 0xDF then "SS"
    else if n == 0xFF then [0x178 as char]
    else if n == 0xB5 then [0x39C as char]
    else [c]
  }

  function Upper(s: string): string {
    if s == [] then [] else UpperChar(s[0]) + Upper(s[1..])
  }

  function Dashes(s: string): string {
    seq(|s|, i requires 0 <= i < |s| => if s[i] == '-' then '_' else s[i])
  }

  function Variable(name: string): string {
    if name == "content-length" then "CONTENT_LENGTH"
    else if name == "content-type" then "CONTENT_TYPE"
    else "HTTP_" + Dashes(Upper(name))
  }

  /** The values of the headers that become `variable`, in order. */
  function ValuesFor(headers: seq<Header>, variable: string): seq<string> {
    if headers == [] then []
    else
      var (name, value) := headers[|headers| - 1];
      ValuesFor(headers[..|headers| - 1], variable) + if Variable(Latin1(name)) == variable then [Latin1(value)] else []
  }

  function PathInfo(q: Request): string
    requires StartsWith(q.path, q.rootPath)
  {
    if q.path == q.rootPath then "/" else q.path[|q.rootPath|..]
  }

  /** The variables that do not come from headers. */
  function Fixed(q: Request, body: Bytes): Environ
    requires StartsWith(q.path, q.rootPath)
  {
    var base := map[
      "REQUEST_METHOD" := Text(q.verb),
      "SCRIPT_NAME" := Text(Recode(q.rootPath)),
      "PATH_INFO" := Text(Recode(PathInfo(q))),
      "QUERY_STRING" := Text(Latin1(q.query)),
      "SERVER_NAME" := Text(q.host),
      "SERVER_PORT" := Number(q.port),
      "SERVER_PROTOCOL" := Text("HTTP/" + q.version),
      "wsgi.version" := Pair(1, 0),
      "wsgi.url_scheme" := Text(q.scheme),
      "wsgi.input" := Input(body),
      "wsgi.errors" := Errors,
      "wsgi.multithread" := Flag(true),
      "wsgi.multiprocess" := Flag(true),
      "wsgi.run_once" := Flag(false)];
    if q.client.Some? then base["REMOTE_ADDR" := Text(q.client.value)] else base
  }

  predicate Ascii(data: Bytes) {
    forall b <- data :: b < 128
  }

  /** No header becomes one of the other variables. */
  lemma HeaderVariablesApart(q: Request, body: Bytes, name: string)
    requires StartsWith(q.path, q.rootPath)
    ensures Variable(name) !in Fixed(q, body)
  {
    var v := Variable(name);
    hide Recode, PathInfo;
    assert v == "CONTENT_LENGTH" || v == "CONTENT_TYPE" || v[0] == 'H';
  }

  /** `environ` after the headers `headers`. */
  ghost predicate Folded(environ: Environ, fixed: Environ, headers: seq<Header>) {
    forall v: string ::
      var values := ValuesFor(headers, v);
      && (v in environ <==> v in fixed || values != [])
      && (v in environ ==> environ[v] == if v in fixed then fixed[v] else Text(Join(",", values)))
  }

  method BuildEnviron(q: Request, body: Bytes) returns (r: Built)
    ensures r.InvalidPath? <==> !StartsWith(q.path, q.rootPath)
    ensures r.Undecodable? <==> StartsWith(q.path, q.rootPath) && !Ascii(q.query)
    ensures r.Built? ==> Folded(r.environ, Fixed(q, body), q.headers)
  {
    if !StartsWith(q.path, q.rootPath) {
      return InvalidPath;
    }
    if !Ascii(q.query) {
      return Undecodable;
    }
    var environ := FoldHeaders(q, body);
    r := Built(environ);
  }

  method FoldHeaders(q: Request, body: Bytes) returns (environ: Environ)
    requires StartsWith(q.path, q.rootPath)
    ensures Folded(environ, Fixed(q, body), q.headers)
  {
    environ := Fixed(q, body);
    NotFolded(environ);
    hide *;
    for i := 0 to |q.headers|
      invariant Folded(environ, Fixed(q, body), q.headers[..i])
    {
      var name, value := Variable(Latin1(q.headers[i].0)), Latin1(q.headers[i].1);
      ghost var before := environ;
      HeaderIsText(q, body, i, environ);
      if name in environ {
        value := environ[name].text + "," + value;
      }
      environ := environ[name := Text(value)];
      FoldOne(q, body, i, before, environ);
    }
    assert q.headers[..|q.headers|] == q.headers;
  }

  lemma NotFolded(fixed: Environ)
    ensures Folded(fixed, fixed, [])
  {
  }

  lemma HeaderIsText(q: Request, body: Bytes, i: nat, environ: Environ)
    requires i < |q.headers| && StartsWith(q.path, q.rootPath) && Folded(environ, Fixed(q, body), q.headers[..i])
    ensures var name := Variable(Latin1(q.headers[i].0)); name in environ ==> environ[name].Text?
  {
    hide Fixed, Variable, ValuesFor, Join;
    HeaderVariablesApart(q, body, Latin1(q.headers[i].0));
  }

  lemma JoinMore(values: seq<string>, value: string)
    ensures Join(",", values + [value]) == if values == [] then value else Join(",", values) + "," + value
  {
    if values == [] {
      assert values + [value] == [value];
    } else {
      JoinSnoc(",", values, value);
    }
  }

  lemma FoldOne(q: Request, body: Bytes, i: nat, before: Environ, after: Environ)
    requires i < |q.headers| && StartsWith(q.path, q.rootPath) && Folded(before, Fixed(q, body), q.headers[..i])
    requires var name, value := Variable(Latin1(q.headers[i].0)), Latin1(q.headers[i].1);
      && (name in before ==> before[name].Text?)
      && after == before[name := Text(if name in before then before[name].text + "," + value else value)]
    ensures Folded(after, Fixed(q, body), q.headers[..i + 1])
  {
    hide Fixed, Variable, Join;
    var name, value := Variable(Latin1(q.headers[i].0)), Latin1(q.headers[i].1);
    HeaderVariablesApart(q, body, Latin1(q.headers[i].0));
    var was, now := q.headers[..i], q.headers[..i + 1];
    assert now[..|now| - 1] == was;
    var values := ValuesFor(was, name);
    assert ValuesFor(now, name) == values + [value];
    JoinMore(values, value);
    forall v: string | v != name
      ensures ValuesFor(now, v) == ValuesFor(was, v)
    {
      assert ValuesFor(was, v) + [] == ValuesFor(was, v);
    }
    hide ValuesFor;
  }

  /** The script name followed by the path info decodes to the path, or to the path and the
      added slash. */
  lemma PathRebuilt(q: Request, body: Bytes, environ: Environ)
    requires StartsWith(q.path, q.rootPath) && Folded(environ, Fixed(q, body), q.headers)
    ensures "SCRIPT_NAME" in environ && environ["SCRIPT_NAME"].Text?
    ensures "PATH_INFO" in environ && environ["PATH_INFO"].Text?
    ensures Unrecode(environ["SCRIPT_NAME"].text + environ["PATH_INFO"].text) ==
      Some(if q.path == q.rootPath then q.path + "/" else q.path)
  {
    hide Recode, Unrecode, PathInfo, ValuesFor;
    var fixed := Fixed(q, body);
    assert "SCRIPT_NAME" in fixed && fixed["SCRIPT_NAME"] == Text(Recode(q.rootPath));
    assert "PATH_INFO" in fixed && fixed["PATH_INFO"] == Text(Recode(PathInfo(q)));
    hide Fixed;
    assert environ["SCRIPT_NAME"] == fixed["SCRIPT_NAME"];
    assert environ["PATH_INFO"] == fixed["PATH_INFO"];
    hide Folded;
    RecodeParts(q.rootPath, PathInfo(q));
    RootAndInfo(q);
  }

  lemma RootAndInfo(q: Request)
    requires StartsWith(q.path, q.rootPath)
    ensures q.rootPath + PathInfo(q) == if q.path == q.rootPath then q.path + "/" else q.path
  {
    assert q.path == q.rootPath + q.path[|q.rootPath|..];
  }

  // ---------------------------------------------------------------------------
  // Running the application

  /** What a WSGI application does, in order: calls of `start_response` (which may raise, and
      the application may go on), outputs, or an exception that leaves it. */
  datatype Deed = StartResponse(line: string, headers: seq<(string, string)>) | Output(data: Bytes) | Raise

  /** Python's `int` and `str.lower`. */
  datatype Builtins = Builtins(toInt: string -> Option<int>, lower: string -> string)

  /** What `start_response` has left behind. */
  datatype Call = Call(started: bool, status: Option<int>, headers: seq<Header>)

  const NOT_CALLED := Call(false, None, [])

  function Encoded(b: Builtins, headers: seq<(string, string)>): Option<seq<Header>> {
    if headers == [] then Some([])
    else
      match (Latin1Bytes(b.lower(headers[0].0)), Latin1Bytes(headers[0].1), Encoded(b, headers[1..]))
      case (Some(name), Some(value), Some(rest)) => Some([(name, value)] + rest)
      case _ => None
  }

  /** One call: a line without a space, a code that is no number or headers outside of
      Latin-1 raise, the last with the code already set. */
  function Called(b: Builtins, c: Call, line: string, headers: seq<(string, string)>): Call {
    if ' ' !in line then c
    else
      match b.toInt(Split(line, ' ')[0])
      case None => c
      case Some(code) =>
        match Encoded(b, headers)
        case None => c.(status := Some(code))
        case Some(encoded) => Call(true, Some(code), encoded)
  }

  function CallOf(b: Builtins, deeds: seq<Deed>): (c: Call)
    ensures c.started ==> c.status.Some?
  {
    if deeds == [] then NOT_CALLED
    else
      var before := CallOf(b, deeds[..|deeds| - 1]);
      match deeds[|deeds| - 1]
      case StartResponse(line, headers) => Called(b, before, line, headers)
      case _ => before
  }

  function Outputs(deeds: seq<Deed>): seq<Bytes> {
    if deeds == [] then []
    else
      Outputs(deeds[..|deeds| - 1]) + match deeds[|deeds| - 1] case Output(data) => [data] case _ => []
  }

  /** What had been set before the first output. */
  function CallSent(b: Builtins, deeds: seq<Deed>): Call {
    if deeds == [] || Outputs(deeds) == [] then NOT_CALLED
    else
      var before := deeds[..|deeds| - 1];
      if Outputs(before) == [] then CallOf(b, before) else CallSent(b, before)
  }

  /** The messages of the wrapper. */
  datatype Sent = StartMessage(status: int, headers: seq<Header>) | BodyMessage(data: Bytes, more: bool)

  /** The message as the HTTP stream takes it. */
  function Asgi(m: Sent): AppMessage {
    match m
    case StartMessage(status, headers) => Start(ValidHeaders(headers), status, false)
    case BodyMessage(data, more) => BodyPart(data, more, false, false)
  }

  function AsgiAll(ms: seq<Sent>): (r: seq<AppMessage>)
    ensures |r| == |ms| && forall i :: 0 <= i < |ms| ==> r[i] == Asgi(ms[i])
  {
    seq(|ms|, i requires 0 <= i < |ms| => Asgi(ms[i]))
  }

  predicate ValidHeaders(headers: seq<Header>) {
    forall h <- headers :: h.0 != [] && !Headers.IsPseudo(h)
  }

  function StartOf(c: Call): Sent { StartMessage(c.status.GetOr(0), c.headers) }

  function BodyMessages(outputs: seq<Bytes>): seq<Sent> {
    seq(|outputs|, i requires 0 <= i < |outputs| => BodyMessage(outputs[i], true))
  }

  function Relayed(b: Builtins, deeds: seq<Deed>): seq<Sent> {
    if Outputs(deeds) == [] then [] else [StartOf(CallSent(b, deeds))] + BodyMessages(Outputs(deeds))
  }

  /** The first output starts the response, and the HTTP stream rejects its headers. */
  predicate Rejected(b: Builtins, deeds: seq<Deed>, i: nat)
    requires i < |deeds|
  {
    var c := CallOf(b, deeds[..i]);
    deeds[i].Output? && c.started && Outputs(deeds[..i]) == [] && !ValidHeaders(c.headers)
  }

  /** The deed at which relaying stops with an exception. */
  predicate StopsAt(b: Builtins, deeds: seq<Deed>, i: nat)
    requires i < |deeds|
  {
    deeds[i].Raise? || (deeds[i].Output? && !CallOf(b, deeds[..i]).started) || Rejected(b, deeds, i)
  }

  const LAST := BodyMessage([], false)

  /** The first `n` deeds are relayed; the next, if any, raises. */
  predicate RelaysTo(b: Builtins, deeds: seq<Deed>, n: nat) {
    && n <= |deeds| && (forall i :: 0 <= i < n ==> !StopsAt(b, deeds, i))
    && (n < |deeds| ==> StopsAt(b, deeds, n))
  }

  /** All messages: a rejected start is the last one. */
  function Messages(b: Builtins, deeds: seq<Deed>, n: nat): seq<Sent>
    requires n <= |deeds|
  {
    Relayed(b, deeds[..n]) + if n < |deeds| && Rejected(b, deeds, n) then [StartOf(CallOf(b, deeds[..n]))] else []
  }

  /** One more deed adds to the messages only when it is an output. */
  lemma OneMore(b: Builtins, deeds: seq<Deed>)
    requires deeds != []
    ensures var before, last := deeds[..|deeds| - 1], deeds[|deeds| - 1]; var c := CallOf(b, before);
      && CallOf(b, deeds) == (if last.StartResponse? then Called(b, c, last.line, last.headers) else c)
      && (!last.Output? ==> Outputs(deeds) == Outputs(before) && Relayed(b, deeds) == Relayed(b, before))
      && (last.Output? ==>
            && Outputs(deeds) != []
            && Relayed(b, deeds) ==
                 (if Outputs(before) == [] then [StartOf(c)] else Relayed(b, before)) + [BodyMessage(last.data, true)])
  {
    var before, last := deeds[..|deeds| - 1], deeds[|deeds| - 1];
    hide CallOf;
    if last.Output? {
      assert Outputs(deeds) == Outputs(before) + [last.data];
      assert BodyMessages(Outputs(deeds)) == BodyMessages(Outputs(before)) + [BodyMessage(last.data, true)];
    } else {
      assert Outputs(deeds) == Outputs(before);
      assert CallSent(b, deeds) == if Outputs(before) == [] then NOT_CALLED else CallSent(b, before);
    }
  }

  /** Relays the application's answer. */
  method RunApp(b: Builtins, deeds: seq<Deed>) returns (sent: seq<Sent>, n: nat)
    ensures RelaysTo(b, deeds, n) && sent == Messages(b, deeds, n)
  {
    var call := NOT_CALLED;
    var first := true;
    sent, n := [], 0;
    assert deeds[..0] == [] && Outputs([]) == [] && Relayed(b, []) == [] && CallOf(b, []) == NOT_CALLED;
    hide Relayed, Outputs, CallOf, Called, ValidHeaders, StartOf;
    while n < |deeds|
      invariant n <= |deeds| && forall i :: 0 <= i < n ==> !StopsAt(b, deeds, i)
      invariant call == CallOf(b, deeds[..n]) && first == (Outputs(deeds[..n]) == []) && (first || call.started)
      invariant sent == Relayed(b, deeds[..n])
      decreases |deeds| - n
    {
      assert deeds[..n + 1][..n] == deeds[..n] && deeds[..n + 1][n] == deeds[n];
      OneMore(b, deeds[..n + 1]);
      match deeds[n] {
        case StartResponse(line, headers) =>
          StaysStarted(b, call, line, headers);
          call := Called(b, call, line, headers);
        case Raise => return;
        case Output(data) =>
          if first {
            if !call.started {
              return;
            }
            sent := sent + [StartOf(call)];
            if !ValidHeaders(call.headers) {
              return;
            }
            first := false;
          }
          sent := sent + [BodyMessage(data, true)];
      }
      n := n + 1;
    }
  }

  lemma StaysStarted(b: Builtins, c: Call, line: string, headers: seq<(string, string)>)
    ensures c.started ==> Called(b, c, line, headers).started
  {
  }

  // ---------------------------------------------------------------------------
  // A request

  /** How a request ends: not yet, refused with a status, failed by an exception, or with
      the application having done `done` deeds. */
  datatype Outcome = Unread | Refused(status: int) | Failed | Ran(environ: Environ, done: nat)

  /** The body received so far exceeds the limit at some message. */
  ghost predicate Crosses(messages: seq<ToApp>, limit: nat) {
    exists n: nat :: ReadsTo(messages, n) && |BodyOf(messages[..n])| > limit
  }

  lemma CrossesIff(messages: seq<ToApp>, limit: nat, n: nat)
    requires EndsAt(messages, n)
    ensures Crosses(messages, limit) <==> |BodyOf(messages[..n])| > limit
  {
    if Crosses(messages, limit) {
      var k: nat :| ReadsTo(messages, k) && |BodyOf(messages[..k])| > limit;
      assert !More(messages[n - 1]);
      assert k <= n;
      BodyGrows(messages, k, n);
    }
  }

  lemma UnreadOpen(messages: seq<ToApp>, limit: nat)
    requires (forall m <- messages :: More(m)) && |BodyOf(messages)| <= limit
    ensures !Crosses(messages, limit) && !Ends(messages)
  {
    forall n: nat | ReadsTo(messages, n)
      ensures |BodyOf(messages[..n])| <= limit
    {
      BodyGrows(messages, n, |messages|);
      assert messages[..|messages|] == messages;
    }
    forall n: nat
      ensures !EndsAt(messages, n)
    {
      if 0 < n <= |messages| {
        assert messages[n - 1] in messages;
      }
    }
  }

  lemma TooLargeFirst(messages: seq<ToApp>, limit: nat, n: nat)
    requires EndsAt(messages, n) && |BodyOf(messages[..n])| <= limit
    ensures !Crosses(messages, limit) && Ends(messages)
    ensures forall k: nat :: EndsAt(messages, k) ==> k == n
  {
    CrossesIff(messages, limit, n);
    forall k: nat | EndsAt(messages, k)
      ensures k == n
    {
      assert !More(messages[k - 1]) && !More(messages[n - 1]);
    }
  }

  function Answer(status: int): seq<Sent> { [StartMessage(status, []), LAST] }

  /** The messages of an application that ran: those relayed, and the last one unless an
      exception left it. */
  function Answered(b: Builtins, deeds: seq<Deed>, n: nat): seq<Sent>
    requires n <= |deeds|
  {
    Messages(b, deeds, n) + if n == |deeds| then [LAST] else []
  }

  /** The application runs, on all of the body that was read, exactly when the reading ends
      within the limit, the path is below the root path and the query is ASCII. Whether that
      is the client's whole body, `ReadsClientBody` says. */
  method HandleHttp(b: Builtins, q: Request, messages: seq<ToApp>, limit: nat, app: Environ -> seq<Deed>)
    returns (o: Outcome, sent: seq<Sent>)
    ensures o.Unread? <==> !Crosses(messages, limit) && !Ends(messages)
    ensures o == Refused(400) <==> Crosses(messages, limit)
    ensures var whole := Ends(messages) && !Crosses(messages, limit);
      && (o == Refused(404) <==> whole && !StartsWith(q.path, q.rootPath))
      && (o.Failed? <==> whole && StartsWith(q.path, q.rootPath) && !Ascii(q.query))
      && (o.Ran? <==> whole && StartsWith(q.path, q.rootPath) && Ascii(q.query))
    ensures o.Ran? ==>
      forall n: nat :: EndsAt(messages, n) ==> Folded(o.environ, Fixed(q, BodyOf(messages[..n])), q.headers)
    ensures match o
      case Refused(status) => sent == [StartMessage(status, []), BodyMessage([], false)]
      case Ran(environ, done) =>
        && RelaysTo(b, app(environ), done)
        && sent == Messages(b, app(environ), done) + if done == |app(environ)| then [BodyMessage([], false)] else []
      case _ => sent == []
  {
    var reading, n := ReadBody(messages, limit);
    match reading
    case Waiting =>
      UnreadOpen(messages, limit);
      o, sent := Unread, [];
    case TooLarge => o, sent := Refused(400), Answer(400);
    case Complete(body) =>
      TooLargeFirst(messages, limit, n);
      var built := BuildEnviron(q, body);
      match built
      case InvalidPath => o, sent := Refused(404), Answer(404);
      case Undecodable => o, sent := Failed, [];
      case Built(environ) =>
        var deeds := app(environ);
        var relayed, done := RunApp(b, deeds);
        o, sent := Ran(environ, done), relayed;
        if done == |deeds| {
          sent := sent + [LAST];
        }
  }

  // ---------------------------------------------------------------------------
  // With the HTTP stream

  /** When no deed stops the relay, the response has been started with headers that the HTTP
      stream accepts. */
  lemma {:induction false} StartKnown(b: Builtins, deeds: seq<Deed>)
    requires RelaysTo(b, deeds, |deeds|)
    ensures Outputs(deeds) != [] <==> CallSent(b, deeds).started
    ensures CallSent(b, deeds).started ==> CallSent(b, deeds).status.Some? && ValidHeaders(CallSent(b, deeds).headers)
    decreases |deeds|
  {
    if deeds != [] {
      var n := |deeds| - 1;
      var before := deeds[..n];
      forall i | 0 <= i < n ensures !StopsAt(b, before, i) {
        assert !StopsAt(b, deeds, i) && before[..i] == deeds[..i];
      }
      StartKnown(b, before);
      assert !StopsAt(b, deeds, n);
      hide CallOf;
      assert Outputs(deeds) == if deeds[n].Output? then Outputs(before) + [deeds[n].data] else Outputs(before) + [];
    }
  }

  lemma RelayedPrefix(b: Builtins, deeds: seq<Deed>, n: nat)
    requires RelaysTo(b, deeds, n)
    ensures RelaysTo(b, deeds[..n], n)
  {
    forall i | 0 <= i < n ensures !StopsAt(b, deeds[..n], i) {
      assert !StopsAt(b, deeds, i) && deeds[..n][..i] == deeds[..i];
    }
  }

  /** The response body of a WSGI application that finishes is its outputs, joined, or
      nothing when the response has no body. */
  lemma AnsweredBody(scope: Scope, b: Builtins, deeds: seq<Deed>)
    requires RelaysTo(b, deeds, |deeds|) && Outputs(deeds) != []
    ensures CallSent(b, deeds).status.Some?
    ensures var status := CallSent(b, deeds).status.value;
      HttpTheorems.AppBody(scope, AsgiAll(Answered(b, deeds, |deeds|))) ==
        if scope.verb == "HEAD" || 100 <= status < 200 || status == 204 || status == 304 then []
        else Concat(Outputs(deeds))
  {
    StartKnown(b, deeds);
    hide *;
    var call, outputs := CallSent(b, deeds), Outputs(deeds);
    AnsweredMessages(b, deeds);
    AsAsgi(call, outputs);
    HttpTheorems.PlainBody(scope, call.status.value, outputs + [[]], false);
    ConcatSnoc(outputs, []);
    assert Concat(outputs) + [] == Concat(outputs);
  }

  /** A finished answer as the HTTP stream takes it: a plain start, and parts of which the
      last is empty. */
  lemma AsAsgi(call: Call, outputs: seq<Bytes>)
    requires call.status.Some? && ValidHeaders(call.headers)
    ensures var parts := outputs + [[]]; var n := |parts|;
      AsgiAll([StartOf(call)] + BodyMessages(outputs) + [LAST]) ==
        [Start(true, call.status.value, false)]
        + seq(n, i requires 0 <= i < n => BodyPart(parts[i], i < n - 1, false, false))
  {
    hide ValidHeaders;
    var parts := outputs + [[]];
    var n := |parts|;
    var ms := seq(n, i requires 0 <= i < n => BodyPart(parts[i], i < n - 1, false, false));
    var sent := [StartOf(call)] + BodyMessages(outputs) + [LAST];
    assert Asgi(StartOf(call)) == Start(true, call.status.value, false);
    forall i | 0 <= i < n
      ensures Asgi(sent[i + 1]) == ms[i]
    {
    }
  }

  lemma AnsweredMessages(b: Builtins, deeds: seq<Deed>)
    requires Outputs(deeds) != []
    ensures Answered(b, deeds, |deeds|) == [StartOf(CallSent(b, deeds))] + BodyMessages(Outputs(deeds)) + [LAST]
  {
    assert deeds[..|deeds|] == deeds;
  }

  /** No valid start and no end. */
  lemma {:induction false} NoStatus(ms: seq<AppMessage>)
    requires forall m <- ms :: m != Finished && (m.Start? ==> !m.valid)
    ensures HttpAnswers.AppStatus(ms) == None
  {
    if ms != [] {
      assert ms[|ms| - 1] in ms && forall m <- ms[..|ms| - 1] :: m in ms;
      NoStatus(ms[..|ms| - 1]);
    }
  }

  lemma {:induction false} FirstStatus(m: AppMessage, ms: seq<AppMessage>)
    requires m.Start? && m.valid
    ensures HttpAnswers.AppStatus([m] + ms) == Some(m.status)
    decreases |ms|
  {
    if ms == [] {
      assert [m] + ms == [m] && [m][..0] == [];
    } else {
      FirstStatus(m, ms[..|ms| - 1]);
      assert ([m] + ms)[..|ms|] == [m] + ms[..|ms| - 1];
    }
  }

  /** The status the client is to see: the application's, if and only if some output of it
      was relayed, and otherwise 500. */
  function StatusFor(b: Builtins, deeds: seq<Deed>, n: nat): int
    requires n <= |deeds|
  {
    if Outputs(deeds[..n]) != [] then CallSent(b, deeds[..n]).status.GetOr(500) else 500
  }

  lemma StatusOfAnswer(b: Builtins, deeds: seq<Deed>, n: nat)
    requires RelaysTo(b, deeds, n)
    ensures HttpAnswers.AppStatus(AsgiAll(Answered(b, deeds, n)) + [Finished]) == Some(StatusFor(b, deeds, n))
    ensures Outputs(deeds[..n]) != [] ==> CallSent(b, deeds[..n]).status == Some(StatusFor(b, deeds, n))
  {
    RelayedPrefix(b, deeds, n);
    StartKnown(b, deeds[..n]);
    var ms := AsgiAll(Answered(b, deeds, n));
    HttpAnswers.AppStatusSnoc(ms, Finished);
    if Outputs(deeds[..n]) != [] {
      var call := CallSent(b, deeds[..n]);
      assert Answered(b, deeds, n)[0] == StartOf(call);
      assert ms[0] == Start(true, call.status.value, false);
      FirstStatus(ms[0], ms[1..]);
      assert ms == [ms[0]] + ms[1..];
    } else {
      assert forall m <- Answered(b, deeds, n) :: Asgi(m) != Finished && (Asgi(m).Start? ==> !Asgi(m).valid);
      NoStatus(ms);
    }
  }

  lemma AnswerTrailersFree(b: Builtins, deeds: seq<Deed>, n: nat)
    requires n <= |deeds|
    ensures HttpRuns.TrailersFree(AsgiAll(Answered(b, deeds, n)) + [Finished])
  {
    hide Answered;
  }

  /** In every run of the HTTP stream over the messages of a WSGI application, when the
      client has not closed first, there is one response. It has the application's status if
      and only if some output was relayed; an application that answers without any output,
      or raises before one, is answered with 500 whatever status it chose. */
  lemma ClientStatus(
    scope: Scope, b: Builtins, deeds: seq<Deed>, n: nat, l: HttpRuns.Live, run: seq<HttpRuns.Action>)
    requires RelaysTo(b, deeds, n) && HttpRuns.Reached(scope, l, run) && l.todo == [] && !l.clientClosed
    requires l.finished && l.sent == AsgiAll(Answered(b, deeds, n)) + [Finished]
    ensures HttpRuns.CountResponses(l.h.out) == 1
    ensures forall e <- l.h.out :: e.Response? ==> e.status == StatusFor(b, deeds, n)
    ensures Outputs(deeds[..n]) != [] ==> CallSent(b, deeds[..n]).status == Some(StatusFor(b, deeds, n))
  {
    AnswerTrailersFree(b, deeds, n);
    hide *;
    StatusOfAnswer(b, deeds, n);
    HttpAnswers.ResponseStatus(scope, l, run);
    HttpTheorems.FinishedExactlyOnce(scope, l, run);
  }

  /** And there is such a run for every application. */
  lemma AnswerRuns(scope: Scope, b: Builtins, deeds: seq<Deed>, n: nat) returns (run: seq<HttpRuns.Action>)
    requires RelaysTo(b, deeds, n)
    ensures HttpRuns.Legal(scope, HttpRuns.NEW, run)
    ensures var l := HttpRuns.Run(scope, HttpRuns.NEW, run);
      && l.todo == [] && !l.clientClosed && l.finished && l.sent == AsgiAll(Answered(b, deeds, n)) + [Finished]
  {
    var ms := AsgiAll(Answered(b, deeds, n)) + [Finished];
    run := HttpAnswers.MessagesRun(scope, HttpRuns.NEW, ms);
    assert HttpRuns.NEW.sent + ms == ms;
  }

  /** So no status survives an answer without outputs: every such application is answered
      with 500, in some run and in all. */
  lemma SilentAnswerFails(scope: Scope, b: Builtins, deeds: seq<Deed>) returns (run: seq<HttpRuns.Action>)
    requires RelaysTo(b, deeds, |deeds|) && Outputs(deeds) == []
    ensures HttpRuns.Legal(scope, HttpRuns.NEW, run)
    ensures var l := HttpRuns.Run(scope, HttpRuns.NEW, run);
      && l.sent == [Asgi(LAST), Finished] && l.todo == []
      && HttpRuns.CountResponses(l.h.out) == 1 && forall e <- l.h.out :: e.Response? ==> e.status == 500
  {
    run := AnswerRuns(scope, b, deeds, |deeds|);
    assert deeds[..|deeds|] == deeds;
    var l := HttpRuns.Run(scope, HttpRuns.NEW, run);
    ClientStatus(scope, b, deeds, |deeds|, l, run);
    assert Answered(b, deeds, |deeds|) == [LAST];
    assert AsgiAll([LAST]) == [Asgi(LAST)];
    assert [Asgi(LAST)] + [Finished] == [Asgi(LAST), Finished];
  }
}
