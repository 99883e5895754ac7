/** The WSGI wrapper's environment and answer, entry by entry and call by call. */
module WsgiLaws {
  import opened Bytes
  import opened Texts
  import opened Wsgi

  // ---------------------------------------------------------------------------
  // The environment

  /** How one character of a header name is written in its variable. */
  function Spelled(c: char): string {
    var n := c as int;
    if c == '-' then "_"
    else if 97 <= n <= 122 || 224 <= n <= 246 || 248 <= n <= 254 then [(n - 32) as char]
    else if n == 181 then [924 as char]
    else if n == 255 then [376 as char]
    else if n == 223 then "SS"
    else [c]
  }

  function SpelledAll(s: string): string {
    if s == "" then "" else Spelled(s[0]) + SpelledAll(s[1..])
  }

  lemma DashesConcat(a: string, b: string)
    ensures Dashes(a + b) == Dashes(a) + Dashes(b)
  {
  }

  lemma {:induction false} SpelledIs(s: string)
    ensures Dashes(Upper(s)) == SpelledAll(s)
  {
    if s != "" {
      SpelledIs(s[1..]);
      DashesConcat(UpperChar(s[0]), Upper(s[1..]));
      SpelledOne(s[0]);
      hide UpperChar, Spelled, Dashes;
    }
  }

  lemma SpelledOne(c: char)
    ensures Dashes(UpperChar(c)) == Spelled(c)
  {
    assert UpperChar(c) == "SS" || |UpperChar(c)| == 1;
  }

  /** The variable of a header. */
  lemma VariableIs(name: string)
    ensures name == "content-length" ==> Variable(name) == "CONTENT_LENGTH"
    ensures name == "content-type" ==> Variable(name) == "CONTENT_TYPE"
    ensures name != "content-length" && name != "content-type" ==> Variable(name) == "HTTP_" + SpelledAll(name)
  {
    SpelledIs(name);
    hide Dashes, Upper, SpelledAll;
  }

  /** A header name in small letters and dashes, as HTTP/2 has it, can be read back. */
  predicate Plain(s: string) {
    forall c <- s :: c == '-' || 'a' <= c <= 'z' || '0' <= c <= '9'
  }

  function PlainSpelled(c: char): char {
    if c == '-' then '_' else if 'a' <= c <= 'z' then (c as int - 32) as char else c
  }

  lemma {:induction false} PlainSpelling(s: string)
    requires Plain(s)
    ensures |SpelledAll(s)| == |s|
    ensures forall i :: 0 <= i < |s| ==> SpelledAll(s)[i] == PlainSpelled(s[i])
  {
    if s != "" {
      assert s == [s[0]] + s[1..];
      assert forall c <- s[1..] :: c in s;
      PlainSpelling(s[1..]);
      assert s[0] in s;
    }
  }

  lemma VariableForm(name: string)
    ensures var special := name == "content-length" || name == "content-type";
      var v := Variable(name);
      if special then |v| >= 9 && v[0] == 'C' else v == "HTTP_" + SpelledAll(name)
    ensures Variable("content-length") != Variable("content-type")
  {
    VariableIs(name);
    VariableIs("content-length");
    VariableIs("content-type");
    assert "CONTENT_LENGTH" != "CONTENT_TYPE" by { assert |"CONTENT_LENGTH"| == 14 && |"CONTENT_TYPE"| == 12; }
    hide Variable, SpelledAll;
  }

  /** Such names do not meet in one variable: their values are never joined. */
  lemma PlainNamesApart(a: string, b: string)
    requires Plain(a) && Plain(b) && Variable(a) == Variable(b)
    ensures a == b
  {
    VariableForm(a);
    VariableForm(b);
    hide Variable, SpelledAll;
    if a != b && Variable(a)[0] == 'H' {
      PlainSpelling(a);
      PlainSpelling(b);
      assert SpelledAll(a) == Variable(a)[5..] == SpelledAll(b);
      SameSpelling(a, b);
    }
  }

  lemma SameSpelling(a: string, b: string)
    requires Plain(a) && Plain(b) && |a| == |b|
    requires forall i :: 0 <= i < |a| ==> PlainSpelled(a[i]) == PlainSpelled(b[i])
    ensures a == b
  {
    forall i | 0 <= i < |a|
      ensures a[i] == b[i]
    {
      assert a[i] in a && b[i] in b;
    }
  }

  lemma FixedTexts(q: Request, body: Bytes)
    requires StartsWith(q.path, q.rootPath)
    ensures var fixed := Fixed(q, body);
      && "REQUEST_METHOD" in fixed && fixed["REQUEST_METHOD"] == Text(q.verb)
      && "QUERY_STRING" in fixed && fixed["QUERY_STRING"] == Text(Latin1(q.query))
      && "SCRIPT_NAME" in fixed && fixed["SCRIPT_NAME"] == Text(Latin1(Utf8(q.rootPath)))
      && "PATH_INFO" in fixed
      && fixed["PATH_INFO"] == Text(Latin1(Utf8(if q.path == q.rootPath then "/" else q.path[|q.rootPath|..])))
  {
  }

  lemma FixedServer(q: Request, body: Bytes)
    requires StartsWith(q.path, q.rootPath)
    ensures var fixed := Fixed(q, body);
      && "SERVER_NAME" in fixed && fixed["SERVER_NAME"] == Text(q.host)
      && "SERVER_PORT" in fixed && fixed["SERVER_PORT"] == Number(q.port)
      && "SERVER_PROTOCOL" in fixed && fixed["SERVER_PROTOCOL"] == Text("HTTP/" + q.version)
      && ("REMOTE_ADDR" in fixed <==> q.client.Some?)
      && (q.client.Some? ==> fixed["REMOTE_ADDR"] == Text(q.client.value))
  {
    hide Recode;
  }

  lemma FixedWsgi(q: Request, body: Bytes)
    requires StartsWith(q.path, q.rootPath)
    ensures var fixed := Fixed(q, body);
      && "wsgi.version" in fixed && fixed["wsgi.version"] == Pair(1, 0)
      && "wsgi.url_scheme" in fixed && fixed["wsgi.url_scheme"] == Text(q.scheme)
      && "wsgi.input" in fixed && fixed["wsgi.input"] == Input(body)
      && "wsgi.errors" in fixed && fixed["wsgi.errors"] == Errors
  {
    hide Recode;
  }

  lemma FixedFlags(q: Request, body: Bytes)
    requires StartsWith(q.path, q.rootPath)
    ensures var fixed := Fixed(q, body);
      && "wsgi.multithread" in fixed && fixed["wsgi.multithread"] == Flag(true)
      && "wsgi.multiprocess" in fixed && fixed["wsgi.multiprocess"] == Flag(true)
      && "wsgi.run_once" in fixed && fixed["wsgi.run_once"] == Flag(false)
  {
    hide Recode;
  }

  /** `v` has the value `x`. */
  predicate Has(environ: Environ, v: string, x: Value) { v in environ && environ[v] == x }

  lemma Kept(environ: Environ, fixed: Environ, headers: seq<Header>, v: string)
    requires Folded(environ, fixed, headers) && v in fixed
    ensures v in environ && environ[v] == fixed[v]
  {
    hide ValuesFor;
  }

  /** The entries that describe the request, whatever its headers are. */
  lemma EntriesTell(q: Request, body: Bytes, environ: Environ)
    requires StartsWith(q.path, q.rootPath) && Folded(environ, Fixed(q, body), q.headers)
    ensures Has(environ, "REQUEST_METHOD", Text(q.verb)) && Has(environ, "QUERY_STRING", Text(Latin1(q.query)))
    ensures Has(environ, "SCRIPT_NAME", Text(Latin1(Utf8(q.rootPath))))
    ensures Has(environ, "PATH_INFO",
      Text(Latin1(Utf8(if q.path == q.rootPath then "/" else q.path[|q.rootPath|..]))))
    ensures Has(environ, "SERVER_NAME", Text(q.host)) && Has(environ, "SERVER_PORT", Number(q.port))
    ensures Has(environ, "SERVER_PROTOCOL", Text("HTTP/" + q.version))
    ensures Has(environ, "wsgi.version", Pair(1, 0)) && Has(environ, "wsgi.url_scheme", Text(q.scheme))
    ensures Has(environ, "wsgi.input", Input(body)) && Has(environ, "wsgi.errors", Errors)
    ensures Has(environ, "wsgi.multithread", Flag(true)) && Has(environ, "wsgi.multiprocess", Flag(true))
    ensures Has(environ, "wsgi.run_once", Flag(false))
    ensures if q.client.Some? then Has(environ, "REMOTE_ADDR", Text(q.client.value)) else "REMOTE_ADDR" !in environ
  {
    var fixed := Fixed(q, body);
    FixedTexts(q, body);
    FixedServer(q, body);
    FixedWsgi(q, body);
    FixedFlags(q, body);
    NoRemote(q.headers);
    forall v <- fixed
      ensures v in environ && environ[v] == fixed[v]
    {
      Kept(environ, fixed, q.headers, v);
    }
    assert q.client == None ==> "REMOTE_ADDR" !in environ by { hide Fixed; }
    hide *;
  }

  lemma {:induction false} NoRemote(headers: seq<Header>)
    ensures ValuesFor(headers, "REMOTE_ADDR") == []
  {
    if headers != [] {
      NoRemote(headers[..|headers| - 1]);
      VariableForm(Latin1(headers[|headers| - 1].0));
      assert "REMOTE_ADDR"[0] == 'R';
    }
  }

  // ---------------------------------------------------------------------------
  // `start_response`

  /** The code of a status line: what comes before its first space. */
  ghost predicate Codes(b: Builtins, line: string, code: int) {
    exists k :: FirstSpace(line, k) && b.toInt(line[..k]) == Some(code)
  }

  /** The headers in bytes: names in lower case, everything in Latin-1. */
  ghost predicate InBytes(b: Builtins, headers: seq<(string, string)>, encoded: seq<Header>) {
    && |encoded| == |headers|
    && forall i :: 0 <= i < |headers| ==>
         Latin1(encoded[i].0) == b.lower(headers[i].0) && Latin1(encoded[i].1) == headers[i].1
  }

  /** The last call whose status line has a code decides the status; the last whose headers
      fit as well decides the headers, and starts the answer. */
  ghost predicate CallTold(b: Builtins, deeds: seq<Deed>, c: Call) {
    && match LastCode(b, deeds)
       case None => c == NOT_CALLED
       case Some(i) =>
         && c.status.Some? && Codes(b, deeds[i].line, c.status.value)
         && match LastGood(b, deeds)
            case None => !c.started && c.headers == []
            case Some(j) => c.started && InBytes(b, deeds[j].headers, c.headers)
  }

  ghost predicate HasCode(b: Builtins, d: Deed) {
    d.StartResponse? && exists code :: Codes(b, d.line, code)
  }

  ghost predicate Good(b: Builtins, d: Deed) {
    HasCode(b, d) && exists encoded :: InBytes(b, d.headers, encoded)
  }

  ghost function LastCode(b: Builtins, deeds: seq<Deed>): (i: Option<nat>)
    ensures i.Some? ==> i.value < |deeds| && HasCode(b, deeds[i.value])
  {
    if deeds == [] then None
    else if HasCode(b, deeds[|deeds| - 1]) then Some(|deeds| - 1)
    else LastCode(b, deeds[..|deeds| - 1])
  }

  ghost function LastGood(b: Builtins, deeds: seq<Deed>): (i: Option<nat>)
    ensures i.Some? ==> i.value < |deeds| && Good(b, deeds[i.value])
  {
    if deeds == [] then None
    else if Good(b, deeds[|deeds| - 1]) then Some(|deeds| - 1)
    else LastGood(b, deeds[..|deeds| - 1])
  }

  predicate FirstSpace(line: string, k: int) {
    0 <= k < |line| && line[k] == ' ' && forall i :: 0 <= i < k ==> line[i] != ' '
  }

  lemma {:induction false} FirstPart(line: string)
    ensures ' ' in line ==> exists k :: FirstSpace(line, k) && Split(line, ' ')[0] == line[..k]
  {
    if line != "" {
      FirstPart(line[1..]);
      assert line == [line[0]] + line[1..];
      if line[0] == ' ' {
        assert FirstSpace(line, 0) && Split(line, ' ')[0] == line[..0];
      } else if ' ' in line[1..] {
        var k :| FirstSpace(line[1..], k) && Split(line[1..], ' ')[0] == line[1..][..k];
        assert line[..k + 1] == [line[0]] + line[1..][..k];
        assert line[k + 1] == line[1..][k];
        forall i | 0 <= i < k + 1
          ensures line[i] != ' '
        {
          assert i > 0 ==> line[i] == line[1..][i - 1];
        }
        assert FirstSpace(line, k + 1);
      }
    }
  }

  /** A line has at most one code. */
  lemma CodeIs(b: Builtins, line: string, code: int)
    ensures Codes(b, line, code) <==> ' ' in line && b.toInt(Split(line, ' ')[0]) == Some(code)
  {
    FirstPart(line);
    if ' ' in line {
      var k :| FirstSpace(line, k) && Split(line, ' ')[0] == line[..k];
      assert forall j :: FirstSpace(line, j) ==> j == k;
    }
  }

  lemma Latin1Inverse(s: string)
    ensures Latin1Bytes(s).Some? ==> Latin1(Latin1Bytes(s).value) == s
    ensures forall data :: Latin1(data) == s ==> Latin1Bytes(s).Some?
  {
    if Latin1Bytes(s).Some? {
      assert forall i :: 0 <= i < |s| ==> s[i] in s && LowByte(s[i]) as char == s[i];
    }
    forall data | Latin1(data) == s
      ensures Latin1Bytes(s).Some?
    {
      Latin1RoundTrip(data);
    }
  }

  lemma {:induction false} EncodedIs(b: Builtins, headers: seq<(string, string)>)
    ensures Encoded(b, headers).Some? ==> InBytes(b, headers, Encoded(b, headers).value)
    ensures (exists encoded :: InBytes(b, headers, encoded)) ==> Encoded(b, headers).Some?
  {
    hide Latin1Bytes;
    if headers != [] {
      EncodedIs(b, headers[1..]);
      Latin1Inverse(b.lower(headers[0].0));
      Latin1Inverse(headers[0].1);
      if encoded: seq<Header> :| InBytes(b, headers, encoded) {
        assert InBytes(b, headers[1..], encoded[1..]);
        assert Latin1(encoded[0].0) == b.lower(headers[0].0) && Latin1(encoded[0].1) == headers[0].1;
      }
    }
  }

  lemma OneCallTold(b: Builtins, c: Call, d: Deed)
    requires d.StartResponse?
    ensures var c' := Called(b, c, d.line, d.headers);
      && (!HasCode(b, d) ==> c' == c)
      && (HasCode(b, d) ==> c'.status.Some? && Codes(b, d.line, c'.status.value))
      && (HasCode(b, d) && !Good(b, d) ==> c'.started == c.started && c'.headers == c.headers)
      && (Good(b, d) ==> c'.started && InBytes(b, d.headers, c'.headers))
  {
    EncodedIs(b, d.headers);
    if ' ' in d.line && b.toInt(Split(d.line, ' ')[0]).Some? {
      CodeIs(b, d.line, b.toInt(Split(d.line, ' ')[0]).value);
    }
    forall code
      ensures Codes(b, d.line, code) <==> ' ' in d.line && b.toInt(Split(d.line, ' ')[0]) == Some(code)
    {
      CodeIs(b, d.line, code);
    }
    hide Codes, InBytes, Encoded, Split;
  }

  /** What `start_response` has left behind, whatever was called and however often. */
  lemma {:induction false} CallsTell(b: Builtins, deeds: seq<Deed>)
    ensures CallTold(b, deeds, CallOf(b, deeds))
  {
    if deeds != [] {
      var n := |deeds| - 1;
      var c, d := CallOf(b, deeds[..n]), deeds[n];
      CallsTell(b, deeds[..n]);
      GoodHasCode(b, deeds[..n]);
      if d.StartResponse? {
        OneCallTold(b, c, d);
      }
      hide Called, Codes, InBytes;
    }
  }

  lemma {:induction false} GoodHasCode(b: Builtins, deeds: seq<Deed>)
    ensures LastGood(b, deeds).Some? ==> LastCode(b, deeds).Some?
  {
    if deeds != [] {
      GoodHasCode(b, deeds[..|deeds| - 1]);
      hide HasCode;
    }
  }

  // ---------------------------------------------------------------------------
  // The answer

  /** The first output sends the start with the status and headers set before it; later calls
      change nothing, and every output is sent, in order. */
  lemma {:induction false} FirstOutputStarts(b: Builtins, before: seq<Deed>, data: Bytes, after: seq<Deed>)
    requires forall d <- before :: !d.Output?
    ensures var c, sent := CallOf(b, before), Relayed(b, before + [Output(data)] + after);
      && |sent| >= 2 && sent[0] == StartMessage(c.status.GetOr(0), c.headers) && sent[1] == BodyMessage(data, true)
    decreases |after|
  {
    NoOutputs(before);
    var all := before + [Output(data)] + after;
    if after == [] {
      assert all == before + [Output(data)] && all[..|all| - 1] == before;
      OneMore(b, all);
    } else {
      var n := |after| - 1;
      FirstOutputStarts(b, before, data, after[..n]);
      assert all[..|all| - 1] == before + [Output(data)] + after[..n];
      OneMore(b, all);
    }
    hide CallOf, CallSent;
  }

  lemma {:induction false} NoOutputs(deeds: seq<Deed>)
    requires forall d <- deeds :: !d.Output?
    ensures Outputs(deeds) == []
  {
    if deeds != [] {
      assert deeds[|deeds| - 1] in deeds && forall d <- deeds[..|deeds| - 1] :: d in deeds;
      NoOutputs(deeds[..|deeds| - 1]);
    }
  }
}
