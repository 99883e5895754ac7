/** The proxy middleware: which forwarded value it trusts, and how it rewrites the scope. */
module ProxyFix {
  import opened Bytes
  import opened Texts

  type Header = (Bytes, Bytes)

  function LowerByte(b: byte): byte {
    if 65 <= b <= 90 then b + 32 else b
  }

  function Lower(name: Bytes): (r: Bytes)
    ensures |r| == |name|
  {
    seq(|name|, i requires 0 <= i < |name| => LowerByte(name[i]))
  }

  const COMMA: byte := 44

  function Stripped(parts: seq<Bytes>): (r: seq<string>)
    ensures |r| == |parts|
  {
    seq(|parts|, i requires 0 <= i < |parts| => Strip(Latin1(parts[i])))
  }

  /** The comma-separated values of one header. */
  function ValuesIn(name: Bytes, h: Header): seq<string> {
    if Lower(h.0) == name then Stripped(Split(h.1, COMMA)) else []
  }

  /** All values of the matching headers, in order. */
  function Values(name: Bytes, headers: seq<Header>): seq<string> {
    if headers == [] then [] else ValuesIn(name, headers[0]) + Values(name, headers[1..])
  }

  /** The value `hops` from the end, when there are that many. */
  function Trusted(name: Bytes, headers: seq<Header>, hops: nat): Option<string> {
    var values := Values(name, headers);
    if hops == 0 || |values| < hops then None else Some(values[|values| - hops])
  }

  lemma {:induction false} ValuesConcat(name: Bytes, a: seq<Header>, b: seq<Header>)
    ensures Values(name, a + b) == Values(name, a) + Values(name, b)
  {
    if a == [] {
      assert a + b == b;
    } else {
      assert (a + b)[1..] == a[1..] + b;
      ValuesConcat(name, a[1..], b);
    }
  }

  lemma ValuesSnoc(name: Bytes, headers: seq<Header>, i: nat)
    requires i < |headers|
    ensures Values(name, headers[..i + 1]) == Values(name, headers[..i]) + ValuesIn(name, headers[i])
  {
    hide ValuesIn;
    assert headers[..i + 1] == headers[..i] + [headers[i]];
    ValuesConcat(name, headers[..i], [headers[i]]);
    assert [headers[i]][1..] == [];
  }

  method GetTrustedValue(name: Bytes, headers: seq<Header>, hops: nat) returns (r: Option<string>)
    ensures r == Trusted(name, headers, hops)
  {
    if hops == 0 {
      return None;
    }
    var values: seq<string> := [];
    assert headers[..0] == [] && Values(name, []) == [];
    hide Values, Strip, Split, Lower, Stripped;
    for i := 0 to |headers|
      invariant values == Values(name, headers[..i])
    {
      ValuesSnoc(name, headers, i);
      if Lower(headers[i].0) == name {
        values := values + Stripped(Split(headers[i].1, COMMA));
      }
    }
    assert headers[..|headers|] == headers;
    r := if |values| >= hops then Some(values[|values| - hops]) else None;
  }

  // ---------------------------------------------------------------------------
  // What a client can influence

  /** Headers put in front change nothing if and only if there are enough values behind. */
  lemma PrependedHeadersIff(name: Bytes, headers: seq<Header>, hops: nat)
    requires Lower(name) == name
    ensures (forall more: seq<Header> :: Trusted(name, more + headers, hops) == Trusted(name, headers, hops)) <==>
      hops == 0 || |Values(name, headers)| >= hops
  {
    hide Values;
    if hops == 0 || |Values(name, headers)| >= hops {
      forall more: seq<Header>
        ensures Trusted(name, more + headers, hops) == Trusted(name, headers, hops)
      {
        ValuesConcat(name, more, headers);
      }
    } else {
      var more := Padding(name, hops);
      PaddingValues(name, hops);
      hide Padding;
      ValuesConcat(name, more, headers);
      assert Trusted(name, more + headers, hops) != Trusted(name, headers, hops);
    }
  }

  function Padding(name: Bytes, n: nat): seq<Header> {
    if n == 0 then [] else [(name, [])] + Padding(name, n - 1)
  }

  lemma {:induction false} PaddingValues(name: Bytes, n: nat)
    requires Lower(name) == name
    ensures |Values(name, Padding(name, n))| == n
  {
    if n > 0 {
      assert Padding(name, n)[1..] == Padding(name, n - 1);
      PaddingValues(name, n - 1);
    }
  }

  /** Values put in front inside any header, with a comma, change nothing either. */
  lemma PrependedValues(name: Bytes, before: seq<Header>, h: Header, after: seq<Header>, claimed: Bytes, hops: nat)
    requires |Values(name, [h] + after)| >= hops
    ensures Trusted(name, before + [(h.0, claimed + [COMMA] + h.1)] + after, hops) ==
      Trusted(name, before + [h] + after, hops)
  {
    hide Trusted, Strip, Split, Lower;
    var h' := (h.0, claimed + [COMMA] + h.1);
    var own := Values(name, [h] + after);
    ClaimedFirst(name, h, after, claimed);
    ValuesConcat(name, before, [h] + after);
    ValuesConcat(name, before, [h'] + after);
    assert before + [h] + after == before + ([h] + after) && before + [h'] + after == before + ([h'] + after);
    hide Values;
    SameEnd(name, before + [h'] + after, before + [h] + after, own, hops);
  }

  /** Only the last values matter. */
  lemma SameEnd(name: Bytes, a: seq<Header>, b: seq<Header>, own: seq<string>, hops: nat)
    requires |own| >= hops && EndsWith(Values(name, a), own) && EndsWith(Values(name, b), own)
    ensures Trusted(name, a, hops) == Trusted(name, b, hops)
  {
    hide Values;
    var v, w := Values(name, a), Values(name, b);
    if hops > 0 {
      assert v[|v| - hops] == v[|v| - |own|..][|own| - hops];
      assert w[|w| - hops] == w[|w| - |own|..][|own| - hops];
    }
  }

  predicate EndsWith(values: seq<string>, own: seq<string>) {
    |own| <= |values| && values[|values| - |own|..] == own
  }

  lemma ClaimedFirst(name: Bytes, h: Header, after: seq<Header>, claimed: Bytes)
    ensures EndsWith(Values(name, [(h.0, claimed + [COMMA] + h.1)] + after), Values(name, [h] + after))
  {
    hide Strip, Split, Lower;
    var h' := (h.0, claimed + [COMMA] + h.1);
    SplitConcat(claimed, COMMA, h.1);
    var front := if Lower(h.0) == name then Stripped(Split(claimed, COMMA)) else [];
    assert ValuesIn(name, h') == front + ValuesIn(name, h);
    assert ([h] + after)[1..] == after && ([h'] + after)[1..] == after;
    assert Values(name, [h'] + after) == front + (ValuesIn(name, h) + Values(name, after));
  }

  /** With exactly the trusted hops each adding one value, the client's own address, as the
      first hop saw it, is chosen, whatever the client sent. */
  lemma {:induction false} FirstHopChosen(name: Bytes, sent: seq<Header>, added: seq<Bytes>)
    requires Lower(name) == name && added != [] && forall value <- added :: COMMA !in value
    ensures var headers := sent + seq(|added|, i requires 0 <= i < |added| => (name, added[i]));
      Trusted(name, headers, |added|) == Some(Strip(Latin1(added[0])))
  {
    var hops := seq(|added|, i requires 0 <= i < |added| => (name, added[i]));
    HopValues(name, added, hops);
    ValuesConcat(name, sent, hops);
  }

  lemma {:induction false} HopValues(name: Bytes, added: seq<Bytes>, hops: seq<Header>)
    requires Lower(name) == name && |hops| == |added| && forall value <- added :: COMMA !in value
    requires forall i :: 0 <= i < |hops| ==> hops[i] == (name, added[i])
    ensures Values(name, hops) == Stripped(added)
  {
    if hops != [] {
      hide Strip, Split, Lower;
      Unsplit(added[0]);
      HopValues(name, added[1..], hops[1..]);
      assert ValuesIn(name, hops[0]) == Stripped([added[0]]);
      assert Stripped(added) == Stripped([added[0]]) + Stripped(added[1..]);
    }
  }

  lemma {:induction false} Unsplit(value: Bytes)
    requires COMMA !in value
    ensures Split(value, COMMA) == [value]
  {
    if value != [] {
      Unsplit(value[1..]);
      assert [value[0]] + value[1..] == value;
      assert [value[1..]][1..] == [];
    }
  }

  // ---------------------------------------------------------------------------
  // Rewriting the scope

  const HOST: Bytes := [104, 111, 115, 116]
  const FORWARDED: Bytes := [102, 111, 114, 119, 97, 114, 100, 101, 100]
  const X_FORWARDED: Bytes := [120, 45] + FORWARDED + [45]
  const FOR: Bytes := [102, 111, 114]
  const PROTO: Bytes := [112, 114, 111, 116, 111]

  datatype Mode = Legacy | Modern

  /** The scope; `isRequest` for the types `http` and `websocket`. */
  class Scope {
    const isRequest: bool
    var client: Option<(string, nat)>
    var scheme: string
    var headers: seq<Header>

    /** `deepcopy`. */
    constructor Copy(scope: Scope)
      ensures isRequest == scope.isRequest
      ensures client == scope.client && scheme == scope.scheme && headers == scope.headers
    {
      isRequest, client, scheme, headers := scope.isRequest, scope.client, scope.scheme, scope.headers;
    }
  }

  predicate IsHost(h: Header) { Lower(h.0) == HOST }

  /** The host headers, or all others, in order. */
  function Where(host: bool, headers: seq<Header>): seq<Header> {
    if headers == [] then []
    else (if IsHost(headers[0]) == host then [headers[0]] else []) + Where(host, headers[1..])
  }

  function Hosts(headers: seq<Header>): seq<Header> { Where(true, headers) }
  function WithoutHost(headers: seq<Header>): seq<Header> { Where(false, headers) }

  lemma {:induction false} WhereConcat(host: bool, a: seq<Header>, b: seq<Header>)
    ensures Where(host, a + b) == Where(host, a) + Where(host, b)
  {
    hide IsHost;
    if a == [] {
      assert a + b == b;
    } else {
      assert (a + b)[1..] == a[1..] + b;
      WhereConcat(host, a[1..], b);
    }
  }

  /** Only the headers asked for are left, and asking again changes nothing. */
  lemma {:induction false} WhereClean(host: bool, headers: seq<Header>)
    ensures Where(!host, Where(host, headers)) == [] && Where(host, Where(host, headers)) == Where(host, headers)
  {
    hide IsHost;
    if headers != [] {
      var first := if IsHost(headers[0]) == host then [headers[0]] else [];
      WhereClean(host, headers[1..]);
      WhereConcat(host, first, Where(host, headers[1..]));
      WhereConcat(!host, first, Where(host, headers[1..]));
    }
  }

  function WithHost(headers: seq<Header>, host: string): seq<Header> {
    WithoutHost(headers) + [(HOST, Utf8(host))]
  }

  /** Exactly one host header remains, and all others are kept, in order. */
  lemma OneHost(headers: seq<Header>, host: string)
    ensures Hosts(WithHost(headers, host)) == [(HOST, Utf8(host))]
    ensures var r := WithHost(headers, host); r != [] && IsHost(r[|r| - 1])
    ensures WithoutHost(WithHost(headers, host)) == WithoutHost(headers)
  {
    var own := [(HOST, Utf8(host))];
    WhereClean(false, headers);
    WhereConcat(true, WithoutHost(headers), own);
    WhereConcat(false, WithoutHost(headers), own);
    assert Lower(HOST) == HOST;
    assert own[1..] == [];
  }

  /** The host header repeats the trusted bytes if and only if they are ASCII: they are read
      as Latin-1 and written as UTF-8. */
  lemma {:induction false} HostBytesIff(data: Bytes)
    ensures Utf8(Latin1(data)) == data <==> forall b <- data :: b < 128
    ensures |Utf8(Latin1(data))| >= |data|
  {
    if data != [] {
      var s := Latin1(data);
      assert s[1..] == Latin1(data[1..]);
      HostBytesIff(data[1..]);
      assert data == [data[0]] + data[1..];
      if data[0] < 128 {
        assert Utf8(s) == [data[0]] + Utf8(s[1..]);
        assert Utf8(s)[1..] == Utf8(s[1..]);
        assert forall b <- data :: b == data[0] || b in data[1..];
        assert forall b <- data[1..] :: b in data;
      } else {
        assert |Utf8(s)| == 2 + |Utf8(s[1..])|;
        assert data[0] in data;
      }
    }
  }

  /** The last part that starts with the key gives the value. */
  function LastPart(parts: seq<string>, key: string): Option<string> {
    if parts == [] then None
    else
      var last := parts[|parts| - 1];
      if StartsWith(last, key) then Some(Strip(last[|key|..])) else LastPart(parts[..|parts| - 1], key)
  }

  datatype Forwarded = Forwarded(client: Option<string>, scheme: Option<string>, host: Option<string>)

  function ForwardedOf(mode: Mode, headers: seq<Header>, hops: nat): Forwarded {
    var value := Trusted(FORWARDED, headers, hops);
    if mode == Modern && value.Some? then
      var parts := Split(value.value, ';');
      Forwarded(LastPart(parts, "for="), LastPart(parts, "proto="), LastPart(parts, "host="))
    else
      Forwarded(
        Trusted(X_FORWARDED + FOR, headers, hops),
        Trusted(X_FORWARDED + PROTO, headers, hops),
        Trusted(X_FORWARDED + HOST, headers, hops))
  }

  method ParseForwarded(value: string) returns (f: Forwarded)
    ensures var parts := Split(value, ';');
      f == Forwarded(LastPart(parts, "for="), LastPart(parts, "proto="), LastPart(parts, "host="))
  {
    var parts := Split(value, ';');
    f := Forwarded(None, None, None);
    for i := 0 to |parts|
      invariant f.client == LastPart(parts[..i], "for=")
      invariant f.scheme == LastPart(parts[..i], "proto=")
      invariant f.host == LastPart(parts[..i], "host=")
    {
      var part := parts[i];
      assert parts[..i + 1][..i] == parts[..i];
      Keys(part);
      if StartsWith(part, "for=") {
        f := f.(client := Some(Strip(part[4..])));
      } else if StartsWith(part, "host=") {
        f := f.(host := Some(Strip(part[5..])));
      } else if StartsWith(part, "proto=") {
        f := f.(scheme := Some(Strip(part[6..])));
      }
    }
    assert parts[..|parts|] == parts;
  }

  /** A part starts with at most one of the keys. */
  lemma Keys(part: string)
    ensures !(StartsWith(part, "for=") && StartsWith(part, "host="))
    ensures !(StartsWith(part, "for=") && StartsWith(part, "proto="))
    ensures !(StartsWith(part, "host=") && StartsWith(part, "proto="))
  {
    assert StartsWith(part, "for=") ==> part[0] == 'f';
    assert StartsWith(part, "host=") ==> part[0] == 'h';
    assert StartsWith(part, "proto=") ==> part[0] == 'p';
  }

  method ReadForwarded(mode: Mode, headers: seq<Header>, hops: nat) returns (f: Forwarded)
    ensures f == ForwardedOf(mode, headers, hops)
  {
    hide Trusted;
    var value: Option<string> := None;
    if mode == Modern {
      value := GetTrustedValue(FORWARDED, headers, hops);
    }
    if value.Some? {
      f := ParseForwarded(value.value);
    } else {
      var client := GetTrustedValue(X_FORWARDED + FOR, headers, hops);
      var scheme := GetTrustedValue(X_FORWARDED + PROTO, headers, hops);
      var host := GetTrustedValue(X_FORWARDED + HOST, headers, hops);
      f := Forwarded(client, scheme, host);
    }
  }

  /** The application gets a rewritten copy; the caller's scope stays as it is. */
  method Rewrite(mode: Mode, hops: nat, scope: Scope) returns (r: Scope)
    ensures !scope.isRequest ==> r == scope
    ensures scope.isRequest ==> fresh(r) && r.isRequest && Rewritten(ForwardedOf(mode, scope.headers, hops), scope, r)
  {
    if !scope.isRequest {
      return scope;
    }
    r := new Scope.Copy(scope);
    var f := ReadForwarded(mode, r.headers, hops);
    hide ForwardedOf, WithHost, Lower;
    if f.client.Some? {
      r.client := Some((f.client.value, 0));
    }
    if f.scheme.Some? {
      r.scheme := f.scheme.value;
    }
    if f.host.Some? {
      OneHost(scope.headers, f.host.value);
      r.headers := WithHost(r.headers, f.host.value);
    }
  }

  ghost predicate Rewritten(f: Forwarded, scope: Scope, r: Scope)
    reads scope, r
  {
    && r.client == (if f.client.Some? then Some((f.client.value, 0)) else scope.client)
    && r.scheme == f.scheme.GetOr(scope.scheme)
    && Hosts(r.headers) == (if f.host.Some? then [(HOST, Utf8(f.host.value))] else Hosts(scope.headers))
    && WithoutHost(r.headers) == WithoutHost(scope.headers)
    && (f.host == None ==> r.headers == scope.headers)
    && (f.host.Some? ==> r.headers != [] && IsHost(r.headers[|r.headers| - 1]))
  }

  // ---------------------------------------------------------------------------
  // Names and rules

  /** Two names are the same header if and only if they differ in the case of letters only. */
  lemma SameNameIff(a: Bytes, b: Bytes)
    ensures Lower(a) == Lower(b) <==>
      && |a| == |b|
      && forall i :: 0 <= i < |a| ==>
           a[i] == b[i] || (65 <= a[i] <= 90 && b[i] == a[i] + 32) || (65 <= b[i] <= 90 && a[i] == b[i] + 32)
  {
    if |a| == |b| {
      forall i | 0 <= i < |a|
        ensures Lower(a)[i] == Lower(b)[i] <==>
          a[i] == b[i] || (65 <= a[i] <= 90 && b[i] == a[i] + 32) || (65 <= b[i] <= 90 && a[i] == b[i] + 32)
      {
      }
    }
  }

  function Name(s: string): Bytes {
    seq(|s|, i requires 0 <= i < |s| => LowByte(s[i]))
  }

  /** The part that decides for a key: it starts with the key, and no later one does. */
  ghost predicate Decides(parts: seq<string>, key: string, value: Option<string>) {
    match value
    case None => forall part <- parts :: !(key <= part)
    case Some(v) =>
      exists i :: 0 <= i < |parts| && key <= parts[i] && v == Strip(parts[i][|key|..])
        && forall j :: i < j < |parts| ==> !(key <= parts[j])
  }

  lemma {:induction false} LastDecides(parts: seq<string>, key: string)
    ensures Decides(parts, key, LastPart(parts, key))
  {
    if parts != [] {
      var n := |parts| - 1;
      LastDecides(parts[..n], key);
      assert parts == parts[..n] + [parts[n]];
      assert StartsWith(parts[n], key) <==> key <= parts[n];
      if StartsWith(parts[n], key) {
        assert key <= parts[n] && LastPart(parts, key) == Some(Strip(parts[n][|key|..]));
      } else if LastPart(parts, key).Some? {
        var i :| 0 <= i < n && key <= parts[..n][i] && LastPart(parts, key).value == Strip(parts[..n][i][|key|..])
          && forall j :: i < j < n ==> !(key <= parts[..n][j]);
        assert key <= parts[i];
        assert forall j :: i < j < n ==> parts[..n][j] == parts[j];
      }
    }
  }

  /** A trusted `Forwarded` value is used in the modern mode only, and then alone; otherwise
      each of the three older headers decides for itself. */
  lemma ForwardedTells(mode: Mode, headers: seq<Header>, hops: nat)
    ensures var f, value := ForwardedOf(mode, headers, hops), Trusted(Name("forwarded"), headers, hops);
      if mode == Modern && value.Some? then
        var parts := Split(value.value, ';');
        Decides(parts, "for=", f.client) && Decides(parts, "proto=", f.scheme) && Decides(parts, "host=", f.host)
      else
        && f.client == Trusted(Name("x-forwarded-for"), headers, hops)
        && f.scheme == Trusted(Name("x-forwarded-proto"), headers, hops)
        && f.host == Trusted(Name("x-forwarded-host"), headers, hops)
  {
    NamesAre();
    hide *;
    var value := Trusted(FORWARDED, headers, hops);
    if value.Some? {
      var parts := Split(value.value, ';');
      LastDecides(parts, "for=");
      LastDecides(parts, "proto=");
      LastDecides(parts, "host=");
    }
    Forwards(mode, headers, hops);
  }

  lemma Forwards(mode: Mode, headers: seq<Header>, hops: nat)
    ensures var f, value := ForwardedOf(mode, headers, hops), Trusted(FORWARDED, headers, hops);
      if mode == Modern && value.Some? then
        var parts := Split(value.value, ';');
        f == Forwarded(LastPart(parts, "for="), LastPart(parts, "proto="), LastPart(parts, "host="))
      else
        && f.client == Trusted(X_FORWARDED + FOR, headers, hops)
        && f.scheme == Trusted(X_FORWARDED + PROTO, headers, hops)
        && f.host == Trusted(X_FORWARDED + HOST, headers, hops)
  {
    hide Trusted, Split, LastPart;
  }

  lemma NamesAre()
    ensures Name("forwarded") == FORWARDED
    ensures Name("x-forwarded-for") == X_FORWARDED + FOR
    ensures Name("x-forwarded-proto") == X_FORWARDED + PROTO
    ensures Name("x-forwarded-host") == X_FORWARDED + HOST
  {
  }
}
