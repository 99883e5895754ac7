/** Header lists: the request's pseudo headers folded into one host header, and the check of
    the headers an application sends. */
module Headers {
  import opened Bytes
  import opened Texts

  type Header = (Bytes, Bytes)

  const COLON: byte := 58
  const HOST: Bytes := [104, 111, 115, 116]
  const AUTHORITY: Bytes := [58, 97, 117, 116, 104, 111, 114, 105, 116, 121]

  predicate IsPseudo(h: Header) { h.0 != [] && h.0[0] == COLON }

  /** The headers with a name, in order, but for pseudo and host headers. */
  function Ordinary(headers: seq<Header>): seq<Header> {
    if headers == [] then []
    else
      var h := headers[|headers| - 1];
      Ordinary(headers[..|headers| - 1]) + if IsPseudo(h) || h.0 == HOST then [] else [h]
  }

  /** The value of the last header of that name. */
  function LastValue(headers: seq<Header>, name: Bytes): Option<Bytes> {
    if headers == [] then None
    else if headers[|headers| - 1].0 == name then Some(headers[|headers| - 1].1)
    else LastValue(headers[..|headers| - 1], name)
  }

  function HostOf(headers: seq<Header>): Bytes {
    LastValue(headers, AUTHORITY).GetOr(LastValue(headers, HOST).GetOr([]))
  }

  /** `None` is the IndexError of a header without a name. */
  method FilterPseudoHeaders(headers: seq<Header>) returns (r: Option<seq<Header>>)
    ensures r.Some? <==> forall h <- headers :: h.0 != []
    ensures r.Some? ==> r.value == [(HOST, HostOf(headers))] + Ordinary(headers)
  {
    var filtered: seq<Header> := [(HOST, [])];
    var authority: Option<Bytes> := None;
    var host: Bytes := [];
    for i := 0 to |headers|
      invariant filtered == [(HOST, [])] + Ordinary(headers[..i])
      invariant authority == LastValue(headers[..i], AUTHORITY) && host == LastValue(headers[..i], HOST).GetOr([])
      invariant forall h <- headers[..i] :: h.0 != []
    {
      assert headers[..i + 1][..i] == headers[..i];
      var (name, value) := headers[i];
      if name == AUTHORITY {
        authority := Some(value);
      } else if name == HOST {
        host := value;
      } else if name == [] {
        assert headers[i] in headers;
        return None;
      } else if name[0] != COLON {
        filtered := filtered + [(name, value)];
      }
    }
    assert headers[..|headers|] == headers;
    r := Some(filtered[0 := (HOST, authority.GetOr(host))]);
  }

  lemma {:induction false} OrdinaryConcat(a: seq<Header>, b: seq<Header>)
    ensures Ordinary(a + b) == Ordinary(a) + Ordinary(b)
    decreases |b|
  {
    if b == [] {
      assert a + b == a;
    } else {
      assert (a + b)[..|a + b| - 1] == a + b[..|b| - 1];
      OrdinaryConcat(a, b[..|b| - 1]);
    }
  }

  lemma {:induction false} OrdinaryClean(headers: seq<Header>)
    ensures forall h <- Ordinary(headers) :: !IsPseudo(h) && h.0 != HOST
    ensures Ordinary(Ordinary(headers)) == Ordinary(headers)
    decreases |headers|
  {
    if headers != [] {
      OrdinaryClean(headers[..|headers| - 1]);
      var h := headers[|headers| - 1];
      if !IsPseudo(h) && h.0 != HOST {
        OrdinaryConcat(Ordinary(headers[..|headers| - 1]), [h]);
        assert [h][..0] == [];
      } else {
        var before := Ordinary(headers[..|headers| - 1]);
        assert before + [] == before;
      }
    }
  }

  lemma {:induction false} NoneNamed(headers: seq<Header>, name: Bytes)
    requires forall h <- headers :: h.0 != name
    ensures LastValue(headers, name) == None
  {
    if headers != [] {
      assert headers[|headers| - 1] in headers;
      NoneNamed(headers[..|headers| - 1], name);
    }
  }

  lemma {:induction false} LastOfFirst(h: Header, rest: seq<Header>)
    requires forall r <- rest :: r.0 != h.0
    ensures LastValue([h] + rest, h.0) == Some(h.1)
    decreases |rest|
  {
    if rest != [] {
      assert rest[|rest| - 1] in rest;
      assert ([h] + rest)[..|rest|] == [h] + rest[..|rest| - 1];
      LastOfFirst(h, rest[..|rest| - 1]);
    } else {
      assert [h] + rest == [h];
    }
  }

  /** The filtered list is a fixed point: no pseudo header, one host header, which decides. */
  lemma FilteredTwice(headers: seq<Header>)
    ensures var filtered := [(HOST, HostOf(headers))] + Ordinary(headers);
      && (forall h <- filtered :: !IsPseudo(h))
      && (forall i :: 0 <= i < |filtered| ==> (filtered[i].0 == HOST <==> i == 0))
      && HostOf(filtered) == HostOf(headers) && Ordinary(filtered) == Ordinary(headers)
  {
    var host := (HOST, HostOf(headers));
    var filtered := [host] + Ordinary(headers);
    OrdinaryClean(headers);
    assert forall h <- filtered :: !IsPseudo(h) && h.0 != AUTHORITY by {
      assert IsPseudo((AUTHORITY, []));
    }
    NoneNamed(filtered, AUTHORITY);
    LastOfFirst(host, Ordinary(headers));
    OrdinaryConcat([host], Ordinary(headers));
    assert [host][..0] == [];
  }

  // ---------------------------------------------------------------------------
  // Headers from the application

  /** White space of byte strings. */
  function IsSpaceByte(b: byte): bool { b == 32 || 9 <= b <= 13 }

  function StripBytes(s: Bytes): Bytes { Trim(s, IsSpaceByte) }

  /** The first byte that is not white space is kept by stripping. */
  lemma {:induction false} TrimRightFirst(s: Bytes)
    requires s != [] && !IsSpaceByte(s[0])
    ensures TrimRight(s, IsSpaceByte) != [] && TrimRight(s, IsSpaceByte)[0] == s[0]
    decreases |s|
  {
    if IsSpaceByte(s[|s| - 1]) {
      TrimRightFirst(s[..|s| - 1]);
    }
  }

  lemma {:induction false} TrimLeftFirst(s: Bytes)
    ensures var t := TrimLeft(s, IsSpaceByte); t == [] || (!IsSpaceByte(t[0]) && t[0] in s)
    decreases |s|
  {
    if s != [] && IsSpaceByte(s[0]) {
      TrimLeftFirst(s[1..]);
    }
  }

  /** `None` is the ValueError of a pseudo header or the IndexError of an empty name. */
  method BuildAndValidateHeaders(headers: seq<Header>) returns (r: Option<seq<Header>>)
    ensures r.Some? <==> forall h <- headers :: h.0 != [] && h.0[0] != 58
    ensures r.Some? ==> |r.value| == |headers|
    ensures r.Some? ==>
      forall i :: 0 <= i < |headers| ==> r.value[i] == (StripBytes(headers[i].0), StripBytes(headers[i].1))
  {
    var validated: seq<Header> := [];
    for i := 0 to |headers|
      invariant |validated| == i && forall h <- headers[..i] :: h.0 != [] && !IsPseudo(h)
      invariant forall j :: 0 <= j < i ==> validated[j] == (StripBytes(headers[j].0), StripBytes(headers[j].1))
    {
      var (name, value) := headers[i];
      assert headers[i] in headers;
      if name == [] || name[0] == COLON {
        return None;
      }
      validated := validated + [(StripBytes(name), StripBytes(value))];
    }
    assert headers[..|headers|] == headers;
    r := Some(validated);
  }

  /** The check comes before stripping: a validated name is a pseudo header if and only if
      white space stood before its colon. */
  lemma ValidatedPseudoIff(h: Header)
    requires h.0 != [] && !IsPseudo(h)
    ensures IsPseudo((StripBytes(h.0), StripBytes(h.1))) <==>
      IsSpaceByte(h.0[0]) && TrimLeft(h.0, IsSpaceByte) != [] && TrimLeft(h.0, IsSpaceByte)[0] == COLON
  {
    var t := TrimLeft(h.0, IsSpaceByte);
    TrimLeftFirst(h.0);
    if t != [] {
      TrimRightFirst(t);
    }
    assert !IsSpaceByte(h.0[0]) ==> t == h.0;
  }

  /** A value is stripped of blanks, tabs and line breaks at both ends, and of nothing else. */
  lemma StripBytesIs(s: Bytes) returns (i: nat, j: nat)
    ensures i <= j <= |s| && StripBytes(s) == s[i..j]
    ensures forall k :: 0 <= k < i || j <= k < |s| ==> s[k] in {9, 10, 11, 12, 13, 32}
    ensures i < j ==> s[i] !in {9, 10, 11, 12, 13, 32} && s[j - 1] !in {9, 10, 11, 12, 13, 32}
  {
    i, j := TrimIs(s, IsSpaceByte);
  }

  /** The host is the value of the last authority header, else of the last host header. */
  lemma HostDecides(before: seq<Header>, value: Bytes, after: seq<Header>)
    ensures (forall h <- after :: h.0 != AUTHORITY) ==> HostOf(before + [(AUTHORITY, value)] + after) == value
    ensures (forall h <- before + after :: h.0 != AUTHORITY) && (forall h <- after :: h.0 != HOST) ==>
      HostOf(before + [(HOST, value)] + after) == value
    ensures (forall h <- before :: h.0 != AUTHORITY && h.0 != HOST) ==> HostOf(before) == []
  {
    if forall h <- after :: h.0 != AUTHORITY {
      LastOf(before, (AUTHORITY, value), after);
    }
    if (forall h <- before + after :: h.0 != AUTHORITY) && (forall h <- after :: h.0 != HOST) {
      LastOf(before, (HOST, value), after);
      assert forall h <- before :: h in before + after;
      assert forall h <- after :: h in before + after;
      NoneNamed(before + [(HOST, value)] + after, AUTHORITY);
    }
    if forall h <- before :: h.0 != AUTHORITY && h.0 != HOST {
      NoneNamed(before, AUTHORITY);
      NoneNamed(before, HOST);
    }
  }

  lemma {:induction false} LastOf(before: seq<Header>, h: Header, after: seq<Header>)
    requires forall a <- after :: a.0 != h.0
    ensures LastValue(before + [h] + after, h.0) == Some(h.1)
    decreases |after|
  {
    var all := before + [h] + after;
    if after != [] {
      assert after[|after| - 1] in after;
      assert all[..|all| - 1] == before + [h] + after[..|after| - 1];
      LastOf(before, h, after[..|after| - 1]);
    } else {
      assert all == before + [h];
    }
  }

  /** Of the other headers all are kept, in order, but those whose name begins with a colon. */
  lemma OrdinaryIs(a: seq<Header>, h: Header, b: seq<Header>)
    ensures Ordinary(a + [h] + b) ==
      Ordinary(a) + (if (h.0 != [] && h.0[0] == 58) || h.0 == [104, 111, 115, 116] then [] else [h]) + Ordinary(b)
    ensures Ordinary([]) == []
  {
    OrdinaryConcat(a + [h], b);
    OrdinaryConcat(a, [h]);
    assert [h][..0] == [];
  }
}
