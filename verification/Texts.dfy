/** Text as the header-handling code sees it: Latin-1 and UTF-8 coding, joining and splitting
    at a separator. */
module Texts {
  import opened Bytes

  /** A byte is the code point of its Latin-1 character. */
  function Latin1(data: Bytes): (s: string)
    ensures |s| == |data| && forall i :: 0 <= i < |s| ==> s[i] == data[i] as char
  {
    seq(|data|, i requires 0 <= i < |data| => data[i] as char)
  }

  function LowByte(c: char): byte { (c as int % 256) as byte }

  function Latin1Bytes(s: string): Option<Bytes> {
    if forall c <- s :: c as int < 256 then Some(seq(|s|, i requires 0 <= i < |s| => LowByte(s[i]))) else None
  }

  lemma Latin1RoundTrip(data: Bytes)
    ensures Latin1Bytes(Latin1(data)) == Some(data)
  {
    var s := Latin1(data);
    assert forall c <- s :: c as int < 256;
    assert Latin1Bytes(s).value == data;
  }

  lemma Latin1Concat(a: Bytes, b: Bytes)
    ensures Latin1(a + b) == Latin1(a) + Latin1(b)
  {
  }

  // ---------------------------------------------------------------------------
  // UTF-8

  function EncodeChar(c: char): Bytes {
    var n := c as int;
    if n < 0x80 then [n as byte]
    else if n < 0x800 then [(0xC0 + n / 64) as byte, (0x80 + n % 64) as byte]
    else if n < 0x1_0000 then [(0xE0 + n / 4096) as byte, (0x80 + n / 64 % 64) as byte, (0x80 + n % 64) as byte]
    else
      [(0xF0 + n / 262144) as byte, (0x80 + n / 4096 % 64) as byte,
       (0x80 + n / 64 % 64) as byte, (0x80 + n % 64) as byte]
  }

  function Utf8(s: string): Bytes {
    if s == [] then [] else EncodeChar(s[0]) + Utf8(s[1..])
  }

  lemma {:induction false} Utf8Concat(a: string, b: string)
    ensures Utf8(a + b) == Utf8(a) + Utf8(b)
  {
    if a == [] {
      assert a + b == b;
    } else {
      assert (a + b)[1..] == a[1..] + b;
      Utf8Concat(a[1..], b);
    }
  }

  function Low(b: byte): int { b as int % 64 }

  function IsScalar(n: int): bool { 0 <= n < 0xD800 || 0xE000 <= n < 0x11_0000 }

  /** The length and the code point of the first character, from its lead byte. */
  function DecodeFirst(data: Bytes): Option<(nat, int)> {
    if data == [] then None
    else
      var b := data[0] as int;
      if b < 0x80 then Some((1, b))
      else if 0xC0 <= b < 0xE0 && |data| >= 2 then Some((2, (b - 0xC0) * 64 + Low(data[1])))
      else if 0xE0 <= b < 0xF0 && |data| >= 3 then Some((3, (b - 0xE0) * 4096 + Low(data[1]) * 64 + Low(data[2])))
      else if 0xF0 <= b && |data| >= 4 then
        Some((4, (b - 0xF0) * 262144 + Low(data[1]) * 4096 + Low(data[2]) * 64 + Low(data[3])))
      else None
  }

  /** Strict: each character must stand in its one encoded form. */
  function DecodeUtf8(data: Bytes): Option<string>
    decreases |data|
  {
    if data == [] then Some("")
    else
      match DecodeFirst(data)
      case None => None
      case Some((k, n)) =>
        if !IsScalar(n) || data[..k] != EncodeChar(n as char) then None
        else
          match DecodeUtf8(data[k..])
          case None => None
          case Some(rest) => Some([n as char] + rest)
  }

  lemma DecodeEncoded(c: char, rest: Bytes)
    ensures DecodeFirst(EncodeChar(c) + rest) == Some((|EncodeChar(c)|, c as int))
  {
    var n := c as int;
    assert n == n / 64 * 64 + n % 64;
    assert n / 64 == n / 4096 * 64 + n / 64 % 64;
    assert n / 4096 == n / 262144 * 64 + n / 4096 % 64;
    var e := EncodeChar(c);
    var data := e + rest;
    assert forall i :: 0 <= i < |e| ==> data[i] == e[i];
  }

  lemma {:induction false} Utf8RoundTrip(s: string)
    ensures DecodeUtf8(Utf8(s)) == Some(s)
  {
    if s != [] {
      DecodeEncoded(s[0], Utf8(s[1..]));
      Utf8RoundTrip(s[1..]);
      var e := EncodeChar(s[0]);
      assert (e + Utf8(s[1..]))[|e|..] == Utf8(s[1..]) && (e + Utf8(s[1..]))[..|e|] == e;
      assert [s[0]] + s[1..] == s;
    }
  }

  lemma FirstFits(data: Bytes)
    ensures DecodeFirst(data).Some? ==> 0 < DecodeFirst(data).value.0 <= |data|
  {
  }

  lemma DecodeStep(data: Bytes)
    requires data != [] && DecodeUtf8(data).Some?
    ensures DecodeFirst(data).Some?
    ensures var (k, n) := DecodeFirst(data).value;
      && 0 < k <= |data| && IsScalar(n) && data[..k] == EncodeChar(n as char) && DecodeUtf8(data[k..]).Some?
      && DecodeUtf8(data).value == [n as char] + DecodeUtf8(data[k..]).value
  {
    FirstFits(data);
    hide DecodeFirst, EncodeChar;
  }

  /** Decoding succeeds on encoded texts only. */
  lemma {:induction false} DecodesOnlyEncoded(data: Bytes)
    ensures DecodeUtf8(data).Some? ==> Utf8(DecodeUtf8(data).value) == data
    decreases |data|
  {
    hide EncodeChar, DecodeFirst;
    if data == [] {
      assert DecodeUtf8(data) == Some("");
    } else if DecodeUtf8(data).Some? {
      DecodeStep(data);
      hide DecodeUtf8;
      var (k, n) := DecodeFirst(data).value;
      DecodesOnlyEncoded(data[k..]);
      Utf8Cons(n as char, DecodeUtf8(data[k..]).value);
      hide Utf8;
      assert data == data[..k] + data[k..];
    }
  }

  lemma Utf8Cons(c: char, s: string)
    ensures Utf8([c] + s) == EncodeChar(c) + Utf8(s)
  {
    assert ([c] + s)[1..] == s;
  }

  /** UTF-8 bytes carried in Latin-1 characters, as WSGI wants its paths. */
  function Recode(s: string): string { Latin1(Utf8(s)) }

  function Unrecode(s: string): Option<string> {
    match Latin1Bytes(s)
    case None => None
    case Some(data) => DecodeUtf8(data)
  }

  /** Recoded parts, joined, decode to the joined text. */
  lemma RecodeParts(a: string, b: string)
    ensures Unrecode(Recode(a) + Recode(b)) == Some(a + b)
  {
    Utf8Concat(a, b);
    Latin1Concat(Utf8(a), Utf8(b));
    Latin1RoundTrip(Utf8(a + b));
    Utf8RoundTrip(a + b);
  }

  // ---------------------------------------------------------------------------
  // Joining and splitting

  function Join<T>(separator: seq<T>, parts: seq<seq<T>>): seq<T> {
    if parts == [] then []
    else if |parts| == 1 then parts[0]
    else parts[0] + separator + Join(separator, parts[1..])
  }

  lemma {:induction false} JoinSnoc<T>(separator: seq<T>, parts: seq<seq<T>>, last: seq<T>)
    requires parts != []
    ensures Join(separator, parts + [last]) == Join(separator, parts) + separator + last
  {
    assert (parts + [last])[1..] == parts[1..] + [last];
    if |parts| > 1 {
      JoinSnoc(separator, parts[1..], last);
    } else {
      assert parts[1..] + [last] == [last];
    }
  }

  function Split<T(==)>(s: seq<T>, separator: T): (parts: seq<seq<T>>)
    ensures parts != []
  {
    if s == [] then [[]]
    else
      var rest := Split(s[1..], separator);
      if s[0] == separator then [[]] + rest else [[s[0]] + rest[0]] + rest[1..]
  }

  /** The parts are separator-free and join to the whole: there is only one such list. */
  lemma {:induction false} SplitJoin<T>(s: seq<T>, separator: T)
    ensures Join([separator], Split(s, separator)) == s
    ensures forall part <- Split(s, separator) :: separator !in part
  {
    if s != [] {
      SplitJoin(s[1..], separator);
      var rest, all := Split(s[1..], separator), Split(s, separator);
      if s[0] == separator {
        assert all[1..] == rest;
      } else {
        assert all[1..] == rest[1..];
        assert rest == [rest[0]] + rest[1..];
      }
    }
  }

  lemma {:induction false} SplitConcat<T>(a: seq<T>, separator: T, b: seq<T>)
    ensures Split(a + [separator] + b, separator) == Split(a, separator) + Split(b, separator)
  {
    var whole := a + [separator] + b;
    if a == [] {
      assert whole[1..] == b;
    } else {
      assert whole[1..] == a[1..] + [separator] + b;
      SplitConcat(a[1..], separator, b);
    }
  }

  function StartsWith<T(==)>(s: seq<T>, prefix: seq<T>): bool {
    |prefix| <= |s| && s[..|prefix|] == prefix
  }

  /** Without what `space` accepts at either end. */
  function TrimLeft<T>(s: seq<T>, space: T -> bool): seq<T> {
    if s != [] && space(s[0]) then TrimLeft(s[1..], space) else s
  }

  function TrimRight<T>(s: seq<T>, space: T -> bool): seq<T> {
    if s != [] && space(s[|s| - 1]) then TrimRight(s[..|s| - 1], space) else s
  }

  function Trim<T>(s: seq<T>, space: T -> bool): seq<T> { TrimRight(TrimLeft(s, space), space) }

  /** White space of text, within Latin-1. */
  function IsSpace(c: char): bool {
    var n := c as int;
    9 <= n <= 13 || 28 <= n <= 32 || n == 0x85 || n == 0xA0
  }

  function Strip(s: string): string { Trim(s, IsSpace) }

  /** What is left has no space at its ends, and only spaces were taken away: that determines it. */
  lemma TrimIs<T>(s: seq<T>, space: T -> bool) returns (i: nat, j: nat)
    ensures i <= j <= |s| && Trim(s, space) == s[i..j]
    ensures forall k :: 0 <= k < i || j <= k < |s| ==> space(s[k])
    ensures i < j ==> !space(s[i]) && !space(s[j - 1])
  {
    i := LeftIs(s, space);
    var n := RightIs(s[i..], space);
    j := i + n;
    assert s[i..][..n] == s[i..j];
    forall k | j <= k < |s|
      ensures space(s[k])
    {
      assert s[k] == s[i..][k - i];
    }
  }

  lemma {:induction false} LeftIs<T>(s: seq<T>, space: T -> bool) returns (i: nat)
    ensures i <= |s| && TrimLeft(s, space) == s[i..]
    ensures (forall k :: 0 <= k < i ==> space(s[k])) && (i < |s| ==> !space(s[i]))
  {
    i := 0;
    if s != [] && space(s[0]) {
      var rest := LeftIs(s[1..], space);
      i := rest + 1;
      assert forall k :: 1 <= k < i ==> s[k] == s[1..][k - 1];
    }
  }

  lemma {:induction false} RightIs<T>(s: seq<T>, space: T -> bool) returns (n: nat)
    ensures n <= |s| && TrimRight(s, space) == s[..n]
    ensures (forall k :: n <= k < |s| ==> space(s[k])) && (n > 0 ==> !space(s[n - 1]))
  {
    n := |s|;
    if s != [] && space(s[n - 1]) {
      n := RightIs(s[..n - 1], space);
    }
  }

  /** Stripping text takes the white space of Latin-1 from both ends, and nothing else. */
  lemma StripIs(s: string) returns (i: nat, j: nat)
    ensures i <= j <= |s| && Strip(s) == s[i..j]
    ensures forall k :: 0 <= k < i || j <= k < |s| ==>
      s[k] as int in {9, 10, 11, 12, 13, 28, 29, 30, 31, 32, 133, 160}
    ensures i < j ==>
      && s[i] as int !in {9, 10, 11, 12, 13, 28, 29, 30, 31, 32, 133, 160}
      && s[j - 1] as int !in {9, 10, 11, 12, 13, 28, 29, 30, 31, 32, 133, 160}
  {
    i, j := TrimIs(s, IsSpace);
  }
}
