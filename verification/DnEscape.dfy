/** `escape_dn_chars`: eleven global replacements, one after the other, then two fixes at
    the ends. It is shown equal to a single pass over the characters, and undone by a
    decoder for the string form of attribute values (section 3 of RFC 4514). */
module DnEscape {
  import opened Bytes

  /** `str.replace` with a one-character pattern. */
  function ReplaceAll(s: string, c: char, w: string): string {
    if s == "" then "" else (if s[0] == c then w else [s[0]]) + ReplaceAll(s[1..], c, w)
  }

  type Pass = (char, string)

  const PASSES: seq<Pass> := [
    ('\\', "\\\\"), (',', "\\,"), ('+', "\\+"), ('"', "\\\""), ('<', "\\<"), ('>', "\\>"),
    (';', "\\;"), ('=', "\\="), ('\0', "\\\0"), ('\n', "\\0a"), ('\r', "\\0d")]

  function Apply(s: string, passes: seq<Pass>): string
    decreases |passes|
  {
    if passes == [] then s else Apply(ReplaceAll(s, passes[0].0, passes[0].1), passes[1..])
  }

  function FixTrailing(s: string): string
    requires s != ""
  {
    if s[|s| - 1] == ' ' then s[..|s| - 1] + "\\ " else s
  }

  function FixLeading(s: string): string
    requires s != ""
  {
    if s[0] == '#' || s[0] == ' ' then "\\" + s else s
  }

  function Escape(s: string): string {
    if s == "" then ""
    else
      var replaced := Apply(s, PASSES);
      assert replaced != "" by { ReplacementsAreCodes(s); }
      FixLeading(FixTrailing(replaced))
  }

  // ---------------------------------------------------------------------------
  // A single pass

  /** How a character is written, wherever it stands. */
  function Code(c: char): string {
    if c == '\n' then "\\0a"
    else if c == '\r' then "\\0d"
    else if c in "\\,+\"<>;=\0" then ['\\', c]
    else [c]
  }

  function Codes(s: string): string {
    if s == "" then "" else Code(s[0]) + Codes(s[1..])
  }

  /** How the character at an end of the value is written. */
  function CodeAt(c: char, first: bool, last: bool): string {
    if (c == ' ' && (first || last)) || (c == '#' && first) then ['\\', c] else Code(c)
  }

  /** Every character once, left to right. */
  function SinglePass(s: string, first: bool): string {
    if s == "" then ""
    else CodeAt(s[0], first, |s| == 1) + SinglePass(s[1..], false)
  }

  // ---------------------------------------------------------------------------
  // The replacements are a homomorphism

  lemma {:induction false} ReplaceAllConcat(a: string, b: string, c: char, w: string)
    ensures ReplaceAll(a + b, c, w) == ReplaceAll(a, c, w) + ReplaceAll(b, c, w)
  {
    if a == "" {
      assert a + b == b;
    } else {
      assert (a + b)[1..] == a[1..] + b;
      ReplaceAllConcat(a[1..], b, c, w);
    }
  }

  lemma {:induction false} ApplyConcat(a: string, b: string, passes: seq<Pass>)
    ensures Apply(a + b, passes) == Apply(a, passes) + Apply(b, passes)
    decreases |passes|
  {
    if passes != [] {
      var (c, w) := passes[0];
      ReplaceAllConcat(a, b, c, w);
      ApplyConcat(ReplaceAll(a, c, w), ReplaceAll(b, c, w), passes[1..]);
    }
  }

  lemma {:induction false} ApplyEmpty(passes: seq<Pass>)
    ensures Apply("", passes) == ""
    decreases |passes|
  {
    if passes != [] {
      ApplyEmpty(passes[1..]);
    }
  }

  /** A string without any of the patterns is left alone. */
  lemma {:induction false} ApplyUntouched(s: string, passes: seq<Pass>)
    requires forall p <- passes :: p.0 !in s
    ensures Apply(s, passes) == s
    decreases |passes|
  {
    if passes != [] {
      assert passes[0].0 !in s;
      ReplaceNothing(s, passes[0].0, passes[0].1);
      ApplyUntouched(s, passes[1..]);
    }
  }

  lemma {:induction false} ReplaceNothing(s: string, c: char, w: string)
    requires c !in s
    ensures ReplaceAll(s, c, w) == s
  {
    if s != "" {
      ReplaceNothing(s[1..], c, w);
    }
  }

  /** No pass touches what an earlier pass has written, and patterns are distinct. */
  ghost predicate Independent(passes: seq<Pass>) {
    forall i, j :: 0 <= i < j < |passes| ==> passes[j].0 !in passes[i].1 && passes[j].0 != passes[i].0
  }

  /** On one character, independent passes act as the one that names it. */
  lemma {:induction false} ApplyChar(c: char, passes: seq<Pass>)
    requires Independent(passes)
    ensures (forall p <- passes :: p.0 != c) ==> Apply([c], passes) == [c]
    ensures forall p <- passes :: p.0 == c ==> Apply([c], passes) == p.1
    decreases |passes|
  {
    if passes != [] {
      var head, rest := passes[0], passes[1..];
      assert passes == [head] + rest;
      assert [c][1..] == "";
      if head.0 == c {
        assert ReplaceAll([c], c, head.1) == head.1;
        ApplyUntouched(head.1, rest);
      } else {
        assert ReplaceAll([c], head.0, head.1) == [c];
        ApplyChar(c, rest);
      }
    }
  }

  lemma PassesIndependent()
    ensures Independent(PASSES)
  {
  }

  const SPECIAL := "\\,+\"<>;=\0\n\r"

  /** Each pass writes the code of its character, in the order of `SPECIAL`. */
  lemma PassesAreCodes()
    ensures |PASSES| == |SPECIAL|
    ensures forall i :: 0 <= i < |PASSES| ==> PASSES[i].0 == SPECIAL[i] && PASSES[i].1 == Code(SPECIAL[i])
    ensures forall c :: c !in SPECIAL ==> Code(c) == [c]
  {
  }

  lemma CharCode(c: char)
    ensures Apply([c], PASSES) == Code(c)
  {
    PassesIndependent();
    PassesAreCodes();
    var passes, special := PASSES, SPECIAL;
    ApplyChar(c, PASSES);
    hide Apply, PASSES, SPECIAL, Code;
    if c in SPECIAL {
      var i :| 0 <= i < |SPECIAL| && SPECIAL[i] == c;
      assert PASSES[i] in PASSES;
    }
  }

  /** The eleven replacements together code each character by itself. */
  lemma {:induction false} ReplacementsAreCodes(s: string)
    ensures Apply(s, PASSES) == Codes(s)
    ensures s != "" ==> Codes(s) != ""
  {
    hide Apply;
    if s == "" {
      ApplyEmpty(PASSES);
    } else {
      assert s == [s[0]] + s[1..];
      ApplyConcat([s[0]], s[1..], PASSES);
      CharCode(s[0]);
      ReplacementsAreCodes(s[1..]);
    }
  }

  // ---------------------------------------------------------------------------
  // The ends

  lemma {:induction false} CodesConcat(a: string, b: string)
    ensures Codes(a + b) == Codes(a) + Codes(b)
  {
    if a == "" {
      assert a + b == b;
    } else {
      assert (a + b)[1..] == a[1..] + b;
      CodesConcat(a[1..], b);
    }
  }

  lemma CodesOne(c: char)
    ensures Codes([c]) == Code(c)
  {
    assert [c][1..] == "";
  }

  lemma {:induction false} InnerPass(s: string)
    requires s != ""
    ensures SinglePass(s, false) == FixTrailing(Codes(s)) && Codes(s) != ""
  {
    if |s| == 1 {
      CodesOne(s[0]);
      assert s == [s[0]] && s[1..] == "";
    } else {
      InnerPass(s[1..]);
      var t := Codes(s[1..]);
      assert Codes(s) == Code(s[0]) + t;
      assert (Code(s[0]) + t)[..|Code(s[0]) + t| - 1] == Code(s[0]) + t[..|t| - 1];
    }
  }

  lemma FixBothEnds(c: char, tail: string)
    requires tail != ""
    ensures FixLeading(FixTrailing(Code(c) + tail)) == CodeAt(c, true, false) + FixTrailing(tail)
  {
    var t := Code(c) + tail;
    assert t[..|t| - 1] == Code(c) + tail[..|tail| - 1];
    assert FixTrailing(t) == Code(c) + FixTrailing(tail);
  }

  lemma EscapeOne(c: char)
    ensures FixLeading(FixTrailing(Code(c))) == CodeAt(c, true, true)
  {
  }

  /** The sequence of replacements and fixes is one pass over the characters. */
  lemma EscapeIsSinglePass(s: string)
    ensures Escape(s) == SinglePass(s, true)
  {
    if s != "" {
      ReplacementsAreCodes(s);
      hide Apply, Code, CodeAt, FixLeading;
      if |s| == 1 {
        EscapeOne(s[0]);
        CodesOne(s[0]);
        assert s == [s[0]] && s[1..] == "";
      } else {
        InnerPass(s[1..]);
        FixBothEnds(s[0], Codes(s[1..]));
      }
    }
  }

  // ---------------------------------------------------------------------------
  // Decoding

  function HexDigit(c: char): Option<int> {
    if '0' <= c <= '9' then Some(c as int - '0' as int)
    else if 'a' <= c <= 'f' then Some(c as int - 'a' as int + 10)
    else if 'A' <= c <= 'F' then Some(c as int - 'A' as int + 10)
    else None
  }

  /** Characters that may follow a backslash for themselves. */
  predicate Escapable(c: char, rawNul: bool) {
    c in "\\,+\"<>;= #" || (rawNul && c == '\0')
  }

  /** Characters that must not stand unescaped, here or anywhere. */
  predicate MustEscape(c: char, first: bool, last: bool) {
    c in "\\,+\"<>;\0" || (c == ' ' && (first || last)) || (c == '#' && first)
  }

  /** Decodes the string form of an attribute value, or fails when it is not well formed.
      RFC 4514 has no backslash followed by a raw NUL; `rawNul` accepts that too. */
  function Decode(t: string, first: bool, rawNul: bool): Option<string>
    decreases |t|
  {
    if t == "" then Some("")
    else if t[0] == '\\' then
      if |t| >= 3 && HexDigit(t[1]).Some? && HexDigit(t[2]).Some? then
        Prepend((16 * HexDigit(t[1]).value + HexDigit(t[2]).value) as char, Decode(t[3..], false, rawNul))
      else if |t| >= 2 && Escapable(t[1], rawNul) then Prepend(t[1], Decode(t[2..], false, rawNul))
      else None
    else if MustEscape(t[0], first, |t| == 1) then None
    else Prepend(t[0], Decode(t[1..], false, rawNul))
  }

  function Prepend(c: char, rest: Option<string>): Option<string> {
    match rest case Some(s) => Some([c] + s) case None => None
  }

  /** One written character is read back. */
  lemma DecodeChar(c: char, first: bool, last: bool, rest: string, rawNul: bool)
    requires last ==> rest == ""
    requires rest == "" ==> last
    ensures Decode(CodeAt(c, first, last) + rest, first, rawNul) ==
      if c == '\0' && !rawNul then None else Prepend(c, Decode(rest, false, rawNul))
  {
    var w := CodeAt(c, first, last);
    var t := w + rest;
    assert t[|w|..] == rest;
    if c == '\n' || c == '\r' {
      assert t[0] == '\\' && t[1] == '0' && t[2] == (if c == '\n' then 'a' else 'd');
    } else if |w| == 2 {
      assert t[0] == '\\' && t[1] == c;
      assert HexDigit(c) == None;
    } else {
      assert t[0] == c;
    }
  }

  /** Round trip: every value is recovered from its escaped form. */
  lemma {:induction false} DecodeSinglePass(s: string, first: bool, rawNul: bool)
    ensures Decode(SinglePass(s, first), first, rawNul) == if '\0' in s && !rawNul then None else Some(s)
  {
    if s != "" {
      var rest := SinglePass(s[1..], false);
      DecodeSinglePass(s[1..], false, rawNul);
      assert |s| > 1 ==> rest != "" by {
        if |s| > 1 { assert |CodeAt(s[1], false, |s| == 2)| > 0; }
      }
      DecodeChar(s[0], first, |s| == 1, rest, rawNul);
      assert s == [s[0]] + s[1..];
    }
  }

  lemma EscapeRoundTrip(s: string)
    ensures Decode(Escape(s), true, true) == Some(s)
  {
    EscapeIsSinglePass(s);
    DecodeSinglePass(s, true, true);
  }

  /** The output is well formed by RFC 4514 exactly when the value has no NUL character. */
  lemma WellFormedIffNoNul(s: string)
    ensures Decode(Escape(s), true, false) == (if '\0' in s then None else Some(s))
  {
    EscapeIsSinglePass(s);
    DecodeSinglePass(s, true, false);
  }
}
