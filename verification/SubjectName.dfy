/** The subject name of a client certificate, as `get_tls_info` writes it: attributes joined
    by `+` inside a relative name, relative names joined by `, `. It can be parsed back. */
module SubjectNames {
  import opened Bytes
  import opened DnEscape
  import opened Texts

  type Entry = (string, string)
  type Rdn = seq<Entry>

  const RDNS_MAPPING: map<string, string> := map[
    "domainComponent" := "DC", "commonName" := "CN", "organizationalUnitName" := "OU",
    "organizationName" := "O", "streetAddress" := "STREET", "localityName" := "L",
    "stateOrProvinceName" := "ST", "countryName" := "C", "userId" := "UID"]

  /** The known attributes of a relative name, last first, under their short keys. */
  function Pairs(rdn: Rdn): seq<Entry> {
    if rdn == [] then []
    else Pairs(rdn[1..]) + if rdn[0].0 in RDNS_MAPPING then [(RDNS_MAPPING[rdn[0].0], rdn[0].1)] else []
  }

  function Render(pair: Entry): string { pair.0 + "=" + Escape(pair.1) }

  function Renders(pairs: seq<Entry>): (parts: seq<string>)
    ensures |parts| == |pairs|
  {
    if pairs == [] then [] else [Render(pairs[0])] + Renders(pairs[1..])
  }

  function RdnString(rdn: Rdn): string { Join("+", Renders(Pairs(rdn))) }

  function RdnStrings(subject: seq<Rdn>): (parts: seq<string>)
    ensures |parts| == |subject|
  {
    if subject == [] then [] else [RdnString(subject[0])] + RdnStrings(subject[1..])
  }

  function SubjectName(subject: seq<Rdn>): string { Join(", ", RdnStrings(subject)) }

  lemma {:induction false} RdnStringsSnoc(subject: seq<Rdn>, rdn: Rdn)
    ensures RdnStrings(subject + [rdn]) == RdnStrings(subject) + [RdnString(rdn)]
  {
    if subject == [] {
      assert subject + [rdn] == [rdn];
    } else {
      assert (subject + [rdn])[1..] == subject[1..] + [rdn];
      RdnStringsSnoc(subject[1..], rdn);
    }
  }

  lemma {:induction false} RendersSnoc(pairs: seq<Entry>, pair: Entry)
    ensures Renders(pairs + [pair]) == Renders(pairs) + [Render(pair)]
  {
    if pairs == [] {
      assert pairs + [pair] == [pair];
    } else {
      assert (pairs + [pair])[1..] == pairs[1..] + [pair];
      RendersSnoc(pairs[1..], pair);
    }
  }

  /** One relative name: the known attributes in reverse. */
  method RdnText(rdn: Rdn) returns (text: string)
    ensures text == RdnString(rdn)
  {
    hide Escape, RDNS_MAPPING;
    var parts: seq<string> := [];
    for j := |rdn| downto 0
      invariant parts == Renders(Pairs(rdn[j..]))
    {
      var (name, value) := rdn[j];
      var done := Pairs(rdn[j + 1..]);
      assert rdn[j..][1..] == rdn[j + 1..] && rdn[j..][0] == rdn[j];
      assert done + [] == done;
      if name in RDNS_MAPPING {
        RendersSnoc(done, (RDNS_MAPPING[name], value));
        parts := parts + [RDNS_MAPPING[name] + "=" + Escape(value)];
      }
    }
    assert rdn[0..] == rdn;
    text := Join("+", parts);
  }

  /** The loop over the subject's relative names. */
  method ClientCertName(subject: seq<Rdn>) returns (name: string)
    ensures name == SubjectName(subject)
  {
    hide RdnString;
    var rdnStrings: seq<string> := [];
    for i := 0 to |subject|
      invariant rdnStrings == RdnStrings(subject[..i])
    {
      var text := RdnText(subject[i]);
      RdnStringsSnoc(subject[..i], subject[i]);
      assert subject[..i + 1] == subject[..i] + [subject[i]];
      rdnStrings := rdnStrings + [text];
    }
    assert subject[..|subject|] == subject;
    name := if rdnStrings != [] then Join(", ", rdnStrings) else "";
  }

  // ---------------------------------------------------------------------------
  // Parsing

  /** Cuts at the first separator that is not escaped. */
  function Cut(t: string, separator: char): (string, Option<string>)
    decreases |t|
  {
    if t == "" then ("", None)
    else if t[0] == separator then ("", Some(t[1..]))
    else
      var n := if t[0] == '\\' && |t| >= 2 then 2 else 1;
      var (piece, rest) := Cut(t[n..], separator);
      (t[..n] + piece, rest)
  }

  lemma {:induction false} CutShortens(t: string, separator: char)
    ensures var (piece, rest) := Cut(t, separator);
      |piece| <= |t| && (rest.Some? ==> |rest.value| < |t|)
    decreases |t|
  {
    if t != "" && t[0] != separator {
      CutShortens(t[if t[0] == '\\' && |t| >= 2 then 2 else 1..], separator);
    }
  }

  function ParsePair(t: string): Option<Entry> {
    var (key, value) := Cut(t, '=');
    if value == None then None
    else
      match Decode(value.value, true, true)
      case Some(v) => Some((key, v))
      case None => None
  }

  function ParsePairs(t: string): Option<seq<Entry>>
    decreases |t|
  {
    CutShortens(t, '+');
    var (piece, rest) := Cut(t, '+');
    match ParsePair(piece)
    case None => None
    case Some(pair) =>
      if rest == None then Some([pair])
      else match ParsePairs(rest.value) case Some(more) => Some([pair] + more) case None => None
  }

  function ParseRdn(t: string): Option<seq<Entry>> {
    if t == "" then Some([]) else ParsePairs(t)
  }

  function ParseName(t: string): Option<seq<seq<Entry>>>
    decreases |t|
  {
    CutShortens(t, ',');
    var (piece, rest) := Cut(t, ',');
    match ParseRdn(piece)
    case None => None
    case Some(rdn) =>
      if rest == None then Some([rdn])
      else if rest.value == "" || rest.value[0] != ' ' then None
      else match ParseName(rest.value[1..]) case Some(more) => Some([rdn] + more) case None => None
  }

  // ---------------------------------------------------------------------------
  // Escaped text has no bare separators

  /** No bare `separator`, and the last escape is complete. */
  predicate Guarded(t: string, separator: char)
    decreases |t|
  {
    t == "" ||
    if t[0] == '\\' then |t| >= 2 && separator != '\\' && Guarded(t[2..], separator)
    else t[0] != separator && Guarded(t[1..], separator)
  }

  lemma {:induction false} GuardedConcat(a: string, b: string, separator: char)
    requires Guarded(a, separator) && Guarded(b, separator)
    ensures Guarded(a + b, separator)
    decreases |a|
  {
    if a == "" {
      assert a + b == b;
    } else {
      var n := if a[0] == '\\' then 2 else 1;
      assert (a + b)[n..] == a[n..] + b;
      GuardedConcat(a[n..], b, separator);
    }
  }

  lemma {:induction false} CutGuarded(a: string, separator: char, b: string)
    requires Guarded(a, separator)
    ensures Cut(a, separator) == (a, None)
    ensures Cut(a + [separator] + b, separator) == (a, Some(b))
    decreases |a|
  {
    if a == "" {
      assert a + [separator] + b == [separator] + b;
    } else {
      var n := if a[0] == '\\' then 2 else 1;
      var t := a + [separator] + b;
      assert t[n..] == a[n..] + [separator] + b;
      assert t[..n] == a[..n] && a[..n] + a[n..] == a;
      CutGuarded(a[n..], separator, b);
    }
  }

  /** Characters that escaping never leaves bare. */
  const NEVER_BARE := ",+\"<>;=\0"

  lemma {:induction false} SinglePassGuarded(s: string, first: bool, separator: char)
    requires separator in NEVER_BARE
    ensures Guarded(SinglePass(s, first), separator)
  {
    if s != "" {
      var w := CodeAt(s[0], first, |s| == 1);
      SinglePassGuarded(s[1..], false, separator);
      assert Guarded(w, separator) by {
        if |w| == 3 {
          assert w[2..] in ["a", "d"];
        } else if |w| == 2 {
          assert w[2..] == "";
        }
      }
      GuardedConcat(w, SinglePass(s[1..], false), separator);
    }
  }

  /** In an escaped value no special character is ever bare. */
  lemma EscapeGuarded(s: string, separator: char)
    requires separator in NEVER_BARE
    ensures Guarded(Escape(s), separator)
  {
    EscapeIsSinglePass(s);
    SinglePassGuarded(s, true, separator);
  }

  // ---------------------------------------------------------------------------
  // Keys

  predicate IsKey(k: string) {
    k != "" && forall c <- k :: 'A' <= c <= 'Z'
  }

  lemma KnownKeys()
    ensures forall n <- RDNS_MAPPING :: IsKey(RDNS_MAPPING[n])
  {
  }

  lemma {:induction false} KeyGuarded(k: string, separator: char)
    requires (forall c <- k :: 'A' <= c <= 'Z') && separator in NEVER_BARE
    ensures Guarded(k, separator)
  {
    if k != "" {
      assert k[0] in k && forall c <- k[1..] :: c in k;
      KeyGuarded(k[1..], separator);
    }
  }

  ghost predicate GoodPairs(pairs: seq<Entry>) {
    forall p <- pairs :: IsKey(p.0)
  }

  lemma {:induction false} PairsGood(rdn: Rdn)
    ensures GoodPairs(Pairs(rdn))
  {
    if rdn != [] {
      PairsGood(rdn[1..]);
      KnownKeys();
    }
  }

  // ---------------------------------------------------------------------------
  // Round trip

  lemma ParseRendered(pair: Entry)
    requires IsKey(pair.0)
    ensures ParsePair(Render(pair)) == Some(pair)
    ensures Guarded(Render(pair), ',') && Guarded(Render(pair), '+') && Render(pair) != ""
  {
    var (key, value) := pair;
    KeyGuarded(key, '=');
    CutGuarded(key, '=', Escape(value));
    assert Render(pair) == key + ['='] + Escape(value);
    EscapeRoundTrip(value);
    forall c | c == ',' || c == '+' ensures Guarded(Render(pair), c) {
      KeyGuarded(key, c);
      EscapeGuarded(value, c);
      assert Guarded("=", c) by { assert "="[1..] == ""; }
      GuardedConcat(key, "=", c);
      GuardedConcat(key + "=", Escape(value), c);
    }
  }

  lemma {:induction false} ParseJoinedPairs(pairs: seq<Entry>)
    requires pairs != [] && GoodPairs(pairs)
    ensures var t := Join("+", Renders(pairs)); ParsePairs(t) == Some(pairs) && Guarded(t, ',') && t != ""
  {
    hide Render, Escape, ParsePair;
    var head, tail := pairs[0], pairs[1..];
    assert head in pairs;
    ParseRendered(head);
    if tail == [] {
      CutGuarded(Render(head), '+', "");
      assert pairs == [head] && Renders(pairs) == [Render(head)];
    } else {
      assert forall p <- tail :: p in pairs;
      ParseJoinedPairs(tail);
      var rest := Join("+", Renders(tail));
      CutGuarded(Render(head), '+', rest);
      assert Renders(pairs)[1..] == Renders(tail);
      assert Guarded("+", ',') by { assert "+"[1..] == ""; }
      GuardedConcat(Render(head), "+", ',');
      GuardedConcat(Render(head) + "+", rest, ',');
      assert pairs == [head] + tail;
    }
  }

  lemma ParseRdnString(rdn: Rdn)
    ensures ParseRdn(RdnString(rdn)) == Some(Pairs(rdn)) && Guarded(RdnString(rdn), ',')
  {
    PairsGood(rdn);
    if Pairs(rdn) != [] {
      ParseJoinedPairs(Pairs(rdn));
    }
  }

  function AllPairs(subject: seq<Rdn>): seq<seq<Entry>> {
    if subject == [] then [] else [Pairs(subject[0])] + AllPairs(subject[1..])
  }

  /** Unambiguous: splitting the name at unescaped separators gives back, for every
      non-empty subject, its relative names with their known attributes. */
  lemma {:induction false} ParseSubjectName(subject: seq<Rdn>)
    requires subject != []
    ensures ParseName(SubjectName(subject)) == Some(AllPairs(subject))
  {
    var head, tail := subject[0], subject[1..];
    var text := RdnString(head);
    ParseRdnString(head);
    if tail == [] {
      CutGuarded(text, ',', "");
      hide ParseRdn, RdnString, Pairs, Cut, Guarded;
      assert RdnStrings(subject) == [text] && AllPairs(subject) == [Pairs(head)];
    } else {
      ParseSubjectName(tail);
      hide ParseRdn, RdnString, Pairs, Cut, Guarded;
      NameOfMore(subject);
      ParseMore(text, SubjectName(tail));
    }
  }

  lemma NameOfMore(subject: seq<Rdn>)
    requires |subject| > 1
    ensures SubjectName(subject) == RdnString(subject[0]) + [','] + ([' '] + SubjectName(subject[1..]))
  {
    hide RdnString;
    assert RdnStrings(subject)[1..] == RdnStrings(subject[1..]);
    assert ", " == [','] + [' '];
  }

  lemma ParseMore(text: string, rest: string)
    requires Guarded(text, ',') && ParseRdn(text).Some? && ParseName(rest).Some?
    ensures ParseName(text + [','] + ([' '] + rest)) == Some([ParseRdn(text).value] + ParseName(rest).value)
  {
    CutGuarded(text, ',', [' '] + rest);
    hide ParseRdn, Cut, Guarded;
    assert ([' '] + rest)[1..] == rest;
  }

  /** Two non-empty subjects with the same name have the same known attributes. */
  lemma SubjectNameInjective(a: seq<Rdn>, b: seq<Rdn>)
    requires a != [] && b != [] && SubjectName(a) == SubjectName(b)
    ensures AllPairs(a) == AllPairs(b)
  {
    ParseSubjectName(a);
    ParseSubjectName(b);
  }

  /** The empty name stands for no relative name, or for one without known attributes. */
  lemma EmptyNameIff(subject: seq<Rdn>)
    ensures SubjectName(subject) == "" <==> |subject| == 0 || (|subject| == 1 && Pairs(subject[0]) == [])
  {
    if |subject| == 1 {
      assert RdnStrings(subject) == [RdnString(subject[0])];
      PairsGood(subject[0]);
      if Pairs(subject[0]) != [] {
        ParseJoinedPairs(Pairs(subject[0]));
      }
    }
  }

  // ---------------------------------------------------------------------------
  // Which attributes

  /** The short key of an attribute, if it has one. */
  function KeyOf(name: string): Option<string> {
    match name
    case "domainComponent" => Some("DC")
    case "commonName" => Some("CN")
    case "organizationalUnitName" => Some("OU")
    case "organizationName" => Some("O")
    case "streetAddress" => Some("STREET")
    case "localityName" => Some("L")
    case "stateOrProvinceName" => Some("ST")
    case "countryName" => Some("C")
    case "userId" => Some("UID")
    case _ => None
  }

  /** Each attribute of a relative name stands in the text once under its short key, behind
      those that follow it; one without a key is left out. */
  lemma {:induction false} AttributesReversed(before: Rdn, e: Entry, after: Rdn)
    ensures Pairs(before + [e] + after) ==
      Pairs(after) + (match KeyOf(e.0) case Some(key) => [(key, e.1)] case None => []) + Pairs(before)
    ensures Pairs([]) == []
  {
    var all := before + [e] + after;
    if before == [] {
      assert all == [e] + after && all[1..] == after;
      KeyIs(e.0);
      hide KeyOf, RDNS_MAPPING;
    } else {
      assert all[1..] == before[1..] + [e] + after;
      AttributesReversed(before[1..], e, after);
      hide KeyOf, RDNS_MAPPING;
    }
  }

  lemma KeyIs(name: string)
    ensures name in RDNS_MAPPING <==> KeyOf(name).Some?
    ensures name in RDNS_MAPPING ==> KeyOf(name).value == RDNS_MAPPING[name]
  {
  }
}
