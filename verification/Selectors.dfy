/** Label selectors: how the reconcilers print a `BTreeMap` of labels, and how a Kubernetes API
    server reads the text back. */
module Selectors {
  import opened Text
  import opened Wrappers

  /** A `BTreeMap<String, String>` as the list of its entries, in the order it iterates. */
  type Entries = seq<(string, string)>
  type Labels = map<string, string>

  /** The reconcilers' side. */
  function Pairs(entries: Entries): (fields: seq<string>)
    ensures |fields| == |entries|
    ensures forall i | 0 <= i < |entries| :: fields[i] == entries[i].0 + "=" + entries[i].1
  {
    seq(|entries|, i requires 0 <= i < |entries| => entries[i].0 + "=" + entries[i].1)
  }

  function Print(entries: Entries): string {
    Join(Pairs(entries), ',')
  }

  /** What the server takes for a label: a key is a name with an optional DNS subdomain and a
      slash before it, and a value a name or empty. */
  predicate IsLower(c: char) {
    'a' <= c <= 'z' || '0' <= c <= '9'
  }

  predicate IsAlnum(c: char) {
    IsLower(c) || 'A' <= c <= 'Z'
  }

  predicate IsLabelName(s: string) {
    && 0 < |s| <= 63
    && IsAlnum(s[0]) && IsAlnum(s[|s| - 1])
    && forall c | c in s :: IsAlnum(c) || c == '-' || c == '_' || c == '.'
  }

  predicate IsSubdomain(s: string) {
    && 0 < |s| <= 253
    && IsLower(s[0]) && IsLower(s[|s| - 1])
    && (forall c | c in s :: IsLower(c) || c == '-' || c == '.')
    && (forall i | 0 < i < |s| - 1 && s[i] == '.' :: IsLower(s[i - 1]) && IsLower(s[i + 1]))
  }

  function FirstSlash(s: string): (n: nat)
    ensures n <= |s|
    ensures n < |s| ==> s[n] == '/'
  {
    if s == [] || s[0] == '/' then 0 else 1 + FirstSlash(s[1..])
  }

  predicate IsLabelKey(s: string) {
    var n := FirstSlash(s);
    if n == |s| then IsLabelName(s) else IsSubdomain(s[..n]) && IsLabelName(s[n + 1..])
  }

  predicate IsLabelValue(s: string) {
    s == "" || IsLabelName(s)
  }

  /** The server's lexer. */
  datatype Token = Word(text: string) | Sign(text: string)

  predicate IsSpace(c: char) {
    c == ' ' || c == '\t' || c == '\r' || c == '\n'
  }

  predicate IsSign(c: char) {
    c == '=' || c == '!' || c == '(' || c == ')' || c == ',' || c == '<' || c == '>'
  }

  predicate InWord(c: char) {
    !IsSpace(c) && !IsSign(c)
  }

  function WordLength(s: string): (n: nat)
    ensures n <= |s|
  {
    if s == [] || !InWord(s[0]) then 0 else 1 + WordLength(s[1..])
  }

  function Lex(s: string): seq<Token>
    decreases |s|
  {
    if s == [] then []
    else if IsSpace(s[0]) then Lex(s[1..])
    else if IsSign(s[0]) then
      var n := if |s| > 1 && s[1] == '=' && (s[0] == '=' || s[0] == '!') then 2 else 1;
      [Sign(s[..n])] + Lex(s[n..])
    else
      var n := WordLength(s);
      [Word(s[..n])] + Lex(s[n..])
  }

  /** And its parser. */
  datatype Requirement =
    | Equals(key: string, value: string)
    | Differs(key: string, value: string)
    | OneOf(key: string, values: set<string>)
    | NoneOf(key: string, values: set<string>)
    | Exists(key: string)
    | Absent(key: string)
    | Above(key: string, bound: int)
    | Below(key: string, bound: int)

  predicate IsNumeral(s: string) {
    s != "" && (forall c | c in s :: '0' <= c <= '9') && Number(s) < 0x8000_0000_0000_0000
  }

  predicate EndsRequirement(ts: seq<Token>) {
    ts == [] || ts[0] == Sign(",")
  }

  function ReadValue(ts: seq<Token>): (r: Option<(string, seq<Token>)>)
    ensures r.Some? ==> IsLabelValue(r.value.0) && |r.value.1| <= |ts|
  {
    if EndsRequirement(ts) then Some(("", ts))
    else if ts[0].Word? && IsLabelValue(ts[0].text) then Some((ts[0].text, ts[1..]))
    else None
  }

  /** The values up to a closing parenthesis; between, before and after commas there may be
      empty ones. */
  function ReadValues(ts: seq<Token>, read: set<string>): (r: Option<(set<string>, seq<Token>)>)
    ensures r.Some? ==> |r.value.1| < |ts|
    decreases |ts|
  {
    if |ts| < 2 then None
    else if ts[0].Word? then
      if !IsLabelValue(ts[0].text) then None
      else if ts[1] == Sign(",") then ReadValues(ts[1..], read + {ts[0].text})
      else if ts[1] == Sign(")") then Some((read + {ts[0].text}, ts[2..]))
      else None
    else if ts[0] == Sign(",") then
      var read' := if read == {} then {""} else read;
      if ts[1] == Sign(")") then Some((read' + {""}, ts[2..]))
      else if ts[1] == Sign(",") then ReadValues(ts[2..], read' + {""})
      else ReadValues(ts[1..], read')
    else None
  }

  function ReadOperator(key: string, ts: seq<Token>): (r: Option<(Requirement, seq<Token>)>)
    requires ts != []
    ensures r.Some? ==> |r.value.1| <= |ts|
  {
    match ts[0]
    case Word(text) =>
      if (text == "in" || text == "notin") && |ts| > 1 && ts[1] == Sign("(") then
        match ReadValues(ts[2..], {})
        case Some((values, rest)) => Some((if text == "in" then OneOf(key, values) else NoneOf(key, values), rest))
        case None => None
      else None
    case Sign(text) =>
      match ReadValue(ts[1..])
      case Some((value, rest)) =>
        if text == "=" || text == "==" then Some((Equals(key, value), rest))
        else if text == "!=" then Some((Differs(key, value), rest))
        else if text == ">" && IsNumeral(value) then Some((Above(key, Number(value)), rest))
        else if text == "<" && IsNumeral(value) then Some((Below(key, Number(value)), rest))
        else None
      case None => None
  }

  function ReadRequirement(ts: seq<Token>): (r: Option<(Requirement, seq<Token>)>)
    ensures r.Some? ==> |r.value.1| < |ts|
  {
    if ts == [] then None
    else if ts[0] == Sign("!") then
      if |ts| > 1 && ts[1].Word? && IsLabelKey(ts[1].text) then Some((Absent(ts[1].text), ts[2..])) else None
    else if ts[0].Word? && IsLabelKey(ts[0].text) then
      if EndsRequirement(ts[1..]) then Some((Exists(ts[0].text), ts[1..]))
      else ReadOperator(ts[0].text, ts[1..])
    else None
  }

  function ReadSelector(ts: seq<Token>): Option<seq<Requirement>>
    decreases |ts|
  {
    match ReadRequirement(ts)
    case Some((r, rest)) =>
      if rest == [] then Some([r])
      else if rest[0] == Sign(",") then
        match ReadSelector(rest[1..])
        case Some(rs) => Some([r] + rs)
        case None => None
      else None
    case None => None
  }

  function Parse(text: string): Option<seq<Requirement>> {
    if Lex(text) == [] then Some([]) else ReadSelector(Lex(text))
  }

  predicate Holds(r: Requirement, labels: Labels) {
    match r
    case Equals(key, value) => key in labels && labels[key] == value
    case Differs(key, value) => !(key in labels && labels[key] == value)
    case OneOf(key, values) => key in labels && labels[key] in values
    case NoneOf(key, values) => !(key in labels && labels[key] in values)
    case Exists(key) => key in labels
    case Absent(key) => key !in labels
    case Above(key, bound) => key in labels && IsNumeral(labels[key]) && Number(labels[key]) > bound
    case Below(key, bound) => key in labels && IsNumeral(labels[key]) && Number(labels[key]) < bound
  }

  /** Whether the API server lists an object with these labels for this selector text. */
  predicate Selects(text: string, labels: Labels) {
    match Parse(text)
    case Some(requirements) => forall r | r in requirements :: Holds(r, labels)
    case None => false
  }

  /** What the selector's author means: every entry is a label of the object. */
  predicate Carries(entries: Entries, labels: Labels) {
    forall e | e in entries :: e.0 in labels && labels[e.0] == e.1
  }

  predicate AreLabels(entries: Entries) {
    forall e | e in entries :: IsLabelKey(e.0) && IsLabelValue(e.1)
  }

  function Requirements(entries: Entries): (rs: seq<Requirement>)
    ensures |rs| == |entries|
    ensures forall i | 0 <= i < |entries| :: rs[i] == Equals(entries[i].0, entries[i].1)
  {
    seq(|entries|, i requires 0 <= i < |entries| => Equals(entries[i].0, entries[i].1))
  }

  predicate IsWord(s: string) {
    forall c | c in s :: InWord(c)
  }

  /** What may follow a value. */
  predicate EndsValue(rest: string) {
    rest == [] || (!InWord(rest[0]) && rest[0] != '=')
  }

  /** Labels are words to the lexer. */
  lemma LabelsAreWords(s: string)
    requires IsLabelKey(s) || IsLabelValue(s)
    ensures IsWord(s)
    ensures IsLabelKey(s) ==> s != ""
  {
    var n := FirstSlash(s);
    if n < |s| && IsLabelKey(s) {
      assert s == s[..n] + [s[n]] + s[n + 1..];
    }
  }

  lemma {:induction false} WordLengthOf(word: string, rest: string)
    requires forall c | c in word :: InWord(c)
    requires rest == [] || !InWord(rest[0])
    ensures WordLength(word + rest) == |word|
  {
    if word != [] {
      assert (word + rest)[1..] == word[1..] + rest;
      WordLengthOf(word[1..], rest);
    } else {
      assert word + rest == rest;
    }
  }

  lemma LexWord(word: string, rest: string)
    requires word != "" && forall c | c in word :: InWord(c)
    requires rest == [] || !InWord(rest[0])
    ensures Lex(word + rest) == [Word(word)] + Lex(rest)
  {
    WordLengthOf(word, rest);
    var s := word + rest;
    assert s[0] == word[0] && word[0] in word;
    assert s[..|word|] == word && s[|word|..] == rest;
  }

  lemma LexSign(sign: char, rest: string)
    requires IsSign(sign) && (rest == [] || rest[0] != '=')
    ensures Lex([sign] + rest) == [Sign([sign])] + Lex(rest)
  {
    var s := [sign] + rest;
    assert s[..1] == [sign] && s[1..] == rest;
  }

  function PairTokens(e: (string, string)): seq<Token> {
    [Word(e.0), Sign("=")] + if e.1 == "" then [] else [Word(e.1)]
  }

  function Tokens(entries: Entries): seq<Token> {
    if entries == [] then []
    else if |entries| == 1 then PairTokens(entries[0])
    else PairTokens(entries[0]) + [Sign(",")] + Tokens(entries[1..])
  }

  lemma LexValue(value: string, rest: string)
    requires IsWord(value) && EndsValue(rest)
    ensures Lex(value + rest) == (if value == "" then [] else [Word(value)]) + Lex(rest)
  {
    if value == "" {
      assert value + rest == rest;
    } else {
      LexWord(value, rest);
    }
  }

  lemma NoSignFollows(value: string, rest: string)
    requires IsWord(value) && EndsValue(rest)
    ensures value + rest == [] || (value + rest)[0] != '='
  {
    if value != "" {
      assert (value + rest)[0] == value[0] && value[0] in value;
    } else {
      assert value + rest == rest;
    }
  }

  lemma LexKey(key: string, after: string)
    requires key != "" && IsWord(key)
    requires after == [] || after[0] != '='
    ensures Lex(key + ("=" + after)) == [Word(key), Sign("=")] + Lex(after)
  {
    LexSign('=', after);
    LexWord(key, "=" + after);
  }

  lemma Regroup(a: string, b: string, c: string, d: string)
    ensures a + b + c + d == a + (b + (c + d))
  {
  }

  lemma LexPair(e: (string, string), rest: string)
    requires e.0 != "" && IsWord(e.0) && IsWord(e.1) && EndsValue(rest)
    ensures Lex(e.0 + "=" + e.1 + rest) == PairTokens(e) + Lex(rest)
  {
    var after := e.1 + rest;
    LexValue(e.1, rest);
    NoSignFollows(e.1, rest);
    Regroup(e.0, "=", e.1, rest);
    assert e.0 + "=" + e.1 + rest == e.0 + ("=" + after);
    LexKey(e.0, after);
  }

  lemma LexMore(entries: Entries)
    requires AreLabels(entries) && |entries| > 1
    ensures Lex(Print(entries)) == PairTokens(entries[0]) + [Sign(",")] + Lex(Print(entries[1..]))
  {
    var e, more := entries[0], Print(entries[1..]);
    assert e in entries;
    LabelsAreWords(e.0);
    LabelsAreWords(e.1);
    LexPair(e, "," + more);
    PrintStarts(entries[1..]);
    LexSign(',', more);
    PrintMore(entries);
  }

  lemma LexLast(e: (string, string))
    requires IsLabelKey(e.0) && IsLabelValue(e.1)
    ensures Lex(Print([e])) == PairTokens(e)
  {
    LabelsAreWords(e.0);
    LabelsAreWords(e.1);
    LexPair(e, "");
    PrintOne(e.0, e.1);
    assert e.0 + "=" + e.1 + "" == e.0 + "=" + e.1;
  }

  lemma {:induction false} LexPrint(entries: Entries)
    requires AreLabels(entries)
    ensures Lex(Print(entries)) == Tokens(entries)
  {
    if |entries| == 1 {
      LexLast(entries[0]);
      assert entries == [entries[0]];
    } else if entries != [] {
      LexMore(entries);
      LexPrint(entries[1..]);
    }
  }

  lemma PrintMore(entries: Entries)
    requires |entries| > 1
    ensures Print(entries) == entries[0].0 + "=" + entries[0].1 + ("," + Print(entries[1..]))
  {
    assert Pairs(entries)[1..] == Pairs(entries[1..]);
  }

  lemma PrintStarts(entries: Entries)
    requires AreLabels(entries) && entries != []
    ensures Print(entries) != "" && Print(entries)[0] != '='
  {
    LabelsAreWords(entries[0].0);
    assert entries[0] in entries && entries[0].0[0] in entries[0].0;
    assert Pairs(entries)[0][0] == entries[0].0[0];
  }

  lemma ReadPair(e: (string, string), rest: seq<Token>)
    requires IsLabelKey(e.0) && IsLabelValue(e.1) && EndsRequirement(rest)
    ensures ReadRequirement(PairTokens(e) + rest) == Some((Equals(e.0, e.1), rest))
  {
    var ts := PairTokens(e) + rest;
    assert ts[0] == Word(e.0) && ts[1..][0] == Sign("=");
    assert ts[1..][1..] == (if e.1 == "" then [] else [Word(e.1)]) + rest;
    if e.1 == "" {
      assert ts[1..][1..] == rest;
    } else {
      assert ts[1..][1..][1..] == rest;
    }
  }

  lemma ReadMore(entries: Entries)
    requires AreLabels(entries) && |entries| > 1
    ensures ReadRequirement(Tokens(entries))
            == Some((Equals(entries[0].0, entries[0].1), [Sign(",")] + Tokens(entries[1..])))
  {
    assert entries[0] in entries;
    ReadPair(entries[0], [Sign(",")] + Tokens(entries[1..]));
    assert PairTokens(entries[0]) + ([Sign(",")] + Tokens(entries[1..])) == Tokens(entries);
  }

  lemma ReadLast(e: (string, string))
    requires IsLabelKey(e.0) && IsLabelValue(e.1)
    ensures ReadSelector(PairTokens(e)) == Some([Equals(e.0, e.1)])
  {
    ReadPair(e, []);
    assert PairTokens(e) + [] == PairTokens(e);
    ReadOne(PairTokens(e), Equals(e.0, e.1));
  }

  lemma ReadOn(ts: seq<Token>, r: Requirement, rest: seq<Token>, rs: seq<Requirement>)
    requires ReadRequirement(ts) == Some((r, [Sign(",")] + rest)) && ReadSelector(rest) == Some(rs)
    ensures ReadSelector(ts) == Some([r] + rs)
  {
    assert ([Sign(",")] + rest)[1..] == rest;
  }

  lemma {:induction false} ReadTokens(entries: Entries)
    requires AreLabels(entries) && entries != []
    ensures ReadSelector(Tokens(entries)) == Some(Requirements(entries))
  {
    var e := entries[0];
    assert e in entries;
    if |entries| == 1 {
      ReadLast(e);
      assert Requirements(entries) == [Equals(e.0, e.1)];
    } else {
      ReadMore(entries);
      ReadTokens(entries[1..]);
      ReadOn(Tokens(entries), Equals(e.0, e.1), Tokens(entries[1..]), Requirements(entries[1..]));
      assert Requirements(entries) == [Equals(e.0, e.1)] + Requirements(entries[1..]);
    }
  }

  /** Whatever equality the server reads, it is about a label. */
  predicate IsOfLabel(r: Requirement) {
    r.Equals? ==> IsLabelKey(r.key) && IsLabelValue(r.value)
  }

  lemma {:induction false} ReadIsOfLabels(ts: seq<Token>)
    ensures ReadSelector(ts).Some? ==> forall r | r in ReadSelector(ts).value :: IsOfLabel(r)
    decreases |ts|
  {
    match ReadRequirement(ts)
    case Some((r, rest)) =>
      assert IsOfLabel(r);
      if rest != [] {
        ReadIsOfLabels(rest[1..]);
      }
    case None =>
  }

  /** The printed selector reads back as the same equalities exactly when it is made of valid
      label keys and values. */
  lemma SelectorRoundTrip(entries: Entries)
    ensures Parse(Print(entries)) == Some(Requirements(entries)) <==> AreLabels(entries)
  {
    if AreLabels(entries) {
      LexPrint(entries);
      if entries != [] {
        ReadTokens(entries);
      }
    } else if Parse(Print(entries)) == Some(Requirements(entries)) {
      ReadIsOfLabels(Lex(Print(entries)));
      forall e | e in entries ensures IsLabelKey(e.0) && IsLabelValue(e.1) {
        var r := Equals(e.0, e.1);
        assert r in Requirements(entries) && IsOfLabel(r);
      }
    }
  }

  /** A selector of labels selects what its author means; the empty one selects everything. */
  lemma SelectorMeaning(entries: Entries, labels: Labels)
    requires AreLabels(entries)
    ensures Selects(Print(entries), labels) <==> Carries(entries, labels)
  {
    SelectorRoundTrip(entries);
    var rs := Requirements(entries);
    if Carries(entries, labels) {
      forall r | r in rs ensures Holds(r, labels) {
        var i :| 0 <= i < |rs| && rs[i] == r;
        assert entries[i] in entries;
      }
    }
    if forall r | r in rs :: Holds(r, labels) {
      forall e | e in entries ensures e.0 in labels && labels[e.0] == e.1 {
        assert Holds(Equals(e.0, e.1), labels);
      }
    }
  }

  /** Selectors of labels print alike only if they are the same. */
  lemma SelectorPrintInjective(a: Entries, b: Entries)
    requires AreLabels(a) && AreLabels(b)
    requires Print(a) == Print(b)
    ensures a == b
  {
    SelectorRoundTrip(a);
    SelectorRoundTrip(b);
    forall i | 0 <= i < |a| ensures a[i] == b[i] {
      assert Requirements(a)[i] == Requirements(b)[i];
    }
  }

  /** A value with a comma smuggles in a second requirement, */
  lemma CommaMisleads()
    ensures Print([("a", "1,b=2")]) == Print([("a", "1"), ("b", "2")])
  {
    assert "a" + "=" + "1,b=2" == "a=1,b=2" && "a" + "=" + "1" == "a=1" && "b" + "=" + "2" == "b=2";
    assert Pairs([("a", "1,b=2")]) == ["a=1,b=2"];
    assert Pairs([("a", "1"), ("b", "2")]) == ["a=1", "b=2"];
    assert ["a=1", "b=2"][1..] == ["b=2"];
    assert Join(["a=1", "b=2"], ',') == "a=1,b=2";
  }

  lemma PrintOne(key: string, value: string)
    ensures Print([(key, value)]) == key + "=" + value
  {
    assert Pairs([(key, value)]) == [key + "=" + value];
  }

  lemma ReadOne(ts: seq<Token>, r: Requirement)
    requires ReadRequirement(ts) == Some((r, []))
    ensures ReadSelector(ts) == Some([r])
  {
  }

  lemma LexBlank()
    ensures Lex("a" + "=" + "b ") == PairTokens(("a", "b"))
  {
    LexPair(("a", "b"), " ");
    assert "a" + "=" + "b " == "a" + "=" + "b" + " ";
    assert Lex(" ") == [];
  }

  /** one with a blank loses it, */
  lemma BlankMisleads()
    ensures Selects(Print([("a", "b ")]), map["a" := "b"]) && !Carries([("a", "b ")], map["a" := "b"])
  {
    var ts := PairTokens(("a", "b"));
    PrintOne("a", "b ");
    LexBlank();
    ReadPair(("a", "b"), []);
    assert ts + [] == ts;
    ReadOne(ts, Equals("a", "b"));
    assert ("a", "b ") in [("a", "b ")] && |"b "| != |"b"|;
  }

  lemma LexBang()
    ensures Lex("a!=b") == [Word("a"), Sign("!="), Word("b")]
  {
    LexWord("a", "!=b");
    LexWord("b", "");
    assert "a" + "!=b" == "a!=b" && "!=b"[..2] == "!=" && "!=b"[2..] == "b" == "b" + "";
  }

  lemma ReadDiffers(key: string, value: string)
    requires IsLabelKey(key) && IsLabelName(value)
    ensures ReadRequirement([Word(key), Sign("!="), Word(value)]) == Some((Differs(key, value), []))
  {
    var ts := [Word(key), Sign("!="), Word(value)];
    assert ts[1..] == [Sign("!="), Word(value)] && ts[1..][1..] == [Word(value)] && ts[1..][1..][1..] == [];
  }

  /** and a key that ends in `!` turns the requirement around, so that objects without labels
      are selected. */
  lemma BangMisleads()
    ensures Selects(Print([("a!", "b")]), map[]) && !Carries([("a!", "b")], map[])
  {
    PrintOne("a!", "b");
    assert "a!" + "=" + "b" == "a!=b";
    LexBang();
    ReadDiffers("a", "b");
    ReadOne(Lex("a!=b"), Differs("a", "b"));
    assert Holds(Differs("a", "b"), map[]);
    assert ("a!", "b") in [("a!", "b")];
  }
}
