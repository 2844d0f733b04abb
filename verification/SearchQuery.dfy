/** The query compiler (search/query.py): a typed query is printed as an FTS5 MATCH expression in which
    every piece of user text is a quoted string, and two ranked tiers are merged.

    The reader below follows the rules for strings in section 3.1 of the SQLite FTS5 documentation: a
    string starts and ends with a double quote, and a double quote inside it is written twice. */
module SearchQuery {
  import opened Prelude
  import opened Tables
  import Encoding
  import SearchText

  const MAX_TERMS := 16
  const MAX_QUERY_BYTES := 512
  const MAX_NEAR := 10
  const MAX_LIMIT := 200
  const DEFAULT_LIMIT := 50

  datatype Query = Query(terms: seq<string>, phrase: Option<string>, prefix: Option<string>,
                         near: Option<(seq<string>, int)>, limit: int)

  // ---------------------------------------------------------------- quoting

  /** Every double quote doubled. */
  function Doubled(s: string): string
  {
    if s == "" then "" else (if s[0] == '"' then ['"', '"'] else [s[0]]) + Doubled(s[1..])
  }

  function Quote(s: string): string
  {
    ['"'] + Doubled(s) + ['"']
  }

  /** Read the inside of a string: its content and what follows the closing quote. */
  function ReadInside(s: string): Option<(string, string)>
    decreases |s|
  {
    if s == "" then None
    else if s[0] != '"' then
      match ReadInside(s[1..])
      case None => None
      case Some((content, rest)) => Some(([s[0]] + content, rest))
    else if |s| >= 2 && s[1] == '"' then
      match ReadInside(s[2..])
      case None => None
      case Some((content, rest)) => Some((['"'] + content, rest))
    else Some(("", s[1..]))
  }

  function ReadString(s: string): Option<(string, string)>
  {
    if s == "" || s[0] != '"' then None else ReadInside(s[1..])
  }

  lemma {:induction false} InsideRoundTrip(s: string, rest: string)
    requires rest == "" || rest[0] != '"'
    ensures ReadInside(Doubled(s) + ['"'] + rest) == Some((s, rest))
  {
    var whole := Doubled(s) + ['"'] + rest;
    if s == "" {
      assert whole[1..] == rest;
    } else {
      InsideRoundTrip(s[1..], rest);
      var tail := Doubled(s[1..]) + ['"'] + rest;
      if s[0] == '"' {
        assert whole[2..] == tail;
        assert ['"'] + s[1..] == s;
      } else {
        assert whole[1..] == tail;
        assert [s[0]] + s[1..] == s;
      }
    }
  }

  /** Whatever the user typed, the reader gets it back and stops where the printer stopped. */
  lemma QuoteRoundTrip(s: string, rest: string)
    requires rest == "" || rest[0] != '"'
    ensures ReadString(Quote(s) + rest) == Some((s, rest))
  {
    InsideRoundTrip(s, rest);
    assert (Quote(s) + rest)[1..] == Doubled(s) + ['"'] + rest;
  }

  // ---------------------------------------------------------------- the parts of an expression

  /** What a compiled expression consists of. */
  datatype Part = Phrase(text: string) | Prefix(text: string) | Near(texts: seq<string>, distance: int)

  function JoinQuoted(texts: seq<string>): string
    requires texts != []
  {
    if |texts| == 1 then Quote(texts[0]) else Quote(texts[0]) + " " + JoinQuoted(texts[1..])
  }

  predicate Printable(p: Part)
  {
    p.Near? ==> p.texts != []
  }

  function Print(p: Part): string
    requires Printable(p)
  {
    match p
    case Phrase(s) => Quote(s)
    case Prefix(s) => Quote(s) + "*"
    case Near(texts, d) => "NEAR(" + JoinQuoted(texts) + ", " + Encoding.Decimal(d) + ")"
  }

  predicate AllPrintable(parts: seq<Part>)
  {
    forall i :: 0 <= i < |parts| ==> Printable(parts[i])
  }

  /** `" ".join(parts)` */
  function PrintAll(parts: seq<Part>): string
    requires AllPrintable(parts)
  {
    if parts == [] then ""
    else if |parts| == 1 then Print(parts[0])
    else Print(parts[0]) + " " + PrintAll(parts[1..])
  }

  // ---------------------------------------------------------------- a reader for expressions

  /** Strings separated by single spaces, up to the comma that ends them. */
  function ReadStrings(s: string): Option<(seq<string>, string)>
    decreases |s|
  {
    match ReadString(s)
    case None => None
    case Some((x, rest)) =>
      if |rest| >= |s| then None
      else if rest != "" && rest[0] == ' ' then
        match ReadStrings(rest[1..])
        case None => None
        case Some((xs, rest')) => Some(([x] + xs, rest'))
      else Some(([x], rest))
  }

  /** The digits of the distance, up to the closing parenthesis. */
  function ReadUntilParen(s: string): Option<(string, string)>
  {
    if s == "" then None
    else if s[0] == ')' then Some(("", s[1..]))
    else
      match ReadUntilParen(s[1..])
      case None => None
      case Some((x, rest)) => Some(([s[0]] + x, rest))
  }

  /** What one part reads as; a distance is kept as its text. */
  datatype Token = PhraseToken(text: string) | PrefixToken(text: string)
    | NearToken(texts: seq<string>, distance: string)

  function ReadPart(s: string): Option<(Token, string)>
  {
    if "NEAR(" <= s then
      match ReadStrings(s[5..])
      case None => None
      case Some((xs, rest)) =>
        if !(", " <= rest) then None
        else
          match ReadUntilParen(rest[2..])
          case None => None
          case Some((d, rest')) => Some((NearToken(xs, d), rest'))
    else
      match ReadString(s)
      case None => None
      case Some((x, rest)) =>
        if rest != "" && rest[0] == '*' then Some((PrefixToken(x), rest[1..])) else Some((PhraseToken(x), rest))
  }

  function ReadAll(s: string): Option<seq<Token>>
    decreases |s|
  {
    if s == "" then Some([])
    else
      match ReadPart(s)
      case None => None
      case Some((t, rest)) =>
        if rest == "" then Some([t])
        else if rest[0] != ' ' || |rest| >= |s| then None
        else
          match ReadAll(rest[1..])
          case None => None
          case Some(ts) => Some([t] + ts)
  }

  function TokenOf(p: Part): Token
  {
    match p
    case Phrase(s) => PhraseToken(s)
    case Prefix(s) => PrefixToken(s)
    case Near(texts, d) => NearToken(texts, Encoding.Decimal(d))
  }

  lemma {:induction false} StringsRoundTrip(texts: seq<string>, rest: string)
    requires texts != [] && rest != "" && rest[0] == ','
    ensures ReadStrings(JoinQuoted(texts) + rest) == Some((texts, rest))
    decreases |texts|
  {
    hide Quote, ReadString;
    var s := JoinQuoted(texts) + rest;
    if |texts| == 1 {
      QuoteRoundTrip(texts[0], rest);
      QuoteLength(texts[0]);
      assert texts == [texts[0]];
    } else {
      var more := " " + (JoinQuoted(texts[1..]) + rest);
      assert s == Quote(texts[0]) + more;
      QuoteRoundTrip(texts[0], more);
      QuoteLength(texts[0]);
      StringsRoundTrip(texts[1..], rest);
      assert more[1..] == JoinQuoted(texts[1..]) + rest;
      assert texts == [texts[0]] + texts[1..];
    }
  }

  lemma QuoteLength(s: string)
    ensures |Quote(s)| >= 2 && Quote(s)[0] == '"'
  {
  }

  lemma {:induction false} ParenRoundTrip(d: string, rest: string)
    requires forall i :: 0 <= i < |d| ==> d[i] != ')'
    ensures ReadUntilParen(d + ")" + rest) == Some((d, rest))
  {
    var s := d + ")" + rest;
    if d == "" {
      assert s[1..] == rest;
    } else {
      ParenRoundTrip(d[1..], rest);
      assert s[1..] == d[1..] + ")" + rest;
      assert [d[0]] + d[1..] == d;
    }
  }

  lemma DecimalHasNoParen(n: int)
    ensures forall i :: 0 <= i < |Encoding.Decimal(n)| ==> Encoding.Decimal(n)[i] != ')'
  {
    hide Encoding.Digits;
  }

  lemma PartRoundTrip(p: Part, rest: string)
    requires Printable(p) && (rest == "" || rest[0] == ' ')
    ensures ReadPart(Print(p) + rest) == Some((TokenOf(p), rest))
    ensures |Print(p)| > 0
  {
    hide Quote, ReadString, ReadStrings, ReadUntilParen, Encoding.Decimal;
    match p
    case Phrase(s) =>
      QuoteLength(s);
      QuoteRoundTrip(s, rest);
      assert (Print(p) + rest)[0] == '"';
    case Prefix(s) =>
      QuoteLength(s);
      QuoteRoundTrip(s, "*" + rest);
      assert Print(p) + rest == Quote(s) + ("*" + rest);
      assert ("*" + rest)[1..] == rest;
      assert (Print(p) + rest)[0] == '"';
    case Near(texts, d) => NearRoundTrip(texts, d, rest);
  }

  lemma NearRoundTrip(texts: seq<string>, d: int, rest: string)
    requires texts != []
    ensures ReadPart(Print(Near(texts, d)) + rest) == Some((NearToken(texts, Encoding.Decimal(d)), rest))
  {
    hide Encoding.Decimal, JoinQuoted, ReadStrings, ReadUntilParen;
    var dist := Encoding.Decimal(d);
    var s := Print(Near(texts, d)) + rest;
    var tail := ", " + (dist + ")" + rest);
    assert s == "NEAR(" + (JoinQuoted(texts) + tail);
    assert s[5..] == JoinQuoted(texts) + tail;
    StringsRoundTrip(texts, tail);
    assert tail[2..] == dist + ")" + rest;
    DecimalHasNoParen(d);
    ParenRoundTrip(dist, rest);
  }

  /** Reading a compiled expression gives back exactly its parts, in order; all user text was inside
      quotes, so none of it was read as syntax. */
  lemma {:induction false} ExpressionRoundTrip(parts: seq<Part>)
    requires AllPrintable(parts)
    ensures ReadAll(PrintAll(parts)) == Some(Tokens(parts))
  {
    if parts == [] {
      assert Tokens(parts) == [];
    } else {
      hide Print, ReadPart, TokenOf, Tokens, ReadAll, PrintAll;
      TokensHead(parts);
      if |parts| == 1 {
        PartRoundTrip(parts[0], "");
        PrintOne(parts);
        ReadOne(Print(parts[0]), TokenOf(parts[0]));
      } else {
        var rest := PrintAll(parts[1..]);
        PartRoundTrip(parts[0], " " + rest);
        ExpressionRoundTrip(parts[1..]);
        PrintFirst(parts);
        ReadMore(Print(parts[0]), rest, TokenOf(parts[0]), Tokens(parts[1..]));
      }
    }
  }

  function Tokens(parts: seq<Part>): seq<Token>
  {
    seq(|parts|, i requires 0 <= i < |parts| => TokenOf(parts[i]))
  }

  lemma TokensHead(parts: seq<Part>)
    requires parts != []
    ensures Tokens(parts) == [TokenOf(parts[0])] + Tokens(parts[1..])
    ensures |parts| == 1 ==> Tokens(parts) == [TokenOf(parts[0])]
  {
    hide TokenOf;
  }

  lemma PrintOne(parts: seq<Part>)
    requires AllPrintable(parts) && |parts| == 1
    ensures PrintAll(parts) == Print(parts[0]) && Print(parts[0]) + "" == Print(parts[0])
  {
    hide Print;
  }

  lemma PrintFirst(parts: seq<Part>)
    requires AllPrintable(parts) && |parts| > 1
    ensures PrintAll(parts) == Print(parts[0]) + (" " + PrintAll(parts[1..]))
  {
    hide Print;
  }

  lemma ReadOne(s: string, t: Token)
    requires s != "" && ReadPart(s) == Some((t, ""))
    ensures ReadAll(s) == Some([t])
  {
    hide ReadPart;
  }

  lemma ReadMore(s: string, rest: string, t: Token, ts: seq<Token>)
    requires s != "" && ReadPart(s + (" " + rest)) == Some((t, " " + rest)) && ReadAll(rest) == Some(ts)
    ensures ReadAll(s + (" " + rest)) == Some([t] + ts)
  {
    hide ReadPart;
    assert (" " + rest)[1..] == rest;
  }

  // ---------------------------------------------------------------- compiling a query

  function Lexical(t: SearchText.Tables, s: string): string
  {
    Strip(SearchText.ToSearch(t, s))
  }

  function Compact(t: SearchText.Tables, s: string): string
  {
    Strip(SearchText.ToCompact(t, s))
  }

  /** The normalised texts that are not empty, in order. */
  function NonEmpty(t: SearchText.Tables, texts: seq<string>): (r: seq<string>)
    ensures forall i :: 0 <= i < |r| ==> r[i] != ""
  {
    if texts == [] then []
    else
      var front := NonEmpty(t, texts[..|texts| - 1]);
      var s := Lexical(t, texts[|texts| - 1]);
      if s == "" then front else front + [s]
  }

  function Phrases(texts: seq<string>): (r: seq<Part>)
    ensures |r| == |texts| && forall i :: 0 <= i < |r| ==> r[i] == Phrase(texts[i])
  {
    seq(|texts|, i requires 0 <= i < |texts| => Phrase(texts[i]))
  }

  function Maybe(s: Option<string>): string
  {
    if s.Some? then s.value else ""
  }

  function PhrasePart(t: SearchText.Tables, s: string): (r: seq<Part>)
    ensures AllPrintable(r)
  {
    if s == "" || Lexical(t, s) == "" then [] else [Phrase(Lexical(t, s))]
  }

  function PrefixPart(t: SearchText.Tables, s: string): (r: seq<Part>)
    ensures AllPrintable(r)
  {
    if s == "" || Lexical(t, s) == "" then [] else [Prefix(Lexical(t, s))]
  }

  function NearPart(t: SearchText.Tables, near: Option<(seq<string>, int)>): (r: seq<Part>)
    ensures AllPrintable(r)
  {
    match near
    case None => []
    case Some((texts, distance)) =>
      var toks := NonEmpty(t, texts);
      if toks == [] then [] else [Near(toks, distance)]
  }

  function LexicalParts(t: SearchText.Tables, q: Query): (r: seq<Part>)
    ensures AllPrintable(r)
  {
    hide PhrasePart, PrefixPart, NearPart, NonEmpty;
    Phrases(NonEmpty(t, q.terms)) + PhrasePart(t, Maybe(q.phrase)) + PrefixPart(t, Maybe(q.prefix)) +
      NearPart(t, q.near)
  }

  /** Trigrams need three characters. */
  function LongEnough(t: SearchText.Tables, texts: seq<string>): seq<string>
  {
    if texts == [] then []
    else
      var front := LongEnough(t, texts[..|texts| - 1]);
      var s := Compact(t, texts[|texts| - 1]);
      if |s| < 3 then front else front + [s]
  }

  function CompactSources(q: Query): seq<string>
  {
    if Maybe(q.phrase) == "" then q.terms else q.terms + [q.phrase.value]
  }

  function CompactParts(t: SearchText.Tables, q: Query): (r: seq<Part>)
    ensures AllPrintable(r)
  {
    Phrases(LongEnough(t, CompactSources(q)))
  }

  predicate WithinCaps(q: Query)
  {
    && |q.terms| <= MAX_TERMS
    && (q.near.Some? ==> |q.near.value.0| <= MAX_NEAR)
    && q.limit <= MAX_LIMIT
  }

  function Utf8Length(s: string): nat
  {
    if s == "" then 0
    else
      var n := s[0] as int;
      (if n < 0x80 then 1 else if n < 0x800 then 2 else if n < 0x1_0000 then 3 else 4) + Utf8Length(s[1..])
  }

  /** `None` stands for QueryTooComplex. */
  function Guarded(q: Query, parts: seq<Part>): Option<string>
    requires AllPrintable(parts)
  {
    if WithinCaps(q) && Utf8Length(PrintAll(parts)) <= MAX_QUERY_BYTES then Some(PrintAll(parts)) else None
  }

  /** `compile_lexical` */
  method CompileLexical(t: SearchText.Tables, q: Query) returns (r: Option<string>)
    ensures r == Guarded(q, LexicalParts(t, q))
  {
    hide Lexical, PrintAll, Utf8Length;
    if !WithinCaps(q) { return None; }
    var parts: seq<Part> := [];
    for i := 0 to |q.terms|
      invariant parts == Phrases(NonEmpty(t, q.terms[..i]))
    {
      assert q.terms[..i + 1][..i] == q.terms[..i];
      var s := Lexical(t, q.terms[i]);
      if s != "" { parts := parts + [Phrase(s)]; }
    }
    assert q.terms[..|q.terms|] == q.terms;
    if Maybe(q.phrase) != "" {
      var ph := Lexical(t, q.phrase.value);
      if ph != "" { parts := parts + [Phrase(ph)]; }
    }
    assert parts == Phrases(NonEmpty(t, q.terms)) + PhrasePart(t, Maybe(q.phrase));
    if Maybe(q.prefix) != "" {
      var pre := Lexical(t, q.prefix.value);
      if pre != "" { parts := parts + [Prefix(pre)]; }
    }
    assert parts == Phrases(NonEmpty(t, q.terms)) + PhrasePart(t, Maybe(q.phrase)) + PrefixPart(t, Maybe(q.prefix));
    if q.near.Some? {
      var toks := NonEmpty(t, q.near.value.0);
      if toks != [] { parts := parts + [Near(toks, q.near.value.1)]; }
    }
    assert parts == LexicalParts(t, q);
    var match' := PrintAll(parts);
    if Utf8Length(match') > MAX_QUERY_BYTES { return None; }
    return Some(match');
  }

  /** `compile_compact` */
  method CompileCompact(t: SearchText.Tables, q: Query) returns (r: Option<string>)
    ensures r == Guarded(q, CompactParts(t, q))
  {
    hide Compact, PrintAll, Utf8Length;
    if !WithinCaps(q) { return None; }
    var sources := CompactSources(q);
    var parts: seq<Part> := [];
    for i := 0 to |sources|
      invariant parts == Phrases(LongEnough(t, sources[..i]))
    {
      assert sources[..i + 1][..i] == sources[..i];
      var s := Compact(t, sources[i]);
      if |s| >= 3 { parts := parts + [Phrase(s)]; }
    }
    assert sources[..|sources|] == sources;
    var match' := PrintAll(parts);
    if Utf8Length(match') > MAX_QUERY_BYTES { return None; }
    return Some(match');
  }

  /** What the engine reads is exactly the normalised, non-empty parts of the query, in order. */
  lemma CompiledReadsBack(t: SearchText.Tables, q: Query)
    ensures var c := Guarded(q, LexicalParts(t, q)); c.Some? ==> ReadAll(c.value) == Some(Tokens(LexicalParts(t, q)))
    ensures var c := Guarded(q, CompactParts(t, q)); c.Some? ==> ReadAll(c.value) == Some(Tokens(CompactParts(t, q)))
  {
    hide Lexical, PrintAll, ReadAll, LexicalParts, CompactParts;
    ExpressionRoundTrip(LexicalParts(t, q));
    ExpressionRoundTrip(CompactParts(t, q));
  }

  // ---------------------------------------------------------------- which fields become which parts

  /** The searchable form of a text, and its compact form, without white space at their ends. */
  function SearchForm(t: SearchText.Tables, s: string): string
  {
    Strip(SearchText.ToSearch(t, s))
  }

  function CompactForm(t: SearchText.Tables, s: string): string
  {
    Strip(SearchText.ToCompact(t, s))
  }

  function SearchForms(t: SearchText.Tables, texts: seq<string>): seq<string>
  {
    seq(|texts|, i requires 0 <= i < |texts| => SearchForm(t, texts[i]))
  }

  function CompactForms(t: SearchText.Tables, texts: seq<string>): seq<string>
  {
    seq(|texts|, i requires 0 <= i < |texts| => CompactForm(t, texts[i]))
  }

  predicate NotEmpty(s: string)
  {
    s != ""
  }

  predicate HasTrigram(s: string)
  {
    |s| >= 3
  }

  function AsPhrases(texts: seq<string>): seq<Token>
  {
    seq(|texts|, i requires 0 <= i < |texts| => PhraseToken(texts[i]))
  }

  /** The optional text is given and something is left of it. */
  predicate Given(t: SearchText.Tables, s: Option<string>)
  {
    s.Some? && s.value != "" && SearchForm(t, s.value) != ""
  }

  function PhraseField(t: SearchText.Tables, s: Option<string>): seq<Token>
  {
    if Given(t, s) then [PhraseToken(SearchForm(t, s.value))] else []
  }

  function PrefixField(t: SearchText.Tables, s: Option<string>): seq<Token>
  {
    if Given(t, s) then [PrefixToken(SearchForm(t, s.value))] else []
  }

  function NearField(t: SearchText.Tables, near: Option<(seq<string>, int)>): seq<Token>
  {
    match near
    case None => []
    case Some((texts, distance)) =>
      var kept := Filter(SearchForms(t, texts), NotEmpty);
      if kept == [] then [] else [NearToken(kept, Encoding.Decimal(distance))]
  }

  /** The fields of a query as the lexical table is asked them: the terms, the phrase, the prefix and the NEAR list,
      in that order, each in its searchable form; whatever is empty then is left out. */
  function LexicalFields(t: SearchText.Tables, q: Query): seq<Token>
  {
    AsPhrases(Filter(SearchForms(t, q.terms), NotEmpty)) + PhraseField(t, q.phrase) + PrefixField(t, q.prefix)
    + NearField(t, q.near)
  }

  /** As the trigram table is asked them: the terms, and the phrase if one is given, in their compact form, where
      three characters are left. */
  function CompactFields(t: SearchText.Tables, q: Query): seq<Token>
  {
    var phrase := if q.phrase.Some? && q.phrase.value != "" then [q.phrase.value] else [];
    AsPhrases(Filter(CompactForms(t, q.terms + phrase), HasTrigram))
  }

  lemma FilterEnds(xs: seq<string>, x: string, p: string -> bool)
    ensures Filter(xs + [x], p) == Filter(xs, p) + if p(x) then [x] else []
  {
    FilterAppend(xs, [x], p);
    FilterHead(x, [], p);
    assert [x] + [] == [x];
  }

  lemma FormsAre(t: SearchText.Tables, s: string)
    ensures SearchForm(t, s) == Lexical(t, s) && CompactForm(t, s) == Compact(t, s)
  {
    hide Strip, SearchText.ToSearch, SearchText.ToCompact;
  }

  lemma FormsEnd(t: SearchText.Tables, texts: seq<string>)
    ensures texts == [] ==> SearchForms(t, texts) == [] && CompactForms(t, texts) == []
    ensures var n := |texts| - 1;
      texts != [] ==>
        && SearchForms(t, texts) == SearchForms(t, texts[..n]) + [SearchForm(t, texts[n])]
        && CompactForms(t, texts) == CompactForms(t, texts[..n]) + [CompactForm(t, texts[n])]
  {
    hide SearchForm, CompactForm;
  }

  lemma FilterNothing(p: string -> bool)
    ensures Filter([], p) == []
  {
  }

  lemma ListsEnd(t: SearchText.Tables, texts: seq<string>)
    ensures texts == [] ==> NonEmpty(t, texts) == [] && LongEnough(t, texts) == []
    ensures var n := |texts| - 1;
      texts != [] ==>
        var s, c := Lexical(t, texts[n]), Compact(t, texts[n]);
        && NonEmpty(t, texts) == NonEmpty(t, texts[..n]) + (if NotEmpty(s) then [s] else [])
        && LongEnough(t, texts) == LongEnough(t, texts[..n]) + (if HasTrigram(c) then [c] else [])
  {
    hide Lexical, Compact;
  }

  lemma {:induction false} NonEmptyIs(t: SearchText.Tables, texts: seq<string>)
    ensures NonEmpty(t, texts) == Filter(SearchForms(t, texts), NotEmpty)
  {
    hide Lexical, SearchForm, SearchForms, Filter, NonEmpty;
    FormsEnd(t, texts);
    FilterNothing(NotEmpty);
    ListsEnd(t, texts);
    if texts != [] {
      var n := |texts| - 1;
      NonEmptyIs(t, texts[..n]);
      FormsAre(t, texts[n]);
      FilterEnds(SearchForms(t, texts[..n]), SearchForm(t, texts[n]), NotEmpty);
    }
  }

  lemma {:induction false} LongEnoughIs(t: SearchText.Tables, texts: seq<string>)
    ensures LongEnough(t, texts) == Filter(CompactForms(t, texts), HasTrigram)
  {
    hide Compact, CompactForm, CompactForms, Filter, LongEnough;
    FormsEnd(t, texts);
    FilterNothing(HasTrigram);
    ListsEnd(t, texts);
    if texts != [] {
      var n := |texts| - 1;
      LongEnoughIs(t, texts[..n]);
      FormsAre(t, texts[n]);
      FilterEnds(CompactForms(t, texts[..n]), CompactForm(t, texts[n]), HasTrigram);
    }
  }

  lemma TokensAppend(a: seq<Part>, b: seq<Part>)
    ensures Tokens(a + b) == Tokens(a) + Tokens(b)
  {
    hide TokenOf;
  }

  lemma PhrasesAre(texts: seq<string>)
    ensures Tokens(Phrases(texts)) == AsPhrases(texts)
  {
  }

  lemma FewTokens(p: Part)
    ensures Tokens([]) == [] && Tokens([p]) == [TokenOf(p)]
  {
    hide TokenOf;
  }

  lemma PhrasePartIs(t: SearchText.Tables, s: Option<string>)
    ensures Tokens(PhrasePart(t, Maybe(s))) == PhraseField(t, s)
    ensures Tokens(PrefixPart(t, Maybe(s))) == PrefixField(t, s)
  {
    hide Lexical, SearchForm, Tokens;
    if s.Some? {
      FormsAre(t, s.value);
      FewTokens(Phrase(Lexical(t, s.value)));
      FewTokens(Prefix(Lexical(t, s.value)));
    } else {
      FewTokens(Phrase(""));
    }
  }

  lemma NearPartIs(t: SearchText.Tables, near: Option<(seq<string>, int)>)
    ensures Tokens(NearPart(t, near)) == NearField(t, near)
  {
    hide NonEmpty, Filter, Encoding.Decimal, SearchForms, Tokens;
    FewTokens(Phrase(""));
    if near.Some? {
      NonEmptyIs(t, near.value.0);
      FewTokens(Near(NonEmpty(t, near.value.0), near.value.1));
    }
  }

  lemma LexicalPartsAre(t: SearchText.Tables, q: Query)
    ensures Tokens(LexicalParts(t, q)) == LexicalFields(t, q)
  {
    hide NonEmpty, Filter, Phrases, PhrasePart, PrefixPart, NearPart, PhraseField, PrefixField, NearField, SearchForms;
    hide Tokens, AsPhrases;
    NonEmptyIs(t, q.terms);
    var a, b, c, d := Phrases(NonEmpty(t, q.terms)), PhrasePart(t, Maybe(q.phrase)), PrefixPart(t, Maybe(q.prefix)),
      NearPart(t, q.near);
    PhrasesAre(NonEmpty(t, q.terms));
    PhrasePartIs(t, q.phrase);
    PhrasePartIs(t, q.prefix);
    NearPartIs(t, q.near);
    TokensAppend(a + b + c, d);
    TokensAppend(a + b, c);
    TokensAppend(a, b);
    assert LexicalParts(t, q) == a + b + c + d;
  }

  lemma CompactPartsAre(t: SearchText.Tables, q: Query)
    ensures Tokens(CompactParts(t, q)) == CompactFields(t, q)
  {
    var phrase := if q.phrase.Some? && q.phrase.value != "" then [q.phrase.value] else [];
    assert CompactSources(q) == q.terms + phrase;
    hide Filter, LongEnough, CompactForms, Tokens, AsPhrases, Phrases;
    LongEnoughIs(t, CompactSources(q));
    PhrasesAre(LongEnough(t, CompactSources(q)));
  }

  /** A query is compiled if and only if it has at most 16 terms, at most 10 NEAR texts, a limit of at most 200, and an
      expression of at most 512 bytes; and the engine then reads exactly the query's fields. */
  lemma CompiledIff(t: SearchText.Tables, q: Query)
    ensures var c := Guarded(q, LexicalParts(t, q));
      && (c.Some? <==> Capped(q) && Utf8Length(PrintAll(LexicalParts(t, q))) <= 512)
      && (c.Some? ==> ReadAll(c.value) == Some(LexicalFields(t, q)))
    ensures var c := Guarded(q, CompactParts(t, q));
      && (c.Some? <==> Capped(q) && Utf8Length(PrintAll(CompactParts(t, q))) <= 512)
      && (c.Some? ==> ReadAll(c.value) == Some(CompactFields(t, q)))
  {
    hide LexicalParts, CompactParts, PrintAll, ReadAll, LexicalFields, CompactFields, Utf8Length, Tokens;
    CompiledReadsBack(t, q);
    LexicalPartsAre(t, q);
    CompactPartsAre(t, q);
  }

  predicate Capped(q: Query)
  {
    |q.terms| <= 16 && (q.near == None || |q.near.value.0| <= 10) && q.limit <= 200
  }

  /** The bytes of a text are those of its characters: one to four each. */
  lemma {:induction false} Utf8Is(a: string, b: string)
    ensures Utf8Length(a + b) == Utf8Length(a) + Utf8Length(b)
  {
    if a == "" {
      assert a + b == b;
    } else {
      Utf8Is(a[1..], b);
      assert (a + b)[1..] == a[1..] + b;
    }
  }

  lemma Utf8Character(c: char)
    ensures Utf8Length([c]) <= 1 <==> c as int < 0x80
    ensures Utf8Length([c]) <= 2 <==> c as int < 0x800
    ensures Utf8Length([c]) <= 3 <==> c as int < 0x1_0000
    ensures 1 <= Utf8Length([c]) <= 4
  {
    assert Utf8Length([c][1..]) == 0;
  }

  // ---------------------------------------------------------------- two tiers, one result

  type MsgId = nat

  datatype Tier = LexicalTier | CompactTier

  datatype Hit = Hit(message: MsgId, tier: Tier)

  /** The rows whose message has not been seen, tagged with their tier. */
  function Unseen(seen: set<MsgId>, rows: seq<MsgId>, tier: Tier): seq<Hit>
    decreases |rows|
  {
    if rows == [] then []
    else if rows[0] in seen then Unseen(seen, rows[1..], tier)
    else [Hit(rows[0], tier)] + Unseen(seen + {rows[0]}, rows[1..], tier)
  }

  function Seen(seen: set<MsgId>, rows: seq<MsgId>): set<MsgId>
  {
    seen + set i | 0 <= i < |rows| :: rows[i]
  }

  function Limit(q: Query): int
  {
    var l := if q.limit == 0 then DEFAULT_LIMIT else q.limit;
    if l < MAX_LIMIT then l else MAX_LIMIT
  }

  /** `xs[:n]`, which for a negative `n` drops that many from the end. */
  function Slice<T>(xs: seq<T>, n: int): seq<T>
  {
    if n >= |xs| then xs else if n >= 0 then xs[..n] else if -n <= |xs| then xs[..|xs| + n] else []
  }

  /** `run`, given what each tier's query returned; a tier whose expression is empty is not queried. */
  function Results(q: Query, lexical: seq<MsgId>, compact: seq<MsgId>): seq<Hit>
  {
    var first := Unseen({}, lexical, LexicalTier);
    var second := if |first| < Limit(q) then Unseen(Seen({}, lexical), compact, CompactTier) else [];
    Slice(first + second, Limit(q))
  }

  /** Distinct messages of one tier: exactly those among `rows` that had not been seen. */
  ghost predicate FreshHits(hits: seq<Hit>, seen: set<MsgId>, rows: seq<MsgId>, tier: Tier)
  {
    && (forall i :: 0 <= i < |hits| ==> hits[i].tier == tier && hits[i].message !in seen && hits[i].message in rows)
    && (forall i, j :: 0 <= i < j < |hits| ==> hits[i].message != hits[j].message)
    && (forall m :: m in rows && m !in seen ==> Hit(m, tier) in hits)
  }

  lemma FreshHead(hits: seq<Hit>, seen: set<MsgId>, x: MsgId, rest: seq<MsgId>, tier: Tier)
    requires x !in seen && FreshHits(hits, seen + {x}, rest, tier)
    ensures FreshHits([Hit(x, tier)] + hits, seen, [x] + rest, tier)
  {
    var all := [Hit(x, tier)] + hits;
    assert forall i :: 1 <= i < |all| ==> all[i] == hits[i - 1];
    forall m | m in [x] + rest && m !in seen ensures Hit(m, tier) in all {
      if m == x { assert all[0] == Hit(x, tier); }
    }
  }

  lemma {:induction false} UnseenIs(seen: set<MsgId>, rows: seq<MsgId>, tier: Tier)
    ensures FreshHits(Unseen(seen, rows, tier), seen, rows, tier)
    decreases |rows|
  {
    if rows != [] {
      var x, rest := rows[0], rows[1..];
      assert rows == [x] + rest;
      if x in seen {
        UnseenIs(seen, rest, tier);
      } else {
        UnseenIs(seen + {x}, rest, tier);
        hide FreshHits;
        FreshHead(Unseen(seen + {x}, rest, tier), seen, x, rest, tier);
      }
    }
  }

  /** For a limit that is not negative, 0 standing for the default: distinct messages, every lexical hit before
      every compact one, at most the limit; and while there is room no lexical row is left out. */
  lemma RunIsRanked(q: Query, lexical: seq<MsgId>, compact: seq<MsgId>)
    requires q.limit >= 0
    ensures var r := Results(q, lexical, compact);
      && |r| <= Limit(q) && Limit(q) == (if q.limit == 0 then 50 else if q.limit < 200 then q.limit else 200)
      && (forall i, j :: 0 <= i < j < |r| ==> r[i].message != r[j].message)
      && (forall i, j :: 0 <= i < j < |r| && r[j].tier == LexicalTier ==> r[i].tier == LexicalTier)
      && (forall m :: m in lexical && |r| < Limit(q) ==> Hit(m, LexicalTier) in r)
      && (forall i :: 0 <= i < |r| ==> r[i].message in (if r[i].tier == LexicalTier then lexical else compact))
  {
    hide Unseen;
    var first := Unseen({}, lexical, LexicalTier);
    UnseenIs({}, lexical, LexicalTier);
    UnseenIs(Seen({}, lexical), compact, CompactTier);
    var second := if |first| < Limit(q) then Unseen(Seen({}, lexical), compact, CompactTier) else [];
    var all := first + second;
    forall i, j | 0 <= i < j < |all| ensures all[i].message != all[j].message {
      if i < |first| <= j {
        assert all[i].message in lexical;
        assert all[j].message !in Seen({}, lexical);
        SeenHas({}, lexical, all[i].message);
      }
    }
  }

  lemma SeenHas(seen: set<MsgId>, rows: seq<MsgId>, m: MsgId)
    ensures m in Seen(seen, rows) <==> m in seen || m in rows
  {
  }

  /** A negative limit is no limit on either tier, and then drops hits from the end. */
  lemma NegativeLimitDropsFromTheEnd(q: Query, lexical: seq<MsgId>, compact: seq<MsgId>)
    requires q.limit < 0
    ensures var first := Unseen({}, lexical, LexicalTier);
      Results(q, lexical, compact) == if -q.limit <= |first| then first[..|first| + q.limit] else []
  {
    var first := Unseen({}, lexical, LexicalTier);
    hide Unseen;
    assert first + [] == first;
  }

  /** The loop over one tier's rows: append what has not been seen. */
  method AddTier(found: seq<Hit>, seen0: set<MsgId>, rows: seq<MsgId>, tier: Tier)
      returns (r: seq<Hit>, seen: set<MsgId>)
    ensures r == found + Unseen(seen0, rows, tier)
    ensures seen == Seen(seen0, rows)
  {
    seen, r := seen0, found;
    assert rows[0..] == rows;
    for i := 0 to |rows|
      invariant seen == Seen(seen0, rows[..i])
      invariant r + Unseen(seen, rows[i..], tier) == found + Unseen(seen0, rows, tier)
    {
      hide Seen;
      SeenMore(seen0, rows, i);
      SeenHas(seen0, rows[..i], rows[i]);
      if rows[i] !in seen {
        assert r + ([Hit(rows[i], tier)] + Unseen(seen + {rows[i]}, rows[i + 1..], tier))
            == r + [Hit(rows[i], tier)] + Unseen(seen + {rows[i]}, rows[i + 1..], tier);
        seen := seen + {rows[i]};
        r := r + [Hit(rows[i], tier)];
      } else {
        assert seen + {rows[i]} == seen;
      }
    }
    assert rows[..|rows|] == rows;
  }

  /** `run`: `lexical` and `compact` are what the two tiers' queries return. `None` stands for
      QueryTooComplex; an empty expression is not put to the engine. */
  method Run(t: SearchText.Tables, q: Query, lexical: seq<MsgId>, compact: seq<MsgId>) returns (r: Option<seq<Hit>>)
    ensures var lex, comp := Guarded(q, LexicalParts(t, q)), Guarded(q, CompactParts(t, q));
      r == if lex == None || comp == None then None
           else Some(Results(q, if lex.value == "" then [] else lexical, if comp.value == "" then [] else compact))
  {
    hide Unseen, Seen, Guarded, LexicalParts, CompactParts;
    var lex := CompileLexical(t, q);
    if lex == None { return None; }
    var hits, seen := AddTier([], {}, if lex.value == "" then [] else lexical, LexicalTier);
    assert hits == Unseen({}, if lex.value == "" then [] else lexical, LexicalTier);
    var comp := CompileCompact(t, q);
    if comp == None { return None; }
    if comp.value != "" && |hits| < Limit(q) {
      hits, seen := AddTier(hits, seen, compact, CompactTier);
    } else {
      NothingUnseen(seen);
      assert hits + [] == hits;
    }
    return Some(Slice(hits, Limit(q)));
  }

  lemma NothingUnseen(seen: set<MsgId>)
    ensures Unseen(seen, [], CompactTier) == []
  {
  }

  lemma SeenMore(seen: set<MsgId>, rows: seq<MsgId>, i: nat)
    requires i < |rows|
    ensures Seen(seen, rows[..i + 1]) == Seen(seen, rows[..i]) + {rows[i]}
    ensures rows[i..][0] == rows[i] && rows[i..][1..] == rows[i + 1..]
  {
    forall m ensures m in Seen(seen, rows[..i + 1]) <==> m in Seen(seen, rows[..i]) + {rows[i]} {
      SeenHas(seen, rows[..i + 1], m);
      SeenHas(seen, rows[..i], m);
      assert rows[..i + 1] == rows[..i] + [rows[i]];
    }
  }
}
