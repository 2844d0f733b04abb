/** Search normalisation and snippets (search/normalise.py, search/snippet.py).

    One per-character core drives the index, the query and the mapping from a match in the normalised
    text back to the original. The Unicode tables, NFC of one character and case folding of one
    character, are parameters. */
module SearchText {
  import opened Prelude
  import Sql = Tables

  /** The Unicode tables used per character. */
  datatype Tables = Tables(nfc: char -> string, casefold: char -> string)

  const SPACE: string := " "

  // ---------------------------------------------------------------- one character

  predicate IsDropped(n: int)
  {
    || 0x064B <= n <= 0x065F || n == 0x0670 || n == 0x0640
    || n == 0x200E || n == 0x200F || 0x202A <= n <= 0x202E || 0x2066 <= n <= 0x2069
  }

  /** `_fold`: letter variants and digits to one form, marks and controls to nothing. */
  function Fold(c: char): string
  {
    var n := c as int;
    if n == 0x064A || n == 0x0649 || n == 0x0626 then [0x06CC as char]
    else if n == 0x0643 then [0x06A9 as char]
    else if n == 0x0623 || n == 0x0625 || n == 0x0622 || n == 0x0671 then [0x0627 as char]
    else if n == 0x0624 then [0x0648 as char]
    else if 0x0660 <= n <= 0x0669 then [('0' as int + n - 0x0660) as char]
    else if 0x06F0 <= n <= 0x06F9 then [('0' as int + n - 0x06F0) as char]
    else if IsDropped(n) then ""
    else [c]
  }

  // ---------------------------------------------------------------- what a character is folded to

  /** White space and the zero-width non-joiner part words. */
  predicate Separates(c: char)
  {
    IsSpace(c) || c == 0x200C as char
  }

  /** Short vowels and other marks, the superscript alef, tatweel, and the controls of writing direction. */
  predicate Invisible(c: char)
  {
    || 0x064B as char <= c <= 0x065F as char
    || c as int in {0x0670, 0x0640, 0x200E, 0x200F, 0x202A, 0x202B, 0x202C, 0x202D, 0x202E, 0x2066,
                   0x2067, 0x2068, 0x2069}
  }

  /** The letter is a variant of `base`: both forms of Yeh that are not Persian and Yeh with hamza of the Persian
      Yeh, the Arabic Kaf of the Persian, the four decorated Alefs of Alef, Waw with hamza of Waw. */
  predicate VariantOf(c: char, base: char)
  {
    (c as int, base as int) in {
      (0x064A, 0x06CC), (0x0649, 0x06CC), (0x0626, 0x06CC), (0x0643, 0x06A9), (0x0623, 0x0627), (0x0625, 0x0627),
      (0x0622, 0x0627), (0x0671, 0x0627), (0x0624, 0x0648)}
  }

  /** The character is the Arabic-Indic or the Persian digit of this value. */
  predicate DigitOf(c: char, value: nat)
  {
    value <= 9 && (c as int == 0x0660 + value || c as int == 0x06F0 + value)
  }

  function Ascii(value: nat): char
    requires value <= 9
  {
    "0123456789"[value]
  }

  ghost predicate Ordinary(c: char)
  {
    !Separates(c) && !Invisible(c) && (forall b :: !VariantOf(c, b)) && (forall v: nat :: !DigitOf(c, v))
  }

  /** What one character of a normal form becomes. */
  ghost predicate Becomes(t: Tables, sep: string, c: char, out: string)
  {
    && (Separates(c) ==> out == sep)
    && (Invisible(c) ==> out == "")
    && (forall b :: VariantOf(c, b) ==> out == t.casefold(b))
    && (forall v: nat :: DigitOf(c, v) ==> out == t.casefold(Ascii(v)))
    && (Ordinary(c) ==> out == t.casefold(c))
  }

  lemma PieceBecomes(t: Tables, sep: string, c: char)
    ensures Becomes(t, sep, c, Piece(t, sep, c))
  {
    var n := c as int;
    if Ordinary(c) {
      assert !VariantOf(c, 0x06CC as char) && !VariantOf(c, 0x06A9 as char);
      assert !VariantOf(c, 0x0627 as char) && !VariantOf(c, 0x0648 as char);
      assert 0x0660 <= n <= 0x0669 ==> DigitOf(c, n - 0x0660);
      assert 0x06F0 <= n <= 0x06F9 ==> DigitOf(c, n - 0x06F0);
    }
  }

  /** Every character is of one of these kinds, so what it becomes is settled. */
  lemma BecomesOne(t: Tables, sep: string, c: char, out: string)
    ensures Becomes(t, sep, c, out) <==> out == Piece(t, sep, c)
  {
    PieceBecomes(t, sep, c);
    hide Piece;
    if v: nat :| DigitOf(c, v) {
    } else if b :| VariantOf(c, b) {
    } else if !Separates(c) && !Invisible(c) {
      assert Ordinary(c);
    }
  }

  function Piece(t: Tables, sep: string, c: char): string
  {
    if c as int == 0x200C || IsSpace(c) then sep
    else if Fold(c) == "" then ""
    else t.casefold(Fold(c)[0])
  }

  function Pieces(t: Tables, sep: string, s: string): string
  {
    if s == "" then "" else Pieces(t, sep, s[..|s| - 1]) + Piece(t, sep, s[|s| - 1])
  }

  /** What one original character becomes. */
  function NormChar(t: Tables, sep: string, c: char): string
  {
    Pieces(t, sep, t.nfc(c))
  }

  // ---------------------------------------------------------------- a text

  function Norm(t: Tables, sep: string, text: string): string
  {
    if text == "" then "" else Norm(t, sep, text[..|text| - 1]) + NormChar(t, sep, text[|text| - 1])
  }

  function Repeat(x: nat, n: nat): seq<nat>
  {
    seq(n, _ => x)
  }

  /** For each normalised character, the index of the original character it came from. */
  function Origin(t: Tables, sep: string, text: string): seq<nat>
  {
    if text == "" then []
    else Origin(t, sep, text[..|text| - 1]) + Repeat(|text| - 1, |NormChar(t, sep, text[|text| - 1])|)
  }

  /** `_core`: its outer loop. */
  method Core(t: Tables, text: string, sep: string) returns (out: string, origin: seq<nat>)
    ensures out == Norm(t, sep, text) && origin == Origin(t, sep, text)
  {
    hide NormChar;
    out, origin := "", [];
    for i := 0 to |text|
      invariant out == Norm(t, sep, text[..i]) && origin == Origin(t, sep, text[..i])
    {
      assert text[..i + 1][..i] == text[..i];
      var piece := EmitChar(t, text[i], sep);
      out := out + piece;
      for j := 0 to |piece|
        invariant origin == Origin(t, sep, text[..i]) + Repeat(i, j)
      {
        assert Repeat(i, j + 1) == Repeat(i, j) + [i];
        origin := origin + [i];
      }
    }
    assert text[..|text|] == text;
  }

  /** The inner loops: the characters of one normal form, each folded. */
  method EmitChar(t: Tables, c: char, sep: string) returns (out: string)
    ensures out == NormChar(t, sep, c)
    ensures |t.nfc(c)| == 1 ==> Becomes(t, sep, t.nfc(c)[0], out)
  {
    if |t.nfc(c)| == 1 { PieceAlone(t, sep, t.nfc(c)); }
    hide Piece;
    var chars := t.nfc(c);
    out := "";
    for k := 0 to |chars|
      invariant out == Pieces(t, sep, chars[..k])
    {
      assert chars[..k + 1][..k] == chars[..k];
      out := out + Piece(t, sep, chars[k]);
    }
    assert chars[..|chars|] == chars;
  }

  lemma PieceAlone(t: Tables, sep: string, chars: string)
    requires |chars| == 1
    ensures Becomes(t, sep, chars[0], Pieces(t, sep, chars))
  {
    PieceBecomes(t, sep, chars[0]);
    hide Piece;
    assert Pieces(t, sep, chars[..0]) == "";
  }

  function ToSearch(t: Tables, text: string): string
  {
    Norm(t, SPACE, text)
  }

  function ToCompact(t: Tables, text: string): string
  {
    Norm(t, "", text)
  }

  lemma NormEnds(t: Tables, sep: string, s: string, c: char)
    ensures Norm(t, sep, "") == ""
    ensures Norm(t, sep, s + [c]) == Norm(t, sep, s) + NormChar(t, sep, c)
  {
    hide NormChar;
    assert (s + [c])[..|s|] == s;
  }

  /** Normalisation is a homomorphism: no character looks at its neighbours. */
  lemma {:induction false} NormAppend(t: Tables, sep: string, a: string, b: string)
    ensures Norm(t, sep, a + b) == Norm(t, sep, a) + Norm(t, sep, b)
  {
    hide Norm, NormChar;
    if b == "" {
      NormEnds(t, sep, "", ' ');
      assert a + b == a;
    } else {
      var b', c := b[..|b| - 1], b[|b| - 1];
      NormAppend(t, sep, a, b');
      NormEnds(t, sep, a + b', c);
      NormEnds(t, sep, b', c);
      assert b == b' + [c];
      assert a + b == (a + b') + [c];
    }
  }

  lemma MiddleSlice(x: string, y: string, z: string)
    ensures (x + y + z)[|x|..|x| + |y|] == y
  {
  }

  /** A slice of the original normalises to a slice of the normalised text. */
  lemma NormSlice(t: Tables, sep: string, text: string, a: nat, b: nat)
    requires a <= b <= |text|
    ensures |Norm(t, sep, text[..a])| <= |Norm(t, sep, text[..b])| <= |Norm(t, sep, text)|
    ensures Norm(t, sep, text[a..b]) == Norm(t, sep, text)[|Norm(t, sep, text[..a])|..|Norm(t, sep, text[..b])|]
  {
    hide Norm;
    var x, y, z := text[..a], text[a..b], text[b..];
    assert text[..b] == x + y;
    assert text == text[..b] + z;
    NormAppend(t, sep, x, y);
    NormAppend(t, sep, text[..b], z);
    MiddleSlice(Norm(t, sep, x), Norm(t, sep, y), Norm(t, sep, z));
  }

  /** The origin map points at the character whose normalised form holds the position. */
  lemma {:induction false} OriginLocates(t: Tables, sep: string, text: string, j: nat)
    requires j < |Norm(t, sep, text)|
    ensures |Origin(t, sep, text)| == |Norm(t, sep, text)| && Origin(t, sep, text)[j] < |text|
    ensures var i := Origin(t, sep, text)[j];
      |Norm(t, sep, text[..i])| <= j < |Norm(t, sep, text[..i + 1])|
  {
    hide NormChar;
    var n := |text| - 1;
    var front := text[..n];
    OriginLength(t, sep, text);
    OriginLength(t, sep, front);
    assert text[..n + 1] == text;
    if j < |Norm(t, sep, front)| {
      OriginLocates(t, sep, front, j);
      var i := Origin(t, sep, front)[j];
      assert front[..i] == text[..i] && front[..i + 1] == text[..i + 1];
    }
  }

  lemma {:induction false} OriginLength(t: Tables, sep: string, text: string)
    ensures |Origin(t, sep, text)| == |Norm(t, sep, text)|
  {
    if text != "" {
      hide NormChar;
      OriginLength(t, sep, text[..|text| - 1]);
    }
  }

  // ---------------------------------------------------------------- matches and their spans

  datatype Span = Span(lo: nat, hi: nat)

  predicate MatchAt(s: string, term: string, j: nat)
  {
    j + |term| <= |s| && s[j..j + |term|] == term
  }

  /** The query form of a term. */
  function Query(t: Tables, term: string): string
  {
    Strip(ToSearch(t, term))
  }

  /** Term `i` occurs in the normalised text at `j`. */
  predicate Hit(t: Tables, text: string, terms: seq<string>, i: nat, j: nat)
  {
    i < |terms| && Query(t, terms[i]) != "" && MatchAt(ToSearch(t, text), Query(t, terms[i]), j)
  }

  function SpanOf(origin: seq<nat>, j: nat, len: nat): Span
    requires 0 < len && j + len <= |origin|
  {
    Span(origin[j], origin[j + len - 1] + 1)
  }

  lemma SubSlice(s: string, a: nat, b: nat, j: nat, l: nat)
    requires a <= j <= l <= b <= |s|
    ensures s[a..b][j - a..l - a] == s[j..l]
  {
    forall k | 0 <= k < l - j ensures s[a..b][j - a..l - a][k] == s[j..l][k] {
    }
  }

  /** The raw span of a hit lies in the text, is not empty, and its original slice normalises to text
      that contains the term. */
  lemma HitSpanSound(t: Tables, text: string, terms: seq<string>, i: nat, j: nat)
    requires Hit(t, text, terms, i, j)
    ensures |Origin(t, SPACE, text)| == |ToSearch(t, text)|
    ensures var sp := SpanOf(Origin(t, SPACE, text), j, |Query(t, terms[i])|);
      && sp.lo < sp.hi <= |text|
      && exists k :: MatchAt(ToSearch(t, text[sp.lo..sp.hi]), Query(t, terms[i]), k)
  {
    hide Norm, Origin, Query;
    var q := Query(t, terms[i]);
    OriginLength(t, SPACE, text);
    SpanSound(t, text, q, j);
  }

  /** The occurrence at `j` lies in what the slice becomes. */
  predicate Holds(t: Tables, text: string, j: nat, len: nat, lo: nat, hi: nat)
    requires lo <= hi <= |text|
  {
    |ToSearch(t, text[..lo])| <= j && j + len <= |ToSearch(t, text[..hi])|
  }

  /** And it is the least such: every slice of the text that holds the occurrence contains the span. */
  lemma HitSpanLeast(t: Tables, text: string, terms: seq<string>, i: nat, j: nat)
    requires Hit(t, text, terms, i, j)
    ensures |Origin(t, SPACE, text)| == |ToSearch(t, text)|
    ensures var len := |Query(t, terms[i])|;
      var sp := SpanOf(Origin(t, SPACE, text), j, len);
      && sp.lo <= sp.hi <= |text| && Holds(t, text, j, len, sp.lo, sp.hi)
      && forall lo: nat, hi: nat :: lo <= hi <= |text| && Holds(t, text, j, len, lo, hi) ==> lo <= sp.lo && sp.hi <= hi
  {
    hide Norm, Origin, Query;
    HitSpanSound(t, text, terms, i, j);
    var len := |Query(t, terms[i])|;
    var sp := SpanOf(Origin(t, SPACE, text), j, len);
    OriginLocates(t, SPACE, text, j);
    OriginLocates(t, SPACE, text, j + len - 1);
    forall lo: nat, hi: nat | lo <= hi <= |text| && Holds(t, text, j, len, lo, hi) ensures lo <= sp.lo && sp.hi <= hi {
      if lo > sp.lo { NormGrows(t, SPACE, text, sp.lo + 1, lo); }
      if hi < sp.hi { NormGrows(t, SPACE, text, hi, sp.hi - 1); }
    }
  }

  lemma SpanSound(t: Tables, text: string, q: string, j: nat)
    requires q != "" && MatchAt(ToSearch(t, text), q, j) && |Origin(t, SPACE, text)| == |ToSearch(t, text)|
    ensures var sp := SpanOf(Origin(t, SPACE, text), j, |q|);
      && sp.lo < sp.hi <= |text|
      && exists k :: MatchAt(ToSearch(t, text[sp.lo..sp.hi]), q, k)
  {
    hide Norm, Origin;
    OriginLocates(t, SPACE, text, j);
    OriginLocates(t, SPACE, text, j + |q| - 1);
    var sp := SpanOf(Origin(t, SPACE, text), j, |q|);
    LocatedInOrder(t, SPACE, text, sp.lo, sp.hi - 1, j, j + |q| - 1);
    NormSlice(t, SPACE, text, sp.lo, sp.hi);
    var a, b := |Norm(t, SPACE, text[..sp.lo])|, |Norm(t, SPACE, text[..sp.hi])|;
    SubSlice(Norm(t, SPACE, text), a, b, j, j + |q|);
    assert MatchAt(ToSearch(t, text[sp.lo..sp.hi]), q, j - a);
  }

  lemma NormGrows(t: Tables, sep: string, text: string, a: nat, b: nat)
    requires a <= b <= |text|
    ensures |Norm(t, sep, text[..a])| <= |Norm(t, sep, text[..b])|
  {
    hide Norm;
    NormSlice(t, sep, text, a, b);
  }

  lemma LocatedInOrder(t: Tables, sep: string, text: string, i: nat, k: nat, j: nat, l: nat)
    requires i < |text| && k < |text| && j <= l
    requires |Norm(t, sep, text[..i])| <= j && l < |Norm(t, sep, text[..k + 1])|
    ensures i <= k
  {
    hide Norm;
    NormGrows(t, sep, text, if k + 1 <= i then k + 1 else i, i);
  }

  // ---------------------------------------------------------------- canonical span lists

  ghost predicate Covers(spans: seq<Span>, x: nat)
  {
    exists k :: 0 <= k < |spans| && spans[k].lo <= x < spans[k].hi
  }

  /** Not empty, inside the text, in order, and with a gap between neighbours. */
  ghost predicate Canonical(spans: seq<Span>, n: nat)
  {
    && (forall k :: 0 <= k < |spans| ==> spans[k].lo < spans[k].hi <= n)
    && (forall k, l :: 0 <= k < l < |spans| ==> spans[k].hi < spans[l].lo)
  }

  lemma CoversTail(spans: seq<Span>, n: nat, x: nat)
    requires Canonical(spans, n) && spans != []
    ensures Covers(spans, x) <==> spans[0].lo <= x < spans[0].hi || Covers(spans[1..], x)
    ensures Covers(spans[1..], x) ==> spans[0].hi < x
  {
    if Covers(spans, x) && !(spans[0].lo <= x < spans[0].hi) {
      var k :| 0 <= k < |spans| && spans[k].lo <= x < spans[k].hi;
      assert spans[1..][k - 1] == spans[k];
    }
    if Covers(spans[1..], x) {
      var k :| 0 <= k < |spans[1..]| && spans[1..][k].lo <= x < spans[1..][k].hi;
      assert spans[k + 1] == spans[1..][k];
    }
  }

  /** A canonical list is determined by what it covers. */
  lemma {:induction false} CanonicalUnique(a: seq<Span>, b: seq<Span>, n: nat)
    requires Canonical(a, n) && Canonical(b, n) && forall x: nat :: Covers(a, x) <==> Covers(b, x)
    ensures a == b
  {
    if a == [] || b == [] {
      NothingCovered(a, b, n);
    } else {
      SameFirst(a, b, n);
      hide Covers;
      forall x: nat ensures Covers(a[1..], x) <==> Covers(b[1..], x) {
        CoversTail(a, n, x);
        CoversTail(b, n, x);
      }
      assert Canonical(a[1..], n) && Canonical(b[1..], n);
      hide Canonical;
      CanonicalUnique(a[1..], b[1..], n);
      assert a == [a[0]] + a[1..] && b == [b[0]] + b[1..];
    }
  }

  lemma NothingCovered(a: seq<Span>, b: seq<Span>, n: nat)
    requires Canonical(a, n) && Canonical(b, n) && forall x: nat :: Covers(a, x) <==> Covers(b, x)
    ensures a == [] <==> b == []
  {
    assert a != [] ==> Covers(a, a[0].lo);
    assert b != [] ==> Covers(b, b[0].lo);
  }

  lemma SameFirst(a: seq<Span>, b: seq<Span>, n: nat)
    requires Canonical(a, n) && Canonical(b, n) && a != [] && b != [] && forall x: nat :: Covers(a, x) <==> Covers(b, x)
    ensures a[0] == b[0]
  {
    hide Covers;
    forall x: nat
      ensures Covers(a, x) <==> a[0].lo <= x < a[0].hi || Covers(a[1..], x)
      ensures Covers(b, x) <==> b[0].lo <= x < b[0].hi || Covers(b[1..], x)
      ensures Covers(a[1..], x) ==> a[0].hi < x
      ensures Covers(b[1..], x) ==> b[0].hi < x
    {
      CoversTail(a, n, x);
      CoversTail(b, n, x);
    }
    assert Covers(a, a[0].lo) && Covers(b, b[0].lo);
    assert a[0].lo == b[0].lo;
    assert !Covers(a, a[0].hi) && !Covers(b, b[0].hi);
  }

  // ---------------------------------------------------------------- merging

  /** Tuple order: by start, then by end. */
  predicate Leq(a: Span, b: Span)
  {
    a.lo < b.lo || (a.lo == b.lo && a.hi <= b.hi)
  }

  /** `sorted(spans)` */
  function Sorted(spans: seq<Span>): seq<Span>
  {
    Sql.Sort(spans, Leq)
  }

  lemma SortedIs(spans: seq<Span>)
    ensures Sql.Sorted(Sorted(spans), Leq) && forall y :: y in Sorted(spans) <==> y in spans
  {
    assert Sql.IsOrder(Leq);
    Sql.SortSorted(spans, Leq);
    Sql.SameElements(Sorted(spans), spans);
  }

  ghost predicate CoveredBy(spans: seq<Span>, n: nat, x: nat)
    requires n <= |spans|
  {
    exists k :: 0 <= k < n && spans[k].lo <= x < spans[k].hi
  }

  /** One turn of the merge: grow the last span or start a new one. */
  function Absorb(out: seq<Span>, s: Span): seq<Span>
  {
    if out != [] && s.lo <= out[|out| - 1].hi then
      out[..|out| - 1] + [Span(out[|out| - 1].lo, if out[|out| - 1].hi > s.hi then out[|out| - 1].hi else s.hi)]
    else out + [s]
  }

  lemma AbsorbKeeps(out: seq<Span>, s: Span, n: nat)
    requires Canonical(out, n) && s.lo < s.hi <= n && (out != [] ==> out[|out| - 1].lo <= s.lo)
    ensures Canonical(Absorb(out, s), n)
    ensures Absorb(out, s) != [] && Absorb(out, s)[|Absorb(out, s)| - 1].lo <= s.lo
  {
    var out' := Absorb(out, s);
    if out != [] && s.lo <= out[|out| - 1].hi {
      assert forall k :: 0 <= k < |out| - 1 ==> out'[k] == out[k];
    }
  }

  lemma AbsorbCovers(out: seq<Span>, s: Span, x: nat)
    requires s.lo < s.hi && (out != [] ==> out[|out| - 1].lo <= s.lo)
    ensures Covers(Absorb(out, s), x) <==> Covers(out, x) || s.lo <= x < s.hi
  {
    var out', last := Absorb(out, s), |out| - 1;
    if out != [] && s.lo <= out[last].hi {
      assert forall k :: 0 <= k < last ==> out'[k] == out[k];
      if Covers(out, x) {
        var k :| 0 <= k < |out| && out[k].lo <= x < out[k].hi;
        assert out'[k].lo <= x < out'[k].hi;
      }
      if s.lo <= x < s.hi {
        assert out'[last].lo <= x < out'[last].hi;
      }
      if Covers(out', x) {
        var k :| 0 <= k < |out'| && out'[k].lo <= x < out'[k].hi;
        assert k < last ==> out[k].lo <= x < out[k].hi;
        assert k == last ==> out[last].lo <= x < out[last].hi || s.lo <= x < s.hi;
      }
    } else {
      assert forall k :: 0 <= k < |out| ==> out'[k] == out[k];
      if Covers(out, x) {
        var k :| 0 <= k < |out| && out[k].lo <= x < out[k].hi;
        assert out'[k].lo <= x < out'[k].hi;
      }
      if s.lo <= x < s.hi {
        assert out'[|out|].lo <= x < out'[|out|].hi;
      }
    }
  }

  /** `_merge`: sorted, separated by gaps, and covering exactly the union of what it was given. */
  method Merge(spans: seq<Span>, ghost n: nat) returns (out: seq<Span>)
    requires forall k :: 0 <= k < |spans| ==> spans[k].lo < spans[k].hi <= n
    ensures Canonical(out, n)
    ensures forall x: nat :: Covers(out, x) <==> Covers(spans, x)
  {
    var todo := Sorted(spans);
    SortedReady(spans, n);
    out := [];
    MergedNothing(todo, n);
    hide Sorted, Ready, Merged, Absorb, Covers, Canonical;
    for i := 0 to |todo|
      invariant Merged(todo, i, out, n)
    {
      MergedMore(todo, i, out, n);
      out := MergeOne(out, todo[i]);
    }
    forall x: nat ensures Covers(out, x) <==> Covers(spans, x) {
      MergedCovers(todo, |todo|, out, n, x);
      SortedCovers(spans, x);
    }
  }

  /** In bounds and in order of their starts. */
  ghost predicate Ready(todo: seq<Span>, n: nat)
  {
    && (forall k :: 0 <= k < |todo| ==> todo[k].lo < todo[k].hi <= n)
    && (forall k, l :: 0 <= k < l < |todo| ==> todo[k].lo <= todo[l].lo)
  }

  /** `out` is what the first `i` spans merge to. */
  ghost predicate Merged(todo: seq<Span>, i: nat, out: seq<Span>, n: nat)
  {
    && i <= |todo|
    && Canonical(out, n)
    && (out != [] ==> i > 0 && out[|out| - 1].lo <= todo[i - 1].lo)
    && (forall x: nat :: Covers(out, x) <==> CoveredBy(todo, i, x))
  }

  lemma SortedReady(spans: seq<Span>, n: nat)
    requires forall k :: 0 <= k < |spans| ==> spans[k].lo < spans[k].hi <= n
    ensures Ready(Sorted(spans), n)
  {
    var todo := Sorted(spans);
    SortedIs(spans);
    hide Sorted;
    assert forall k :: 0 <= k < |todo| ==> todo[k] in spans;
    assert forall k, l :: 0 <= k < l < |todo| ==> Leq(todo[k], todo[l]);
  }

  lemma MergedNothing(todo: seq<Span>, n: nat)
    ensures Merged(todo, 0, [], n)
  {
  }

  lemma MergedMore(todo: seq<Span>, i: nat, out: seq<Span>, n: nat)
    requires Ready(todo, n) && i < |todo| && Merged(todo, i, out, n)
    ensures Merged(todo, i + 1, Absorb(out, todo[i]), n)
  {
    AbsorbKeeps(out, todo[i], n);
    forall x: nat ensures Covers(Absorb(out, todo[i]), x) <==> CoveredBy(todo, i + 1, x) {
      AbsorbCovers(out, todo[i], x);
      CoveredMore(todo, i, x);
    }
    hide Canonical, Covers, CoveredBy;
  }

  lemma CoveredMore(todo: seq<Span>, i: nat, x: nat)
    requires i < |todo|
    ensures CoveredBy(todo, i + 1, x) <==> CoveredBy(todo, i, x) || todo[i].lo <= x < todo[i].hi
  {
  }

  lemma MergedCovers(todo: seq<Span>, i: nat, out: seq<Span>, n: nat, x: nat)
    requires Merged(todo, i, out, n)
    ensures Canonical(out, n) && i <= |todo| && (Covers(out, x) <==> CoveredBy(todo, i, x))
  {
  }

  method MergeOne(out: seq<Span>, s: Span) returns (r: seq<Span>)
    ensures r == Absorb(out, s)
  {
    var last := |out| - 1;
    if out != [] && s.lo <= out[last].hi {
      r := out[..last] + [Span(out[last].lo, if out[last].hi > s.hi then out[last].hi else s.hi)];
    } else {
      r := out + [s];
    }
  }

  lemma SortedCovers(spans: seq<Span>, x: nat)
    ensures CoveredBy(Sorted(spans), |Sorted(spans)|, x) <==> Covers(spans, x)
  {
    var todo := Sorted(spans);
    SortedIs(spans);
    hide Sorted, Sql.Sorted;
    if Covers(spans, x) {
      var k :| 0 <= k < |spans| && spans[k].lo <= x < spans[k].hi;
      assert spans[k] in todo;
      var l :| 0 <= l < |todo| && todo[l] == spans[k];
      assert todo[l].lo <= x < todo[l].hi;
    }
    if CoveredBy(todo, |todo|, x) {
      var l :| 0 <= l < |todo| && todo[l].lo <= x < todo[l].hi;
      assert todo[l] in spans;
      var k :| 0 <= k < |spans| && spans[k] == todo[l];
      assert spans[k].lo <= x < spans[k].hi;
    }
  }

  // ---------------------------------------------------------------- rendering

  /** `s.find(term, start)` */
  method Find(s: string, term: string, start: nat) returns (j: int)
    ensures j == -1 || start <= j
    ensures j == -1 ==> forall k: nat :: start <= k ==> !MatchAt(s, term, k)
    ensures j >= 0 ==> MatchAt(s, term, j) && forall k: nat :: start <= k < j ==> !MatchAt(s, term, k)
  {
    j := start;
    while j + |term| <= |s|
      invariant start <= j
      invariant forall k: nat :: start <= k < j ==> !MatchAt(s, term, k)
    {
      if s[j..j + |term|] == term { return; }
      j := j + 1;
    }
    j := -1;
  }

  /** `sp` is the span of an occurrence of `q` below `limit`. */
  ghost predicate RawBelow(norm: string, origin: seq<nat>, q: string, sp: Span, limit: nat)
    requires q != "" && |origin| == |norm|
  {
    exists j: nat :: j < limit && MatchAt(norm, q, j) && sp == SpanOf(origin, j, |q|)
  }

  ghost predicate Raw(norm: string, origin: seq<nat>, q: string, sp: Span)
    requires q != "" && |origin| == |norm|
  {
    exists j: nat :: MatchAt(norm, q, j) && sp == SpanOf(origin, j, |q|)
  }

  /** The find loop for one term: every occurrence, overlapping ones included, and nothing else. */
  method SpansOf(norm: string, origin: seq<nat>, q: string) returns (spans: seq<Span>)
    requires q != "" && |origin| == |norm|
    ensures forall sp :: sp in spans <==> Raw(norm, origin, q, sp)
  {
    spans := [];
    var start := 0;
    while true
      invariant start <= |norm| + 1
      invariant forall sp :: sp in spans <==> RawBelow(norm, origin, q, sp, start)
      decreases |norm| + 1 - start
    {
      var j := Find(norm, q, start);
      if j == -1 { break; }
      spans := spans + [SpanOf(origin, j, |q|)];
      start := j + 1;
    }
  }

  /** Hit `(i, j)` covers original position `x`. */
  ghost predicate HitCovers(t: Tables, text: string, terms: seq<string>, i: nat, j: nat, x: nat)
  {
    && Hit(t, text, terms, i, j)
    && |Origin(t, SPACE, text)| == |ToSearch(t, text)|
    && var sp := SpanOf(Origin(t, SPACE, text), j, |Query(t, terms[i])|); sp.lo <= x < sp.hi
  }

  /** `sp` is the raw span of a hit of one of the first `n` terms. */
  ghost predicate RawHit(t: Tables, text: string, terms: seq<string>, n: nat, sp: Span)
  {
    exists i: nat, j: nat :: i < n && Hit(t, text, terms, i, j) && |Origin(t, SPACE, text)| == |ToSearch(t, text)|
                   && sp == SpanOf(Origin(t, SPACE, text), j, |Query(t, terms[i])|)
  }

  /** `render`: the spans are canonical, and cover exactly the positions some occurrence of some term in
      the normalised text comes from. With CanonicalUnique this determines them. */
  method Render(t: Tables, text: string, terms: seq<string>) returns (spans: seq<Span>)
    ensures Canonical(spans, |text|)
    ensures forall x: nat :: Covers(spans, x) <==> exists i: nat, j: nat :: HitCovers(t, text, terms, i, j, x)
  {
    hide Norm, Origin, Strip;
    var norm, origin := Core(t, text, SPACE);
    OriginLength(t, SPACE, text);
    var raw: seq<Span> := [];
    for i := 0 to |terms|
      invariant forall sp :: sp in raw <==> RawHit(t, text, terms, i, sp)
    {
      var n, _ := Core(t, terms[i], SPACE);
      var q := Strip(n);
      assert q == Query(t, terms[i]);
      ghost var raw0 := raw;
      if q != "" {
        var more := SpansOf(norm, origin, q);
        raw := raw + more;
      }
      forall sp ensures sp in raw <==> RawHit(t, text, terms, i + 1, sp) {
        OneMoreTerm(t, text, terms, i, sp);
      }
    }
    RawInBounds(t, text, terms, raw);
    spans := Merge(raw, |text|);
    forall x: nat ensures Covers(spans, x) <==> exists i: nat, j: nat :: HitCovers(t, text, terms, i, j, x) {
      RawCovers(t, text, terms, raw, x);
    }
  }

  lemma OneMoreTerm(t: Tables, text: string, terms: seq<string>, i: nat, sp: Span)
    requires i < |terms| && |Origin(t, SPACE, text)| == |ToSearch(t, text)|
    ensures RawHit(t, text, terms, i + 1, sp) <==>
      RawHit(t, text, terms, i, sp)
      || (Query(t, terms[i]) != "" && Raw(ToSearch(t, text), Origin(t, SPACE, text), Query(t, terms[i]), sp))
  {
    hide Norm, Origin, Query;
    var q := Query(t, terms[i]);
    if q != "" && Raw(ToSearch(t, text), Origin(t, SPACE, text), q, sp) {
      var j: nat :| MatchAt(ToSearch(t, text), q, j) && sp == SpanOf(Origin(t, SPACE, text), j, |q|);
      assert Hit(t, text, terms, i, j);
    }
    if RawHit(t, text, terms, i + 1, sp) {
      var k: nat, j: nat :| k < i + 1 && Hit(t, text, terms, k, j) &&
        sp == SpanOf(Origin(t, SPACE, text), j, |Query(t, terms[k])|);
      assert k < i ==> RawHit(t, text, terms, i, sp);
      assert k == i ==> Raw(ToSearch(t, text), Origin(t, SPACE, text), q, sp);
    }
  }

  lemma RawInBounds(t: Tables, text: string, terms: seq<string>, raw: seq<Span>)
    requires forall sp :: sp in raw <==> RawHit(t, text, terms, |terms|, sp)
    ensures forall k :: 0 <= k < |raw| ==> raw[k].lo < raw[k].hi <= |text|
  {
    hide Norm, Origin, Query;
    forall k | 0 <= k < |raw| ensures raw[k].lo < raw[k].hi <= |text| {
      assert raw[k] in raw;
      var i: nat, j: nat :| i < |terms| && Hit(t, text, terms, i, j) &&
        raw[k] == SpanOf(Origin(t, SPACE, text), j, |Query(t, terms[i])|);
      HitSpanSound(t, text, terms, i, j);
    }
  }

  lemma RawCovers(t: Tables, text: string, terms: seq<string>, raw: seq<Span>, x: nat)
    requires forall sp :: sp in raw <==> RawHit(t, text, terms, |terms|, sp)
    requires |Origin(t, SPACE, text)| == |ToSearch(t, text)|
    ensures Covers(raw, x) <==> exists i: nat, j: nat :: HitCovers(t, text, terms, i, j, x)
  {
    hide Norm, Origin, Query;
    if Covers(raw, x) {
      var k :| 0 <= k < |raw| && raw[k].lo <= x < raw[k].hi;
      assert raw[k] in raw;
      var i: nat, j: nat :| i < |terms| && Hit(t, text, terms, i, j) &&
        raw[k] == SpanOf(Origin(t, SPACE, text), j, |Query(t, terms[i])|);
      assert HitCovers(t, text, terms, i, j, x);
    }
    if exists i: nat, j: nat :: HitCovers(t, text, terms, i, j, x) {
      var i: nat, j: nat :| HitCovers(t, text, terms, i, j, x);
      var sp := SpanOf(Origin(t, SPACE, text), j, |Query(t, terms[i])|);
      assert RawHit(t, text, terms, |terms|, sp);
      var k :| 0 <= k < |raw| && raw[k] == sp;
    }
  }
}
