/** What search takes as the same (search/normalise.py), stated on whole texts and without the folding itself. */
module Folding {
  import opened Prelude
  import opened SearchText

  /** `text` is cut into one piece for each of `chars`, each what its character becomes. */
  ghost predicate Spells(t: Tables, sep: string, chars: string, text: string)
    decreases |chars|
  {
    if chars == "" then text == ""
    else exists k :: 0 <= k <= |text| && Spells(t, sep, chars[..|chars| - 1], text[..k])
                     && Becomes(t, sep, chars[|chars| - 1], text[k..])
  }

  /** The normal forms of the characters of a text, one after another. */
  function NormalForm(t: Tables, text: string): string
  {
    if text == "" then "" else NormalForm(t, text[..|text| - 1]) + t.nfc(text[|text| - 1])
  }

  lemma {:induction false} PiecesSpell(t: Tables, sep: string, chars: string, out: string)
    ensures Spells(t, sep, chars, out) <==> out == Pieces(t, sep, chars)
    decreases |chars|
  {
    hide Becomes, Piece;
    if chars != "" {
      var front, c := chars[..|chars| - 1], chars[|chars| - 1];
      var a, b := Pieces(t, sep, front), Piece(t, sep, c);
      if out == a + b {
        assert out[..|a|] == a && out[|a|..] == b;
        PiecesSpell(t, sep, front, a);
        BecomesOne(t, sep, c, b);
        var k := |a|;
        assert 0 <= k <= |out| && Spells(t, sep, front, out[..k]) && Becomes(t, sep, c, out[k..]);
      }
      if k :| 0 <= k <= |out| && Spells(t, sep, front, out[..k]) && Becomes(t, sep, c, out[k..]) {
        PiecesSpell(t, sep, front, out[..k]);
        BecomesOne(t, sep, c, out[k..]);
        assert out == out[..k] + out[k..];
      }
    }
  }

  lemma {:induction false} PiecesAppend(t: Tables, sep: string, a: string, b: string)
    ensures Pieces(t, sep, a + b) == Pieces(t, sep, a) + Pieces(t, sep, b)
  {
    hide Piece;
    if b == "" {
      assert a + b == a;
    } else {
      var front, c := b[..|b| - 1], b[|b| - 1];
      PiecesAppend(t, sep, a, front);
      assert (a + b)[..|a + b| - 1] == a + front;
      assert (a + b)[|a + b| - 1] == c;
    }
  }

  lemma {:induction false} NormIsPieces(t: Tables, sep: string, text: string)
    ensures Norm(t, sep, text) == Pieces(t, sep, NormalForm(t, text))
  {
    if text != "" {
      NormIsPieces(t, sep, text[..|text| - 1]);
      PiecesAppend(t, sep, NormalForm(t, text[..|text| - 1]), t.nfc(text[|text| - 1]));
    }
  }

  /** The two forms of any text are exactly what the characters of its normal form become, in order: with a space
      for each separator in the one, and nothing in the other. */
  lemma FormsSpell(t: Tables, text: string, out: string)
    ensures out == ToSearch(t, text) <==> Spells(t, " ", NormalForm(t, text), out)
    ensures out == ToCompact(t, text) <==> Spells(t, "", NormalForm(t, text), out)
  {
    hide Spells, Pieces, Norm;
    NormIsPieces(t, " ", text);
    NormIsPieces(t, "", text);
    PiecesSpell(t, " ", NormalForm(t, text), out);
    PiecesSpell(t, "", NormalForm(t, text), out);
  }

  /** A term is looked for in its searchable form, without the white space at its two ends. */
  lemma TermIs(t: Tables, term: string) returns (before: string, after: string)
    ensures ToSearch(t, term) == before + Query(t, term) + after
    ensures (forall i :: 0 <= i < |before| ==> IsSpace(before[i])) && forall i :: 0 <= i < |after| ==> IsSpace(after[i])
    ensures var q := Query(t, term); q != "" ==> !IsSpace(q[0]) && !IsSpace(q[|q| - 1])
  {
    hide Norm, Strip, IsSpace;
    before, after := StripIs(ToSearch(t, term));
  }

  /** The two characters are the same to search: variants of one letter, digits of one value, both separators,
      both invisible, or one the base letter or the ASCII digit of the other. */
  ghost predicate Alike(c: char, d: char)
  {
    || c == d || (Separates(c) && Separates(d)) || (Invisible(c) && Invisible(d))
    || (exists b :: StandsFor(c, b) && StandsFor(d, b))
  }

  /** The character is read as `b`. */
  ghost predicate StandsFor(c: char, b: char)
  {
    VariantOf(c, b) || (exists v: nat :: DigitOf(c, v) && b == Ascii(v)) || (c == b && Ordinary(b))
  }

  lemma StandsAs(t: Tables, sep: string, c: char, b: char)
    requires StandsFor(c, b)
    ensures Piece(t, sep, c) == t.casefold(b)
  {
    PieceBecomes(t, sep, c);
    hide Piece, VariantOf, DigitOf, Separates, Invisible;
  }

  lemma AlikeBecome(t: Tables, sep: string, c: char, d: char)
    requires Alike(c, d)
    ensures Piece(t, sep, c) == Piece(t, sep, d)
  {
    PieceBecomes(t, sep, c);
    PieceBecomes(t, sep, d);
    hide Piece, StandsFor, VariantOf, DigitOf, Ordinary, Separates, Invisible;
    if b :| StandsFor(c, b) && StandsFor(d, b) {
      StandsAs(t, sep, c, b);
      StandsAs(t, sep, d, b);
    }
  }

  /** Texts whose normal forms are alike, character by character, are the same to search. */
  lemma {:induction false} AlikeTexts(t: Tables, sep: string, a: string, b: string)
    requires |a| == |b| && forall i :: 0 <= i < |a| ==> Alike(a[i], b[i])
    ensures Pieces(t, sep, a) == Pieces(t, sep, b)
  {
    hide Piece, Alike;
    if a != "" {
      AlikeTexts(t, sep, a[..|a| - 1], b[..|b| - 1]);
      AlikeBecome(t, sep, a[|a| - 1], b[|b| - 1]);
    }
  }

  lemma AlikeIsFound(t: Tables, a: string, b: string)
    requires var x, y := NormalForm(t, a), NormalForm(t, b);
      |x| == |y| && forall i :: 0 <= i < |x| ==> Alike(x[i], y[i])
    ensures ToSearch(t, a) == ToSearch(t, b) && ToCompact(t, a) == ToCompact(t, b)
  {
    hide Pieces, Norm, Alike;
    NormIsPieces(t, " ", a);
    NormIsPieces(t, " ", b);
    NormIsPieces(t, "", a);
    NormIsPieces(t, "", b);
    AlikeTexts(t, " ", NormalForm(t, a), NormalForm(t, b));
    AlikeTexts(t, "", NormalForm(t, a), NormalForm(t, b));
  }
}
