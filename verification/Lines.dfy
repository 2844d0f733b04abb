/** Lines and records of a transcript, stated without the functions that cut them (importers/parse.py): which
    cuts of a text are its lines, what is left of a line, and what each record says in terms of the lines. */
module Lines {
  import opened Prelude
  import opened Tables
  import opened Transcript

  // ---------------------------------------------------------------- lines

  /** The characters that end a line. */
  predicate Terminator(c: char)
  {
    c as int in {0x0A, 0x0B, 0x0C, 0x0D, 0x1C, 0x1D, 0x1E, 0x85, 0x2028, 0x2029}
  }

  lemma TerminatorBreaks(c: char)
    ensures Terminator(c) <==> Breaks(c)
  {
  }

  /** No terminator before the end; a carriage return may stand before the line feed that ends the line. */
  predicate Unbroken(line: string)
  {
    forall i :: 0 <= i < |line| - 1 && Terminator(line[i]) ==> line[i] == '\r' && line[i + 1] == '\n' && i == |line| - 2
  }

  /** The line is followed by `rest`: it ends in a terminator, and not between a carriage return and its line feed. */
  predicate EndsBefore(line: string, rest: string)
  {
    rest != "" ==> line != "" && Terminator(line[|line| - 1]) && !(line[|line| - 1] == '\r' && rest[0] == '\n')
  }

  ghost predicate IsLines(lines: seq<string>, text: string)
  {
    && Concat(lines) == text
    && (forall i :: 0 <= i < |lines| ==> lines[i] != "" && Unbroken(lines[i]))
    && (forall i, j :: 0 <= i < j < |lines| && j == i + 1 ==> EndsBefore(lines[i], lines[j]))
  }

  lemma {:induction false} FirstLineIs(s: string)
    requires s != ""
    ensures var n := LineLength(s); Unbroken(s[..n]) && EndsBefore(s[..n], s[n..])
  {
    var n := LineLength(s);
    TerminatorBreaks(s[0]);
    if !(s[0] == '\r' && |s| > 1 && s[1] == '\n') && !Breaks(s[0]) && |s| > 1 {
      FirstLineIs(s[1..]);
      hide Terminator;
      var m := LineLength(s[1..]);
      assert s[..n][1..] == s[1..][..m] && s[n..] == s[1..][m..];
      UnbrokenLonger(s[..n]);
    } else {
      assert n == 1 || (n == 2 && s[..2] == "\r\n");
      hide Terminator;
    }
  }

  lemma UnbrokenLonger(line: string)
    requires |line| > 1 && Unbroken(line[1..]) && !Terminator(line[0])
    ensures Unbroken(line)
  {
    hide Terminator;
    forall i | 0 <= i < |line| - 1 && Terminator(line[i])
      ensures line[i] == '\r' && line[i + 1] == '\n' && i == |line| - 2
    {
      assert line[i] == line[1..][i - 1];
    }
  }

  lemma {:induction false} FirstLineUnique(line: string, rest: string)
    requires line != "" && Unbroken(line) && EndsBefore(line, rest)
    ensures LineLength(line + rest) == |line|
  {
    var s := line + rest;
    TerminatorBreaks(s[0]);
    hide Terminator, Breaks;
    if |line| > 1 {
      if Terminator(line[0]) {
        assert line[0] == '\r' && line[1] == '\n' && |line| == 2;
        assert s[1] == '\n';
      } else {
        assert s[1..] == line[1..] + rest;
        assert forall i :: 0 <= i < |line| - 1 ==> line[1..][i] == line[i + 1];
        CarriageReturnEnds(line[0]);
        FirstLineUnique(line[1..], rest);
      }
    } else if rest != "" {
      assert s[1] == rest[0];
    }
  }

  lemma CarriageReturnEnds(c: char)
    ensures c == '\r' ==> Terminator(c)
  {
  }

  /** The lines of a text are its only cut into pieces that are not empty, of which each but the last ends in a
      terminator and none has one before its end, with a carriage return and its line feed never parted. */
  lemma {:induction false} LinesAreUnique(lines: seq<string>, text: string)
    ensures IsLines(lines, text) <==> lines == SplitLines(text)
    decreases |text|, |lines|
  {
    if text != "" {
      var n := LineLength(text);
      var first, rest := text[..n], text[n..];
      assert text == first + rest;
      FirstLineIs(text);
      LinesAreUnique(SplitLines(rest), rest);
      hide LineLength, Unbroken, EndsBefore;
      assert IsLines([first] + SplitLines(rest), text) by { MoreLines(first, SplitLines(rest), rest); }
      if IsLines(lines, text) {
        assert lines != [];
        FewerLines(lines);
        assert text == lines[0] + Concat(lines[1..]);
        FirstLineUnique(lines[0], Concat(lines[1..]));
        assert lines[0] == first && Concat(lines[1..]) == rest by { assert |lines[0]| == n; }
        LinesAreUnique(lines[1..], rest);
        assert lines == [lines[0]] + lines[1..];
      }
    }
  }

  lemma StartOfRest(first: string, lines: seq<string>)
    requires lines != [] && lines[0] != ""
    ensures EndsBefore(first, Concat(lines)) <==> EndsBefore(first, lines[0])
  {
    hide Terminator;
    assert Concat(lines)[0] == lines[0][0];
  }

  lemma MoreLines(first: string, lines: seq<string>, rest: string)
    requires first != "" && Unbroken(first) && IsLines(lines, rest) && EndsBefore(first, rest)
    ensures IsLines([first] + lines, first + rest)
  {
    hide Unbroken;
    var all := [first] + lines;
    assert all[1..] == lines;
    if lines != [] { StartOfRest(first, lines); }
    hide EndsBefore, Concat;
    assert forall i :: 1 <= i < |all| ==> all[i] == lines[i - 1];
  }

  lemma FewerLines(lines: seq<string>)
    requires lines != [] && IsLines(lines, Concat(lines))
    ensures IsLines(lines[1..], Concat(lines[1..]))
    ensures lines[0] != "" && Unbroken(lines[0]) && EndsBefore(lines[0], Concat(lines[1..]))
  {
    hide Unbroken;
    if |lines| > 1 {
      StartOfRest(lines[0], lines[1..]);
      assert lines[0 + 1] == lines[1..][0];
    }
  }

  // ---------------------------------------------------------------- what is left of a line

  ghost predicate AllOf(s: string, c: char)
  {
    forall i :: 0 <= i < |s| ==> s[i] == c
  }

  lemma {:induction false} TrimIs(s: string, c: char)
    ensures var t := TrimRight(s, c);
      |t| <= |s| && t == s[..|t|] && AllOf(s[|t|..], c) && (t != "" ==> t[|t| - 1] != c)
  {
    if s != "" && s[|s| - 1] == c {
      var front := s[..|s| - 1];
      TrimIs(front, c);
      var t := TrimRight(front, c);
      assert front[..|t|] == s[..|t|];
      assert s[|t|..] == front[|t|..] + [c];
    }
  }

  /** A line loses the line feeds at its end and then the carriage returns before them, and nothing else. */
  lemma ContentIs(raw: string) returns (cr: string, lf: string)
    ensures raw == Content(raw) + cr + lf && AllOf(cr, '\r') && AllOf(lf, '\n')
    ensures var kept := Content(raw); kept != "" ==> kept[|kept| - 1] != '\r'
    ensures var kept := Content(raw) + cr; kept != "" ==> kept[|kept| - 1] != '\n'
  {
    var t := TrimRight(raw, '\n');
    TrimIs(raw, '\n');
    TrimIs(t, '\r');
    cr, lf := t[|Content(raw)|..], raw[|t|..];
    hide TrimRight;
    assert Content(raw) + cr == t;
  }

  // ---------------------------------------------------------------- records in terms of lines

  predicate Heads(g: Grammar, line: string)
  {
    g.classify(Content(line)).Header?
  }

  /** In increasing order, from `from` on and below `to`. */
  ghost predicate Ascending(xs: seq<nat>, from: nat, to: nat)
  {
    && (forall q :: 0 <= q < |xs| ==> from <= xs[q] < to)
    && (forall p, q :: 0 <= p < q < |xs| ==> xs[p] < xs[q])
  }

  lemma AscendingHead(x: nat, xs: seq<nat>, from: nat, to: nat)
    requires Ascending(xs, from, to) && x < from && x < to
    ensures Ascending([x] + xs, x, to)
  {
  }

  /** The indices from `from` on of the lines that open a record, in order. */
  ghost predicate HeaderIndices(g: Grammar, lines: seq<string>, from: nat, hs: seq<nat>)
  {
    && Ascending(hs, from, |lines|)
    && (forall q :: 0 <= q < |hs| ==> hs[q] < |lines| && Heads(g, lines[hs[q]]))
    && (forall i: nat :: from <= i < |lines| && Heads(g, lines[i]) ==> i in hs)
  }

  /** The index after the last line of the record that line `hs[q]` opens. */
  function EndOf(lines: seq<string>, hs: seq<nat>, q: nat): nat
    requires q < |hs|
  {
    if q + 1 < |hs| then hs[q + 1] else |lines|
  }

  /** The record opened by line `i` and continued up to line `j`, column by column. */
  ghost predicate Says(g: Grammar, lines: seq<string>, i: nat, j: nat, r: Record)
    requires i < j <= |lines| && Heads(g, lines[i])
  {
    var head := g.classify(Content(lines[i]));
    && r.start == Length(lines[..i]) && r.end == Length(lines[..j])
    && r.clock == head.clock && r.sender == head.sender
    && (r.kind == MessageKind <==> head.sender.Some?)
    && (r.kind == System <==> head.sender == None && g.known(head.body))
    && (r.kind == SystemUnknown <==> head.sender == None && !g.known(head.body))
    && (r.media <==> head.sender.Some? && g.media(head.body))
    && r.body == Join(DropEmpty([head.body] + Contents(lines[i + 1..j])))
  }

  lemma BlockSays(g: Grammar, lines: seq<string>, i: nat, j: nat)
    requires i < j <= |lines| && Heads(g, lines[i])
    ensures Read(g, lines[i]).Header?
    ensures Says(g, lines, i, j, ExtendAll(Open(g, lines[i], Length(lines[..i])), lines[i + 1..j]))
  {
    var c, more := Open(g, lines[i], Length(lines[..i])), lines[i + 1..j];
    BodyIsJoin(c, more);
    ExtendAllSpan(c, more);
    ExtendAllMedia(c, more);
    LengthTo(lines, i, j);
    hide Length, ExtendAll, Content, Join, DropEmpty, Contents;
  }

  lemma {:induction false} ExtendAllMedia(c: Record, lines: seq<string>)
    ensures ExtendAll(c, lines).media == c.media
    decreases |lines|
  {
    if lines != [] { ExtendAllMedia(Extend(c, lines[0]), lines[1..]); }
  }

  lemma LengthTo(lines: seq<string>, i: nat, j: nat)
    requires i < j <= |lines|
    ensures Length(lines[..j]) == Length(lines[..i]) + |lines[i]| + Length(lines[i + 1..j])
  {
    var front := lines[..j];
    LengthSplit(front, i);
    assert front[..i] == lines[..i] && front[i..] != [];
    HeadLength(front[i..]);
    assert front[i..][0] == lines[i] && front[i..][1..] == lines[i + 1..j];
    hide Length;
  }

  ghost predicate AllSay(g: Grammar, lines: seq<string>, hs: seq<nat>, from: nat, records: seq<Record>)
  {
    && HeaderIndices(g, lines, from, hs) && |records| == |hs|
    && forall q: nat :: q < |hs| ==> SaysAt(g, lines, hs, q, records[q])
  }

  /** The record says what the lines from header `hs[q]` up to the next header say. */
  ghost predicate SaysAt(g: Grammar, lines: seq<string>, hs: seq<nat>, q: nat, r: Record)
    requires q < |hs|
  {
    && hs[q] < EndOf(lines, hs, q) <= |lines| && Heads(g, lines[hs[q]])
    && Says(g, lines, hs[q], EndOf(lines, hs, q), r)
  }

  lemma SaysFurther(g: Grammar, lines: seq<string>, i: nat, hs: seq<nat>, q: nat, r: Record)
    requires q < |hs| && SaysAt(g, lines, hs, q, r)
    ensures SaysAt(g, lines, [i] + hs, q + 1, r)
  {
    hide Says, Heads;
    assert EndOf(lines, [i] + hs, q + 1) == EndOf(lines, hs, q);
  }

  lemma SaysFirst(g: Grammar, lines: seq<string>, i: nat, j: nat, hs: seq<nat>, r: Record)
    requires i < j <= |lines| && Heads(g, lines[i]) && Says(g, lines, i, j, r)
    requires j == if hs == [] then |lines| else hs[0]
    ensures SaysAt(g, lines, [i] + hs, 0, r)
  {
    hide Says, Heads;
  }

  /** Where the record opened by line `i` ends: at the next header or at the end. */
  ghost predicate NextAt(g: Grammar, lines: seq<string>, i: nat, j: nat)
  {
    && i < j <= |lines| && (forall k :: i < k < j ==> !Heads(g, lines[k]))
    && (j < |lines| ==> Heads(g, lines[j]))
  }

  lemma OneMoreHeader(g: Grammar, lines: seq<string>, hs: seq<nat>, i: nat, j: nat)
    requires i < |lines| && Heads(g, lines[i]) && NextAt(g, lines, i, j) && HeaderIndices(g, lines, j, hs)
    ensures HeaderIndices(g, lines, i, [i] + hs)
    ensures j == if hs == [] then |lines| else hs[0]
  {
    hide Heads;
    var all := [i] + hs;
    AscendingHead(i, hs, j, |lines|);
    assert j < |lines| ==> j in hs;
    assert hs != [] ==> j <= hs[0] && Heads(g, lines[hs[0]]);
    assert forall q :: 1 <= q < |all| ==> all[q] == hs[q - 1];
    forall k: nat | i <= k < |lines| && Heads(g, lines[k]) ensures k in all {
      assert k == i || k >= j;
    }
  }

  lemma OneMoreSays(g: Grammar, lines: seq<string>, hs: seq<nat>, i: nat, j: nat, r: Record, records: seq<Record>)
    requires i < |lines| && Heads(g, lines[i]) && NextAt(g, lines, i, j)
    requires AllSay(g, lines, hs, j, records) && Says(g, lines, i, j, r)
    ensures AllSay(g, lines, [i] + hs, i, [r] + records)
  {
    hide Says, Heads, HeaderIndices, SaysAt;
    OneMoreHeader(g, lines, hs, i, j);
    SaysFirst(g, lines, i, j, hs, r);
    var all, list := [i] + hs, [r] + records;
    forall q: nat | q < |all| ensures SaysAt(g, lines, all, q, list[q]) {
      if q > 0 { SaysFurther(g, lines, i, hs, q - 1, records[q - 1]); }
    }
  }

  lemma OneLine(lines: seq<string>, from: nat)
    requires from < |lines|
    ensures lines[from..][0] == lines[from] && lines[from..][1..] == lines[from + 1..]
    ensures Length(lines[..from + 1]) == Length(lines[..from]) + |lines[from]|
  {
    LengthTo(lines, from, from + 1);
    assert lines[from + 1..from + 1] == [];
    NoLength();
    hide Length;
  }

  /** The block that line `from` opens, and the blocks after it. */
  lemma BlocksAtHeader(g: Grammar, lines: seq<string>, from: nat) returns (j: nat)
    requires from < |lines| && Heads(g, lines[from])
    ensures Read(g, lines[from]).Header? && NextAt(g, lines, from, j)
    ensures Blocks(g, lines[from..], Length(lines[..from])) ==
      [ExtendAll(Open(g, lines[from], Length(lines[..from])), lines[from + 1..j])]
      + Blocks(g, lines[j..], Length(lines[..j]))
  {
    hide Length, Content, Open, ExtendAll;
    OneLine(lines, from);
    var more := lines[from + 1..];
    var n := UpToHeader(g, more);
    j := from + 1 + n;
    NextHeader(g, lines, from, n);
    LengthTo(lines, from, j);
    assert more[..n] == lines[from + 1..j] && more[n..] == lines[j..];
    hide NextAt, UpToHeader;
  }

  lemma NextHeader(g: Grammar, lines: seq<string>, from: nat, n: nat)
    requires from < |lines| && n == UpToHeader(g, lines[from + 1..])
    ensures NextAt(g, lines, from, from + 1 + n)
  {
    hide Content;
    var more := lines[from + 1..];
    assert forall k :: from < k < |lines| ==> lines[k] == more[k - from - 1];
  }

  lemma BlocksAtOther(g: Grammar, lines: seq<string>, from: nat)
    requires from < |lines| && !Heads(g, lines[from])
    ensures Blocks(g, lines[from..], Length(lines[..from])) == Blocks(g, lines[from + 1..], Length(lines[..from + 1]))
  {
    hide Length, Content, Open, ExtendAll;
    OneLine(lines, from);
  }

  lemma SkipOne(g: Grammar, lines: seq<string>, hs: seq<nat>, from: nat, records: seq<Record>)
    requires from < |lines| && !Heads(g, lines[from]) && AllSay(g, lines, hs, from + 1, records)
    ensures AllSay(g, lines, hs, from, records)
  {
    hide Says, Heads;
  }

  lemma {:induction false} BlocksSay(g: Grammar, lines: seq<string>, from: nat) returns (hs: seq<nat>)
    requires from <= |lines|
    ensures AllSay(g, lines, hs, from, Blocks(g, lines[from..], Length(lines[..from])))
    decreases |lines| - from
  {
    hs := [];
    if from < |lines| {
      hide Length, Says, Open, ExtendAll, Heads, AllSay, Blocks;
      if Heads(g, lines[from]) {
        var j := BlocksAtHeader(g, lines, from);
        hide Read;
        var more := BlocksSay(g, lines, j);
        hs := [from] + more;
        BlockSays(g, lines, from, j);
        OneMoreSays(g, lines, more, from, j, ExtendAll(Open(g, lines[from], Length(lines[..from])), lines[from + 1..j]),
          Blocks(g, lines[j..], Length(lines[..j])));
      } else {
        BlocksAtOther(g, lines, from);
        hs := BlocksSay(g, lines, from + 1);
        SkipOne(g, lines, hs, from, Blocks(g, lines[from + 1..], Length(lines[..from + 1])));
      }
    }
  }

  lemma NumberedSay(g: Grammar, lines: seq<string>, hs: seq<nat>, a: seq<Record>, b: seq<Record>)
    requires AllSay(g, lines, hs, 0, b) && AlikeAll(a, b)
    ensures AllSay(g, lines, hs, 0, a)
  {
    hide HeaderIndices;
    forall q: nat | q < |hs| ensures SaysAt(g, lines, hs, q, a[q]) {
      assert Alike(a[q], b[q]);
      assert SaysAt(g, lines, hs, q, b[q]);
      hide Heads;
    }
  }

  /** For any text, with its lines however they were found: parsing raises if and only if some header's time is
      no time. Otherwise the records that are not ambiguous are one for each header line, in order, each saying
      what its header and the lines up to the next header say. */
  lemma RecordsSayLines(g: Grammar, text: string, lines: seq<string>) returns (hs: seq<nat>)
    requires IsLines(lines, text)
    ensures lines == SplitLines(text)
    ensures Raises(g, lines) <==> exists i :: 0 <= i < |lines| && g.classify(Content(lines[i])).Header?
                                             && g.classify(Content(lines[i])).clock == None
    ensures AllSay(g, lines, hs, 0, Reals(Numbered(Rest(g, lines, 0, None))))
  {
    LinesAreUnique(lines, text);
    if i :| 0 <= i < |lines| && g.classify(Content(lines[i])).Header? && g.classify(Content(lines[i])).clock == None {
      assert BadTime(g, lines[i]);
    }
    hide IsLines, Content, Rest, Reals, AllSay, Numbered, Blocks;
    NumberedAlike(Rest(g, lines, 0, None));
    AlikeReals(Numbered(Rest(g, lines, 0, None)), Rest(g, lines, 0, None));
    RestIsBlocks(g, lines, 0);
    hs := BlocksSay(g, lines, 0);
    assert lines[0..] == lines && lines[..0] == [];
    NoLength();
    NumberedSay(g, lines, hs, Reals(Numbered(Rest(g, lines, 0, None))), Blocks(g, lines, 0));
  }

  // ---------------------------------------------------------------- ambiguous lines, and the order of the list

  /** The record of a header-shaped line whose date is none. */
  predicate SaysAmbiguous(lines: seq<string>, i: nat, r: Record)
    requires i < |lines|
  {
    && r.kind == Ambiguous && r.start == Length(lines[..i]) && r.end == Length(lines[..i]) + |lines[i]|
    && r.body == Content(lines[i]) && r.clock == None && r.sender == None && !r.media
  }

  predicate Undated(g: Grammar, line: string)
  {
    g.classify(Content(line)).BadDate?
  }

  ghost predicate AmbiguousIndices(g: Grammar, lines: seq<string>, from: nat, bs: seq<nat>, records: seq<Record>)
  {
    && |records| == |bs| && Ascending(bs, from, |lines|)
    && (forall i: nat :: from <= i < |lines| && Undated(g, lines[i]) ==> i in bs)
    && (forall q :: 0 <= q < |bs| ==>
          bs[q] < |lines| && Undated(g, lines[bs[q]]) && SaysAmbiguous(lines, bs[q], records[q]))
  }

  lemma {:induction false} SurfacedSay(g: Grammar, lines: seq<string>, from: nat) returns (bs: seq<nat>)
    requires from <= |lines|
    ensures AmbiguousIndices(g, lines, from, bs, Surfaced(g, lines[from..], Length(lines[..from])))
    decreases |lines| - from
  {
    bs := [];
    if from < |lines| {
      hide Length, Content;
      OneLine(lines, from);
      bs := SurfacedSay(g, lines, from + 1);
      var rest := Surfaced(g, lines[from + 1..], Length(lines[..from + 1]));
      if Undated(g, lines[from]) {
        OneMoreAmbiguous(g, lines, from, bs, Surface(lines[from], Length(lines[..from])), rest);
        bs := [from] + bs;
      } else {
        assert [] + rest == rest;
      }
    }
  }

  lemma OneMoreAmbiguous(g: Grammar, lines: seq<string>, i: nat, bs: seq<nat>, r: Record, records: seq<Record>)
    requires i < |lines| && Undated(g, lines[i]) && SaysAmbiguous(lines, i, r)
    requires AmbiguousIndices(g, lines, i + 1, bs, records)
    ensures AmbiguousIndices(g, lines, i, [i] + bs, [r] + records)
  {
    hide SaysAmbiguous, Undated, Ascending;
    var all, list := [i] + bs, [r] + records;
    AscendingHead(i, bs, i + 1, |lines|);
    forall k: nat | i <= k < |lines| && Undated(g, lines[k]) ensures k in all {
      assert k == i || k in bs;
    }
    forall q | 0 <= q < |all|
      ensures all[q] < |lines| && Undated(g, lines[all[q]]) && SaysAmbiguous(lines, all[q], list[q])
    {
      if q > 0 { assert all[q] == bs[q - 1] && list[q] == records[q - 1]; }
    }
  }

  /** The list stands in the order in which records end, an ambiguous line before the record it belongs to. */
  ghost predicate InOrder(records: seq<Record>)
  {
    forall p, q :: 0 <= p < q < |records| ==>
      records[p].end < records[q].end || (records[p].end == records[q].end && !Real(records[p]) && Real(records[q]))
  }

  ghost predicate AllEndFrom(records: seq<Record>, at: nat)
  {
    forall q :: 0 <= q < |records| ==>
      records[q].end >= at && (!Real(records[q]) ==> records[q].end > at)
  }

  lemma OrderHead(x: Record, xs: seq<Record>, at: nat)
    requires InOrder(xs) && AllEndFrom(xs, x.end) && at <= x.end && (Real(x) ==> forall y :: y in xs ==> y.end > x.end)
    requires !Real(x) ==> at < x.end
    ensures InOrder([x] + xs) && AllEndFrom([x] + xs, at)
  {
    var all := [x] + xs;
    assert forall q :: 1 <= q < |all| ==> all[q] == xs[q - 1];
  }

  lemma {:induction false} RestInOrder(g: Grammar, lines: seq<string>, at: nat, cur: Option<Record>)
    requires (forall i :: 0 <= i < |lines| ==> lines[i] != "") && (cur.Some? ==> cur.value.end == at && Real(cur.value))
    ensures InOrder(Rest(g, lines, at, cur)) && AllEndFrom(Rest(g, lines, at, cur), at)
    decreases |lines|
  {
    hide InOrder, AllEndFrom, Content;
    if lines == [] {
      NothingInOrder(at);
      if cur.Some? { OrderHead(cur.value, [], at); assert [cur.value] + [] == AsList(cur); }
    } else {
      var raw, more, end := lines[0], lines[1..], at + |lines[0]|;
      var longer := if cur.Some? then Some(Extend(cur.value, raw)) else None;
      match Read(g, raw)
      case Header(_, _, _) =>
        RestInOrder(g, more, end, Some(Open(g, raw, at)));
        var later := Rest(g, more, end, Some(Open(g, raw, at)));
        Later(later, at, end);
        if cur.Some? { OrderHead(cur.value, later, at); } else { assert [] + later == later; }
      case BadDate =>
        RestInOrder(g, more, end, longer);
        OrderHead(Surface(raw, at), Rest(g, more, end, longer), at);
      case Plain =>
        RestInOrder(g, more, end, longer);
        Later(Rest(g, more, end, longer), at, end);
    }
  }

  lemma NothingInOrder(at: nat)
    ensures InOrder([]) && AllEndFrom([], at)
  {
  }

  lemma Later(records: seq<Record>, at: nat, end: nat)
    requires AllEndFrom(records, end) && at < end
    ensures AllEndFrom(records, at) && forall y :: y in records ==> y.end > at
  {
  }

  lemma NumberedInOrder(a: seq<Record>, b: seq<Record>)
    requires AlikeAll(a, b) && InOrder(b)
    ensures InOrder(a)
  {
    forall q | 0 <= q < |a| ensures a[q].end == b[q].end && Real(a[q]) == Real(b[q]) { assert Alike(a[q], b[q]); }
    hide Alike, Real;
  }

  /** The ambiguous records are one for each header-shaped line without a date, in order; and the whole list
      stands in the order in which its records end. */
  lemma ListIsOrdered(g: Grammar, text: string, lines: seq<string>) returns (bs: seq<nat>)
    requires IsLines(lines, text)
    ensures InOrder(Numbered(Rest(g, lines, 0, None)))
    ensures AmbiguousIndices(g, lines, 0, bs, Filter(Rest(g, lines, 0, None), Surfaces))
  {
    hide Rest, Content, InOrder, AllEndFrom, Concat, Unbroken, EndsBefore, Surfaced, AmbiguousIndices;
    RestInOrder(g, lines, 0, None);
    NumberedAlike(Rest(g, lines, 0, None));
    NumberedInOrder(Numbered(Rest(g, lines, 0, None)), Rest(g, lines, 0, None));
    AmbiguousAreBadDates(g, lines, 0, None);
    bs := SurfacedSay(g, lines, 0);
    assert lines[0..] == lines && lines[..0] == [];
    NoLength();
  }
}
