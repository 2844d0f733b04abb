/** Transcript assembly (importers/parse.py): lines become records, continuation lines are appended to
    the current one, and a header-shaped line whose date is invalid is surfaced without starting one.

    How a line is recognised is a parameter; everything about offsets, order and bodies is here. */
module Transcript {
  import opened Prelude
  import opened Tables

  datatype Clock = Clock(year: int, month: int, day: int, hour: int, minute: int, second: int)

  /** What the header patterns make of a line. A header whose time no calendar accepts has no clock:
      building the timestamp raises. */
  datatype Line = Plain | BadDate | Header(clock: Option<Clock>, sender: Option<string>, body: string)

  datatype Grammar = Grammar(classify: string -> Line, known: string -> bool, media: string -> bool)

  datatype Kind = MessageKind | System | SystemUnknown | Ambiguous

  datatype Record = Record(
    kind: Kind, start: nat, end: nat, clock: Option<Clock>, sender: Option<string>, body: string, media: bool,
    ordinal: nat)

  // ---------------------------------------------------------------- lines

  /** The terminators of `str.splitlines`. */
  predicate Breaks(c: char)
  {
    var n := c as int;
    0x0A <= n <= 0x0D || 0x1C <= n <= 0x1E || n == 0x85 || n == 0x2028 || n == 0x2029
  }

  /** The length of the first line with its terminator; CR LF is one terminator. */
  function LineLength(s: string): (n: nat)
    requires s != ""
    ensures 0 < n <= |s|
  {
    if s[0] == '\r' && |s| > 1 && s[1] == '\n' then 2
    else if Breaks(s[0]) || |s| == 1 then 1
    else 1 + LineLength(s[1..])
  }

  function SplitLines(s: string): seq<string>
    decreases |s|
  {
    if s == "" then [] else [s[..LineLength(s)]] + SplitLines(s[LineLength(s)..])
  }

  function Concat(lines: seq<string>): string
  {
    if lines == [] then "" else lines[0] + Concat(lines[1..])
  }

  lemma {:induction false} SplitLinesRoundTrip(s: string)
    ensures Concat(SplitLines(s)) == s
    ensures forall i :: 0 <= i < |SplitLines(s)| ==> SplitLines(s)[i] != ""
    decreases |s|
  {
    if s != "" {
      var n := LineLength(s);
      hide LineLength;
      SplitLinesRoundTrip(s[n..]);
      assert SplitLines(s)[1..] == SplitLines(s[n..]);
      assert s[..n] + s[n..] == s;
    }
  }

  function TrimRight(s: string, c: char): string
  {
    if s != "" && s[|s| - 1] == c then TrimRight(s[..|s| - 1], c) else s
  }

  function Content(raw: string): string
  {
    TrimRight(TrimRight(raw, '\n'), '\r')
  }

  function Read(g: Grammar, raw: string): Line
  {
    g.classify(Content(raw))
  }

  function Length(lines: seq<string>): nat
  {
    |Concat(lines)|
  }

  // ---------------------------------------------------------------- records

  /** `_append_body`: no line break while the body so far is empty. */
  function AppendBody(body: string, line: string): string
  {
    if body == "" then line else body + "\n" + line
  }

  function Open(g: Grammar, raw: string, start: nat): Record
    requires Read(g, raw).Header?
  {
    var h := Read(g, raw);
    var kind := if h.sender.Some? then MessageKind else if g.known(h.body) then System else SystemUnknown;
    Record(kind, start, start + |raw|, h.clock, h.sender, h.body, h.sender.Some? && g.media(h.body), 0)
  }

  function Surface(raw: string, start: nat): Record
  {
    Record(Ambiguous, start, start + |raw|, None, None, Content(raw), false, 0)
  }

  function Extend(r: Record, raw: string): Record
  {
    r.(body := AppendBody(r.body, Content(raw)), end := r.end + |raw|)
  }

  function ExtendAll(r: Record, lines: seq<string>): Record
    decreases |lines|
  {
    if lines == [] then r else ExtendAll(Extend(r, lines[0]), lines[1..])
  }

  function AsList(cur: Option<Record>): seq<Record>
  {
    if cur.Some? then [cur.value] else []
  }

  /** The records still to come, given the one being assembled. */
  function Rest(g: Grammar, lines: seq<string>, at: nat, cur: Option<Record>): seq<Record>
    decreases |lines|
  {
    if lines == [] then AsList(cur)
    else
      var raw, more, end := lines[0], lines[1..], at + |lines[0]|;
      var longer := if cur.Some? then Some(Extend(cur.value, raw)) else None;
      match Read(g, raw)
      case Header(_, _, _) => AsList(cur) + Rest(g, more, end, Some(Open(g, raw, at)))
      case BadDate => [Surface(raw, at)] + Rest(g, more, end, longer)
      case Plain => Rest(g, more, end, longer)
  }

  predicate BadTime(g: Grammar, raw: string)
  {
    Read(g, raw).Header? && Read(g, raw).clock == None
  }

  predicate Raises(g: Grammar, lines: seq<string>)
  {
    exists i :: 0 <= i < |lines| && BadTime(g, lines[i])
  }

  function Numbered(records: seq<Record>): (r: seq<Record>)
    ensures |r| == |records|
    ensures forall i :: 0 <= i < |r| ==> r[i] == records[i].(ordinal := i)
  {
    seq(|records|, i requires 0 <= i < |records| => records[i].(ordinal := i))
  }

  /** `parse_transcript`; `None` when a header's time cannot be a time. */
  method Parse(g: Grammar, text: string) returns (r: Option<seq<Record>>)
    ensures r == if Raises(g, SplitLines(text)) then None else Some(Numbered(Rest(g, SplitLines(text), 0, None)))
  {
    hide Rest, Raises;
    var records := Assemble(g, SplitLines(text));
    if records == None { return None; }
    var numbered := Number(records.value);
    return Some(numbered);
  }

  /** The loop over the lines. */
  method Assemble(g: Grammar, lines: seq<string>) returns (r: Option<seq<Record>>)
    ensures r == if Raises(g, lines) then None else Some(Rest(g, lines, 0, None))
  {
    hide Rest, Read, Raises;
    var records: seq<Record> := [];
    var cur: Option<Record> := None;
    var offset: nat := 0;
    assert lines[0..] == lines;
    NothingRaises(g, lines);
    for i := 0 to |lines|
      invariant !Raises(g, lines[..i])
      invariant records + Rest(g, lines[i..], offset, cur) == Rest(g, lines, 0, None)
    {
      var raw, start := lines[i], offset;
      offset := offset + |raw|;
      RaisesNext(g, lines, i);
      RestNext(g, lines, i, start, cur);
      match Read(g, raw) {
        case Header(clock, _, _) =>
          if clock == None { return None; }
          if cur.Some? { records := records + [cur.value]; }
          cur := Some(Open(g, raw, start));
        case BadDate =>
          records := records + [Surface(raw, start)];
          if cur.Some? { cur := Some(Extend(cur.value, raw)); }
        case Plain =>
          if cur.Some? { cur := Some(Extend(cur.value, raw)); }
      }
    }
    assert lines[..|lines|] == lines;
    RestLast(g, lines, offset, cur);
    assert records + AsList(cur) == Rest(g, lines, 0, None);
    if cur.Some? { records := records + [cur.value]; }
    assert records == Rest(g, lines, 0, None) by { assert records + [] == records; }
    return Some(records);
  }

  /** The loop that numbers the list. */
  method Number(records: seq<Record>) returns (done: seq<Record>)
    ensures done == Numbered(records)
  {
    done := records;
    for i := 0 to |records|
      invariant |done| == |records|
      invariant forall k :: 0 <= k < |records| ==> done[k] == if k < i then records[k].(ordinal := k) else records[k]
    {
      done := done[i := done[i].(ordinal := i)];
    }
  }

  lemma NothingRaises(g: Grammar, lines: seq<string>)
    ensures !Raises(g, lines[..0])
  {
  }

  lemma RaisesNext(g: Grammar, lines: seq<string>, i: nat)
    requires i < |lines|
    ensures Raises(g, lines[..i + 1]) <==>
      Raises(g, lines[..i]) || (Read(g, lines[i]).Header? && Read(g, lines[i]).clock == None)
    ensures Read(g, lines[i]).Header? && Read(g, lines[i]).clock == None ==> Raises(g, lines)
  {
    assert lines[..i + 1] == lines[..i] + [lines[i]];
    assert forall k :: 0 <= k < i ==> lines[..i][k] == lines[..i + 1][k];
    assert BadTime(g, lines[i]) <==> Read(g, lines[i]).Header? && Read(g, lines[i]).clock == None;
    hide BadTime;
    if BadTime(g, lines[i]) { assert BadTime(g, lines[..i + 1][i]); }
  }

  lemma RestNext(g: Grammar, lines: seq<string>, i: nat, at: nat, cur: Option<Record>)
    requires i < |lines|
    ensures var raw := lines[i]; var more := lines[i + 1..];
      var longer := if cur.Some? then Some(Extend(cur.value, raw)) else None;
      Rest(g, lines[i..], at, cur) ==
        match Read(g, raw)
        case Header(_, _, _) => AsList(cur) + Rest(g, more, at + |raw|, Some(Open(g, raw, at)))
        case BadDate => [Surface(raw, at)] + Rest(g, more, at + |raw|, longer)
        case Plain => Rest(g, more, at + |raw|, longer)
  {
    assert lines[i..][1..] == lines[i + 1..];
  }

  lemma RestLast(g: Grammar, lines: seq<string>, at: nat, cur: Option<Record>)
    ensures Rest(g, lines[|lines|..], at, cur) == AsList(cur)
  {
  }

  // ---------------------------------------------------------------- blocks: the reference

  /** How many lines come before the next valid header. */
  function UpToHeader(g: Grammar, lines: seq<string>): (n: nat)
    ensures n <= |lines|
    ensures forall i :: 0 <= i < n ==> !Read(g, lines[i]).Header?
    ensures n < |lines| ==> Read(g, lines[n]).Header?
  {
    if lines == [] || Read(g, lines[0]).Header? then 0 else 1 + UpToHeader(g, lines[1..])
  }

  /** Cut the lines at every valid header and make one record of each block; what precedes the first
      header belongs to none. */
  function Blocks(g: Grammar, lines: seq<string>, at: nat): seq<Record>
    decreases |lines|, 0
  {
    if lines == [] then []
    else if !Read(g, lines[0]).Header? then Blocks(g, lines[1..], at + |lines[0]|)
    else BlocksFrom(g, lines[1..], at + |lines[0]|, Open(g, lines[0], at))
  }

  /** The block that `c` opened, and the blocks after it. */
  function BlocksFrom(g: Grammar, lines: seq<string>, at: nat, c: Record): seq<Record>
    decreases |lines|, 1
  {
    var n := UpToHeader(g, lines);
    [ExtendAll(c, lines[..n])] + Blocks(g, lines[n..], at + Length(lines[..n]))
  }

  predicate Real(r: Record)
  {
    r.kind != Ambiguous
  }

  /** The records that are not ambiguous boundaries, in list order. */
  function Reals(records: seq<Record>): seq<Record>
  {
    Filter(records, Real)
  }

  lemma LengthHead(lines: seq<string>, n: nat)
    requires 0 < n <= |lines|
    ensures lines[..n] == [lines[0]] + lines[1..][..n - 1]
    ensures Length(lines[..n]) == |lines[0]| + Length(lines[1..][..n - 1])
  {
    assert lines[..n][1..] == lines[1..][..n - 1];
  }

  lemma {:induction false} LengthSplit(lines: seq<string>, n: nat)
    requires n <= |lines|
    ensures Length(lines) == Length(lines[..n]) + Length(lines[n..])
  {
    if n > 0 {
      LengthHead(lines, n);
      LengthSplit(lines[1..], n - 1);
      assert lines[1..][n - 1..] == lines[n..];
    } else {
      assert lines[0..] == lines;
    }
  }

  lemma RealsHead(x: Record, xs: seq<Record>)
    ensures Reals([x] + xs) == (if Real(x) then [x] else []) + Reals(xs)
  {
    assert ([x] + xs)[1..] == xs;
  }

  lemma BlockGoesOn(g: Grammar, lines: seq<string>, at: nat, c: Record)
    requires lines != [] && !Read(g, lines[0]).Header?
    ensures BlocksFrom(g, lines, at, c) == BlocksFrom(g, lines[1..], at + |lines[0]|, Extend(c, lines[0]))
  {
    hide Read, Length, Blocks, Extend;
    var n := UpToHeader(g, lines);
    LengthHead(lines, n);
    assert lines[n..] == lines[1..][n - 1..];
    assert lines[..n][1..] == lines[1..][..n - 1];
  }

  lemma BlockEnds(g: Grammar, lines: seq<string>, at: nat, c: Record)
    requires lines == [] || Read(g, lines[0]).Header?
    ensures BlocksFrom(g, lines, at, c) == [c] + Blocks(g, lines, at)
  {
    hide Read, Blocks;
    assert lines[..0] == [] && lines[0..] == lines;
    NoLength();
  }

  /** While a record is being assembled, it takes every line up to the next valid header. */
  lemma {:induction false} RestIsBlock(g: Grammar, lines: seq<string>, at: nat, c: Record)
    requires Real(c)
    ensures Reals(Rest(g, lines, at, Some(c))) == BlocksFrom(g, lines, at, c)
    decreases |lines|
  {
    hide Read, Real, Length, BlocksFrom, Reals, Open, Extend, Surface;
    if lines == [] {
      RealsHead(c, []);
      NoReals();
      BlockEnds(g, lines, at, c);
      assert [c] + [] == [c];
    } else {
      var raw, more, end := lines[0], lines[1..], at + |lines[0]|;
      if Read(g, raw).Header? {
        OpenIsReal(g, raw, at);
        RestIsBlock(g, more, end, Open(g, raw, at));
        RealsHead(c, Rest(g, more, end, Some(Open(g, raw, at))));
        BlockEnds(g, lines, at, c);
      } else {
        ExtendIsReal(c, raw);
        RestIsBlock(g, more, end, Extend(c, raw));
        BlockGoesOn(g, lines, at, c);
        SurfaceIsNot(raw, at);
        RealsHead(Surface(raw, at), Rest(g, more, end, Some(Extend(c, raw))));
        assert [] + BlocksFrom(g, lines, at, c) == BlocksFrom(g, lines, at, c);
      }
    }
  }

  lemma NoReals()
    ensures Reals([]) == []
  {
  }

  lemma NoLength()
    ensures Length([]) == 0
  {
  }

  lemma OpenIsReal(g: Grammar, raw: string, at: nat)
    requires Read(g, raw).Header?
    ensures Real(Open(g, raw, at))
  {
  }

  lemma ExtendIsReal(c: Record, raw: string)
    ensures Real(Extend(c, raw)) == Real(c)
  {
  }

  lemma SurfaceIsNot(raw: string, at: nat)
    ensures !Real(Surface(raw, at))
  {
  }

  /** The records that are not ambiguous are the blocks, in order. */
  lemma {:induction false} RestIsBlocks(g: Grammar, lines: seq<string>, at: nat)
    ensures Reals(Rest(g, lines, at, None)) == Blocks(g, lines, at)
    decreases |lines|
  {
    hide Read, Real, Length, BlocksFrom, Reals, Open, Extend, Surface;
    if lines == [] {
      NoReals();
    } else {
      var raw, more, end := lines[0], lines[1..], at + |lines[0]|;
      if Read(g, raw).Header? {
        OpenIsReal(g, raw, at);
        RestIsBlock(g, more, end, Open(g, raw, at));
        var later := Rest(g, more, end, Some(Open(g, raw, at)));
        assert [] + later == later;
      } else {
        RestIsBlocks(g, more, end);
        SurfaceIsNot(raw, at);
        RealsHead(Surface(raw, at), Rest(g, more, end, None));
        assert [] + Blocks(g, more, end) == Blocks(g, more, end);
      }
    }
  }

  // ---------------------------------------------------------------- the spans tile the text

  /** Non-empty spans, each starting where the one before ends, from `from` to `to`. */
  ghost predicate Tile(b: seq<Record>, from: nat, to: nat)
  {
    && b != [] && b[0].start == from && b[|b| - 1].end == to
    && (forall i :: 0 <= i < |b| ==> b[i].start < b[i].end)
    && (forall i :: 0 <= i < |b| - 1 ==> b[i].end == b[i + 1].start)
  }

  lemma TileHead(x: Record, b: seq<Record>, to: nat)
    requires x.start < x.end && (if b == [] then x.end == to else Tile(b, x.end, to))
    ensures Tile([x] + b, x.start, to)
  {
    var all := [x] + b;
    assert forall i :: 1 <= i < |all| ==> all[i] == b[i - 1];
  }

  ghost predicate NonEmpty(lines: seq<string>)
  {
    forall i :: 0 <= i < |lines| ==> lines[i] != ""
  }

  lemma {:induction false} ExtendAllSpan(c: Record, lines: seq<string>)
    ensures ExtendAll(c, lines).start == c.start && ExtendAll(c, lines).end == c.end + Length(lines)
    ensures ExtendAll(c, lines).kind == c.kind && ExtendAll(c, lines).sender == c.sender
    ensures ExtendAll(c, lines).clock == c.clock
    decreases |lines|
  {
    if lines != [] {
      ExtendAllSpan(Extend(c, lines[0]), lines[1..]);
    }
  }

  /** Where the first valid header starts. */
  function FirstHeader(g: Grammar, lines: seq<string>): nat
  {
    Length(lines[..UpToHeader(g, lines)])
  }

  lemma {:induction false} BlocksFromTile(g: Grammar, lines: seq<string>, at: nat, c: Record)
    requires NonEmpty(lines) && c.end == at && c.start < at
    ensures Tile(BlocksFrom(g, lines, at, c), c.start, at + Length(lines))
    decreases |lines|, 1
  {
    hide Read, Length, Tile, Blocks, ExtendAll;
    var n := UpToHeader(g, lines);
    var x := ExtendAll(c, lines[..n]);
    ExtendAllSpan(c, lines[..n]);
    LengthSplit(lines, n);
    var rest := lines[n..];
    BlocksTile(g, rest, at + Length(lines[..n]));
    if rest == [] {
      NoLength();
      NoBlocks(g, at + Length(lines[..n]));
    } else {
      assert lines[n] == rest[0];
      assert UpToHeader(g, rest) == 0 && rest[..0] == [];
      NoLength();
    }
    TileHead(x, Blocks(g, rest, at + Length(lines[..n])), at + Length(lines));
  }

  lemma NoBlocks(g: Grammar, at: nat)
    ensures Blocks(g, [], at) == []
  {
  }

  /** The blocks cover exactly what lies between the first valid header and the end; without a header
      there are none. */
  lemma {:induction false} BlocksTile(g: Grammar, lines: seq<string>, at: nat)
    requires NonEmpty(lines)
    ensures UpToHeader(g, lines) == |lines| <==> Blocks(g, lines, at) == []
    ensures UpToHeader(g, lines) < |lines| ==>
      Tile(Blocks(g, lines, at), at + FirstHeader(g, lines), at + Length(lines))
    decreases |lines|, 0
  {
    if lines != [] {
      var raw, more := lines[0], lines[1..];
      HeadLength(lines);
      if Read(g, raw).Header? {
        var c := Open(g, raw, at);
        BlocksFromTile(g, more, at + |raw|, c);
        assert lines[..0] == [];
        NoLength();
      } else {
        hide Read, Length, Tile;
        BlocksTile(g, more, at + |raw|);
        LengthHead(lines, UpToHeader(g, lines));
      }
    }
  }

  lemma HeadLength(lines: seq<string>)
    requires lines != []
    ensures Length(lines) == |lines[0]| + Length(lines[1..])
  {
  }

  // ---------------------------------------------------------------- ambiguous boundaries

  /** One surfaced record for each header-shaped line with an invalid date, in order. */
  function Surfaced(g: Grammar, lines: seq<string>, at: nat): seq<Record>
  {
    if lines == [] then []
    else
      (if Read(g, lines[0]).BadDate? then [Surface(lines[0], at)] else []) + Surfaced(g, lines[1..], at + |lines[0]|)
  }

  predicate Surfaces(r: Record)
  {
    r.kind == Ambiguous
  }

  lemma AmbiguousHead(x: Record, xs: seq<Record>)
    ensures Filter([x] + xs, Surfaces) == (if Surfaces(x) then [x] else []) + Filter(xs, Surfaces)
  {
    assert ([x] + xs)[1..] == xs;
  }

  /** Every such line is surfaced once, with its own text and span, and nothing else is. */
  lemma {:induction false} AmbiguousAreBadDates(g: Grammar, lines: seq<string>, at: nat, cur: Option<Record>)
    requires cur.Some? ==> Real(cur.value)
    ensures Filter(Rest(g, lines, at, cur), Surfaces) == Surfaced(g, lines, at)
    decreases |lines|
  {
    if lines == [] {
      if cur.Some? { AmbiguousHead(cur.value, []); }
    } else {
      var raw, more, end := lines[0], lines[1..], at + |lines[0]|;
      var longer := if cur.Some? then Some(Extend(cur.value, raw)) else None;
      match Read(g, raw)
      case Header(_, _, _) =>
        var later := Rest(g, more, end, Some(Open(g, raw, at)));
        AmbiguousAreBadDates(g, more, end, Some(Open(g, raw, at)));
        if cur.Some? { AmbiguousHead(cur.value, later); } else { assert [] + later == later; }
      case BadDate =>
        AmbiguousAreBadDates(g, more, end, longer);
        AmbiguousHead(Surface(raw, at), Rest(g, more, end, longer));
      case Plain =>
        AmbiguousAreBadDates(g, more, end, longer);
    }
  }

  ghost predicate InOne(a: Record, b: seq<Record>)
  {
    exists k :: 0 <= k < |b| && b[k].start <= a.start && a.end <= b[k].end
  }

  lemma InMore(a: Record, x: Record, b: seq<Record>)
    requires InOne(a, b)
    ensures InOne(a, [x] + b)
  {
    var k :| 0 <= k < |b| && b[k].start <= a.start && a.end <= b[k].end;
    assert ([x] + b)[k + 1] == b[k];
  }

  lemma {:induction false} SurfacedInBlock(g: Grammar, lines: seq<string>, at: nat, c: Record)
    requires c.end == at && c.start <= at
    ensures forall a :: a in Surfaced(g, lines, at) ==> InOne(a, BlocksFrom(g, lines, at, c))
    decreases |lines|, 1
  {
    if lines != [] {
      var raw, more, end := lines[0], lines[1..], at + |lines[0]|;
      if Read(g, raw).Header? {
        SurfacedInBlock(g, more, end, Open(g, raw, at));
        BlockEnds(g, lines, at, c);
        hide Read, InOne, Surface, BlocksFrom;
        forall a | a in Surfaced(g, lines, at) ensures InOne(a, BlocksFrom(g, lines, at, c)) {
          assert a in Surfaced(g, more, end);
          InMore(a, c, Blocks(g, lines, at));
        }
      } else {
        var longer := Extend(c, raw);
        SurfacedInBlock(g, more, end, longer);
        BlockGoesOn(g, lines, at, c);
        FirstBlockSpan(g, more, end, longer);
        hide Read, BlocksFrom, Surfaced;
        SurfacedHead(g, lines, at);
        forall a | a in Surfaced(g, lines, at) ensures InOne(a, BlocksFrom(g, lines, at, c)) {
          if a == Surface(raw, at) { assert InOne(a, BlocksFrom(g, more, end, longer)); }
        }
      }
    }
  }

  lemma SurfacedHead(g: Grammar, lines: seq<string>, at: nat)
    requires lines != []
    ensures forall a :: a in Surfaced(g, lines, at) ==>
      a == Surface(lines[0], at) || a in Surfaced(g, lines[1..], at + |lines[0]|)
  {
  }

  lemma FirstBlockSpan(g: Grammar, lines: seq<string>, at: nat, c: Record)
    ensures var b := BlocksFrom(g, lines, at, c); b != [] && b[0].start == c.start && b[0].end >= c.end
  {
    ExtendAllSpan(c, lines[..UpToHeader(g, lines)]);
  }

  /** An ambiguous line is either wholly before the first valid header or inside one block. */
  lemma {:induction false} SurfacedInBlocks(g: Grammar, lines: seq<string>, at: nat)
    ensures forall a :: a in Surfaced(g, lines, at) ==>
      a.end <= at + FirstHeader(g, lines) || InOne(a, Blocks(g, lines, at))
    decreases |lines|
  {
    if lines != [] {
      var raw, more, end := lines[0], lines[1..], at + |lines[0]|;
      if Read(g, raw).Header? {
        SurfacedInBlock(g, more, end, Open(g, raw, at));
      } else {
        SurfacedInBlocks(g, more, end);
        LengthHead(lines, UpToHeader(g, lines));
        SurfacedHead(g, lines, at);
      }
    }
  }

  // ---------------------------------------------------------------- the whole transcript

  ghost predicate Alike(a: Record, b: Record)
  {
    a.(ordinal := 0) == b.(ordinal := 0)
  }

  ghost predicate AlikeAll(a: seq<Record>, b: seq<Record>)
  {
    |a| == |b| && forall i :: 0 <= i < |a| ==> Alike(a[i], b[i])
  }

  lemma AlikeHead(x: Record, a: seq<Record>, y: Record, b: seq<Record>)
    requires Alike(x, y) && AlikeAll(a, b)
    ensures AlikeAll([x] + a, [y] + b)
  {
    hide Alike;
  }

  lemma AlikeTail(a: seq<Record>, b: seq<Record>)
    requires AlikeAll(a, b) && a != []
    ensures Alike(a[0], b[0]) && AlikeAll(a[1..], b[1..])
  {
    hide Alike;
  }

  lemma AlikeReal(a: Record, b: Record)
    requires Alike(a, b)
    ensures Real(a) == Real(b)
  {
  }

  lemma {:induction false} AlikeReals(a: seq<Record>, b: seq<Record>)
    requires AlikeAll(a, b)
    ensures AlikeAll(Reals(a), Reals(b))
  {
    if a != [] {
      hide AlikeAll, Alike, Real;
      AlikeTail(a, b);
      AlikeReals(a[1..], b[1..]);
      AlikeReal(a[0], b[0]);
      AlikeHead(a[0], Reals(a[1..]), b[0], Reals(b[1..]));
    }
  }

  lemma AlikeTile(a: seq<Record>, b: seq<Record>, from: nat, to: nat)
    requires AlikeAll(a, b) && Tile(b, from, to)
    ensures Tile(a, from, to)
  {
    assert forall i :: 0 <= i < |a| ==> a[i].start == b[i].start && a[i].end == b[i].end;
    hide Alike;
  }

  lemma AlikeInOne(x: Record, a: seq<Record>, y: Record, b: seq<Record>)
    requires Alike(x, y) && AlikeAll(a, b) && InOne(y, b)
    ensures InOne(x, a)
  {
    var k :| 0 <= k < |b| && b[k].start <= y.start && y.end <= b[k].end;
    assert Alike(a[k], b[k]);
  }

  lemma NumberedAlike(records: seq<Record>)
    ensures AlikeAll(Numbered(records), records)
    ensures forall i :: 0 <= i < |records| ==> Numbered(records)[i].ordinal == i
  {
  }

  lemma UnrealSurfaces(r: Record, records: seq<Record>)
    requires r in records && !Real(r)
    ensures r in Filter(records, Surfaces)
  {
  }

  /** For every text whose header times are times: ordinals count from 0; the records that are not
      ambiguous tile the text from its first valid header to its end; every ambiguous line lies before
      that header or inside one of them. */
  lemma SpansPartition(g: Grammar, text: string)
    ensures var lines := SplitLines(text);
      var r := Numbered(Rest(g, lines, 0, None));
      && (forall i :: 0 <= i < |r| ==> r[i].ordinal == i)
      && (Reals(r) == [] <==> UpToHeader(g, lines) == |lines|)
      && (Reals(r) != [] ==> Tile(Reals(r), FirstHeader(g, lines), |text|))
      && (forall a :: a in r && !Real(a) ==> a.end <= FirstHeader(g, lines) || InOne(a, Reals(r)))
  {
    hide *;
    var lines := SplitLines(text);
    var plain := Rest(g, lines, 0, None);
    var r := Numbered(plain);
    NumberedAlike(plain);
    AlikeReals(r, plain);
    RealsTile(g, text);
    AlikeSize(Reals(r), Reals(plain));
    if Reals(r) != [] {
      AlikeTile(Reals(r), Reals(plain), FirstHeader(g, lines), |text|);
    }
    forall a | a in r && !Real(a) ensures a.end <= FirstHeader(g, lines) || InOne(a, Reals(r)) {
      var i :| 0 <= i < |r| && r[i] == a;
      AlikeAt(r, plain, i);
      AmbiguousInside(g, lines, plain[i]);
      if InOne(plain[i], Reals(plain)) { AlikeInOne(a, Reals(r), plain[i], Reals(plain)); }
    }
  }

  lemma AlikeSize(a: seq<Record>, b: seq<Record>)
    requires AlikeAll(a, b)
    ensures |a| == |b|
  {
  }

  lemma AlikeAt(a: seq<Record>, b: seq<Record>, i: nat)
    requires AlikeAll(a, b) && i < |a|
    ensures |a| == |b| && Alike(a[i], b[i]) && Real(a[i]) == Real(b[i]) && a[i].end == b[i].end
  {
  }

  lemma RealsTile(g: Grammar, text: string)
    ensures var lines := SplitLines(text);
      var b := Reals(Rest(g, lines, 0, None));
      && (b == [] <==> UpToHeader(g, lines) == |lines|)
      && (b != [] ==> Tile(b, FirstHeader(g, lines), |text|))
  {
    hide Rest, Blocks, Reals, Tile, SplitLines, UpToHeader, FirstHeader;
    var lines := SplitLines(text);
    SplitLinesRoundTrip(text);
    RestIsBlocks(g, lines, 0);
    BlocksTile(g, lines, 0);
  }

  lemma AmbiguousInside(g: Grammar, lines: seq<string>, a: Record)
    requires a in Rest(g, lines, 0, None) && !Real(a)
    ensures a.end <= FirstHeader(g, lines) || InOne(a, Reals(Rest(g, lines, 0, None)))
  {
    hide Rest, Blocks, Reals, Surfaced, InOne, FirstHeader, Real;
    UnrealSurfaces(a, Rest(g, lines, 0, None));
    AmbiguousAreBadDates(g, lines, 0, None);
    SurfacedInBlocks(g, lines, 0);
    RestIsBlocks(g, lines, 0);
  }

  // ---------------------------------------------------------------- bodies

  function Join(xs: seq<string>): string
  {
    if xs == [] then "" else if |xs| == 1 then xs[0] else xs[0] + "\n" + Join(xs[1..])
  }

  function DropEmpty(xs: seq<string>): seq<string>
  {
    if xs != [] && xs[0] == "" then DropEmpty(xs[1..]) else xs
  }

  function Contents(lines: seq<string>): seq<string>
  {
    seq(|lines|, i requires 0 <= i < |lines| => Content(lines[i]))
  }

  lemma JoinMerge(a: string, b: string, xs: seq<string>)
    ensures Join([a, b] + xs) == Join([a + "\n" + b] + xs)
  {
    assert ([a, b] + xs)[1..] == [b] + xs;
    assert ([a + "\n" + b] + xs)[1..] == xs;
    assert ([b] + xs)[1..] == xs;
  }

  /** A body is the header's text and its continuation lines joined by line breaks, without the empty
      lines that lead. */
  lemma {:induction false} BodyIsJoin(c: Record, lines: seq<string>)
    ensures ExtendAll(c, lines).body == Join(DropEmpty([c.body] + Contents(lines)))
    decreases |lines|
  {
    hide Content;
    var all := [c.body] + Contents(lines);
    if lines != [] {
      var line := Content(lines[0]);
      BodyIsJoin(Extend(c, lines[0]), lines[1..]);
      var more := Contents(lines[1..]);
      assert all == [c.body, line] + more;
      if c.body == "" {
        assert all[1..] == [line] + more;
      } else {
        JoinMerge(c.body, line, more);
      }
    } else {
      assert all == [c.body];
    }
  }

  lemma {:induction false} DropShorter(xs: seq<string>)
    ensures |Join(DropEmpty(xs))| <= |Join(xs)|
  {
    if xs != [] && xs[0] == "" { DropShorter(xs[1..]); }
  }

  /** So a body gives back the text of its lines exactly when it has one line or its first is not empty. */
  lemma BodyKeepsTextIff(c: Record, lines: seq<string>)
    ensures ExtendAll(c, lines).body == Join([c.body] + Contents(lines)) <==> c.body != "" || lines == []
  {
    var all := [c.body] + Contents(lines);
    BodyIsJoin(c, lines);
    if c.body == "" && lines != [] {
      assert all[1..] == Contents(lines);
      DropShorter(Contents(lines));
    } else if lines == [] {
      assert all == [c.body];
    }
  }
}
