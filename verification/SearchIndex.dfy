/** The external-content search index (search/index.py): a documents table and two full-text tables that
    have to be kept in step with it by hand, delete before insert, with the values that are being
    replaced. The tokenisers are parameters. So is the history of normalisers: a release of the program
    brings a version number and a normaliser, and the documents of earlier releases stay until they are
    reindexed. */
module SearchIndex {
  import opened Prelude
  import SearchText

  type MsgId = nat
  type RowId = nat
  type Bag = multiset<string>

  /** One release: its version, its normaliser, and the two tokenisers. */
  datatype Env = Env(
    version: nat, search: string -> string, compact: string -> string, words: string -> Bag, trigrams: string -> Bag)

  /** The release at hand. */
  function Release1(t: SearchText.Tables, words: string -> Bag, trigrams: string -> Bag): Env
  {
    Env(1, (s: string) => SearchText.ToSearch(t, s), (s: string) => SearchText.ToCompact(t, s), words, trigrams)
  }

  datatype Doc = Doc(message: MsgId, version: nat, search: string, compact: string)

  /** A full-text table: the postings stored under each rowid. */
  type Fts = map<RowId, Bag>

  /** `rowOf` is the unique index on `message_id`. */
  datatype Index = Index(docs: map<RowId, Doc>, rowOf: map<MsgId, RowId>, lexical: Fts, compact: Fts)

  /** Message ids with their original text, null for media. */
  type Messages = map<MsgId, Option<string>>

  const EMPTY := Index(map[], map[], map[], map[])

  function Postings(f: Fts, r: RowId): Bag
  {
    if r in f then f[r] else multiset{}
  }

  /** The FTS5 'delete' command takes the postings of the text it is given off the row. */
  function Remove(f: Fts, r: RowId, bag: Bag): Fts
  {
    f[r := Postings(f, r) - bag]
  }

  function Insert(f: Fts, r: RowId, bag: Bag): Fts
  {
    f[r := Postings(f, r) + bag]
  }

  lemma {:induction false} LargestExists(s: set<nat>)
    requires s != {}
    ensures exists m :: m in s && forall x :: x in s ==> x <= m
  {
    var y :| y in s;
    var rest := s - {y};
    assert forall x :: x in s <==> x == y || x in rest;
    if rest != {} {
      LargestExists(rest);
      var m :| m in rest && forall x :: x in rest ==> x <= m;
      var top := if y > m then y else m;
      assert top in s && forall x :: x in s ==> x <= top;
    }
  }

  /** The rowid SQLite assigns: one more than the largest in use. */
  function NewRow(docs: map<RowId, Doc>): (r: RowId)
    ensures r !in docs
  {
    if docs == map[] then 1
    else
      LargestExists(docs.Keys);
      var m: nat :| m in docs.Keys && forall x :: x in docs.Keys ==> x <= m;
      m + 1
  }

  function DocFor(e: Env, m: MsgId, text: Option<string>): Doc
  {
    var t := if text.Some? then text.value else "";
    Doc(m, e.version, e.search(t), e.compact(t))
  }

  /** The document stored for a message. */
  function DocIn(docs: map<RowId, Doc>, rowOf: map<MsgId, RowId>, m: MsgId): Option<Doc>
  {
    if m in rowOf && rowOf[m] in docs then Some(docs[rowOf[m]]) else None
  }

  function DocOf(ix: Index, m: MsgId): Option<Doc>
  {
    DocIn(ix.docs, ix.rowOf, m)
  }

  // ---------------------------------------------------------------- operations

  /** Replace row `r` of both full-text tables: out with the old document, in with the new. */
  function Replace(e: Env, ix: Index, r: RowId, old': Option<Doc>, doc: Doc): Index
  {
    var lex := if old'.Some? then Remove(ix.lexical, r, e.words(old'.value.search)) else ix.lexical;
    var com := if old'.Some? then Remove(ix.compact, r, e.trigrams(old'.value.compact)) else ix.compact;
    Index(ix.docs[r := doc], ix.rowOf[doc.message := r],
          Insert(lex, r, e.words(doc.search)), Insert(com, r, e.trigrams(doc.compact)))
  }

  /** `stage_message` */
  function Stage(e: Env, ix: Index, m: MsgId, text: Option<string>): Index
  {
    if m in ix.rowOf && ix.rowOf[m] in ix.docs then
      Replace(e, ix, ix.rowOf[m], Some(ix.docs[ix.rowOf[m]]), DocFor(e, m, text))
    else Replace(e, ix, NewRow(ix.docs), None, DocFor(e, m, text))
  }

  function TextOf(messages: Messages, m: MsgId): Option<string>
  {
    if m in messages then messages[m] else Some("")
  }

  function StageAll(e: Env, ix: Index, messages: Messages, order: seq<MsgId>): Index
  {
    if order == [] then ix
    else
      var m := order[|order| - 1];
      Stage(e, StageAll(e, ix, messages, order[..|order| - 1]), m, TextOf(messages, m))
  }

  predicate IsStale(e: Env, ix: Index, m: MsgId)
  {
    DocOf(ix, m).Some? && DocOf(ix, m).value.version != e.version
  }

  /** `reindex_stale`, the stale messages in the order they were selected. */
  function Reindex(e: Env, ix: Index, messages: Messages, order: seq<MsgId>): Index
  {
    StageAll(e, ix, messages, order)
  }

  /** `rebuild_all`: empty all three tables, then stage every message with text. */
  function Rebuild(e: Env, messages: Messages, order: seq<MsgId>): Index
  {
    StageAll(e, EMPTY, messages, order)
  }

  // ---------------------------------------------------------------- agreement

  ghost predicate Keyed(docs: map<RowId, Doc>, rowOf: map<MsgId, RowId>)
  {
    && (forall m :: m in rowOf ==> rowOf[m] in docs && docs[rowOf[m]].message == m)
    && (forall r :: r in docs ==> docs[r].message in rowOf && rowOf[docs[r].message] == r)
  }

  /** The postings of every row are those of its current document, and of no other. */
  ghost predicate InStep(e: Env, ix: Index)
  {
    && (forall r :: Postings(ix.lexical, r) == if r in ix.docs then e.words(ix.docs[r].search) else multiset{})
    && (forall r :: Postings(ix.compact, r) == if r in ix.docs then e.trigrams(ix.docs[r].compact) else multiset{})
  }

  /** One row per message, and both full-text tables agree with the documents. */
  ghost predicate Agree(e: Env, ix: Index)
  {
    Keyed(ix.docs, ix.rowOf) && InStep(e, ix)
  }

  lemma ReplaceInStep(e: Env, ix: Index, r: RowId, old': Option<Doc>, doc: Doc)
    requires InStep(e, ix) && old' == if r in ix.docs then Some(ix.docs[r]) else None
    ensures InStep(e, Replace(e, ix, r, old', doc))
  {
    hide Postings, Remove, Insert, InStep;
    StepAt(e, ix, r);
    var o, ix' := old', Replace(e, ix, r, old', doc);
    ReplacePostings(ix.lexical, r, if o.Some? then Some(e.words(o.value.search)) else None, e.words(doc.search));
    ReplacePostings(ix.compact, r, if o.Some? then Some(e.trigrams(o.value.compact)) else None,
      e.trigrams(doc.compact));
    assert ix'.docs == ix.docs[r := doc];
    assert Postings(ix'.lexical, r) == e.words(doc.search) && Postings(ix'.compact, r) == e.trigrams(doc.compact);
    hide Replace;
    RowReplaced(e, ix, ix', r, doc);
  }

  lemma StepAt(e: Env, ix: Index, r: RowId)
    requires InStep(e, ix)
    ensures Postings(ix.lexical, r) == if r in ix.docs then e.words(ix.docs[r].search) else multiset{}
    ensures Postings(ix.compact, r) == if r in ix.docs then e.trigrams(ix.docs[r].compact) else multiset{}
  {
    hide Postings;
  }

  lemma RowReplaced(e: Env, ix: Index, ix': Index, r: RowId, doc: Doc)
    requires InStep(e, ix) && ix'.docs == ix.docs[r := doc]
    requires Postings(ix'.lexical, r) == e.words(doc.search) && Postings(ix'.compact, r) == e.trigrams(doc.compact)
    requires forall q :: q != r ==> Postings(ix'.lexical, q) == Postings(ix.lexical, q)
    requires forall q :: q != r ==> Postings(ix'.compact, q) == Postings(ix.compact, q)
    ensures InStep(e, ix')
  {
    hide Postings, InStep;
    forall q
      ensures Postings(ix'.lexical, q) == if q in ix'.docs then e.words(ix'.docs[q].search) else multiset{}
      ensures Postings(ix'.compact, q) == if q in ix'.docs then e.trigrams(ix'.docs[q].compact) else multiset{}
    {
      if q != r { StepAt(e, ix, q); }
    }
    StepFrom(e, ix');
  }

  lemma StepFrom(e: Env, ix: Index)
    requires forall q :: Postings(ix.lexical, q) == if q in ix.docs then e.words(ix.docs[q].search) else multiset{}
    requires forall q :: Postings(ix.compact, q) == if q in ix.docs then e.trigrams(ix.docs[q].compact) else multiset{}
    ensures InStep(e, ix)
  {
    hide Postings;
  }

  /** Out with the old postings of a row and in with the new: the row then has the new ones, and every other its own. */
  lemma ReplacePostings(f: Fts, r: RowId, before: Option<Bag>, bag: Bag)
    requires Postings(f, r) == if before.Some? then before.value else multiset{}
    ensures var f' := Insert(if before.Some? then Remove(f, r, before.value) else f, r, bag);
      Postings(f', r) == bag && forall q :: q != r ==> Postings(f', q) == Postings(f, q)
  {
    assert Postings(f, r) - Postings(f, r) == multiset{};
    assert multiset{} + bag == bag;
  }

  lemma ReplaceKeyed(docs: map<RowId, Doc>, rowOf: map<MsgId, RowId>, r: RowId, doc: Doc)
    requires Keyed(docs, rowOf) && if doc.message in rowOf then r == rowOf[doc.message] else r !in docs
    ensures Keyed(docs[r := doc], rowOf[doc.message := r])
    ensures forall k :: DocIn(docs[r := doc], rowOf[doc.message := r], k) ==
                        if k == doc.message then Some(doc) else DocIn(docs, rowOf, k)
  {
    var docs', rowOf' := docs[r := doc], rowOf[doc.message := r];
    forall k ensures DocIn(docs', rowOf', k) == if k == doc.message then Some(doc) else DocIn(docs, rowOf, k) {
      if k in rowOf && k != doc.message {
        assert docs[rowOf[k]].message == k;
        assert rowOf'[k] == rowOf[k] && rowOf[k] != r;
      }
    }
  }

  /** What staging leaves: agreement, the new document for this message, and every other one untouched. */
  lemma StageKeeps(e: Env, ix: Index, m: MsgId, text: Option<string>)
    requires Agree(e, ix)
    ensures Agree(e, Stage(e, ix, m, text))
    ensures forall k :: DocOf(Stage(e, ix, m, text), k) == if k == m then Some(DocFor(e, m, text)) else DocOf(ix, k)
  {
    hide DocFor, InStep, NewRow;
    var r := if m in ix.rowOf then ix.rowOf[m] else NewRow(ix.docs);
    var old' := if r in ix.docs then Some(ix.docs[r]) else None;
    DocForMessage(e, m, text);
    assert m in ix.rowOf ==> ix.rowOf[m] in ix.docs;
    assert Stage(e, ix, m, text) == Replace(e, ix, r, old', DocFor(e, m, text));
    ReplaceKeyed(ix.docs, ix.rowOf, r, DocFor(e, m, text));
    hide Keyed;
    ReplaceInStep(e, ix, r, old', DocFor(e, m, text));
  }

  lemma DocForMessage(e: Env, m: MsgId, text: Option<string>)
    ensures DocFor(e, m, text).message == m && DocFor(e, m, text).version == e.version
  {
  }

  /** Staging a list stages each of its messages and touches no other. */
  lemma {:induction false} StageAllKeeps(e: Env, ix: Index, messages: Messages, order: seq<MsgId>)
    requires Agree(e, ix)
    ensures Agree(e, StageAll(e, ix, messages, order))
    ensures forall k :: DocOf(StageAll(e, ix, messages, order), k) ==
                        if k in order then Some(DocFor(e, k, TextOf(messages, k))) else DocOf(ix, k)
  {
    hide DocFor, Agree, Stage, TextOf, DocOf;
    if order != [] {
      var front, m := order[..|order| - 1], order[|order| - 1];
      StageAllKeeps(e, ix, messages, front);
      StageKeeps(e, StageAll(e, ix, messages, front), m, TextOf(messages, m));
      assert forall k :: k in order <==> k in front || k == m by { assert order == front + [m]; }
    }
  }

  /** After a reindex of the stale messages nothing is stale, the tables agree, and a document that was
      current is as it was. */
  lemma ReindexLeavesNothingStale(e: Env, ix: Index, messages: Messages, order: seq<MsgId>)
    requires Agree(e, ix) && forall m :: m in order <==> IsStale(e, ix, m)
    ensures var ix' := Reindex(e, ix, messages, order);
      && Agree(e, ix')
      && (forall m :: !IsStale(e, ix', m))
      && (forall m :: DocOf(ix', m).Some? <==> DocOf(ix, m).Some?)
      && (forall m :: !IsStale(e, ix, m) ==> DocOf(ix', m) == DocOf(ix, m))
      && (forall m :: IsStale(e, ix, m) ==> DocOf(ix', m) == Some(DocFor(e, m, TextOf(messages, m))))
  {
    hide DocFor, Agree, DocOf, TextOf;
    StageAllKeeps(e, ix, messages, order);
    forall m ensures !IsStale(e, Reindex(e, ix, messages, order), m) {
      DocForMessage(e, m, TextOf(messages, m));
    }
  }

  // ---------------------------------------------------------------- lookups

  ghost predicate WithText(messages: Messages, m: MsgId)
  {
    m in messages && messages[m].Some?
  }

  /** Every stored message with text has a current document made from that text. */
  ghost predicate Covered(e: Env, ix: Index, messages: Messages)
  {
    forall m :: WithText(messages, m) ==> DocOf(ix, m) == Some(DocFor(e, m, messages[m]))
  }

  /** A rebuild restores both from any state whatever. */
  lemma RebuildRestores(e: Env, messages: Messages, order: seq<MsgId>)
    requires forall m :: m in order <==> WithText(messages, m)
    ensures var ix := Rebuild(e, messages, order);
      Agree(e, ix) && Covered(e, ix, messages) && forall m :: DocOf(ix, m).Some? <==> WithText(messages, m)
  {
    hide DocFor, Agree;
    EmptyAgrees(e);
    StageAllKeeps(e, EMPTY, messages, order);
  }

  lemma EmptyAgrees(e: Env)
    ensures Agree(e, EMPTY)
  {
  }

  /** The messages with text a one-word lookup returns. The join with `messages` hides the documents an
      undone import leaves behind. */
  ghost function Lookup(ix: Index, f: Fts, messages: Messages, word: string): set<MsgId>
  {
    set m | m in messages && messages[m].Some? && m in ix.rowOf && word in Postings(f, ix.rowOf[m])
  }

  /** An index kept up incrementally and a rebuilt one answer alike, in both tables. */
  lemma LookupsAgree(e: Env, one: Index, two: Index, messages: Messages, word: string)
    requires Agree(e, one) && Agree(e, two) && Covered(e, one, messages) && Covered(e, two, messages)
    ensures Lookup(one, one.lexical, messages, word) == Lookup(two, two.lexical, messages, word)
    ensures Lookup(one, one.compact, messages, word) == Lookup(two, two.compact, messages, word)
  {
    hide DocFor, Agree, Covered, Postings;
    forall m
      ensures m in Lookup(one, one.lexical, messages, word) <==> m in Lookup(two, two.lexical, messages, word)
      ensures m in Lookup(one, one.compact, messages, word) <==> m in Lookup(two, two.compact, messages, word)
    {
      LookupIs(e, one, messages, word, m);
      LookupIs(e, two, messages, word, m);
    }
  }

  /** A lookup returns a message exactly when its own text yields the word: the searchable form of the text
      for the lexical table, and its compact form for the trigram table. */
  lemma LookupIs(e: Env, ix: Index, messages: Messages, word: string, m: MsgId)
    requires Agree(e, ix) && Covered(e, ix, messages)
    ensures m in Lookup(ix, ix.lexical, messages, word) <==>
      m in messages && messages[m].Some? && word in e.words(e.search(messages[m].value))
    ensures m in Lookup(ix, ix.compact, messages, word) <==>
      m in messages && messages[m].Some? && word in e.trigrams(e.compact(messages[m].value))
  {
    if WithText(messages, m) {
      assert DocOf(ix, m) == Some(DocFor(e, m, messages[m]));
      var r := ix.rowOf[m];
      assert Postings(ix.lexical, r) == e.words(ix.docs[r].search);
      assert Postings(ix.compact, r) == e.trigrams(ix.docs[r].compact);
    }
  }

  // ---------------------------------------------------------------- runs

  /** Every release there has been or will be; the tokenisers belong to the tables and stay. */
  datatype Product = Product(
    search: nat -> string -> string, compact: nat -> string -> string,
    words: string -> Bag, trigrams: string -> Bag)

  function Release(p: Product, version: nat): Env
  {
    Env(version, p.search(version), p.compact(version), p.words, p.trigrams)
  }

  datatype Event =
    | Write(message: MsgId, text: Option<string>)
    | Erase(message: MsgId)
    | Upgrade(version: nat)
    | DoReindex(order: seq<MsgId>)
    | DoRebuild(order: seq<MsgId>)

  datatype Vault = Vault(messages: Messages, index: Index, version: nat)

  function Now(p: Product, v: Vault): Env
  {
    Release(p, v.version)
  }

  /** Message texts never change: a write is of a new message. */
  ghost predicate Enabled(p: Product, v: Vault, ev: Event)
  {
    match ev
    case Write(m, _) => m !in v.messages
    case Erase(_) => true
    case Upgrade(_) => true
    case DoReindex(order) => forall m :: m in order <==> IsStale(Now(p, v), v.index, m)
    case DoRebuild(order) => forall m :: m in order <==> WithText(v.messages, m)
  }

  /** Insert and stage a message; undo deletes the message and leaves its document; a new release leaves
      every document as it is. */
  function Step(p: Product, v: Vault, ev: Event): Vault
  {
    match ev
    case Write(m, text) => v.(messages := v.messages[m := text], index := Stage(Now(p, v), v.index, m, text))
    case Erase(m) => v.(messages := v.messages - {m})
    case Upgrade(version) => v.(version := version)
    case DoReindex(order) => v.(index := Reindex(Now(p, v), v.index, v.messages, order))
    case DoRebuild(order) => v.(index := Rebuild(Now(p, v), v.messages, order))
  }

  /** Every stored message with text has a document, made from that text by the release that wrote it. */
  ghost predicate Dated(p: Product, ix: Index, messages: Messages)
  {
    forall m :: WithText(messages, m) ==>
      DocOf(ix, m).Some? && DocOf(ix, m).value == DocFor(Release(p, DocOf(ix, m).value.version), m, messages[m])
  }

  lemma AgreeAnyRelease(p: Product, ix: Index, a: nat, b: nat)
    requires Agree(Release(p, a), ix)
    ensures Agree(Release(p, b), ix)
  {
    hide Keyed, Postings;
  }

  lemma CoveredIsDated(p: Product, version: nat, ix: Index, messages: Messages)
    requires Covered(Release(p, version), ix, messages)
    ensures Dated(p, ix, messages)
  {
    hide DocOf;
    forall m | WithText(messages, m)
      ensures DocOf(ix, m).Some? && DocOf(ix, m).value == DocFor(Release(p, DocOf(ix, m).value.version), m, messages[m])
    {
      DocForMessage(Release(p, version), m, messages[m]);
    }
  }

  /** The index is up to date with the current release if and only if no stored message is stale. */
  lemma CoveredIffNothingStale(p: Product, version: nat, ix: Index, messages: Messages)
    requires Dated(p, ix, messages)
    ensures Covered(Release(p, version), ix, messages) <==>
      forall m :: WithText(messages, m) ==> !IsStale(Release(p, version), ix, m)
  {
    hide DocFor, DocOf;
    forall m | WithText(messages, m)
      ensures DocOf(ix, m) == Some(DocFor(Release(p, version), m, messages[m])) <==>
        !IsStale(Release(p, version), ix, m)
    {
      DocForMessage(Release(p, version), m, messages[m]);
    }
  }

  lemma StageDated(p: Product, v: Vault, m: MsgId, text: Option<string>)
    requires Agree(Now(p, v), v.index) && Dated(p, v.index, v.messages) && m !in v.messages
    ensures Dated(p, Stage(Now(p, v), v.index, m, text), v.messages[m := text])
  {
    hide DocFor, Agree, Stage, DocOf;
    StageKeeps(Now(p, v), v.index, m, text);
    DocForMessage(Now(p, v), m, text);
  }

  lemma ReindexDated(p: Product, v: Vault, order: seq<MsgId>)
    requires Agree(Now(p, v), v.index) && Dated(p, v.index, v.messages) && Enabled(p, v, DoReindex(order))
    ensures var ix := Reindex(Now(p, v), v.index, v.messages, order);
      Dated(p, ix, v.messages) && Covered(Now(p, v), ix, v.messages)
  {
    hide DocFor, Agree, Reindex, DocOf;
    var ix := Reindex(Now(p, v), v.index, v.messages, order);
    ReindexLeavesNothingStale(Now(p, v), v.index, v.messages, order);
    forall m | WithText(v.messages, m)
      ensures DocOf(ix, m).Some? &&
        DocOf(ix, m).value == DocFor(Release(p, DocOf(ix, m).value.version), m, v.messages[m])
    {
      DocForMessage(Now(p, v), m, v.messages[m]);
      if IsStale(Now(p, v), v.index, m) { assert TextOf(v.messages, m) == v.messages[m]; }
    }
    CoveredIffNothingStale(p, v.version, ix, v.messages);
  }

  lemma StepKeeps(p: Product, v: Vault, ev: Event)
    requires Agree(Now(p, v), v.index) && Dated(p, v.index, v.messages) && Enabled(p, v, ev)
    ensures var v' := Step(p, v, ev); Agree(Now(p, v'), v'.index) && Dated(p, v'.index, v'.messages)
    ensures ev.DoReindex? || ev.DoRebuild? ==> var v' := Step(p, v, ev); Covered(Now(p, v'), v'.index, v'.messages)
  {
    hide DocFor, Agree, Stage, Rebuild, Reindex, Dated, Covered, Release;
    match ev
    case Write(m, text) =>
      StageKeeps(Now(p, v), v.index, m, text);
      StageDated(p, v, m, text);
    case Erase(m) => EraseDated(p, v.index, v.messages, m);
    case Upgrade(version) => AgreeAnyRelease(p, v.index, v.version, version);
    case DoReindex(order) =>
      ReindexLeavesNothingStale(Now(p, v), v.index, v.messages, order);
      ReindexDated(p, v, order);
    case DoRebuild(order) =>
      RebuildRestores(Now(p, v), v.messages, order);
      CoveredIsDated(p, v.version, Rebuild(Now(p, v), v.messages, order), v.messages);
  }

  lemma EraseDated(p: Product, ix: Index, messages: Messages, m: MsgId)
    requires Dated(p, ix, messages)
    ensures Dated(p, ix, messages - {m})
  {
    hide DocFor, DocOf;
  }

  function At(p: Product, evs: seq<Event>, n: nat): Vault
    requires n <= |evs|
  {
    if n == 0 then Vault(map[], EMPTY, 1) else Step(p, At(p, evs, n - 1), evs[n - 1])
  }

  ghost predicate Run(p: Product, evs: seq<Event>)
  {
    forall i :: 0 <= i < |evs| ==> Enabled(p, At(p, evs, i), evs[i])
  }

  /** After any history of writes, undos, upgrades, reindexes and rebuilds both full-text tables agree with
      the documents, and every document is what its release made of its message. */
  lemma {:induction false} IndexRefinesDocuments(p: Product, evs: seq<Event>, n: nat)
    requires n <= |evs| && Run(p, evs)
    ensures var v := At(p, evs, n); Agree(Now(p, v), v.index) && Dated(p, v.index, v.messages)
  {
    hide Step, Agree, Dated, Enabled;
    if n == 0 {
      EmptyAgrees(Release(p, 1));
      EmptyDated(p);
    } else {
      IndexRefinesDocuments(p, evs, n - 1);
      StepKeeps(p, At(p, evs, n - 1), evs[n - 1]);
    }
  }

  lemma EmptyDated(p: Product)
    ensures Dated(p, EMPTY, map[])
  {
  }

  /** In every run each stored text has one document, of some release, and is found under a word if and only if
      that release's searchable form of the text holds it, and by a trigram if and only if its compact form does. */
  lemma FoundByItsText(p: Product, evs: seq<Event>, n: nat, m: MsgId, word: string) returns (version: nat)
    requires n <= |evs| && Run(p, evs)
    requires m in At(p, evs, n).messages && At(p, evs, n).messages[m].Some?
    ensures var v := At(p, evs, n); var text := v.messages[m].value;
      && m in v.index.rowOf && v.index.rowOf[m] in v.index.docs
      && v.index.docs[v.index.rowOf[m]] == Doc(m, version, p.search(version)(text), p.compact(version)(text))
      && (m in Lookup(v.index, v.index.lexical, v.messages, word) <==> word in p.words(p.search(version)(text)))
      && (m in Lookup(v.index, v.index.compact, v.messages, word) <==> word in p.trigrams(p.compact(version)(text)))
  {
    hide At, Run;
    IndexRefinesDocuments(p, evs, n);
    var v := At(p, evs, n);
    assert WithText(v.messages, m);
    version := DocOf(v.index, m).value.version;
    hide Keyed;
  }

  /** So a reindex, like a rebuild, brings the index up to date with the release that runs it, in every
      reachable state: from then on it answers every lookup as a rebuild would. */
  lemma ReindexRestores(p: Product, evs: seq<Event>, n: nat, order: seq<MsgId>, word: string)
    requires n < |evs| && Run(p, evs) && (evs[n].DoReindex? || evs[n].DoRebuild?)
    requires forall m :: m in order <==> WithText(At(p, evs, n + 1).messages, m)
    ensures var v := At(p, evs, n + 1); var fresh' := Rebuild(Now(p, v), v.messages, order);
      && Covered(Now(p, v), v.index, v.messages)
      && Lookup(v.index, v.index.lexical, v.messages, word) == Lookup(fresh', fresh'.lexical, v.messages, word)
      && Lookup(v.index, v.index.compact, v.messages, word) == Lookup(fresh', fresh'.compact, v.messages, word)
  {
    var v0, v := At(p, evs, n), At(p, evs, n + 1);
    assert v == Step(p, v0, evs[n]) && Enabled(p, v0, evs[n]);
    IndexRefinesDocuments(p, evs, n);
    hide At, Run, Step, Agree, Dated, Covered, Rebuild, Enabled, Lookup;
    StepKeeps(p, v0, evs[n]);
    RebuildRestores(Now(p, v), v.messages, order);
    LookupsAgree(Now(p, v), v.index, Rebuild(Now(p, v), v.messages, order), v.messages, word);
  }

  /** A reindex has work to do: a message written under one release is stale under the next. */
  lemma UpgradeMakesStale(p: Product, v: Vault, m: MsgId, text: Option<string>, version: nat)
    requires Agree(Now(p, v), v.index) && version != v.version
    ensures var v' := Step(p, Step(p, v, Write(m, text)), Upgrade(version)); IsStale(Now(p, v'), v'.index, m)
  {
    hide DocFor, Agree, Stage, DocOf;
    StageKeeps(Now(p, v), v.index, m, text);
    DocForMessage(Now(p, v), m, text);
  }

  // ---------------------------------------------------------------- the code

  class IndexStore {
    const env: Env
    var docs: map<RowId, Doc>
    var rowOf: map<MsgId, RowId>
    var lexical: Fts
    var compact: Fts

    function View(): Index
      reads this
    {
      Index(docs, rowOf, lexical, compact)
    }

    constructor (t: SearchText.Tables, words: string -> Bag, trigrams: string -> Bag)
      ensures env == Release1(t, words, trigrams) && View() == EMPTY
    {
      env := Release1(t, words, trigrams);
      docs, rowOf, lexical, compact := map[], map[], map[], map[];
    }

    method StageMessage(m: MsgId, text: Option<string>)
      modifies this
      ensures View() == Stage(env, old(View()), m, text)
    {
      hide NewRow;
      var t := if text.Some? then text.value else "";
      var ts, tc := env.search(t), env.compact(t);
      var r;
      if m in rowOf && rowOf[m] in docs {
        r := rowOf[m];
        lexical := Remove(lexical, r, env.words(docs[r].search));
        compact := Remove(compact, r, env.trigrams(docs[r].compact));
      } else {
        r := NewRow(docs);
      }
      docs := docs[r := Doc(m, env.version, ts, tc)];
      rowOf := rowOf[m := r];
      lexical := Insert(lexical, r, env.words(ts));
      compact := Insert(compact, r, env.trigrams(tc));
    }

    method StageList(messages: Messages, order: seq<MsgId>)
      modifies this
      ensures View() == StageAll(env, old(View()), messages, order)
    {
      hide Stage;
      for i := 0 to |order|
        invariant View() == StageAll(env, old(View()), messages, order[..i])
      {
        assert order[..i + 1][..i] == order[..i];
        StageMessage(order[i], TextOf(messages, order[i]));
      }
      assert order[..|order|] == order;
    }

    method ReindexStale(messages: Messages, order: seq<MsgId>) returns (n: nat)
      requires forall m :: m in order <==> IsStale(env, View(), m)
      requires Agree(env, View())
      modifies this
      ensures View() == Reindex(env, old(View()), messages, order) && n == |order|
      ensures Agree(env, View()) && forall m :: !IsStale(env, View(), m)
    {
      hide InStep, DocFor;
      ReindexLeavesNothingStale(env, View(), messages, order);
      StageList(messages, order);
      n := |order|;
    }

    method RebuildAll(messages: Messages, order: seq<MsgId>) returns (n: nat)
      requires forall m :: m in order <==> WithText(messages, m)
      modifies this
      ensures View() == Rebuild(env, messages, order) && n == |order|
      ensures Agree(env, View()) && Covered(env, View(), messages)
    {
      hide Agree, Covered, StageAll;
      docs, rowOf, lexical, compact := map[], map[], map[], map[];
      StageList(messages, order);
      RebuildRestores(env, messages, order);
      n := |order|;
    }
  }
}
