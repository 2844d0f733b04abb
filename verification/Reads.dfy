/** The fenced reads (mcp/reads.py, mcp/acl.py). A conversation marked LOCAL_ONLY must be
    indistinguishable, through every read but search, from one that was never stored.

    Tables are in scan order. What `present` makes of a row is a function of that row and its contact
    row, so an answer is that pair; what `reduce_status` makes of events is a function of their list. */
module Reads {
  import opened Prelude
  import opened Tables
  import SearchQuery

  type Id = nat

  const MAX_LIMIT := 200
  const WINDOW_MS := 24 * 3600 * 1000

  datatype Visibility = AllowMcp | LocalOnly

  datatype Conversation = Conversation(
    id: Id, kind: string, subject: Option<string>, lastMessage: Option<int>, visibility: Visibility)

  /** `other` stands for the columns that are shown and not consulted. */
  datatype Message = Message(
    id: Id, conv: Id, sender: Option<Id>, lower: int, upper: int, wamid: Option<string>, other: string)

  datatype Contact = Contact(id: Id, name: string)

  datatype StatusEvent = StatusEvent(wamid: string, status: string, at: int)

  datatype Vault = Vault(
    conversations: seq<Conversation>, messages: seq<Message>, contacts: seq<Contact>, events: seq<StatusEvent>,
    windows: map<Id, int>)

  /** The primary keys that lookups rely on. */
  ghost predicate Keyed(v: Vault)
  {
    && (forall a, b :: a in v.conversations && b in v.conversations && a.id == b.id ==> a == b)
    && (forall a, b :: a in v.messages && b in v.messages && a.id == b.id ==> a == b)
  }

  // ---------------------------------------------------------------- the reads

  /** `local_only_ids` */
  function Fenced(v: Vault): set<Id>
  {
    set c | c in v.conversations && c.visibility == LocalOnly :: c.id
  }

  function Clamp(limit: int): (n: nat)
    ensures 1 <= n <= MAX_LIMIT
  {
    var capped := if limit < MAX_LIMIT then limit else MAX_LIMIT;
    if capped > 1 then capped else 1
  }

  datatype View = View(row: Message, contact: Option<Contact>)

  function ViewOf(v: Vault, m: Message): View
  {
    View(m, match m.sender case None => None case Some(s) => First(v.contacts, (c: Contact) => c.id == s))
  }

  function ViewAll(v: Vault, rows: seq<Message>): seq<View>
  {
    seq(|rows|, i requires 0 <= i < |rows| => ViewOf(v, rows[i]))
  }

  predicate Overlaps(m: Message, from: Option<int>, to: Option<int>)
  {
    (from.Some? ==> m.upper > from.value) && (to.Some? ==> m.lower < to.value)
  }

  predicate Earlier(a: Message, b: Message)
  {
    a.lower < b.lower || (a.lower == b.lower && a.id <= b.id)
  }

  function GetMessages(v: Vault, conv: Id, from: Option<int>, to: Option<int>, limit: int): seq<View>
  {
    var c := First(v.conversations, (c: Conversation) => c.id == conv);
    if c == None || c.value.visibility == LocalOnly then []
    else ViewAll(v, Select(v.messages, (m: Message) => m.conv == conv && Overlaps(m, from, to), Earlier, Clamp(limit)))
  }

  datatype Chat = Chat(id: Id, kind: string, subject: Option<string>, lastMessage: Option<int>)

  /** Descending; SQLite puts nulls last. */
  predicate MoreRecent(a: Conversation, b: Conversation)
  {
    b.lastMessage == None || (a.lastMessage.Some? && a.lastMessage.value >= b.lastMessage.value)
  }

  /** `like` is the subject test, when a query was given. */
  predicate Listed(c: Conversation, like: Option<string -> bool>)
  {
    c.visibility != LocalOnly && (like.Some? ==> c.subject.Some? && like.value(c.subject.value))
  }

  function ListChats(v: Vault, like: Option<string -> bool>, limit: int): seq<Chat>
  {
    ChatsOf(Select(v.conversations, (c: Conversation) => Listed(c, like), MoreRecent, Clamp(limit)))
  }

  function ChatsOf(rows: seq<Conversation>): seq<Chat>
  {
    seq(|rows|, i requires 0 <= i < |rows| => Chat(rows[i].id, rows[i].kind, rows[i].subject, rows[i].lastMessage))
  }

  datatype StatusAnswer = Missing | NeverSent | Of(events: seq<StatusEvent>)

  function GetMessageStatus(v: Vault, id: Id): StatusAnswer
  {
    match First(v.messages, (m: Message) => m.id == id)
    case None => Missing
    case Some(m) =>
      if m.conv in Fenced(v) then Missing
      else if m.wamid == None || m.wamid.value == "" then NeverSent
      else Of(Filter(v.events, (e: StatusEvent) => e.wamid == m.wamid.value))
  }

  datatype WindowAnswer = WindowAnswer(open: bool, last: int, closes: int)

  function GetConversationWindow(v: Vault, conv: Id, now: int): WindowAnswer
  {
    if conv in Fenced(v) then WindowAnswer(false, 0, WINDOW_MS)
    else
      var last := if conv in v.windows then v.windows[conv] else 0;
      WindowAnswer(last > 0 && now < last + WINDOW_MS, last, last + WINDOW_MS)
  }

  // ---------------------------------------------------------------- what get_messages returns

  lemma EarlierIsOrder()
    ensures IsOrder(Earlier)
  {
  }

  lemma MoreRecentIsOrder()
    ensures IsOrder(MoreRecent)
  {
  }

  function RowsOf(views: seq<View>): seq<Message>
  {
    seq(|views|, i requires 0 <= i < |views| => views[i].row)
  }

  ghost predicate Readable(v: Vault, conv: Id)
  {
    exists c :: c in v.conversations && c.id == conv && c.visibility != LocalOnly
  }

  /** The rows are a page of those of the conversation that overlap the interval, by time and id, up to
      the clamped limit, each shown with its contact; a fenced or unknown conversation has none. */
  lemma MessagesExact(v: Vault, conv: Id, from: Option<int>, to: Option<int>, limit: int)
    requires Keyed(v)
    ensures var r := GetMessages(v, conv, from, to, limit);
      var wanted := Filter(v.messages, (m: Message) => m.conv == conv && Overlaps(m, from, to));
      && (!Readable(v, conv) ==> r == [])
      && (Readable(v, conv) ==> IsPage(RowsOf(r), wanted, Earlier, Clamp(limit)))
      && (forall i :: 0 <= i < |r| ==> r[i] == ViewOf(v, r[i].row))
  {
    var p := (m: Message) => m.conv == conv && Overlaps(m, from, to);
    ReadableIs(v, conv);
    hide Select, IsPage, Readable, Keyed, Filter, ViewOf, First;
    EarlierIsOrder();
    SelectExact(v.messages, p, Earlier, Clamp(limit));
    RowsOfViews(v, Select(v.messages, p, Earlier, Clamp(limit)));
  }

  lemma ReadableIs(v: Vault, conv: Id)
    requires Keyed(v)
    ensures var c := First(v.conversations, (c: Conversation) => c.id == conv);
      Readable(v, conv) <==> c.Some? && c.value.visibility != LocalOnly
  {
    hide First;
  }

  lemma RowsOfViews(v: Vault, rows: seq<Message>)
    ensures RowsOf(ViewAll(v, rows)) == rows
  {
    hide First;
  }

  /** The chats are a page of the conversations that are not fenced and match, most recent first, up to
      the clamped limit. */
  lemma ChatsExact(v: Vault, like: Option<string -> bool>, limit: int) returns (rows: seq<Conversation>)
    ensures ListChats(v, like, limit) == ChatsOf(rows)
    ensures IsPage(rows, Filter(v.conversations, (c: Conversation) => Listed(c, like)), MoreRecent, Clamp(limit))
  {
    hide IsPage, Filter, Listed;
    var p := (c: Conversation) => Listed(c, like);
    MoreRecentIsOrder();
    SelectExact(v.conversations, p, MoreRecent, Clamp(limit));
    rows := Select(v.conversations, p, MoreRecent, Clamp(limit));
  }

  // ---------------------------------------------------------------- non-interference

  function Kept(v: Vault): seq<Message>
  {
    var fenced := Fenced(v);
    Filter(v.messages, (m: Message) => m.conv !in fenced)
  }

  function Senders(rows: seq<Message>): set<Id>
  {
    set m | m in rows && m.sender.Some? :: m.sender.value
  }

  function Wamids(rows: seq<Message>): set<string>
  {
    set m | m in rows && m.wamid.Some? :: m.wamid.value
  }

  /** The vault with every fenced conversation gone, together with its messages, its window, and the
      contacts and status events that no remaining message refers to. */
  function Public(v: Vault): Vault
  {
    var kept := Kept(v);
    var fenced, senders, wamids := Fenced(v), Senders(kept), Wamids(kept);
    Vault(Filter(v.conversations, (c: Conversation) => c.visibility != LocalOnly),
          kept,
          Filter(v.contacts, (c: Contact) => c.id in senders),
          Filter(v.events, (e: StatusEvent) => e.wamid in wamids),
          map c | c in v.windows && c !in fenced :: v.windows[c])
  }

  lemma PublicHasNoFence(v: Vault)
    ensures Fenced(Public(v)) == {}
  {
    FilterHas(v.conversations, (c: Conversation) => c.visibility != LocalOnly);
  }

  lemma KeptHas(v: Vault, m: Message)
    ensures m in Kept(v) <==> m in v.messages && m.conv !in Fenced(v)
  {
    var fenced := Fenced(v);
    FilterHas(v.messages, (m: Message) => m.conv !in fenced);
  }

  lemma {:induction false} ViewIsPublic(v: Vault, m: Message)
    requires m in Kept(v)
    ensures ViewOf(v, m) == ViewOf(Public(v), m)
  {
    if m.sender.Some? {
      var s := m.sender.value;
      var senders := Senders(Kept(v));
      assert s in senders;
      FilterTwice(v.contacts, (c: Contact) => c.id in senders, (c: Contact) => c.id == s);
    }
  }

  lemma ViewsArePublic(v: Vault, rows: seq<Message>)
    requires forall m :: m in rows ==> m in Kept(v)
    ensures ViewAll(v, rows) == ViewAll(Public(v), rows)
  {
    hide ViewOf, Public, Kept;
    forall i | 0 <= i < |rows| ensures ViewOf(v, rows[i]) == ViewOf(Public(v), rows[i]) {
      ViewIsPublic(v, rows[i]);
    }
  }

  lemma ConversationIsPublic(v: Vault, conv: Id)
    requires Keyed(v)
    ensures var of := (c: Conversation) => c.id == conv;
      First(Public(v).conversations, of) == if conv in Fenced(v) then None else First(v.conversations, of)
  {
    var of := (c: Conversation) => c.id == conv;
    FilterHas(v.conversations, (c: Conversation) => c.visibility != LocalOnly);
    if conv !in Fenced(v) {
      FilterTwice(v.conversations, (c: Conversation) => c.visibility != LocalOnly, of);
    }
  }

  lemma FencedConversation(v: Vault, conv: Id)
    requires Keyed(v)
    ensures conv in Fenced(v) <==>
      var c := First(v.conversations, (c: Conversation) => c.id == conv);
      c.Some? && c.value.visibility == LocalOnly
  {
  }

  lemma MessagesArePublic(v: Vault, conv: Id, from: Option<int>, to: Option<int>, limit: int)
    requires Keyed(v)
    ensures GetMessages(v, conv, from, to, limit) == GetMessages(Public(v), conv, from, to, limit)
  {
    FencedConversation(v, conv);
    ConversationIsPublic(v, conv);
    var c := First(v.conversations, (c: Conversation) => c.id == conv);
    if c.Some? && c.value.visibility != LocalOnly {
      var fenced := Fenced(v);
      var p := (m: Message) => m.conv == conv && Overlaps(m, from, to);
      FilterTwice(v.messages, (m: Message) => m.conv !in fenced, p);
      var rows := Select(v.messages, p, Earlier, Clamp(limit));
      EarlierIsOrder();
      SelectExact(v.messages, p, Earlier, Clamp(limit));
      FilterHas(v.messages, p);
      forall m | m in rows ensures m in Kept(v) {
        assert m in Filter(v.messages, p);
        KeptHas(v, m);
      }
      hide Sort, Take, Sorted, IsPage;
      ViewsArePublic(v, rows);
    }
  }

  lemma ChatsArePublic(v: Vault, like: Option<string -> bool>, limit: int)
    ensures ListChats(v, like, limit) == ListChats(Public(v), like, limit)
  {
    FilterTwice(v.conversations, (c: Conversation) => c.visibility != LocalOnly, (c: Conversation) => Listed(c, like));
  }

  lemma StatusIsPublic(v: Vault, id: Id)
    requires Keyed(v)
    ensures GetMessageStatus(v, id) == GetMessageStatus(Public(v), id)
  {
    PublicHasNoFence(v);
    var of := (m: Message) => m.id == id;
    var fenced := Fenced(v);
    var row := First(v.messages, of);
    if row.Some? && row.value.conv !in fenced {
      var m := row.value;
      FilterTwice(v.messages, (m: Message) => m.conv !in fenced, of);
      KeptHas(v, m);
      if m.wamid.Some? {
        var wamids := Wamids(Kept(v));
        assert m.wamid.value in wamids;
        FilterTwice(v.events, (e: StatusEvent) => e.wamid in wamids, (e: StatusEvent) => e.wamid == m.wamid.value);
      }
    } else {
      NotKept(v, id);
    }
  }

  lemma NotKept(v: Vault, id: Id)
    requires Keyed(v)
    requires var row := First(v.messages, (m: Message) => m.id == id); row == None || row.value.conv in Fenced(v)
    ensures First(Public(v).messages, (m: Message) => m.id == id) == None
  {
    forall m | m in Kept(v) ensures m.id != id { KeptHas(v, m); }
    hide Filter;
  }

  lemma WindowIsPublic(v: Vault, conv: Id, now: int)
    ensures GetConversationWindow(v, conv, now) == GetConversationWindow(Public(v), conv, now)
  {
    PublicHasNoFence(v);
  }

  /** Two vaults that agree on what is not fenced answer every such read alike. */
  lemma FenceNonInterference(v: Vault, w: Vault)
    requires Keyed(v) && Keyed(w) && Public(v) == Public(w)
    ensures forall conv, from, to, limit ::
      GetMessages(v, conv, from, to, limit) == GetMessages(w, conv, from, to, limit)
    ensures forall like, limit :: ListChats(v, like, limit) == ListChats(w, like, limit)
    ensures forall id :: GetMessageStatus(v, id) == GetMessageStatus(w, id)
    ensures forall conv, now :: GetConversationWindow(v, conv, now) == GetConversationWindow(w, conv, now)
  {
    hide Public, GetMessages, ListChats, GetMessageStatus, GetConversationWindow, Keyed;
    forall conv, from, to, limit
      ensures GetMessages(v, conv, from, to, limit) == GetMessages(w, conv, from, to, limit)
    {
      MessagesArePublic(v, conv, from, to, limit);
      MessagesArePublic(w, conv, from, to, limit);
    }
    forall like, limit ensures ListChats(v, like, limit) == ListChats(w, like, limit) {
      ChatsArePublic(v, like, limit);
      ChatsArePublic(w, like, limit);
    }
    forall id ensures GetMessageStatus(v, id) == GetMessageStatus(w, id) {
      StatusIsPublic(v, id);
      StatusIsPublic(w, id);
    }
    forall conv, now ensures GetConversationWindow(v, conv, now) == GetConversationWindow(w, conv, now) {
      WindowIsPublic(v, conv, now);
      WindowIsPublic(w, conv, now);
    }
  }

  // ---------------------------------------------------------------- setting the fence

  function WithVisibility(rows: seq<Conversation>, conv: Id, visibility: Visibility): seq<Conversation>
  {
    seq(|rows|, i requires 0 <= i < |rows| =>
      if rows[i].id == conv then rows[i].(visibility := visibility) else rows[i])
  }

  /** A conversation removed with its messages and its window. */
  function Without(v: Vault, conv: Id): Vault
  {
    v.(conversations := Filter(v.conversations, (c: Conversation) => c.id != conv),
       messages := Filter(v.messages, (m: Message) => m.conv != conv),
       windows := map c | c in v.windows && c != conv :: v.windows[c])
  }

  lemma {:induction false} FenceRows(rows: seq<Conversation>, conv: Id)
    ensures Filter(WithVisibility(rows, conv, LocalOnly), (c: Conversation) => c.visibility != LocalOnly)
         == Filter(Filter(rows, (c: Conversation) => c.id != conv), (c: Conversation) => c.visibility != LocalOnly)
  {
    var open, other := (c: Conversation) => c.visibility != LocalOnly, (c: Conversation) => c.id != conv;
    if rows != [] {
      var rest := rows[1..];
      FenceRows(rest, conv);
      assert WithVisibility(rows, conv, LocalOnly)[1..] == WithVisibility(rest, conv, LocalOnly);
      if other(rows[0]) {
        assert ([rows[0]] + Filter(rest, other))[1..] == Filter(rest, other);
      }
    }
  }

  lemma FenceIds(v: Vault, conv: Id)
    requires exists c :: c in v.conversations && c.id == conv
    ensures Fenced(v.(conversations := WithVisibility(v.conversations, conv, LocalOnly))) == Fenced(v) + {conv}
    ensures Fenced(Without(v, conv)) == Fenced(v) - {conv}
  {
    var rows := WithVisibility(v.conversations, conv, LocalOnly);
    var w := v.(conversations := rows);
    FilterHas(v.conversations, (c: Conversation) => c.id != conv);
    forall x ensures x in Fenced(w) <==> x in Fenced(v) + {conv} {
      if x in Fenced(v) + {conv} {
        var c :| c in v.conversations && c.id == x && (x != conv ==> c.visibility == LocalOnly);
        var i :| 0 <= i < |v.conversations| && v.conversations[i] == c;
        assert rows[i] in rows;
      }
      if x in Fenced(w) {
        var c :| c in rows && c.id == x && c.visibility == LocalOnly;
        var i :| 0 <= i < |rows| && rows[i] == c;
        assert v.conversations[i] in v.conversations;
      }
    }
  }

  /** Marking a stored conversation LOCAL_ONLY leaves the readers what deleting it would leave them. */
  lemma FencingIsDeletion(v: Vault, conv: Id)
    requires exists c :: c in v.conversations && c.id == conv
    ensures Public(v.(conversations := WithVisibility(v.conversations, conv, LocalOnly))) == Public(Without(v, conv))
  {
    var w, d := v.(conversations := WithVisibility(v.conversations, conv, LocalOnly)), Without(v, conv);
    FenceRows(v.conversations, conv);
    FenceIds(v, conv);
    var fw, fd := Fenced(w), Fenced(d);
    FilterBoth(v.messages, (m: Message) => m.conv != conv, (m: Message) => m.conv !in fd,
      (m: Message) => m.conv !in fw);
    assert Kept(w) == Kept(d);
    hide Fenced, Filter;
    SameMap(Public(w).windows, Public(d).windows);
  }

  /** The connection through which `set_visibility` writes. */
  class VaultDb {
    var vault: Vault

    constructor (v: Vault)
      ensures vault == v
    {
      vault := v;
    }

    /** `None` is a value that `_VALID` does not hold. */
    method SetVisibility(conv: Id, visibility: Option<Visibility>) returns (ok: bool)
      modifies this
      ensures ok == visibility.Some?
      ensures vault == if !ok then old(vault)
        else old(vault).(conversations := WithVisibility(old(vault).conversations, conv, visibility.value))
    {
      if visibility == None { return false; }
      vault := vault.(conversations := WithVisibility(vault.conversations, conv, visibility.value));
      return true;
    }
  }

  // ---------------------------------------------------------------- search

  datatype Found = Found(view: View, tier: SearchQuery.Tier)

  /** What is shown of a message, if it is: its conversation comes from the joined row. */
  function FoundOf(v: Vault, h: SearchQuery.Hit): Option<Found>
  {
    match First(v.messages, (m: Message) => m.id == h.message)
    case None => None
    case Some(m) => if m.conv in Fenced(v) then None else Some(Found(ViewOf(v, m), h.tier))
  }

  function Fence(v: Vault, hits: seq<SearchQuery.Hit>): seq<Found>
  {
    if hits == [] then []
    else
      var found := FoundOf(v, hits[|hits| - 1]);
      Fence(v, hits[..|hits| - 1]) + (if found.Some? then [found.value] else [])
  }

  /** `search`, given what `run` returned: whatever the hits, nothing fenced comes out. */
  method Search(v: Vault, hits: seq<SearchQuery.Hit>) returns (out: seq<Found>)
    ensures out == Fence(v, hits)
    ensures forall i :: 0 <= i < |out| ==> out[i].view.row in v.messages && out[i].view.row.conv !in Fenced(v)
  {
    var local := Fenced(v);
    out := [];
    for k := 0 to |hits|
      invariant out == Fence(v, hits[..k])
      invariant forall i :: 0 <= i < |out| ==> out[i].view.row in v.messages && out[i].view.row.conv !in local
    {
      assert hits[..k + 1][..k] == hits[..k];
      var m := First(v.messages, (m: Message) => m.id == hits[k].message);
      if m.Some? && m.value.conv !in local {
        out := out + [Found(ViewOf(v, m.value), hits[k].tier)];
      }
    }
    assert hits[..|hits|] == hits;
  }

  predicate Shown(v: Vault, id: Id)
  {
    FoundOf(v, SearchQuery.Hit(id, SearchQuery.LexicalTier)).Some?
  }

  lemma ShownAnyTier(v: Vault, h: SearchQuery.Hit)
    ensures FoundOf(v, h).Some? <==> Shown(v, h.message)
  {
  }

  /** `views` is what is shown of `hits`, one by one. */
  ghost predicate ShownAs(v: Vault, hits: seq<SearchQuery.Hit>, views: seq<Found>)
  {
    && |views| == |hits|
    && forall i :: 0 <= i < |hits| ==> FoundOf(v, hits[i]) == Some(views[i])
  }

  lemma ShownMore(v: Vault, hits: seq<SearchQuery.Hit>, views: seq<Found>, h: SearchQuery.Hit, f: Found)
    requires ShownAs(v, hits, views) && FoundOf(v, h) == Some(f)
    ensures ShownAs(v, hits + [h], views + [f])
  {
    hide FoundOf;
  }

  /** The fence is a filter. */
  lemma {:induction false} FenceIsFilter(v: Vault, hits: seq<SearchQuery.Hit>)
    ensures ShownAs(v, Filter(hits, (h: SearchQuery.Hit) => Shown(v, h.message)), Fence(v, hits))
  {
    var p := (h: SearchQuery.Hit) => Shown(v, h.message);
    if hits != [] {
      var front, x := hits[..|hits| - 1], hits[|hits| - 1];
      FenceIsFilter(v, front);
      assert hits == front + [x];
      FilterAppend(front, [x], p);
      FilterOne(x, p);
      ShownAnyTier(v, x);
      hide FoundOf, ShownAs, Filter, Shown;
      if p(x) {
        ShownMore(v, Filter(front, p), Fence(v, front), x, FoundOf(v, x).value);
      } else {
        assert Filter(front, p) + [] == Filter(front, p) && Fence(v, front) + [] == Fence(v, front);
      }
    }
  }

  lemma FilterOne<T(!new)>(x: T, p: T -> bool)
    ensures Filter([x], p) == if p(x) then [x] else []
  {
  }

  lemma FoundIsPublic(v: Vault, h: SearchQuery.Hit)
    requires Keyed(v)
    ensures FoundOf(v, h) == FoundOf(Public(v), h)
  {
    PublicHasNoFence(v);
    var of := (m: Message) => m.id == h.message;
    var fenced := Fenced(v);
    var row := First(v.messages, of);
    if row.Some? && row.value.conv !in fenced {
      FilterTwice(v.messages, (m: Message) => m.conv !in fenced, of);
      KeptHas(v, row.value);
      ViewIsPublic(v, row.value);
    } else {
      NotKept(v, h.message);
    }
  }

  // ---------------------------------------------------------------- what a search ranks

  ghost predicate Distinct(ids: seq<Id>)
  {
    forall i, j :: 0 <= i < j < |ids| ==> ids[i] != ids[j]
  }

  function Tagged(ids: seq<Id>, tier: SearchQuery.Tier): seq<SearchQuery.Hit>
  {
    seq(|ids|, i requires 0 <= i < |ids| => SearchQuery.Hit(ids[i], tier))
  }

  lemma DistinctTail(ids: seq<Id>)
    requires Distinct(ids) && ids != []
    ensures Distinct(ids[1..]) && ids[0] !in ids[1..]
  {
  }

  lemma {:induction false} UnseenDistinct(seen: set<Id>, rows: seq<Id>, tier: SearchQuery.Tier)
    requires Distinct(rows)
    ensures SearchQuery.Unseen(seen, rows, tier) == Tagged(Filter(rows, (x: Id) => x !in seen), tier)
    decreases |rows|
  {
    if rows != [] {
      var x, rest := rows[0], rows[1..];
      DistinctTail(rows);
      if x in seen {
        UnseenDistinct(seen, rest, tier);
      } else {
        UnseenDistinct(seen + {x}, rest, tier);
        FilterAgrees(rest, (y: Id) => y !in seen + {x}, (y: Id) => y !in seen);
        var kept := Filter(rest, (y: Id) => y !in seen);
        assert Tagged([x] + kept, tier) == [SearchQuery.Hit(x, tier)] + Tagged(kept, tier);
      }
    }
  }

  /** Both tiers' matches, best first: the lexical ones, then the compact ones that are not among them. */
  function Ranking(lex: seq<Id>, comp: seq<Id>): seq<SearchQuery.Hit>
  {
    Tagged(lex, SearchQuery.LexicalTier) + Tagged(Filter(comp, (x: Id) => x !in lex), SearchQuery.CompactTier)
  }

  lemma {:induction false} FilterCounts(ids: seq<Id>, p: Id -> bool, q: Id -> bool)
    requires forall x :: q(x) == !p(x)
    ensures |Filter(ids, p)| + |Filter(ids, q)| == |ids|
  {
    if ids != [] {
      FilterCounts(ids[1..], p, q);
    }
  }

  lemma {:induction false} FilterDistinct(ids: seq<Id>, p: Id -> bool)
    requires Distinct(ids)
    ensures Distinct(Filter(ids, p))
  {
    if ids != [] {
      DistinctTail(ids);
      FilterDistinct(ids[1..], p);
      FilterHas(ids[1..], p);
      hide Filter;
      var rest := Filter(ids[1..], p);
      FilterHead(ids[0], ids[1..], p);
      assert ids == [ids[0]] + ids[1..];
      assert forall i :: 0 <= i < |rest| ==> rest[i] in rest;
    }
  }

  /** Distinct ids among those of a list are no more than the list is long. */
  lemma {:induction false} DistinctWithin(ids: seq<Id>, among: seq<Id>)
    requires Distinct(ids) && forall i :: 0 <= i < |ids| ==> ids[i] in among
    ensures |ids| <= |among|
  {
    var a, b := set i | 0 <= i < |ids| :: ids[i], set i | 0 <= i < |among| :: among[i];
    DistinctSize(ids);
    SetSize(among);
    assert a <= b;
    SubsetSize(a, b);
  }

  lemma {:induction false} DistinctSize(ids: seq<Id>)
    requires Distinct(ids)
    ensures |set i | 0 <= i < |ids| :: ids[i]| == |ids|
  {
    if ids != [] {
      DistinctTail(ids);
      DistinctSize(ids[1..]);
      assert (set i | 0 <= i < |ids| :: ids[i]) == {ids[0]} + set i | 0 <= i < |ids[1..]| :: ids[1..][i]
        by { ElementsHead(ids); }
    }
  }

  lemma ElementsHead(ids: seq<Id>)
    requires ids != []
    ensures (set i | 0 <= i < |ids| :: ids[i]) == {ids[0]} + set i | 0 <= i < |ids[1..]| :: ids[1..][i]
  {
    var rest := ids[1..];
    assert forall i :: 0 < i < |ids| ==> ids[i] == rest[i - 1];
    assert forall i :: 0 <= i < |rest| ==> rest[i] == ids[i + 1];
  }

  lemma {:induction false} SetSize(ids: seq<Id>)
    ensures |set i | 0 <= i < |ids| :: ids[i]| <= |ids|
  {
    if ids != [] {
      SetSize(ids[1..]);
      ElementsHead(ids);
    }
  }

  /** Enough of the compact tier survives the duplicates to fill the limit. */
  lemma CompactFills(lex: seq<Id>, comp: seq<Id>, limit: nat)
    requires Distinct(comp) && |lex| <= limit <= |comp|
    ensures |Filter(comp[..limit], (x: Id) => x !in lex)| >= limit - |lex|
  {
    var rows, p, q := comp[..limit], (x: Id) => x in lex, (x: Id) => x !in lex;
    var dup := Filter(rows, p);
    FilterCounts(rows, p, q);
    FilterDistinct(rows, p);
    FilterHas(rows, p);
    assert forall i :: 0 <= i < |dup| ==> dup[i] in dup;
    DistinctWithin(dup, lex);
    assert |dup| <= |lex|;
    assert |Filter(rows, q)| >= limit - |lex|;
    FilterAgrees(rows, q, (x: Id) => x !in lex);
    assert |Filter(rows, (x: Id) => x !in lex)| >= limit - |lex|;
  }

  lemma TakeEnough<T(!new)>(a: seq<T>, f: seq<T>, b: seq<T>, n: nat)
    requires |a| + |f| >= n
    ensures Take(a + (f + b), n) == Take(a + f, n)
  {
    assert a + (f + b) == a + f + b;
    assert (a + f + b)[..n] == (a + f)[..n];
  }

  lemma TaggedAppend(a: seq<Id>, b: seq<Id>, tier: SearchQuery.Tier)
    ensures Tagged(a + b, tier) == Tagged(a, tier) + Tagged(b, tier)
  {
  }

  lemma FirstTier(lex: seq<Id>)
    requires Distinct(lex)
    ensures SearchQuery.Unseen({}, lex, SearchQuery.LexicalTier) == Tagged(lex, SearchQuery.LexicalTier)
  {
    var none: set<Id> := {};
    UnseenDistinct(none, lex, SearchQuery.LexicalTier);
    FilterAll(lex, (x: Id) => x !in none);
  }

  lemma SecondTier(lex: seq<Id>, comp: seq<Id>)
    requires Distinct(comp)
    ensures SearchQuery.Unseen(SearchQuery.Seen({}, lex), comp, SearchQuery.CompactTier)
      == Tagged(Filter(comp, (x: Id) => x !in lex), SearchQuery.CompactTier)
  {
    var seen := SearchQuery.Seen({}, lex);
    UnseenDistinct(seen, comp, SearchQuery.CompactTier);
    FilterAgrees(comp, (x: Id) => x !in seen, (x: Id) => x !in lex);
  }

  lemma DistinctTake(ids: seq<Id>, n: nat)
    requires Distinct(ids)
    ensures Distinct(Take(ids, n))
  {
  }

  /** Limiting the compact tier first does not change what the limit lets through. */
  lemma RankingLimited(lex: seq<Id>, comp: seq<Id>, limit: nat)
    requires Distinct(comp) && |lex| <= limit
    ensures Take(Ranking(lex, Take(comp, limit)), limit) == Take(Ranking(lex, comp), limit)
  {
    if limit < |comp| {
      var p := (x: Id) => x !in lex;
      var front, back := comp[..limit], comp[limit..];
      assert comp == front + back;
      FilterAppend(front, back, p);
      CompactFills(lex, comp, limit);
      TaggedAppend(Filter(front, p), Filter(back, p), SearchQuery.CompactTier);
      TakeEnough(Tagged(lex, SearchQuery.LexicalTier), Tagged(Filter(front, p), SearchQuery.CompactTier),
                 Tagged(Filter(back, p), SearchQuery.CompactTier), limit);
    }
  }

  /** What `run` returns, when each tier returns its best up to the limit, is the best of the ranking. */
  lemma ResultsAreTop(q: SearchQuery.Query, lex: seq<Id>, comp: seq<Id>)
    requires q.limit >= 0 && Distinct(lex) && Distinct(comp)
    ensures var limit := SearchQuery.Limit(q);
      SearchQuery.Results(q, Take(lex, limit), Take(comp, limit)) == Take(Ranking(lex, comp), limit)
  {
    var limit := SearchQuery.Limit(q);
    var l, c := Take(lex, limit), Take(comp, limit);
    DistinctTake(lex, limit);
    DistinctTake(comp, limit);
    FirstTier(l);
    SecondTier(l, c);
    hide SearchQuery.Unseen, SearchQuery.Seen, Filter, Distinct;
    var first := Tagged(l, SearchQuery.LexicalTier);
    if limit <= |lex| {
      assert first + [] == first;
      assert Ranking(lex, comp)[..limit] == first;
    } else {
      RankingLimited(lex, comp, limit);
    }
  }

  lemma {:induction false} FilterTagged(ids: seq<Id>, tier: SearchQuery.Tier, p: Id -> bool)
    ensures Filter(Tagged(ids, tier), (h: SearchQuery.Hit) => p(h.message)) == Tagged(Filter(ids, p), tier)
  {
    if ids != [] {
      var x, rest := ids[0], ids[1..];
      FilterTagged(rest, tier, p);
      hide Filter;
      FilterHead(x, rest, p);
      FilterHead(SearchQuery.Hit(x, tier), Tagged(rest, tier), (h: SearchQuery.Hit) => p(h.message));
      assert ids == [x] + rest && Tagged(ids, tier) == [SearchQuery.Hit(x, tier)] + Tagged(rest, tier);
      TaggedAppend(if p(x) then [x] else [], Filter(rest, p), tier);
    } else {
      assert Tagged(ids, tier) == [];
    }
  }

  /** The ranking of the visible matches is the visible part of the ranking. */
  lemma VisibleRanking(lex: seq<Id>, comp: seq<Id>, p: Id -> bool)
    ensures Filter(Ranking(lex, comp), (h: SearchQuery.Hit) => p(h.message)) == Ranking(Filter(lex, p), Filter(comp, p))
  {
    var visible := Filter(lex, p);
    var inLex, inVisible := (x: Id) => x !in lex, (x: Id) => x !in visible;
    var both := (x: Id) => x !in lex && p(x);
    FilterHas(lex, p);
    FilterBoth(comp, inLex, p, both);
    FilterBoth(comp, p, inVisible, both);
    hide Filter;
    FilterTagged(lex, SearchQuery.LexicalTier, p);
    FilterTagged(Filter(comp, inLex), SearchQuery.CompactTier, p);
    FilterAppend(Tagged(lex, SearchQuery.LexicalTier), Tagged(Filter(comp, inLex), SearchQuery.CompactTier),
                 (h: SearchQuery.Hit) => p(h.message));
  }

  ghost predicate Holds(hits: seq<SearchQuery.Hit>, x: Id)
  {
    exists i :: 0 <= i < |hits| && hits[i].message == x
  }

  /** Every match is ranked, once. */
  lemma RankingHolds(lex: seq<Id>, comp: seq<Id>, x: Id)
    ensures Holds(Ranking(lex, comp), x) <==> x in lex || x in comp
  {
    var p := (x: Id) => x !in lex;
    FilterHas(comp, p);
    hide Filter;
    var r, rest := Ranking(lex, comp), Filter(comp, p);
    if x in lex {
      var i :| 0 <= i < |lex| && lex[i] == x;
      assert r[i].message == x;
    } else if x in comp {
      assert x in rest;
      var i :| 0 <= i < |rest| && rest[i] == x;
      assert r[|lex| + i].message == x;
    }
    if Holds(r, x) {
      var i :| 0 <= i < |r| && r[i].message == x;
      if i >= |lex| { assert rest[i - |lex|] in rest; }
    }
  }

  lemma RankingDistinct(lex: seq<Id>, comp: seq<Id>)
    requires Distinct(lex) && Distinct(comp)
    ensures var r := Ranking(lex, comp); forall i, j :: 0 <= i < j < |r| ==> r[i].message != r[j].message
  {
    var p := (x: Id) => x !in lex;
    FilterHas(comp, p);
    FilterDistinct(comp, p);
    hide Filter;
    var r, rest := Ranking(lex, comp), Filter(comp, p);
    forall i, j | 0 <= i < j < |r| ensures r[i].message != r[j].message {
      if i < |lex| <= j {
        assert rest[j - |lex|] in rest && r[i].message in lex;
      }
    }
  }

  /** Nothing beyond the limit satisfies `p` exactly when every match that does is inside it. */
  lemma BeyondLimit(lex: seq<Id>, comp: seq<Id>, limit: nat, p: Id -> bool)
    requires Distinct(lex) && Distinct(comp)
    ensures var r := Ranking(lex, comp); var top := Take(r, limit);
      (forall h :: h in r[|top|..] ==> !p(h.message)) <==>
        (forall x :: (x in lex || x in comp) && p(x) ==> Holds(top, x))
  {
    var r := Ranking(lex, comp);
    var top := Take(r, limit);
    var back := r[|top|..];
    RankingDistinct(lex, comp);
    hide Ranking, Distinct;
    assert forall k :: |top| <= k < |r| ==> r[k] == back[k - |top|];
    if forall h :: h in back ==> !p(h.message) {
      forall x | (x in lex || x in comp) && p(x) ensures Holds(top, x) {
        RankingHolds(lex, comp, x);
        var i :| 0 <= i < |r| && r[i].message == x;
        assert i < |top| && top[i].message == x;
      }
    }
    if forall x :: (x in lex || x in comp) && p(x) ==> Holds(top, x) {
      forall h | h in back ensures !p(h.message) {
        var j :| 0 <= j < |back| && back[j] == h;
        assert r[|top| + j].message == h.message;
        RankingHolds(lex, comp, h.message);
        assert !Holds(top, h.message);
      }
    }
  }

  /** A search over vault `v`, `lex` and `comp` being every match of the two tiers, best first. */
  function SearchBoth(v: Vault, q: SearchQuery.Query, lex: seq<Id>, comp: seq<Id>): seq<Found>
    requires q.limit >= 0
  {
    Fence(v, SearchQuery.Results(q, Take(lex, SearchQuery.Limit(q)), Take(comp, SearchQuery.Limit(q))))
  }

  lemma PublicShows(v: Vault, hits: seq<SearchQuery.Hit>)
    requires Keyed(v) && forall h :: h in hits ==> Shown(v, h.message)
    ensures ShownAs(Public(v), hits, Fence(Public(v), hits))
  {
    FenceIsFilter(Public(v), hits);
    hide FoundOf, Fence, Keyed, Public, ShownAs;
    forall h | h in hits ensures Shown(Public(v), h.message) {
      FoundIsPublic(v, SearchQuery.Hit(h.message, SearchQuery.LexicalTier));
    }
    FilterAll(hits, (h: SearchQuery.Hit) => Shown(Public(v), h.message));
  }

  /** Two prefixes of one list show the same exactly when they are the same. */
  lemma ShownAlike(v: Vault, w: Vault, a: seq<SearchQuery.Hit>, b: seq<SearchQuery.Hit>, va: seq<Found>,
      vb: seq<Found>, whole: seq<SearchQuery.Hit>)
    requires a <= whole && b <= whole && ShownAs(v, a, va) && ShownAs(w, b, vb)
    requires forall h :: FoundOf(v, h) == FoundOf(w, h)
    ensures va == vb <==> a == b
  {
    hide FoundOf;
    if |a| == |b| {
      assert a == b;
      forall i | 0 <= i < |va| ensures va[i] == vb[i] {
        assert FoundOf(v, a[i]) == Some(va[i]) && FoundOf(w, b[i]) == Some(vb[i]);
      }
    }
  }

  /** Search does interfere, because its limit comes before its fence: it answers as the public vault
      would exactly when every hit inside the limit is visible or every visible match is inside it. */
  lemma SearchFenceExact(v: Vault, q: SearchQuery.Query, lex: seq<Id>, comp: seq<Id>)
    requires Keyed(v) && q.limit >= 0 && Distinct(lex) && Distinct(comp)
    ensures var limit, open := SearchQuery.Limit(q), (id: Id) => Shown(v, id);
      var r := SearchQuery.Results(q, Take(lex, limit), Take(comp, limit));
      SearchBoth(v, q, lex, comp) == SearchBoth(Public(v), q, Filter(lex, open), Filter(comp, open))
      <==> (forall h :: h in r ==> Shown(v, h.message))
           || (forall x :: (x in lex || x in comp) && Shown(v, x) ==> Holds(r, x))
  {
    var limit, open := SearchQuery.Limit(q), (id: Id) => Shown(v, id);
    var shown := (h: SearchQuery.Hit) => open(h.message);
    var lex', comp' := Filter(lex, open), Filter(comp, open);
    var all, whole := Ranking(lex, comp), Ranking(lex', comp');
    FenceShows(v, q, lex, comp);
    PublicFenceShows(v, q, lex, comp);
    ResultsAreTop(q, lex, comp);
    VisibleRanking(lex, comp, open);
    hide Ranking, SearchQuery.Results, SearchBoth, Public, Keyed, FoundOf, Shown, ShownAs, Holds, Filter, Take,
      Distinct;
    TakeThenFilter(all, limit, shown);
    BeyondLimit(lex, comp, limit, open);
    forall h: SearchQuery.Hit ensures FoundOf(v, h) == FoundOf(Public(v), h) { FoundIsPublic(v, h); }
    ShownAlike(v, Public(v), Filter(Take(all, limit), shown), Take(whole, limit),
               SearchBoth(v, q, lex, comp), SearchBoth(Public(v), q, lex', comp'), whole);
  }

  lemma FenceShows(v: Vault, q: SearchQuery.Query, lex: seq<Id>, comp: seq<Id>)
    requires q.limit >= 0 && Distinct(lex) && Distinct(comp)
    ensures var limit, open := SearchQuery.Limit(q), (id: Id) => Shown(v, id);
      ShownAs(v, Filter(Take(Ranking(lex, comp), limit), (h: SearchQuery.Hit) => open(h.message)),
        SearchBoth(v, q, lex, comp))
  {
    var open := (id: Id) => Shown(v, id);
    ResultsAreTop(q, lex, comp);
    hide Ranking, SearchQuery.Results, Fence, FoundOf, Shown, ShownAs, Filter, Take, Distinct;
    var top := Take(Ranking(lex, comp), SearchQuery.Limit(q));
    FilterAgrees(top, (h: SearchQuery.Hit) => open(h.message), (h: SearchQuery.Hit) => Shown(v, h.message));
    FenceIsFilter(v, top);
  }

  lemma PublicFenceShows(v: Vault, q: SearchQuery.Query, lex: seq<Id>, comp: seq<Id>)
    requires Keyed(v) && q.limit >= 0 && Distinct(lex) && Distinct(comp)
    ensures var limit, open := SearchQuery.Limit(q), (id: Id) => Shown(v, id);
      var lex', comp' := Filter(lex, open), Filter(comp, open);
      ShownAs(Public(v), Take(Ranking(lex', comp'), limit), SearchBoth(Public(v), q, lex', comp'))
  {
    var limit, open := SearchQuery.Limit(q), (id: Id) => Shown(v, id);
    var lex', comp' := Filter(lex, open), Filter(comp, open);
    FilterDistinct(lex, open);
    FilterDistinct(comp, open);
    ResultsAreTop(q, lex', comp');
    VisibleShown(v, lex, comp);
    hide Ranking, SearchQuery.Results, Fence, Public, Keyed, FoundOf, Shown, ShownAs, Filter, Take, Distinct;
    PublicShows(v, Take(Ranking(lex', comp'), limit));
  }

  lemma VisibleShown(v: Vault, lex: seq<Id>, comp: seq<Id>)
    ensures var open := (id: Id) => Shown(v, id);
      forall h :: h in Ranking(Filter(lex, open), Filter(comp, open)) ==> Shown(v, h.message)
  {
    var open := (id: Id) => Shown(v, id);
    VisibleRanking(lex, comp, open);
    hide Ranking, Filter, Shown;
    FilterHas(Ranking(lex, comp), (h: SearchQuery.Hit) => open(h.message));
  }

  lemma ShownIff(v: Vault, m: Message)
    requires Keyed(v) && m in v.messages
    ensures Shown(v, m.id) <==> m.conv !in Fenced(v)
  {
    assert First(v.messages, (x: Message) => x.id == m.id) == Some(m);
  }

  /** Message 1 in a fenced conversation, message 2 in a visible one. */
  function Sample(): Vault
  {
    Vault([Conversation(1, "dm", None, None, LocalOnly), Conversation(2, "dm", None, None, AllowMcp)],
          [Message(1, 1, None, 0, 1, None, ""), Message(2, 2, None, 0, 1, None, "")], [], [], map[])
  }

  lemma SampleIs()
    ensures Keyed(Sample()) && !Shown(Sample(), 1) && Shown(Sample(), 2)
  {
    var v := Sample();
    assert v.conversations[0] in v.conversations;
    assert 1 in Fenced(v) && 2 !in Fenced(v);
    hide FoundOf, Fenced, Shown;
    ShownIff(v, v.messages[0]);
    ShownIff(v, v.messages[1]);
  }

  /** A fenced match takes the only place: the vault that holds it answers nothing, and the one without
      it answers with the visible message. */
  lemma FencedTakesThePlace(v: Vault, q: SearchQuery.Query, lex: seq<Id>)
    requires Keyed(v) && q.limit == 1 && |lex| == 2 && Distinct(lex) && !Shown(v, lex[0]) && Shown(v, lex[1])
    ensures SearchBoth(v, q, lex, []) == []
    ensures SearchBoth(Public(v), q, Filter(lex, (id: Id) => Shown(v, id)), Filter([], (id: Id) => Shown(v, id))) != []
  {
    FirstOnly(q, lex);
    var hits := [SearchQuery.Hit(lex[0], SearchQuery.LexicalTier)];
    assert lex[1] in lex && hits[0] in hits && !Holds(hits, lex[1]);
    assert Distinct([]);
    FenceOne(v, hits[0]);
    hide Shown, Public, SearchQuery.Results, Fence, Keyed, Distinct, Filter, Take, Holds;
    assert SearchBoth(v, q, lex, []) == [];
    hide SearchBoth;
    SearchFenceExact(v, q, lex, []);
  }

  lemma SearchInterferes() returns (v: Vault, q: SearchQuery.Query, lex: seq<Id>)
    ensures Keyed(v) && q.limit >= 0 && Distinct(lex)
    ensures SearchBoth(v, q, lex, []) == []
    ensures SearchBoth(Public(v), q, Filter(lex, (id: Id) => Shown(v, id)), Filter([], (id: Id) => Shown(v, id))) != []
  {
    v, q, lex := Sample(), SearchQuery.Query([], None, None, None, 1), [1, 2];
    SampleIs();
    hide Sample, Shown, Public, SearchBoth, Keyed;
    FencedTakesThePlace(v, q, lex);
  }

  lemma FirstOnly(q: SearchQuery.Query, lex: seq<Id>)
    requires q.limit == 1 && |lex| == 2 && Distinct(lex)
    ensures SearchQuery.Limit(q) == 1
    ensures SearchQuery.Results(q, Take(lex, 1), Take([], 1)) == [SearchQuery.Hit(lex[0], SearchQuery.LexicalTier)]
  {
    ResultsAreTop(q, lex, []);
  }

  lemma FenceOne(v: Vault, h: SearchQuery.Hit)
    requires !Shown(v, h.message)
    ensures Fence(v, [h]) == []
  {
    ShownAnyTier(v, h);
    assert [h][..0] == [];
  }
}
