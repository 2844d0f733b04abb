/** What each read answers (mcp/reads.py), in the columns of the rows it reads and with the limits written out. */
module Answers {
  import opened Prelude
  import opened Tables
  import opened Reads
  import SearchQuery

  /** The conversation is stored and marked LOCAL_ONLY. */
  ghost predicate Hidden(v: Vault, conv: Id)
  {
    exists c :: c in v.conversations && c.id == conv && c.visibility == LocalOnly
  }

  lemma HiddenIsFenced(v: Vault, conv: Id)
    ensures Hidden(v, conv) <==> conv in Fenced(v)
  {
  }

  /** A limit below 1 counts as 1 and one above 200 as 200. */
  function PageSize(limit: int): nat
  {
    if limit < 1 then 1 else if limit > 200 then 200 else limit
  }

  // ---------------------------------------------------------------- get_messages

  /** The message is of the conversation and its interval meets the one asked for. */
  predicate Asked(m: Message, conv: Id, from: Option<int>, to: Option<int>)
  {
    m.conv == conv && (from == None || from.value < m.upper) && (to == None || m.lower < to.value)
  }

  /** Shown with the contact row of its sender, if there is one. */
  ghost predicate ShownWith(v: Vault, m: Message, contact: Option<Contact>)
  {
    match contact
    case Some(c) => m.sender == Some(c.id) && c in v.contacts
    case None => m.sender == None || forall c :: c in v.contacts ==> c.id != m.sender.value
  }

  lemma ViewShows(v: Vault, m: Message)
    ensures ViewOf(v, m).row == m && ShownWith(v, m, ViewOf(v, m).contact)
  {
    hide First;
  }

  predicate NoLater(a: Message, b: Message)
  {
    a.lower < b.lower || (a.lower == b.lower && a.id <= b.id)
  }

  predicate LeftOut(m: Message, r: seq<View>)
  {
    forall j :: 0 <= j < |r| ==> r[j].row != m
  }

  /** For every vault and argument: a conversation that is unknown or marked LOCAL_ONLY has no messages to show.
      Otherwise the answer holds messages of the conversation that meet the interval, from the earliest on, as many
      as there are up to the page size, each with its sender's contact, and leaves out none that is earlier. */
  lemma MessagesAnswered(v: Vault, conv: Id, from: Option<int>, to: Option<int>, limit: int)
    requires Keyed(v)
    ensures var r := GetMessages(v, conv, from, to, limit);
      var all := |Chosen(v.messages, (m: Message) => Asked(m, conv, from, to), |v.messages|)|;
      && (!(exists c :: c in v.conversations && c.id == conv) || Hidden(v, conv) ==> r == [])
      && ((exists c :: c in v.conversations && c.id == conv) && !Hidden(v, conv) ==>
            && |r| == (if PageSize(limit) < all then PageSize(limit) else all)
            && (forall i :: 0 <= i < |r| ==> r[i].row in v.messages && Asked(r[i].row, conv, from, to))
            && (forall i, j :: 0 <= i < j < |r| ==> NoLater(r[i].row, r[j].row))
            && (forall m, i :: m in v.messages && Asked(m, conv, from, to) && LeftOut(m, r) && 0 <= i < |r| ==>
                  NoLater(r[i].row, m)))
      && (forall i :: 0 <= i < |r| ==> ShownWith(v, r[i].row, r[i].contact))
  {
    ReadableMeans(v, conv);
    hide GetMessages, Wanted, ViewOf, ShownWith, Chosen, Keyed, Hidden, Readable, IsPage, LeftOut, NoLater, Asked;
    var r := GetMessages(v, conv, from, to, limit);
    WantedIs(v, conv, from, to, limit);
    if Readable(v, conv) { PageIs(r, Wanted(v, conv, from, to), Clamp(limit)); }
  }

  function Wanted(v: Vault, conv: Id, from: Option<int>, to: Option<int>): seq<Message>
  {
    Filter(v.messages, (m: Message) => Asked(m, conv, from, to))
  }

  lemma WantedIs(v: Vault, conv: Id, from: Option<int>, to: Option<int>, limit: int)
    requires Keyed(v)
    ensures var r, wanted := GetMessages(v, conv, from, to, limit), Wanted(v, conv, from, to);
      && (forall m :: m in wanted <==> m in v.messages && Asked(m, conv, from, to))
      && |wanted| == |Chosen(v.messages, (m: Message) => Asked(m, conv, from, to), |v.messages|)|
      && (!Readable(v, conv) ==> r == [])
      && (Readable(v, conv) ==> IsPage(RowsOf(r), wanted, Earlier, Clamp(limit)))
      && (forall i :: 0 <= i < |r| ==> ShownWith(v, r[i].row, r[i].contact))
  {
    hide GetMessages, Filter, ViewOf, ShownWith, Chosen, Keyed, Readable, IsPage;
    var r := GetMessages(v, conv, from, to, limit);
    var p := (m: Message) => m.conv == conv && Overlaps(m, from, to);
    var asked := (m: Message) => Asked(m, conv, from, to);
    MessagesExact(v, conv, from, to, limit);
    FilterAgrees(v.messages, p, asked);
    FilterHas(v.messages, asked);
    FilterCount(v.messages, asked);
    forall i | 0 <= i < |r| ensures ShownWith(v, r[i].row, r[i].contact) { ViewShows(v, r[i].row); }
  }

  lemma ReadableMeans(v: Vault, conv: Id)
    requires Keyed(v)
    ensures Readable(v, conv) <==> (exists c :: c in v.conversations && c.id == conv) && !Hidden(v, conv)
  {
  }

  lemma PageIs(r: seq<View>, wanted: seq<Message>, n: nat)
    requires IsPage(RowsOf(r), wanted, Earlier, n)
    ensures |r| == if n < |wanted| then n else |wanted|
    ensures forall i :: 0 <= i < |r| ==> r[i].row in wanted
    ensures forall i, j :: 0 <= i < j < |r| ==> NoLater(r[i].row, r[j].row)
    ensures forall m, i :: m in wanted && LeftOut(m, r) && 0 <= i < |r| ==> NoLater(r[i].row, m)
  {
    var rows := RowsOf(r);
    assert forall i :: 0 <= i < |r| ==> rows[i] == r[i].row && rows[i] in rows;
    forall i, j | 0 <= i < j < |r| ensures NoLater(r[i].row, r[j].row) {
      assert Earlier(rows[i], rows[j]);
    }
    forall m, i | m in wanted && LeftOut(m, r) && 0 <= i < |r| ensures NoLater(r[i].row, m) {
      assert m !in rows && rows[i] in rows;
      assert Earlier(rows[i], m);
    }
  }

  // ---------------------------------------------------------------- list_chats

  /** The conversation may be shown, and its subject matches if that is asked. */
  predicate Offered(c: Conversation, like: Option<string -> bool>)
  {
    c.visibility == AllowMcp && (like == None || (c.subject.Some? && like.value(c.subject.value)))
  }

  /** Conversations without a last message come last. */
  predicate NoOlder(a: Conversation, b: Conversation)
  {
    match (a.lastMessage, b.lastMessage)
    case (_, None) => true
    case (None, Some(_)) => false
    case (Some(x), Some(y)) => x >= y
  }

  /** The chats listed are conversations that may be shown and match, the most recent first, as many as there are up
      to the page size, and none more recent is left out. */
  lemma ChatsAnswered(v: Vault, like: Option<string -> bool>, limit: int) returns (rows: seq<Conversation>)
    ensures var r := ListChats(v, like, limit);
      var all := |Chosen(v.conversations, (c: Conversation) => Offered(c, like), |v.conversations|)|;
      && |r| == |rows| == (if PageSize(limit) < all then PageSize(limit) else all)
      && (forall i :: 0 <= i < |r| ==>
            r[i].id == rows[i].id && r[i].kind == rows[i].kind && r[i].subject == rows[i].subject
            && r[i].lastMessage == rows[i].lastMessage)
      && (forall i :: 0 <= i < |rows| ==> rows[i] in v.conversations && Offered(rows[i], like))
      && (forall i, j :: 0 <= i < j < |rows| ==> NoOlder(rows[i], rows[j]))
      && (forall c, i :: c in v.conversations && Offered(c, like) && c !in rows && 0 <= i < |rows| ==>
            NoOlder(rows[i], c))
  {
    var p, offered := (c: Conversation) => Listed(c, like), (c: Conversation) => Offered(c, like);
    rows := ChatsExact(v, like, limit);
    FilterAgrees(v.conversations, p, offered);
    FilterHas(v.conversations, offered);
    FilterCount(v.conversations, offered);
    hide ListChats, Filter, Chosen;
    var wanted := Filter(v.conversations, offered);
    forall i, j | 0 <= i < j < |rows| ensures NoOlder(rows[i], rows[j]) { assert MoreRecent(rows[i], rows[j]); }
    forall c, i | c in wanted && c !in rows && 0 <= i < |rows| ensures NoOlder(rows[i], c) {
      assert rows[i] in rows;
      assert MoreRecent(rows[i], c);
    }
    assert forall i :: 0 <= i < |rows| ==> rows[i] in rows;
  }

  // ---------------------------------------------------------------- status and window

  /** A message that is unknown or of a hidden conversation has no status; one without a wamid was never sent; any
      other has exactly the events under its wamid. */
  lemma StatusAnswered(v: Vault, m: Message)
    requires Keyed(v) && m in v.messages
    ensures var r := GetMessageStatus(v, m.id);
      && (r == Missing <==> Hidden(v, m.conv))
      && (r == NeverSent <==> !Hidden(v, m.conv) && (m.wamid == None || m.wamid.value == ""))
      && (r.Of? <==> !Hidden(v, m.conv) && m.wamid.Some? && m.wamid.value != "")
      && (r.Of? ==>
            forall e :: multiset(r.events)[e] == if e.wamid == m.wamid.value then multiset(v.events)[e] else 0)
  {
    HiddenIsFenced(v, m.conv);
    hide Filter, Hidden, First, Fenced;
    assert First(v.messages, (x: Message) => x.id == m.id) == Some(m) by { FoundById(v, m); }
    if m.wamid.Some? {
      var of := (e: StatusEvent) => e.wamid == m.wamid.value;
      forall e ensures multiset(Filter(v.events, of))[e] == if of(e) then multiset(v.events)[e] else 0 {
        FilterCopies(v.events, of, e);
      }
    }
  }

  lemma FoundById(v: Vault, m: Message)
    requires Keyed(v) && m in v.messages
    ensures First(v.messages, (x: Message) => x.id == m.id) == Some(m)
  {
    hide First;
    var r := First(v.messages, (x: Message) => x.id == m.id);
  }

  lemma {:induction false} FilterCopies(s: seq<StatusEvent>, p: StatusEvent -> bool, e: StatusEvent)
    ensures multiset(Filter(s, p))[e] == if p(e) then multiset(s)[e] else 0
  {
    if s != [] {
      FilterCopies(s[1..], p, e);
      assert s == [s[0]] + s[1..];
    }
  }

  lemma UnknownHasNoStatus(v: Vault, id: Id)
    requires forall m :: m in v.messages ==> m.id != id
    ensures GetMessageStatus(v, id) == Missing
  {
    hide First, Fenced;
  }

  /** The window is open less than 24 hours after the last message that came in, and closes then; a hidden
      conversation looks as if none ever had. */
  lemma WindowAnswered(v: Vault, conv: Id, now: int)
    ensures var r := GetConversationWindow(v, conv, now);
      if Hidden(v, conv) || conv !in v.windows then r == WindowAnswer(false, 0, 86_400_000)
      else
        && r.last == v.windows[conv] && r.closes == v.windows[conv] + 86_400_000
        && (r.open <==> v.windows[conv] > 0 && now < v.windows[conv] + 86_400_000)
  {
    HiddenIsFenced(v, conv);
    hide Hidden, Fenced;
  }

  // ---------------------------------------------------------------- search

  /** The hit is of a stored message whose conversation may be shown. */
  ghost predicate Visible(v: Vault, h: SearchQuery.Hit)
  {
    exists m :: m in v.messages && m.id == h.message && !Hidden(v, m.conv)
  }

  /** `found` shows hit `h`: its own message, with its contact and tier. */
  ghost predicate Shows(v: Vault, h: SearchQuery.Hit, found: Found)
  {
    && found.view.row in v.messages && found.view.row.id == h.message && found.tier == h.tier
    && ShownWith(v, found.view.row, found.view.contact)
  }

  /** `at` are the positions of the visible hits, in order, and `r` shows them. */
  ghost predicate ShowsAll(v: Vault, hits: seq<SearchQuery.Hit>, at: seq<nat>, r: seq<Found>)
  {
    && |at| == |r| && (forall i, j :: 0 <= i < j < |at| ==> at[i] < at[j])
    && (forall k: nat :: k < |hits| && Visible(v, hits[k]) ==> k in at)
    && (forall i :: 0 <= i < |at| ==> at[i] < |hits| && Visible(v, hits[at[i]]) && Shows(v, hits[at[i]], r[i]))
  }

  lemma ShowsMore(v: Vault, hits: seq<SearchQuery.Hit>, at: seq<nat>, r: seq<Found>, h: SearchQuery.Hit, f: Found)
    requires ShowsAll(v, hits, at, r) && Visible(v, h) && Shows(v, h, f)
    ensures ShowsAll(v, hits + [h], at + [|hits|], r + [f])
  {
    hide Visible, Shows;
    var all, more := hits + [h], at + [|hits|];
    assert forall k :: 0 <= k < |hits| ==> all[k] == hits[k];
    forall i | 0 <= i < |more|
      ensures more[i] < |all| && Visible(v, all[more[i]]) && Shows(v, all[more[i]], (r + [f])[i])
    {
      if i < |at| { assert more[i] == at[i] && all[at[i]] == hits[at[i]]; }
    }
    forall k: nat | k < |all| && Visible(v, all[k]) ensures k in more {
      if k < |hits| { assert k in at; } else { assert more[|at|] == k; }
    }
  }

  lemma ShowsNoMore(v: Vault, hits: seq<SearchQuery.Hit>, at: seq<nat>, r: seq<Found>, h: SearchQuery.Hit)
    requires ShowsAll(v, hits, at, r) && !Visible(v, h)
    ensures ShowsAll(v, hits + [h], at, r)
  {
    hide Visible, Shows;
    assert forall k :: 0 <= k < |hits| ==> (hits + [h])[k] == hits[k];
  }

  /** What search shows are exactly the visible hits, in order, each as its own message with its contact and tier. */
  lemma {:induction false} SearchShows(v: Vault, hits: seq<SearchQuery.Hit>) returns (at: seq<nat>)
    requires Keyed(v)
    ensures ShowsAll(v, hits, at, Fence(v, hits))
  {
    at := [];
    if hits != [] {
      hide Visible, FoundOf, Shows, Keyed, ShowsAll;
      var n := |hits| - 1;
      var front, h := hits[..n], hits[n];
      at := SearchShows(v, front);
      FoundIs(v, h);
      assert hits == front + [h];
      if FoundOf(v, h).Some? {
        ShowsMore(v, front, at, Fence(v, front), h, FoundOf(v, h).value);
        at := at + [n];
      } else {
        ShowsNoMore(v, front, at, Fence(v, front), h);
        assert Fence(v, front) + [] == Fence(v, front);
      }
    }
  }

  lemma FoundIs(v: Vault, h: SearchQuery.Hit)
    requires Keyed(v)
    ensures FoundOf(v, h).Some? <==> Visible(v, h)
    ensures FoundOf(v, h).Some? ==> Shows(v, h, FoundOf(v, h).value)
  {
    var row := First(v.messages, (m: Message) => m.id == h.message);
    if row.Some? {
      HiddenIsFenced(v, row.value.conv);
      ViewShows(v, row.value);
    }
    hide First, Fenced, ViewOf, ShownWith, Hidden;
    if m :| m in v.messages && m.id == h.message && !Hidden(v, m.conv) { FoundById(v, m); }
  }
}
