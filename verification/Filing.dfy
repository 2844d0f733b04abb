/** Where ingest files a live message (apps/ingest/consumer.py with ingest/normalise.py): under whose account,
    contact and conversation, and with which columns. In every run the rows are compared with the events that
    were delivered, not with the functions that build them. */
module Filing {
  import opened Prelude
  import opened Schema
  import opened Encoding
  import opened Queue
  import opened Ingest
  import WindowLag

  // ---------------------------------------------------------------- keys

  /** What an absent recipient is hashed as. */
  const NO_RECIPIENT: string := [0 as char, 'n', 'o', 'n', 'e']

  function TextOr(s: Option<string>, default: string): string
  {
    match s
    case None => default
    case Some(t) => t
  }

  /** Two events are the same to the ledger if and only if they are of one family and agree in the columns that
      identify it: a message's number and id, received or echoed; a status's number, id, status, time and
      recipient; the whole of anything else. An absent column is an empty one, or the recipient's sentinel. */
  lemma SameKeyIff(a: Atom, b: Atom)
    requires Timed(a) && Timed(b)
    ensures KeyOf(a) == KeyOf(b) <==>
      || (a.MessageAtom? && b.MessageAtom? && TextOr(a.phone, "") == TextOr(b.phone, "")
          && TextOr(a.wamid, "") == TextOr(b.wamid, ""))
      || (a.StatusAtom? && b.StatusAtom? && TextOr(a.phone, "") == TextOr(b.phone, "")
          && TextOr(a.wamid, "") == TextOr(b.wamid, "") && TextOr(a.status, "") == TextOr(b.status, "")
          && a.seconds == b.seconds && TextOr(a.recipient, NO_RECIPIENT) == TextOr(b.recipient, NO_RECIPIENT))
      || (a.OtherAtom? && b.OtherAtom? && a.raw == b.raw)
  {
    assert [0 as char] + "none" == NO_RECIPIENT;
    forall t: Option<string> ensures OrEmpty(t) == TextOr(t, "") {
    }
  }

  // ---------------------------------------------------------------- what a row tells

  /** The row's own columns are the event's. */
  predicate Tells(row: Message, a: Atom)
  {
    && a.MessageAtom? && a.seconds.Some? && a.phone.Some?
    && row.fp == None && row.wamid == a.wamid && row.stamp.tz == None
    && row.content.kind == a.kind && row.content.text == (if a.kind == "text" then a.text else None)
    && row.content.lower == a.seconds.value * 1000 && row.content.upper == a.seconds.value * 1000 + 1000
    && row.stamp.direction == (if a.echo then Out else In)
    && row.content.origin == (if a.echo then BusinessAppEcho else CloudApi)
    && row.content.eligible == !a.echo
    && row.content.sender.Some?
  }

  predicate StatusTells(r: Status, a: Atom)
  {
    && a.StatusAtom? && a.seconds.Some? && a.wamid == Some(r.wamid) && a.status == Some(r.status)
    && r.at == a.seconds.value * 1000 && r.recipient == a.recipient
  }

  /** The event came in a body that was delivered. */
  ghost predicate Came(a: Atom, delivered: multiset<Body>)
  {
    exists b :: b in delivered && b.Sealed? && b.payload.Some? && a in b.payload.value
  }

  // ---------------------------------------------------------------- the find-or-create tables

  /** Ids below the supply, and no two keys with the same one. */
  ghost predicate IdsOk<K(!new)>(ids: map<K, nat>, next: nat)
  {
    && (forall k :: k in ids ==> ids[k] < next)
    && (forall k, l :: k in ids && l in ids && ids[k] == ids[l] ==> k == l)
  }

  /** Entries stay, and new ones have ids from `next` on. */
  ghost predicate Grows<K(!new)>(ids: map<K, nat>, ids': map<K, nat>, next: nat)
  {
    && (forall k :: k in ids ==> k in ids' && ids'[k] == ids[k])
    && (forall k :: k in ids' && k !in ids ==> ids'[k] >= next)
  }

  lemma FoundOrCreated<K(!new)>(ids: map<K, nat>, k: K, next: nat)
    requires IdsOk(ids, next)
    ensures var ids' := if k in ids then ids else ids[k := next];
      IdsOk(ids', next + 1) && Grows(ids, ids', next) && ids'[k] < next + 1
  {
  }

  /** The row of `a` is filed under the ids of its number and its sender; a message without a sender has a
      contact and a conversation of its own, which no table lists. */
  ghost predicate FiledUnder(
      row: Message, a: Atom, accounts: map<string, AccountId>, contacts: map<string, ContactId>,
      convs: map<(AccountId, string), ConvId>, next: nat)
    requires Tells(row, a)
  {
    var contact, conv := row.content.sender.value, row.content.conv;
    && a.phone.value in accounts && accounts[a.phone.value] == row.stamp.account
    && contact < next && conv < next
    && (a.from.Some? ==>
          && a.from.value in contacts && contacts[a.from.value] == contact
          && (row.stamp.account, a.from.value) in convs && convs[(row.stamp.account, a.from.value)] == conv)
    && (a.from == None ==> contact !in contacts.Values && conv !in convs.Values)
  }

  /** `writes` names the event behind every live row. */
  ghost predicate Told(writes: map<MsgId, Atom>, messages: map<MsgId, Message>)
  {
    && (forall m :: m in writes <==> m in messages && messages[m].fp == None)
    && (forall m :: m in writes ==> Tells(messages[m], writes[m]))
  }

  ghost predicate Linked(
      writes: map<MsgId, Atom>, messages: map<MsgId, Message>, accounts: map<string, AccountId>,
      contacts: map<string, ContactId>, convs: map<(AccountId, string), ConvId>, next: nat)
    requires Told(writes, messages)
  {
    forall m :: m in writes ==> m < next && FiledUnder(messages[m], writes[m], accounts, contacts, convs, next)
  }

  /** A message without a sender shares neither contact nor conversation with any other. */
  ghost predicate Apart(writes: map<MsgId, Atom>, messages: map<MsgId, Message>)
    requires Told(writes, messages)
  {
    forall m, n :: m in writes && n in writes && m != n && writes[m].from == None ==>
      messages[m].content.sender != messages[n].content.sender && messages[m].content.conv != messages[n].content.conv
  }

  ghost predicate Earned(writes: map<MsgId, Atom>, ledger: map<Key, Option<nat>>, delivered: multiset<Body>)
  {
    forall m :: m in writes ==>
      Came(writes[m], delivered) && Timed(writes[m]) && KeyOf(writes[m]) in ledger
      && ledger[KeyOf(writes[m])] == Some(m)
  }

  ghost predicate Filed(v: Vault, writes: map<MsgId, Atom>, delivered: multiset<Body>)
  {
    && IdsOk(v.accounts, v.next) && IdsOk(v.contacts, v.next) && IdsOk(v.convs, v.next)
    && Told(writes, v.messages)
    && Linked(writes, v.messages, v.accounts, v.contacts, v.convs, v.next)
    && Apart(writes, v.messages)
    && Earned(writes, v.ledger, delivered)
  }

  ghost predicate StatusesTold(statuses: map<nat, Status>, ledger: map<Key, Option<nat>>, delivered: multiset<Body>)
  {
    forall r :: r in statuses ==> exists a :: Came(a, delivered) && StatusTells(statuses[r], a) && Wrote(ledger, a, r)
  }

  predicate Wrote(ledger: map<Key, Option<nat>>, a: Atom, r: nat)
  {
    Timed(a) && KeyOf(a) in ledger && ledger[KeyOf(a)] == Some(r)
  }

  ghost predicate Ok(v: Vault, delivered: multiset<Body>)
  {
    (exists writes :: Filed(v, writes, delivered)) && StatusesTold(v.statuses, v.ledger, delivered)
  }

  // ---------------------------------------------------------------- one transaction

  lemma AccountIs(v: Vault, phone: string)
    requires IdsOk(v.accounts, v.next)
    ensures var (v', account) := Account(v, phone);
      IdsOk(v'.accounts, v'.next) && Grows(v.accounts, v'.accounts, v.next) && account < v'.next
  {
    FoundOrCreated(v.accounts, phone, v.next);
  }

  lemma ContactIs(v: Vault, from: Option<string>)
    requires IdsOk(v.contacts, v.next)
    ensures var (v', contact) := Contact(v, from);
      && IdsOk(v'.contacts, v'.next) && Grows(v.contacts, v'.contacts, v.next) && contact < v'.next
      && (from.Some? ==> from.value in v'.contacts && v'.contacts[from.value] == contact)
      && (from == None ==> contact == v.next && contact !in v'.contacts.Values)
  {
    if from.Some? { FoundOrCreated(v.contacts, from.value, v.next); }
  }

  lemma ConversationIs(v: Vault, account: AccountId, from: Option<string>)
    requires IdsOk(v.convs, v.next)
    ensures var (v', conv) := Conversation(v, account, from);
      && IdsOk(v'.convs, v'.next) && Grows(v.convs, v'.convs, v.next) && conv < v'.next
      && (from.Some? ==> (account, from.value) in v'.convs && v'.convs[(account, from.value)] == conv)
      && (from == None ==> conv == v.next && conv !in v'.convs.Values)
  {
    if from.Some? { FoundOrCreated(v.convs, (account, from.value), v.next); }
  }

  lemma MoreIds<K(!new)>(ids: map<K, nat>, next: nat, next': nat)
    requires IdsOk(ids, next) && next <= next'
    ensures IdsOk(ids, next')
  {
  }

  lemma GrowsFrom<K(!new)>(ids: map<K, nat>, ids': map<K, nat>, next: nat, next0: nat)
    requires Grows(ids, ids', next) && next0 <= next
    ensures Grows(ids, ids', next0)
  {
  }

  /** What the three lookups leave, and how they name the new row. */
  ghost predicate Opened(v: Vault, v': Vault, a: Atom, row: Message)
    requires Tells(row, a)
  {
    && IdsOk(v'.accounts, v'.next) && IdsOk(v'.contacts, v'.next) && IdsOk(v'.convs, v'.next)
    && Grows(v.accounts, v'.accounts, v.next) && Grows(v.contacts, v'.contacts, v.next)
    && Grows(v.convs, v'.convs, v.next) && v.next <= v'.next
    && FiledUnder(row, a, v'.accounts, v'.contacts, v'.convs, v'.next)
    && (a.from == None ==> row.content.sender.value >= v.next && row.content.conv >= v.next)
  }

  lemma RowTells(a: Atom, account: AccountId, contact: ContactId, conv: ConvId)
    requires a.MessageAtom? && a.seconds.Some? && a.phone.Some?
    ensures var row := MessageRow(a, account, contact, conv);
      && Tells(row, a) && row.stamp.account == account && row.content.sender == Some(contact)
      && row.content.conv == conv
  {
  }

  /** The three lookups, one after another. */
  lemma LookedUp(v: Vault, a: Atom, v3: Vault, row: Message)
    requires a.MessageAtom? && a.phone.Some? && a.seconds.Some?
    requires IdsOk(v.accounts, v.next) && IdsOk(v.contacts, v.next) && IdsOk(v.convs, v.next)
    requires var (v1, account) := Account(v, a.phone.value);
      var (v2, contact) := Contact(v1, a.from);
      var (v', conv) := Conversation(v2, account, a.from);
      v3 == v' && row == MessageRow(a, account, contact, conv)
    ensures Tells(row, a) && Opened(v, v3, a, row)
  {
    hide IdsOk, Grows, MessageRow, Account, Contact, Conversation, KeyOf, Tells;
    var (v1, account) := Account(v, a.phone.value);
    AccountIs(v, a.phone.value);
    MoreIds(v.contacts, v.next, v1.next);
    var (v2, contact) := Contact(v1, a.from);
    ContactIs(v1, a.from);
    MoreIds(v.convs, v.next, v2.next);
    var conv := Conversation(v2, account, a.from).1;
    ConversationIs(v2, account, a.from);
    RowTells(a, account, contact, conv);
    assert row.content.sender == Some(contact);
    MoreIds(v1.accounts, v1.next, v3.next);
    MoreIds(v2.contacts, v2.next, v3.next);
    GrowsFrom(v1.contacts, v2.contacts, v1.next, v.next);
    GrowsFrom(v2.convs, v3.convs, v2.next, v.next);
  }

  lemma OpenedOnce(v: Vault, v3: Vault, v': Vault, a: Atom, row: Message)
    requires Tells(row, a) && Opened(v, v3, a, row) && v3.next <= v'.next
    requires v'.accounts == v3.accounts && v'.contacts == v3.contacts && v'.convs == v3.convs
    ensures Opened(v, v', a, row)
  {
    MoreIds(v3.accounts, v3.next, v'.next);
    MoreIds(v3.contacts, v3.next, v'.next);
    MoreIds(v3.convs, v3.next, v'.next);
    hide IdsOk, Grows, Tells;
  }

  /** A committed message adds one row, filed under its own number and sender. */
  lemma CommitOpens(v: Vault, a: Atom)
    requires a.MessageAtom? && CommitAtom(v, a).Written?
    requires IdsOk(v.accounts, v.next) && IdsOk(v.contacts, v.next) && IdsOk(v.convs, v.next)
    ensures var v' := CommitAtom(v, a).vault;
      && v'.next > 0 && v.next < v'.next && Timed(a) && KeyOf(a) !in v.ledger
      && var id := v'.next - 1;
         && v.next <= id && v'.ledger == v.ledger[KeyOf(a) := Some(id)] && v'.statuses == v.statuses
         && id in v'.messages && v'.messages == v.messages[id := v'.messages[id]]
         && Tells(v'.messages[id], a) && Opened(v, v', a, v'.messages[id])
  {
    hide IdsOk, MessageRow, Account, Contact, Conversation, KeyOf, Tells, Opened;
    var (v1, account) := Account(v, a.phone.value);
    var (v2, contact) := Contact(v1, a.from);
    var (v3, conv) := Conversation(v2, account, a.from);
    var row := MessageRow(a, account, contact, conv);
    LookedUp(v, a, v3, row);
    OpenedOnce(v, v3, CommitAtom(v, a).vault, a, row);
  }

  lemma StillFiled(row: Message, a: Atom, v: Vault, v': Vault)
    requires Tells(row, a) && FiledUnder(row, a, v.accounts, v.contacts, v.convs, v.next)
    requires Grows(v.accounts, v'.accounts, v.next) && Grows(v.contacts, v'.contacts, v.next)
    requires Grows(v.convs, v'.convs, v.next) && v.next <= v'.next
    ensures FiledUnder(row, a, v'.accounts, v'.contacts, v'.convs, v'.next)
  {
    hide Tells;
  }

  lemma ToldMore(writes: map<MsgId, Atom>, messages: map<MsgId, Message>, id: MsgId, row: Message, a: Atom)
    requires Told(writes, messages) && Tells(row, a)
    ensures Told(writes[id := a], messages[id := row])
  {
    assert row.fp == None;
    hide Tells;
  }

  lemma LinkedMore(writes: map<MsgId, Atom>, v: Vault, v': Vault, id: MsgId, a: Atom)
    requires Told(writes, v.messages) && Linked(writes, v.messages, v.accounts, v.contacts, v.convs, v.next)
    requires v.next <= id < v'.next && id in v'.messages && v'.messages == v.messages[id := v'.messages[id]]
    requires Tells(v'.messages[id], a) && Opened(v, v', a, v'.messages[id])
    ensures Told(writes[id := a], v'.messages)
    ensures Linked(writes[id := a], v'.messages, v'.accounts, v'.contacts, v'.convs, v'.next)
  {
    ToldMore(writes, v.messages, id, v'.messages[id], a);
    hide FiledUnder, Tells, Grows, IdsOk, Told;
    forall m | m in writes ensures FiledUnder(v'.messages[m], writes[m], v'.accounts, v'.contacts, v'.convs, v'.next) {
      KeptRow(writes, v, m, id);
      StillFiled(v.messages[m], writes[m], v, v');
    }
  }

  lemma KeptRow(writes: map<MsgId, Atom>, v: Vault, m: MsgId, id: MsgId)
    requires Told(writes, v.messages) && m in writes && v.next <= id
    requires Linked(writes, v.messages, v.accounts, v.contacts, v.convs, v.next)
    ensures m in v.messages && m != id && Tells(v.messages[m], writes[m])
    ensures FiledUnder(v.messages[m], writes[m], v.accounts, v.contacts, v.convs, v.next)
  {
    hide Tells, FiledUnder;
  }

  lemma ApartMore(writes: map<MsgId, Atom>, v: Vault, v': Vault, id: MsgId, a: Atom)
    requires Told(writes, v.messages) && Linked(writes, v.messages, v.accounts, v.contacts, v.convs, v.next)
    requires Apart(writes, v.messages) && v.next <= id < v'.next && id in v'.messages
    requires v'.messages == v.messages[id := v'.messages[id]]
    requires IdsOk(v.accounts, v.next) && IdsOk(v.contacts, v.next) && IdsOk(v.convs, v.next)
    requires Tells(v'.messages[id], a) && Opened(v, v', a, v'.messages[id]) && Told(writes[id := a], v'.messages)
    ensures Apart(writes[id := a], v'.messages)
  {
    var row := v'.messages[id];
    hide Told, Linked, Apart, IdsOk;
    forall m | m in writes
      ensures m in v.messages && m != id && writes[m].MessageAtom?
      ensures a.from == None || writes[m].from == None ==>
        v.messages[m].content.sender != row.content.sender && v.messages[m].content.conv != row.content.conv
    {
      KeptRow(writes, v, m, id);
      if writes[m].from == None && a.from.Some? {
        OthersOnly(v, v', v.messages[m], writes[m], row, a);
      }
    }
    hide Tells, Opened;
    ApartInsert(writes, v.messages, id, row, a);
  }

  lemma ApartInsert(writes: map<MsgId, Atom>, messages: map<MsgId, Message>, id: MsgId, row: Message, a: Atom)
    requires Told(writes, messages) && Apart(writes, messages) && Told(writes[id := a], messages[id := row])
    requires a.MessageAtom?
    requires forall m :: m in writes ==> m in messages && m != id && writes[m].MessageAtom?
    requires forall m :: m in writes && (a.from == None || writes[m].from == None) ==>
      messages[m].content.sender != row.content.sender && messages[m].content.conv != row.content.conv
    ensures Apart(writes[id := a], messages[id := row])
  {
    hide Told;
  }

  /** The unlisted ids of an old row are not those of a new one with a sender. */
  lemma OthersOnly(v: Vault, v': Vault, old': Message, b: Atom, row: Message, a: Atom)
    requires Tells(old', b) && FiledUnder(old', b, v.accounts, v.contacts, v.convs, v.next) && b.from == None
    requires Tells(row, a) && Opened(v, v', a, row) && a.from.Some?
    ensures old'.content.sender.value != row.content.sender.value && old'.content.conv != row.content.conv
  {
    hide IdsOk;
    var k := (row.stamp.account, a.from.value);
    assert v'.contacts[a.from.value] == row.content.sender.value && v'.convs[k] == row.content.conv;
    assert a.from.value in v.contacts ==> v.contacts[a.from.value] in v.contacts.Values;
    assert k in v.convs ==> v.convs[k] in v.convs.Values;
  }

  lemma EarnedMore(writes: map<MsgId, Atom>, ledger: map<Key, Option<nat>>, delivered: multiset<Body>, k: Key,
      x: Option<nat>)
    requires Earned(writes, ledger, delivered) && k !in ledger
    ensures Earned(writes, ledger[k := x], delivered)
  {
    hide KeyOf, Came;
  }

  lemma EarnedRow(writes: map<MsgId, Atom>, ledger: map<Key, Option<nat>>, delivered: multiset<Body>, id: MsgId,
      a: Atom)
    requires Earned(writes, ledger, delivered) && Timed(a) && KeyOf(a) !in ledger && Came(a, delivered)
    ensures Earned(writes[id := a], ledger[KeyOf(a) := Some(id)], delivered)
  {
    hide KeyOf, Came;
  }

  lemma MessageFiled(v: Vault, a: Atom, writes: map<MsgId, Atom>, delivered: multiset<Body>)
    requires Filed(v, writes, delivered) && a.MessageAtom? && CommitAtom(v, a).Written? && Came(a, delivered)
    ensures var v' := CommitAtom(v, a).vault; v'.next > 0 && Filed(v', writes[v'.next - 1 := a], delivered)
  {
    hide CommitAtom, IdsOk, Told, Linked, Apart, Earned, Tells, KeyOf, Came, Opened, Timed;
    CommitOpens(v, a);
    var v' := CommitAtom(v, a).vault;
    var id := v'.next - 1;
    assert v'.messages == v.messages[id := v'.messages[id]];
    LinkedMore(writes, v, v', id, a);
    ApartMore(writes, v, v', id, a);
    EarnedRow(writes, v.ledger, delivered, id, a);
    OpenedIds(v, v', a, v'.messages[id]);
  }

  lemma OpenedIds(v: Vault, v': Vault, a: Atom, row: Message)
    requires Tells(row, a) && Opened(v, v', a, row)
    ensures IdsOk(v'.accounts, v'.next) && IdsOk(v'.contacts, v'.next) && IdsOk(v'.convs, v'.next)
  {
    hide IdsOk, Tells, Grows, FiledUnder;
  }

  lemma WroteMore(statuses: map<nat, Status>, ledger: map<Key, Option<nat>>, delivered: multiset<Body>, k: Key,
      x: Option<nat>)
    requires StatusesTold(statuses, ledger, delivered) && k !in ledger
    ensures StatusesTold(statuses, ledger[k := x], delivered)
  {
    hide KeyOf, Came, StatusTells;
    forall r | r in statuses
      ensures exists a :: Came(a, delivered) && StatusTells(statuses[r], a) && Wrote(ledger[k := x], a, r)
    {
      var a :| Came(a, delivered) && StatusTells(statuses[r], a) && Wrote(ledger, a, r);
      assert Wrote(ledger[k := x], a, r);
    }
  }

  lemma StatusMore(statuses: map<nat, Status>, ledger: map<Key, Option<nat>>, delivered: multiset<Body>, id: nat,
      row: Status, a: Atom)
    requires StatusesTold(statuses, ledger, delivered) && Wrote(ledger, a, id)
    requires Came(a, delivered) && StatusTells(row, a)
    ensures StatusesTold(statuses[id := row], ledger, delivered)
  {
    hide KeyOf, Came, StatusTells, Wrote;
  }

  lemma MoreNext(v: Vault, v': Vault, writes: map<MsgId, Atom>, delivered: multiset<Body>)
    requires Filed(v, writes, delivered) && v.next <= v'.next && v'.messages == v.messages
    requires v'.accounts == v.accounts && v'.contacts == v.contacts && v'.convs == v.convs
    requires Earned(writes, v'.ledger, delivered)
    ensures Filed(v', writes, delivered)
  {
    hide Told, Apart, Earned, Tells;
    MoreIds(v.accounts, v.next, v'.next);
    MoreIds(v.contacts, v.next, v'.next);
    MoreIds(v.convs, v.next, v'.next);
    hide IdsOk;
  }

  lemma StatusCommit(v: Vault, a: Atom)
    requires a.StatusAtom? && CommitAtom(v, a).Written?
    ensures var v' := CommitAtom(v, a).vault;
      && Timed(a) && KeyOf(a) !in v.ledger && v'.ledger == v.ledger[KeyOf(a) := Some(v.next)]
      && v.next in v'.statuses && StatusTells(v'.statuses[v.next], a)
      && v' == v.(ledger := v'.ledger, statuses := v.statuses[v.next := v'.statuses[v.next]], next := v.next + 1)
  {
    hide KeyOf;
  }

  lemma OtherCommit(v: Vault, a: Atom)
    requires a.OtherAtom? && CommitAtom(v, a).Written?
    ensures var v' := CommitAtom(v, a).vault;
      Timed(a) && KeyOf(a) !in v.ledger && v' == v.(ledger := v.ledger[KeyOf(a) := None])
  {
    hide KeyOf;
  }

  lemma MessageOk(v: Vault, a: Atom, delivered: multiset<Body>)
    requires Ok(v, delivered) && a.MessageAtom? && CommitAtom(v, a).Written? && Came(a, delivered)
    ensures Ok(CommitAtom(v, a).vault, delivered)
  {
    hide CommitAtom, StatusesTold, KeyOf, IdsOk, Told, Linked, Apart, Earned, Tells, Opened, Came;
    var writes :| Filed(v, writes, delivered);
    var v' := CommitAtom(v, a).vault;
    MessageFiled(v, a, writes, delivered);
    CommitOpens(v, a);
    WroteMore(v.statuses, v.ledger, delivered, KeyOf(a), Some(v'.next - 1));
    hide Filed;
  }

  lemma StatusOk(v: Vault, a: Atom, delivered: multiset<Body>)
    requires Ok(v, delivered) && a.StatusAtom? && CommitAtom(v, a).Written? && Came(a, delivered)
    ensures Ok(CommitAtom(v, a).vault, delivered)
  {
    hide CommitAtom, StatusesTold, KeyOf, IdsOk, Told, Linked, Apart, Earned, Came, StatusTells;
    var writes :| Filed(v, writes, delivered);
    var v' := CommitAtom(v, a).vault;
    StatusCommit(v, a);
    EarnedMore(writes, v.ledger, delivered, KeyOf(a), Some(v.next));
    MoreNext(v, v', writes, delivered);
    WroteMore(v.statuses, v.ledger, delivered, KeyOf(a), Some(v.next));
    StatusMore(v.statuses, v'.ledger, delivered, v.next, v'.statuses[v.next], a);
    hide Filed;
  }

  lemma OtherOk(v: Vault, a: Atom, delivered: multiset<Body>)
    requires Ok(v, delivered) && a.OtherAtom? && CommitAtom(v, a).Written?
    ensures Ok(CommitAtom(v, a).vault, delivered)
  {
    hide CommitAtom, StatusesTold, KeyOf, IdsOk, Told, Linked, Apart, Earned;
    var writes :| Filed(v, writes, delivered);
    OtherCommit(v, a);
    EarnedMore(writes, v.ledger, delivered, KeyOf(a), None);
    MoreNext(v, CommitAtom(v, a).vault, writes, delivered);
    WroteMore(v.statuses, v.ledger, delivered, KeyOf(a), None);
    hide Filed;
  }

  lemma CommitOk(v: Vault, a: Atom, delivered: multiset<Body>)
    requires Ok(v, delivered) && CommitAtom(v, a).Written? && Came(a, delivered)
    ensures Ok(CommitAtom(v, a).vault, delivered)
  {
    hide Ok, CommitAtom, Came;
    match a
    case MessageAtom(_, _, _, _, _, _, _) => MessageOk(v, a, delivered);
    case StatusAtom(_, _, _, _, _) => StatusOk(v, a, delivered);
    case OtherAtom(_) => OtherOk(v, a, delivered);
  }

  // ---------------------------------------------------------------- every run

  lemma {:induction false} ProcessOk(v: Vault, w: Windows, b: Body, i: nat, m: Option<Mishap>,
      delivered: multiset<Body>)
    requires Ok(v, delivered) && b in delivered && b.Sealed? && b.payload.Some? && i <= |b.payload.value|
    ensures Ok(Process(v, w, b.payload.value, i, m).0, delivered)
    decreases |b.payload.value| - i
  {
    hide Ok, CommitAtom, Advance;
    var atoms := b.payload.value;
    if i < |atoms| && !Strikes(m, i, BeforeCommit) {
      match CommitAtom(v, atoms[i])
      case Failed =>
      case Duplicate => ProcessOk(v, w, b, i + 1, m, delivered);
      case Written(v', window) =>
        assert Came(atoms[i], delivered);
        CommitOk(v, atoms[i], delivered);
        if !Strikes(m, i, AfterCommit) && !Strikes(m, i, AfterWindow) {
          var w' := if window.Some? then Advance(w, window.value.0, window.value.1) else w;
          ProcessOk(v', w', b, i + 1, m, delivered);
        }
    }
  }

  lemma DlqOnly(v: Vault, v': Vault, delivered: multiset<Body>)
    requires Ok(v, delivered) && v' == v.(dlq := v'.dlq, breakerOpen := v'.breakerOpen)
    ensures Ok(v', delivered)
  {
    hide IdsOk, Told, Linked, Apart, Earned, StatusesTold;
    var writes :| Filed(v, writes, delivered);
    assert Filed(v', writes, delivered);
  }

  lemma HandleOk(s: Sys, id: LeaseId, body: Body, available: set<KeyId>, m: Option<Mishap>, delivered: multiset<Body>)
    requires Ok(s.v, delivered) && body in delivered
    ensures Ok(Handle(s, id, body, available, m).0.v, delivered)
  {
    hide Ok, Process, Handle;
    if WindowLag.HasPayload(body, available) {
      WindowLag.HandlePayload(s, id, body, available, m);
      ProcessOk(s.v, s.w, body, 0, m, delivered);
    } else {
      WindowLag.HandleOther(s, id, body, available, m);
      DlqOnly(s.v, Handle(s, id, body, available, m).0.v, delivered);
    }
  }

  lemma {:induction false} LoopOk(s: Sys, leases: seq<(LeaseId, Body)>, i: nat, toAck: seq<LeaseId>, env: Env,
      delivered: multiset<Body>)
    requires i <= |leases| && Ok(s.v, delivered) && WindowLag.AllDelivered(leases, delivered)
    ensures Ok(DrainFrom(s, leases, i, toAck, env).0.v, delivered)
    decreases |leases| - i
  {
    hide Ok, Handle, WindowLag.AllDelivered, MishapAt;
    if i !in env.deadBefore && i < |leases| {
      var (id, body) := leases[i];
      WindowLag.DeliveredAt(leases, delivered, i);
      var m := MishapAt(env, i);
      var (s', verdict) := Handle(s, id, body, env.available, m);
      HandleOk(s, id, body, env.available, m, delivered);
      if verdict == ToAck || verdict == Returned {
        LoopOk(s', leases, i + 1, if verdict == ToAck then toAck + [id] else toAck, env, delivered);
      }
    }
  }

  lemma DrainOk(s: Sys, env: Env, delivered: multiset<Body>)
    requires Ok(s.v, delivered) && Inv(s, delivered)
    ensures Ok(Drain(s, env).v, delivered)
  {
    hide Ok, Inv, Drain, DrainFrom, LeaseFirst, Leases, QueueOk, VaultOk;
    WindowLag.DrainIs(s, env);
    if !s.v.breakerOpen {
      var n := LeaseCount(s.q, env.max);
      WindowLag.InvParts(s, delivered);
      WindowLag.LeasesDelivered(s.q, n, delivered);
      LoopOk(s.(q := LeaseFirst(s.q, n)), Leases(s.q, n), 0, [], env, delivered);
    }
  }

  lemma CameMore(v: Vault, delivered: multiset<Body>, body: Body)
    requires Ok(v, delivered)
    ensures Ok(v, delivered + multiset{body})
  {
    var more := delivered + multiset{body};
    assert forall a :: Came(a, delivered) ==> Came(a, more);
    hide Came, IdsOk, Told, Linked, Apart, KeyOf, StatusTells;
    var writes :| Filed(v, writes, delivered);
    assert Filed(v, writes, more);
  }

  lemma MaintainOk(v: Vault, messages: map<MsgId, Message>, next: nat, delivered: multiset<Body>)
    requires Ok(v, delivered) && Maintains(v, messages, next)
    ensures Ok(v.(messages := messages, next := next), delivered)
  {
    hide ProviderRows, StatusesTold, Earned, Tells, IdsOk, Told, Linked, Apart;
    var writes :| Filed(v, writes, delivered);
    SameLiveRows(v.messages, messages);
    MoreIds(v.accounts, v.next, next);
    MoreIds(v.contacts, v.next, next);
    MoreIds(v.convs, v.next, next);
    var v' := v.(messages := messages, next := next);
    SameRows(writes, v, v');
    assert Filed(v', writes, delivered);
  }

  lemma SameRows(writes: map<MsgId, Atom>, v: Vault, v': Vault)
    requires Told(writes, v.messages) && Apart(writes, v.messages)
    requires Linked(writes, v.messages, v.accounts, v.contacts, v.convs, v.next)
    requires v'.accounts == v.accounts && v'.contacts == v.contacts && v'.convs == v.convs && v.next <= v'.next
    requires forall m :: m in v.messages && v.messages[m].fp == None ==>
      m in v'.messages && v'.messages[m] == v.messages[m]
    requires forall m :: m in v'.messages && v'.messages[m].fp == None ==>
      m in v.messages && v'.messages[m] == v.messages[m]
    ensures Told(writes, v'.messages) && Apart(writes, v'.messages)
    ensures Linked(writes, v'.messages, v'.accounts, v'.contacts, v'.convs, v'.next)
  {
    hide Tells;
  }

  lemma StepOk(s: Sys, e: Event, delivered: multiset<Body>)
    requires Ok(s.v, delivered) && Inv(s, delivered) && Enabled(s, e)
    ensures Ok(Step(s, e).v, delivered + if e.Deliver? then multiset{e.body} else multiset{})
  {
    hide Ok, Inv, Drain, Maintains, IsLatest, RebuildWindow, Enqueue;
    assert delivered + multiset{} == delivered;
    match e
    case Deliver(body) => CameMore(s.v, delivered, body);
    case DoDrain(env) => DrainOk(s, env, delivered);
    case Maintain(messages, next) => MaintainOk(s.v, messages, next, delivered);
    case Reset => DlqOnly(s.v, s.v.(breakerOpen := false), delivered);
    case _ =>
  }

  lemma StartOk()
    ensures Ok(START.v, multiset{})
  {
    var none: map<MsgId, Atom> := map[];
    assert Filed(START.v, none, multiset{});
  }

  lemma {:induction false} RunOk(es: seq<Event>, n: nat)
    requires n <= |es| && Run(es)
    ensures Ok(At(es, n).v, Delivered(es, n))
  {
    hide Ok, Inv, Step, Enabled;
    if n == 0 {
      StartOk();
    } else {
      RunOk(es, n - 1);
      RunKeeps(es, n - 1);
      StepOk(At(es, n - 1), es[n - 1], Delivered(es, n - 1));
    }
  }

  /** In every run each live row was written for an event in a delivered body with its key, and tells what that
      event says. Two rows have one account if and only if their numbers agree, one contact if and only if both
      have a sender and it is the same, and one conversation if and only if both agree. */
  lemma RowsAreFiled(es: seq<Event>, n: nat) returns (writes: map<MsgId, Atom>)
    requires n <= |es| && Run(es)
    ensures var v := At(es, n).v;
      && Told(writes, v.messages) && Earned(writes, v.ledger, Delivered(es, n))
      && (forall i, j :: i in writes && j in writes ==>
            (v.messages[i].stamp.account == v.messages[j].stamp.account <==> writes[i].phone == writes[j].phone))
      && (forall i, j :: i in writes && j in writes && i != j ==>
            (v.messages[i].content.sender == v.messages[j].content.sender <==>
               writes[i].from.Some? && writes[i].from == writes[j].from))
      && (forall i, j :: i in writes && j in writes && i != j ==>
            (v.messages[i].content.conv == v.messages[j].content.conv <==>
               writes[i].phone == writes[j].phone && writes[i].from.Some? && writes[i].from == writes[j].from))
  {
    hide At, Run, Delivered;
    RunOk(es, n);
    var v := At(es, n).v;
    writes :| Filed(v, writes, Delivered(es, n));
    hide Earned, Told, StatusesTold;
    forall i, j | i in writes && j in writes
      ensures i in v.messages && j in v.messages
      ensures v.messages[i].stamp.account == v.messages[j].stamp.account <==> writes[i].phone == writes[j].phone
      ensures i != j ==>
        (v.messages[i].content.sender == v.messages[j].content.sender <==>
           writes[i].from.Some? && writes[i].from == writes[j].from)
      ensures i != j ==>
        (v.messages[i].content.conv == v.messages[j].content.conv <==>
           writes[i].phone == writes[j].phone && writes[i].from.Some? && writes[i].from == writes[j].from)
    {
      TwoRows(v, writes, i, j);
    }
  }

  lemma TwoRows(v: Vault, writes: map<MsgId, Atom>, i: MsgId, j: MsgId)
    requires IdsOk(v.accounts, v.next) && IdsOk(v.contacts, v.next) && IdsOk(v.convs, v.next)
    requires Told(writes, v.messages) && Apart(writes, v.messages) && i in writes && j in writes
    requires Linked(writes, v.messages, v.accounts, v.contacts, v.convs, v.next)
    ensures i in v.messages && j in v.messages
    ensures v.messages[i].stamp.account == v.messages[j].stamp.account <==> writes[i].phone == writes[j].phone
    ensures i != j ==>
      (v.messages[i].content.sender == v.messages[j].content.sender <==>
         writes[i].from.Some? && writes[i].from == writes[j].from)
    ensures i != j ==>
      (v.messages[i].content.conv == v.messages[j].content.conv <==>
         writes[i].phone == writes[j].phone && writes[i].from.Some? && writes[i].from == writes[j].from)
  {
    var a, b := writes[i], writes[j];
    KeptRow(writes, v, i, v.next);
    KeptRow(writes, v, j, v.next);
    if i != j && a.from.Some? && b.from.Some? {
      hide Told, Linked, Apart;
      var k, l := (v.messages[i].stamp.account, a.from.value), (v.messages[j].stamp.account, b.from.value);
      assert v.convs[k] == v.messages[i].content.conv && v.convs[l] == v.messages[j].content.conv;
    }
  }

  /** And every status event tells what a delivered event with its key says. */
  lemma StatusesAreTold(es: seq<Event>, n: nat)
    requires n <= |es| && Run(es)
    ensures var v := At(es, n).v; StatusesTold(v.statuses, v.ledger, Delivered(es, n))
  {
    hide At, Run, Delivered, StatusesTold, Filed;
    RunOk(es, n);
  }
}
