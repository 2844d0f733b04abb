/** The ingest loop (apps/ingest/consumer.py with ingest/normalise.py, ingest/dedupe.py, ingest/dlq.py
    and the window projection of doctor.py).

    Delivery is at least once; a fault may strike anywhere: an exception before a commit, after it or
    after the window update, or the death of the process at any of those points. Uncommitted work is
    then gone. What is proved is that the effect on the vault is nevertheless exactly once, that an
    acknowledged body is accounted for, and that a window value always has its evidence. */
module Ingest {
  import opened Prelude
  import opened Schema
  import opened Encoding
  import opened Queue

  type KeyId = nat

  // ---------------------------------------------------------------- events and bodies

  /** An atomic webhook event. `seconds` is absent when the provider's timestamp is not a number. */
  datatype Atom =
    | MessageAtom(echo: bool, phone: Option<string>, from: Option<string>, wamid: Option<string>,
                  seconds: Option<int>, kind: string, text: Option<string>)
    | StatusAtom(phone: Option<string>, wamid: Option<string>, status: Option<string>, seconds: Option<int>,
                 recipient: Option<string>)
    | OtherAtom(raw: string)

  /** A queue body: an envelope that opens under its key (its plaintext may still be unreadable), one
      that parses but fails authentication, or one that is no envelope. `salt` tells copies apart. */
  datatype Body =
    | Sealed(key: KeyId, payload: Option<seq<Atom>>, salt: nat)
    | Forged(key: KeyId, salt: nat)
    | Malformed(salt: nat)

  datatype Opened = Plain(payload: Option<seq<Atom>>) | KeyUnavailable | BadEnvelope | AuthFailed

  /** `open_sealed`: header first, then the key, then the tag. */
  function Open(b: Body, available: set<KeyId>): Opened
  {
    if b.Malformed? then BadEnvelope
    else if b.key !in available then KeyUnavailable
    else if b.Forged? then AuthFailed
    else Plain(b.payload)
  }

  function OrEmpty(s: Option<string>): string
  {
    if s.Some? then s.value else ""
  }

  predicate Timed(a: Atom)
  {
    a.OtherAtom? || a.seconds.Some?
  }

  /** `semantic_key`. Inbound messages and echoes share one key space. */
  function KeyOf(a: Atom): Key
    requires Timed(a)
  {
    match a
    case MessageAtom(_, phone, _, wamid, _, _, _) => MessageKey(OrEmpty(phone), OrEmpty(wamid))
    case StatusAtom(phone, wamid, status, seconds, recipient) =>
      StatusKey(OrEmpty(phone), OrEmpty(wamid), OrEmpty(status), seconds.value * 1000,
                if recipient.Some? then recipient.value else [0 as char] + "none")
    case OtherAtom(raw) => OtherKey(raw)
  }

  // ---------------------------------------------------------------- the vault

  datatype Status = Status(wamid: string, status: string, at: int, recipient: Option<string>)

  datatype Failure = PoisonMalformed | AuthFailedIsolated

  /** The vault tables ingest writes. `ledger` maps each semantic key to the domain row written in the
      same transaction, if the family has one. Accounts, contacts and conversations are shown as the
      lookups the code makes. */
  datatype Vault = Vault(
    ledger: map<Key, Option<nat>>,
    messages: map<MsgId, Message>,
    statuses: map<nat, Status>,
    accounts: map<string, AccountId>,
    contacts: map<string, ContactId>,
    convs: map<(AccountId, string), ConvId>,
    dlq: seq<(Body, Failure)>,
    breakerOpen: bool,
    next: nat)

  type Windows = map<ConvId, int>

  const EMPTY_VAULT := Vault(map[], map[], map[], map[], map[], map[], [], false, 0)

  function Account(v: Vault, phone: string): (r: (Vault, AccountId))
    ensures r.0 == v.(accounts := r.0.accounts, next := r.0.next) && v.next <= r.0.next
    ensures phone in r.0.accounts && r.0.accounts[phone] == r.1
  {
    if phone in v.accounts then (v, v.accounts[phone])
    else (v.(accounts := v.accounts[phone := v.next], next := v.next + 1), v.next)
  }

  /** A null sender never matches, so it gets a contact and a conversation of its own. */
  function Contact(v: Vault, from: Option<string>): (r: (Vault, ContactId))
    ensures r.0 == v.(contacts := r.0.contacts, next := r.0.next) && v.next <= r.0.next
  {
    if from == None then (v.(next := v.next + 1), v.next)
    else if from.value in v.contacts then (v, v.contacts[from.value])
    else (v.(contacts := v.contacts[from.value := v.next], next := v.next + 1), v.next)
  }

  function Conversation(v: Vault, account: AccountId, from: Option<string>): (r: (Vault, ConvId))
    ensures r.0 == v.(convs := r.0.convs, next := r.0.next) && v.next <= r.0.next
  {
    if from == None then (v.(next := v.next + 1), v.next)
    else if (account, from.value) in v.convs then (v, v.convs[(account, from.value)])
    else (v.(convs := v.convs[(account, from.value) := v.next], next := v.next + 1), v.next)
  }

  function MessageRow(a: Atom, account: AccountId, contact: ContactId, conv: ConvId): Message
    requires a.MessageAtom? && Timed(a)
  {
    var ms := a.seconds.value * 1000;
    Message(
      Stamp(account, if a.echo then Out else In, None),
      Content(conv, Some(contact), ms, ms + 1000, a.kind, if a.kind == "text" then a.text else None,
              if a.echo then BusinessAppEcho else CloudApi, !a.echo),
      a.wamid, None)
  }

  /** How one atom's transaction ends. */
  datatype Committed =
    | Failed
    | Duplicate
    | Written(vault: Vault, window: Option<(ConvId, int)>)

  /** Ledger insert and domain writes of one atom. A null phone number, or a status without wamid or
      status, violates a NOT NULL column and rolls everything back. */
  function CommitAtom(v: Vault, a: Atom): Committed
  {
    if !Timed(a) then Failed
    else if KeyOf(a) in v.ledger then Duplicate
    else
      match a
      case MessageAtom(echo, phone, from, wamid, seconds, kind, text) =>
        if phone == None then Failed
        else
          var (v1, account) := Account(v, phone.value);
          var (v2, contact) := Contact(v1, from);
          var (v3, conv) := Conversation(v2, account, from);
          Written(v3.(ledger := v3.ledger[KeyOf(a) := Some(v3.next)],
                      messages := v3.messages[v3.next := MessageRow(a, account, contact, conv)],
                      next := v3.next + 1),
                  if echo then None else Some((conv, seconds.value * 1000)))
      case StatusAtom(phone, wamid, status, seconds, recipient) =>
        if wamid == None || status == None then Failed
        else
          Written(v.(ledger := v.ledger[KeyOf(a) := Some(v.next)],
                     statuses := v.statuses[v.next :=
                       Status(wamid.value, status.value, seconds.value * 1000, recipient)],
                     next := v.next + 1),
                  None)
      case OtherAtom(_) => Written(v.(ledger := v.ledger[KeyOf(a) := None]), None)
  }

  /** How an event's transaction ends: an event without a readable time fails; one whose key is known is passed over;
      of the rest a message without a number fails, and a status without a wamid or a status. */
  lemma CommitEnds(v: Vault, a: Atom)
    ensures var c := CommitAtom(v, a);
      var readable := a.OtherAtom? || a.seconds.Some?;
      && (c.Duplicate? <==> readable && KeyOf(a) in v.ledger)
      && (c.Written? <==>
            && readable && KeyOf(a) !in v.ledger && (a.MessageAtom? ==> a.phone.Some?)
            && (a.StatusAtom? ==> a.wamid.Some? && a.status.Some?))
  {
    hide KeyOf, Account, Contact, Conversation, MessageRow;
  }

  /** `advance_window`: the running maximum. */
  function Advance(w: Windows, conv: ConvId, ms: int): Windows
  {
    var existing := if conv in w then w[conv] else 0;
    w[conv := if existing > ms then existing else ms]
  }

  // ---------------------------------------------------------------- one body

  datatype Point = BeforeCommit | AfterCommit | AfterWindow

  /** Where a fault strikes while a body is processed: at which atom, at which point of it, and
      whether it kills the process or only raises. */
  datatype Mishap = Mishap(atom: nat, point: Point, fatal: bool)

  datatype End = Finished | Raised | Died

  function EndOf(m: Option<Mishap>): End
  {
    if m.Some? && m.value.fatal then Died else Raised
  }

  predicate Strikes(m: Option<Mishap>, i: nat, p: Point)
  {
    m.Some? && m.value.atom == i && m.value.point == p
  }

  function Process(v: Vault, w: Windows, atoms: seq<Atom>, i: nat, m: Option<Mishap>): (Vault, Windows, End)
    requires i <= |atoms|
    decreases |atoms| - i
  {
    if i == |atoms| then (v, w, Finished)
    else if Strikes(m, i, BeforeCommit) then (v, w, EndOf(m))
    else
      match CommitAtom(v, atoms[i])
      case Failed => (v, w, Raised)
      case Duplicate => Process(v, w, atoms, i + 1, m)
      case Written(v', window) =>
        if Strikes(m, i, AfterCommit) then (v', w, EndOf(m))
        else
          var w' := if window.Some? then Advance(w, window.value.0, window.value.1) else w;
          if Strikes(m, i, AfterWindow) then (v', w', EndOf(m))
          else Process(v', w', atoms, i + 1, m)
  }

  // ---------------------------------------------------------------- one drain

  /** Everything that persists or lives in the process: queue, both databases, and the set of keys
      that have decrypted something since the process started. */
  datatype Sys = Sys(q: Q<Body>, v: Vault, w: Windows, health: set<KeyId>)

  /** What one leased body leads to. */
  datatype Verdict = ToAck | Returned | Tripped | Dead

  /** `drain_once` for one lease. */
  function Handle(s: Sys, id: LeaseId, body: Body, available: set<KeyId>, m: Option<Mishap>): (Sys, Verdict)
  {
    match Open(body, available)
    case KeyUnavailable => (s.(q := NackOne(s.q, id)), Returned)
    case BadEnvelope => (s.(v := s.v.(dlq := s.v.dlq + [(body, PoisonMalformed)])), ToAck)
    case AuthFailed =>
      if body.key in s.health then (s.(v := s.v.(dlq := s.v.dlq + [(body, AuthFailedIsolated)])), ToAck)
      else (s.(v := s.v.(breakerOpen := true)), Tripped)
    case Plain(payload) =>
      var s1 := s.(health := s.health + {body.key});
      if payload == None then (s1.(q := NackOne(s1.q, id)), Returned)
      else
        var (v', w', end) := Process(s1.v, s1.w, payload.value, 0, m);
        var s2 := s1.(v := v', w := w');
        match end
        case Finished => (s2, ToAck)
        case Raised => (s2.(q := NackOne(s2.q, id)), Returned)
        case Died => (s2, Dead)
  }

  /** The payload was processed: finished it is to be acknowledged, raised it goes back, and else the process died. */
  ghost predicate Processed(s: Sys, s': Sys, verdict: Verdict, id: LeaseId, body: Body, m: Option<Mishap>)
    requires body.Sealed? && body.payload.Some?
  {
    var (v', w', end) := Process(s.v, s.w, body.payload.value, 0, m);
    && s' == Sys(if end == Raised then NackOne(s.q, id) else s.q, v', w', s.health + {body.key})
    && (verdict == ToAck <==> end == Finished) && (verdict == Returned <==> end == Raised)
    && (verdict == Dead <==> end == Died)
  }

  /** What one leased body leads to. A body that is no envelope is quarantined; one whose key is missing goes back;
      a forgery is quarantined if its key has opened something in this process, and trips the breaker otherwise; and
      an envelope that opens marks its key healthy, and goes back if its text cannot be read. Nothing else changes. */
  lemma LeaseLeadsTo(s: Sys, id: LeaseId, body: Body, available: set<KeyId>, m: Option<Mishap>)
    ensures var (s', verdict) := Handle(s, id, body, available, m);
      var opens := !body.Malformed? && body.key in available;
      && (body.Malformed? ==> verdict == ToAck && s' == s.(v := s.v.(dlq := s.v.dlq + [(body, PoisonMalformed)])))
      && (!body.Malformed? && !opens ==> verdict == Returned && s' == s.(q := NackOne(s.q, id)))
      && (body.Forged? && opens && body.key in s.health ==>
            verdict == ToAck && s' == s.(v := s.v.(dlq := s.v.dlq + [(body, AuthFailedIsolated)])))
      && (body.Forged? && opens && body.key !in s.health ==>
            verdict == Tripped && s' == s.(v := s.v.(breakerOpen := true)))
      && (body.Sealed? && opens && body.payload == None ==>
            verdict == Returned && s' == s.(q := NackOne(s.q, id), health := s.health + {body.key}))
      && (body.Sealed? && opens && body.payload.Some? ==> Processed(s, s', verdict, id, body, m))
  {
    hide Process, NackOne;
  }

  /** The environment of one drain: which private keys are available, where faults strike (by lease
      index; one past the last strikes before the acknowledgements), and how many acknowledgements
      get out if the process dies while sending them. */
  datatype Env = Env(
    available: set<KeyId>, max: nat, mishaps: map<nat, Mishap>, deadBefore: set<nat>, acksSent: Option<nat>)

  function MishapAt(env: Env, i: nat): Option<Mishap>
  {
    if i in env.mishaps then Some(env.mishaps[i]) else None
  }

  /** The loop over the leases from index `i`, and what it leaves to acknowledge. */
  function DrainFrom(s: Sys, leases: seq<(LeaseId, Body)>, i: nat, toAck: seq<LeaseId>,
      env: Env): (Sys, seq<LeaseId>, bool)
    requires i <= |leases|
    decreases |leases| - i
  {
    if i in env.deadBefore then (s, toAck, true)
    else if i == |leases| then (s, toAck, false)
    else
      var (s', verdict) := Handle(s, leases[i].0, leases[i].1, env.available, MishapAt(env, i));
      match verdict
      case ToAck => DrainFrom(s', leases, i + 1, toAck + [leases[i].0], env)
      case Returned => DrainFrom(s', leases, i + 1, toAck, env)
      case Tripped => (s', toAck, false)
      case Dead => (s', toAck, true)
  }

  function LeaseCount(q: Q<Body>, max: nat): nat
  {
    if |q.pending| < max then |q.pending| else max
  }

  function Leases(q: Q<Body>, n: nat): seq<(LeaseId, Body)>
    requires n <= |q.pending|
  {
    seq(n, i requires 0 <= i < n => (q.counter + 1 + i, q.pending[i]))
  }

  /** `drain_once`. A dead process forgets which keys were healthy. */
  function Drain(s: Sys, env: Env): Sys
  {
    if s.v.breakerOpen then s
    else
      var n := LeaseCount(s.q, env.max);
      var leases := Leases(s.q, n);
      var (s', toAck, dead) := DrainFrom(s.(q := LeaseFirst(s.q, n)), leases, 0, [], env);
      if dead then s'.(health := {})
      else if env.acksSent.Some? && env.acksSent.value < |toAck|
      then s'.(q := AckAll(s'.q, toAck[..env.acksSent.value]), health := {})
      else s'.(q := AckAll(s'.q, toAck))
  }

  // ---------------------------------------------------------------- evidence for the window

  /** A live inbound message that opens the window of `conv`. */
  predicate IsEvidence(m: Message, conv: ConvId)
  {
    m.content.conv == conv && m.stamp.direction == In && m.content.eligible
  }

  ghost predicate HasEvidence(messages: map<MsgId, Message>, conv: ConvId, ms: int)
  {
    exists m :: m in messages && IsEvidence(messages[m], conv) && messages[m].content.lower == ms
  }

  /** `ms` is the latest evidence, or 0 when there is none. */
  ghost predicate IsLatest(messages: map<MsgId, Message>, conv: ConvId, ms: int)
  {
    if exists m :: m in messages && IsEvidence(messages[m], conv)
    then HasEvidence(messages, conv, ms)
         && forall m :: m in messages && IsEvidence(messages[m], conv) ==> messages[m].content.lower <= ms
    else ms == 0
  }

  // ---------------------------------------------------------------- runs

  datatype Event =
    | Deliver(body: Body)
    | DoDrain(env: Env)
    | Redeliver(id: LeaseId)
    | Reset
    | Maintain(messages: map<MsgId, Message>, next: nat)
    | Rebuild(conv: ConvId, latest: int)

  /** Import and undo, as ingest sees them: rows without a fingerprint stay, and no row they add is
      eligible (ImportVault.ProviderRowsUntouched). */
  ghost predicate Maintains(v: Vault, messages: map<MsgId, Message>, next: nat)
  {
    && v.next <= next && (forall m :: m in messages ==> m < next)
    && ProviderRows(messages) == ProviderRows(v.messages)
    && (forall m :: m in messages && messages[m].fp.Some? ==> !messages[m].content.eligible)
  }

  /** A rebuild stores the latest evidence where it differs from the stored value. A negative value
      violates the column's check and nothing is written. */
  function RebuildWindow(w: Windows, conv: ConvId, latest: int): Windows
  {
    var stored := if conv in w then w[conv] else 0;
    if stored == latest || latest < 0 then w else w[conv := latest]
  }

  ghost predicate Enabled(s: Sys, e: Event)
  {
    match e
    case Maintain(messages, next) => Maintains(s.v, messages, next)
    case Rebuild(conv, latest) => IsLatest(s.v.messages, conv, latest)
    case _ => true
  }

  function Step(s: Sys, e: Event): Sys
  {
    match e
    case Deliver(body) => s.(q := Enqueue(s.q, body))
    case DoDrain(env) => Drain(s, env)
    case Redeliver(id) => s.(q := NackOne(s.q, id))
    case Reset => s.(v := s.v.(breakerOpen := false))
    case Maintain(messages, next) => s.(v := s.v.(messages := messages, next := next))
    case Rebuild(conv, latest) => s.(w := RebuildWindow(s.w, conv, latest))
  }

  const START := Sys(Q([], map[], [], 0), EMPTY_VAULT, map[], {})

  function At(es: seq<Event>, n: nat): Sys
    requires n <= |es|
  {
    if n == 0 then START else Step(At(es, n - 1), es[n - 1])
  }

  ghost predicate Run(es: seq<Event>)
  {
    forall i :: 0 <= i < |es| ==> Enabled(At(es, i), es[i])
  }

  /** The bodies delivered by the first `n` events. */
  function Delivered(es: seq<Event>, n: nat): multiset<Body>
    requires n <= |es|
  {
    if n == 0 then multiset{}
    else Delivered(es, n - 1) + if es[n - 1].Deliver? then multiset{es[n - 1].body} else multiset{}
  }

  // ---------------------------------------------------------------- the vault invariant

  ghost predicate AccountsOk(accounts: map<string, AccountId>, next: nat)
  {
    && (forall p :: p in accounts ==> accounts[p] < next)
    && (forall p, q :: p in accounts && q in accounts && accounts[p] == accounts[q] ==> p == q)
  }

  ghost predicate RowsBelow(messages: map<MsgId, Message>, statuses: map<nat, Status>, next: nat)
  {
    (forall m :: m in messages ==> m < next) && (forall r :: r in statuses ==> r < next)
  }

  /** A message row is the live row of this key: same account, same provider id. */
  predicate IsMessageOf(m: Message, k: Key, accounts: map<string, AccountId>)
  {
    && k.MessageKey? && m.fp == None && OrEmpty(m.wamid) == k.wamid
    && k.phone in accounts && accounts[k.phone] == m.stamp.account
  }

  predicate IsStatusOf(r: Status, k: Key)
  {
    && k.StatusKey? && r.wamid == k.wamid && r.status == k.status && r.at == k.at
    && k.recipient == if r.recipient.Some? then r.recipient.value else [0 as char] + "none"
  }

  /** Every ledger row of a message family leads to a live message row, and every one of the status
      family to a status event; the other families wrote nothing. */
  ghost predicate MessagesLinked(ledger: map<Key, Option<nat>>, messages: map<MsgId, Message>,
      accounts: map<string, AccountId>)
  {
    forall k :: k in ledger && k.MessageKey? ==>
      ledger[k].Some? && ledger[k].value in messages && IsMessageOf(messages[ledger[k].value], k, accounts)
  }

  ghost predicate StatusesLinked(ledger: map<Key, Option<nat>>, statuses: map<nat, Status>)
  {
    forall k :: k in ledger && k.StatusKey? ==>
      ledger[k].Some? && ledger[k].value in statuses && IsStatusOf(statuses[ledger[k].value], k)
  }

  ghost predicate OthersWroteNothing(ledger: map<Key, Option<nat>>)
  {
    forall k :: k in ledger && k.OtherKey? ==> ledger[k] == None
  }

  ghost predicate WritesDistinct(ledger: map<Key, Option<nat>>)
  {
    forall k, l :: k in ledger && l in ledger && ledger[k].Some? && ledger[k] == ledger[l] ==> k == l
  }

  predicate WroteMessage(ledger: map<Key, Option<nat>>, k: Key, m: MsgId)
  {
    k in ledger && k.MessageKey? && ledger[k] == Some(m)
  }

  predicate WroteStatus(ledger: map<Key, Option<nat>>, k: Key, r: nat)
  {
    k in ledger && k.StatusKey? && ledger[k] == Some(r)
  }

  /** No live row without its ledger row. */
  ghost predicate MessagesLedgered(ledger: map<Key, Option<nat>>, messages: map<MsgId, Message>)
  {
    forall m :: m in messages && messages[m].fp == None ==> exists k :: WroteMessage(ledger, k, m)
  }

  ghost predicate StatusesLedgered(ledger: map<Key, Option<nat>>, statuses: map<nat, Status>)
  {
    forall r :: r in statuses ==> exists k :: WroteStatus(ledger, k, r)
  }

  /** Ledger and domain rows correspond one to one. */
  ghost predicate OneToOne(v: Vault)
  {
    && MessagesLinked(v.ledger, v.messages, v.accounts)
    && StatusesLinked(v.ledger, v.statuses)
    && OthersWroteNothing(v.ledger)
    && WritesDistinct(v.ledger)
    && MessagesLedgered(v.ledger, v.messages)
    && StatusesLedgered(v.ledger, v.statuses)
  }

  /** The body's plaintext holds an event with key `k`. */
  ghost predicate Carries(b: Body, k: Key)
  {
    b.Sealed? && b.payload.Some? && exists a :: a in b.payload.value && Timed(a) && KeyOf(a) == k
  }

  /** Every ledger key was carried by a body that was delivered. */
  ghost predicate LedgerEarned(ledger: map<Key, Option<nat>>, delivered: multiset<Body>)
  {
    forall k :: k in ledger ==> exists b :: b in delivered && Carries(b, k)
  }

  /** Each window row has evidence, and its value is 0 or the timestamp of some. */
  ghost predicate WindowsOk(w: Windows, messages: map<MsgId, Message>)
  {
    forall c :: c in w ==>
      && w[c] >= 0
      && (exists m :: m in messages && IsEvidence(messages[m], c))
      && (w[c] == 0 || HasEvidence(messages, c, w[c]))
  }

  ghost predicate EligibleIsLive(messages: map<MsgId, Message>)
  {
    forall m :: m in messages && messages[m].content.eligible ==> messages[m].fp == None
  }

  ghost predicate VaultOk(v: Vault, delivered: multiset<Body>)
  {
    && AccountsOk(v.accounts, v.next)
    && RowsBelow(v.messages, v.statuses, v.next)
    && OneToOne(v)
    && EligibleIsLive(v.messages)
    && LedgerEarned(v.ledger, delivered)
  }

  // ---------------------------------------------------------------- one transaction

  /** What a committed message transaction did, without the find-or-create bookkeeping. */
  ghost predicate WroteRow(v: Vault, a: Atom, v': Vault, window: Option<(ConvId, int)>, id: MsgId, row: Message)
    requires Timed(a)
  {
    && v.next <= id && v'.next == id + 1
    && v'.ledger == v.ledger[KeyOf(a) := Some(id)]
    && v'.messages == v.messages[id := row]
    && v'.statuses == v.statuses && v'.dlq == v.dlq && v'.breakerOpen == v.breakerOpen
    && IsMessageOf(row, KeyOf(a), v'.accounts)
    && (forall p :: p in v.accounts ==> p in v'.accounts && v'.accounts[p] == v.accounts[p])
    && (window.Some? ==> IsEvidence(row, window.value.0) && row.content.lower == window.value.1)
  }

  lemma AccountKeeps(v: Vault, phone: string)
    requires AccountsOk(v.accounts, v.next)
    ensures var v' := Account(v, phone).0;
      && AccountsOk(v'.accounts, v'.next)
      && (forall p :: p in v.accounts ==> p in v'.accounts && v'.accounts[p] == v.accounts[p])
  {
    hide AccountsOk;
    if phone !in v.accounts { AccountInsert(v.accounts, v.next, phone); }
  }

  lemma AccountInsert(accounts: map<string, AccountId>, next: nat, phone: string)
    requires AccountsOk(accounts, next) && phone !in accounts
    ensures AccountsOk(accounts[phone := next], next + 1)
  {
  }

  lemma MessageCommit(v: Vault, a: Atom)
    requires AccountsOk(v.accounts, v.next) && a.MessageAtom? && CommitAtom(v, a).Written?
    ensures var c := CommitAtom(v, a);
      && c.vault.next > 0 && c.vault.next - 1 in c.vault.messages
      && WroteRow(v, a, c.vault, c.window, c.vault.next - 1, c.vault.messages[c.vault.next - 1])
      && AccountsOk(c.vault.accounts, c.vault.next)
      && c.vault.messages[c.vault.next - 1].wamid == a.wamid
      && (c.window.None? <==> a.echo)
  {
    hide Account, Contact, Conversation, OrEmpty;
    AccountKeeps(v, a.phone.value);
    assert OrEmpty(a.phone) == a.phone.value by { OrEmptySome(a.phone.value); }
  }

  lemma OrEmptySome(s: string)
    ensures OrEmpty(Some(s)) == s
  {
  }

  lemma LinkMessage(ledger: map<Key, Option<nat>>, messages: map<MsgId, Message>, accounts: map<string, AccountId>,
                    k: Key, id: MsgId, row: Message, accounts': map<string, AccountId>)
    requires MessagesLinked(ledger, messages, accounts) && id !in messages && IsMessageOf(row, k, accounts')
    requires forall p :: p in accounts ==> p in accounts' && accounts'[p] == accounts[p]
    ensures MessagesLinked(ledger[k := Some(id)], messages[id := row], accounts')
  {
    hide OrEmpty;
  }

  lemma LedgerMessage(ledger: map<Key, Option<nat>>, messages: map<MsgId, Message>, k: Key, id: MsgId, row: Message)
    requires MessagesLedgered(ledger, messages) && k !in ledger && k.MessageKey?
    ensures MessagesLedgered(ledger[k := Some(id)], messages[id := row])
  {
    var ledger', messages' := ledger[k := Some(id)], messages[id := row];
    forall m | m in messages' && messages'[m].fp == None ensures exists j :: WroteMessage(ledger', j, m) {
      if m == id {
        assert WroteMessage(ledger', k, m);
      } else {
        var j :| WroteMessage(ledger, j, m);
        assert WroteMessage(ledger', j, m);
      }
    }
  }

  lemma LedgerStatus(ledger: map<Key, Option<nat>>, statuses: map<nat, Status>, k: Key, id: nat, row: Status)
    requires StatusesLedgered(ledger, statuses) && k !in ledger && k.StatusKey?
    ensures StatusesLedgered(ledger[k := Some(id)], statuses[id := row])
  {
    var ledger', statuses' := ledger[k := Some(id)], statuses[id := row];
    forall r | r in statuses' ensures exists j :: WroteStatus(ledger', j, r) {
      if r == id {
        assert WroteStatus(ledger', k, r);
      } else {
        var j :| WroteStatus(ledger, j, r);
        assert WroteStatus(ledger', j, r);
      }
    }
  }

  /** A new ledger row does not disturb the rows already ledgered. */
  lemma LedgerMore(ledger: map<Key, Option<nat>>, messages: map<MsgId, Message>, statuses: map<nat, Status>, k: Key,
      x: Option<nat>)
    requires k !in ledger
    ensures MessagesLedgered(ledger, messages) ==> MessagesLedgered(ledger[k := x], messages)
    ensures StatusesLedgered(ledger, statuses) ==> StatusesLedgered(ledger[k := x], statuses)
  {
    var ledger' := ledger[k := x];
    assert forall j, m :: WroteMessage(ledger, j, m) ==> WroteMessage(ledger', j, m);
    assert forall j, r :: WroteStatus(ledger, j, r) ==> WroteStatus(ledger', j, r);
  }

  lemma WritesFresh(ledger: map<Key, Option<nat>>, messages: map<MsgId, Message>, statuses: map<nat, Status>,
                    accounts: map<string, AccountId>, next: nat, k: Key, x: Option<nat>)
    requires MessagesLinked(ledger, messages, accounts) && StatusesLinked(ledger, statuses) && WritesDistinct(ledger)
    requires RowsBelow(messages, statuses, next) && (x.Some? ==> next <= x.value) && k !in ledger
    requires OthersWroteNothing(ledger)
    ensures WritesDistinct(ledger[k := x])
  {
    forall j | j in ledger ensures x.Some? ==> ledger[j] != x {
      assert j.MessageKey? || j.StatusKey? || j.OtherKey?;
    }
  }

  lemma EarnMore(ledger: map<Key, Option<nat>>, delivered: multiset<Body>, k: Key, x: Option<nat>, b: Body)
    requires LedgerEarned(ledger, delivered) && b in delivered && Carries(b, k)
    ensures LedgerEarned(ledger[k := x], delivered)
  {
  }

  lemma CommitMessageKeeps(v: Vault, a: Atom, delivered: multiset<Body>, b: Body)
    requires VaultOk(v, delivered) && a.MessageAtom? && CommitAtom(v, a).Written?
    requires b in delivered && b.Sealed? && b.payload.Some? && a in b.payload.value
    ensures VaultOk(CommitAtom(v, a).vault, delivered)
  {
    hide MessagesLinked, StatusesLinked, WritesDistinct, MessagesLedgered, StatusesLedgered, LedgerEarned;
    hide AccountsOk, IsMessageOf, IsEvidence;
    var c := CommitAtom(v, a);
    MessageCommit(v, a);
    assert KeyOf(a) !in v.ledger && KeyOf(a).MessageKey?;
    hide CommitAtom, KeyOf;
    var k, id, row := KeyOf(a), c.vault.next - 1, c.vault.messages[c.vault.next - 1];
    LinkMessage(v.ledger, v.messages, v.accounts, k, id, row, c.vault.accounts);
    assert row.fp == None by { MessageIsLive(row, k, c.vault.accounts); }
    LedgerMessage(v.ledger, v.messages, k, id, row);
    LedgerMore(v.ledger, v.messages, v.statuses, k, Some(id));
    WritesFresh(v.ledger, v.messages, v.statuses, v.accounts, v.next, k, Some(id));
    assert StatusesLinked(c.vault.ledger, c.vault.statuses)
      by { LinkedMore(v.ledger, v.messages, v.statuses, v.accounts, k, Some(id)); }
    assert Carries(b, k);
    EarnMore(v.ledger, delivered, k, Some(id), b);
  }

  lemma MessageIsLive(row: Message, k: Key, accounts: map<string, AccountId>)
    requires IsMessageOf(row, k, accounts)
    ensures row.fp == None
  {
  }

  /** A new ledger row of another family leaves these links alone. */
  lemma LinkedMore(ledger: map<Key, Option<nat>>, messages: map<MsgId, Message>, statuses: map<nat, Status>,
                   accounts: map<string, AccountId>, k: Key, x: Option<nat>)
    ensures !k.StatusKey? && StatusesLinked(ledger, statuses) ==> StatusesLinked(ledger[k := x], statuses)
    ensures !k.MessageKey? && MessagesLinked(ledger, messages, accounts) ==>
      MessagesLinked(ledger[k := x], messages, accounts)
  {
    hide IsMessageOf, IsStatusOf;
  }

  lemma LinkStatus(ledger: map<Key, Option<nat>>, statuses: map<nat, Status>, k: Key, id: nat, row: Status)
    requires StatusesLinked(ledger, statuses) && id !in statuses && IsStatusOf(row, k)
    ensures StatusesLinked(ledger[k := Some(id)], statuses[id := row])
  {
  }

  lemma CommitStatusKeeps(v: Vault, a: Atom, delivered: multiset<Body>, b: Body)
    requires VaultOk(v, delivered) && a.StatusAtom? && CommitAtom(v, a).Written?
    requires b in delivered && b.Sealed? && b.payload.Some? && a in b.payload.value
    ensures VaultOk(CommitAtom(v, a).vault, delivered)
  {
    hide MessagesLinked, StatusesLinked, WritesDistinct, MessagesLedgered, StatusesLedgered, LedgerEarned;
    hide EligibleIsLive;
    var c := CommitAtom(v, a);
    var k, id, row := KeyOf(a), v.next, c.vault.statuses[v.next];
    assert IsStatusOf(row, k);
    LinkStatus(v.ledger, v.statuses, k, id, row);
    LedgerStatus(v.ledger, v.statuses, k, id, row);
    LedgerMore(v.ledger, v.messages, v.statuses, k, Some(id));
    WritesFresh(v.ledger, v.messages, v.statuses, v.accounts, v.next, k, Some(id));
    LinkedMore(v.ledger, v.messages, v.statuses, v.accounts, k, Some(id));
    assert Carries(b, k);
    EarnMore(v.ledger, delivered, k, Some(id), b);
  }

  lemma CommitOtherKeeps(v: Vault, a: Atom, delivered: multiset<Body>, b: Body)
    requires VaultOk(v, delivered) && a.OtherAtom? && CommitAtom(v, a).Written?
    requires b in delivered && b.Sealed? && b.payload.Some? && a in b.payload.value
    ensures VaultOk(CommitAtom(v, a).vault, delivered)
  {
    hide MessagesLinked, StatusesLinked, WritesDistinct, MessagesLedgered, StatusesLedgered, LedgerEarned;
    hide EligibleIsLive, AccountsOk, RowsBelow;
    var k := KeyOf(a);
    LedgerMore(v.ledger, v.messages, v.statuses, k, None);
    WritesFresh(v.ledger, v.messages, v.statuses, v.accounts, v.next, k, None);
    LinkedMore(v.ledger, v.messages, v.statuses, v.accounts, k, None);
    assert Carries(b, k);
    EarnMore(v.ledger, delivered, k, None, b);
  }

  /** One transaction keeps ledger and rows in step. */
  lemma CommitKeeps(v: Vault, a: Atom, delivered: multiset<Body>, b: Body)
    requires VaultOk(v, delivered) && CommitAtom(v, a).Written?
    requires b in delivered && b.Sealed? && b.payload.Some? && a in b.payload.value
    ensures VaultOk(CommitAtom(v, a).vault, delivered)
  {
    hide VaultOk, CommitAtom;
    match a
    case MessageAtom(_, _, _, _, _, _, _) => CommitMessageKeeps(v, a, delivered, b);
    case StatusAtom(_, _, _, _, _) => CommitStatusKeeps(v, a, delivered, b);
    case OtherAtom(_) => CommitOtherKeeps(v, a, delivered, b);
  }

  /** The unique index on account and wamid never fires: a second live row for the pair would have had
      the same key, and would have been deduplicated. */
  lemma UniqueWamidNeverFires(v: Vault, a: Atom, delivered: multiset<Body>, m: MsgId)
    requires VaultOk(v, delivered) && a.MessageAtom? && CommitAtom(v, a).Written?
    requires m in v.messages && v.messages[m].fp == None && v.messages[m].wamid == a.wamid
    ensures var v' := CommitAtom(v, a).vault;
      v'.next > 0 && v'.next - 1 in v'.messages && v.messages[m].stamp.account != v'.messages[v'.next - 1].stamp.account
  {
    hide StatusesLinked, WritesDistinct, StatusesLedgered, LedgerEarned, EligibleIsLive, RowsBelow, OthersWroteNothing;
    MessageCommit(v, a);
    assert KeyOf(a) !in v.ledger;
    hide CommitAtom, OrEmpty, IsEvidence;
    var k :| WroteMessage(v.ledger, k, m);
    assert IsMessageOf(v.messages[m], k, v.accounts);
    assert k.wamid == KeyOf(a).wamid;
  }

  // ---------------------------------------------------------------- windows

  lemma EvidenceGrows(w: Windows, messages: map<MsgId, Message>, messages': map<MsgId, Message>)
    requires WindowsOk(w, messages)
    requires forall m :: m in messages && messages[m].content.eligible ==> m in messages' && messages'[m] == messages[m]
    ensures WindowsOk(w, messages')
  {
    forall c | c in w
      ensures exists m :: m in messages' && IsEvidence(messages'[m], c)
      ensures w[c] == 0 || HasEvidence(messages', c, w[c])
    {
      var m :| m in messages && IsEvidence(messages[m], c);
      assert m in messages' && IsEvidence(messages'[m], c);
      if w[c] != 0 {
        var n :| n in messages && IsEvidence(messages[n], c) && messages[n].content.lower == w[c];
        assert n in messages' && IsEvidence(messages'[n], c);
      }
    }
  }

  lemma AdvanceKeeps(w: Windows, messages: map<MsgId, Message>, conv: ConvId, m: MsgId)
    requires WindowsOk(w, messages) && m in messages && IsEvidence(messages[m], conv)
    ensures WindowsOk(Advance(w, conv, messages[m].content.lower), messages)
  {
    var ms := messages[m].content.lower;
    assert HasEvidence(messages, conv, ms);
  }

  // ---------------------------------------------------------------- one body

  /** Nothing committed is lost. */
  ghost predicate Grew(v: Vault, v': Vault)
  {
    && (forall k :: k in v.ledger ==> k in v'.ledger)
    && (forall m :: m in v.messages ==> m in v'.messages && v'.messages[m] == v.messages[m])
    && |v.dlq| <= |v'.dlq| && (forall i :: 0 <= i < |v.dlq| ==> v'.dlq[i] == v.dlq[i])
  }

  lemma CommitGrows(v: Vault, a: Atom, delivered: multiset<Body>)
    requires VaultOk(v, delivered) && CommitAtom(v, a).Written?
    ensures var c := CommitAtom(v, a);
      && Grew(v, c.vault) && KeyOf(a) in c.vault.ledger && c.vault.dlq == v.dlq && c.vault.breakerOpen == v.breakerOpen
      && (c.window.Some? ==> exists m :: m in c.vault.messages && IsEvidence(c.vault.messages[m], c.window.value.0)
                                         && c.vault.messages[m].content.lower == c.window.value.1)
  {
    hide OneToOne, EligibleIsLive, LedgerEarned;
    if a.MessageAtom? {
      MessageCommit(v, a);
      hide CommitAtom, IsMessageOf, IsEvidence, AccountsOk;
    }
  }

  lemma GrewTwice(u: Vault, v: Vault, w: Vault)
    requires Grew(u, v) && Grew(v, w)
    ensures Grew(u, w)
  {
  }

  /** Whatever strikes, wherever it strikes, processing a body keeps the invariant; and if it
      finishes, every event of the body is in the ledger. */
  lemma {:induction false} ProcessKeeps(v: Vault, w: Windows, b: Body, i: nat, m: Option<Mishap>,
      delivered: multiset<Body>)
    requires VaultOk(v, delivered) && WindowsOk(w, v.messages)
    requires b in delivered && b.Sealed? && b.payload.Some? && i <= |b.payload.value|
    ensures var (v', w', end) := Process(v, w, b.payload.value, i, m);
      && VaultOk(v', delivered) && WindowsOk(w', v'.messages) && Grew(v, v')
      && v'.dlq == v.dlq && v'.breakerOpen == v.breakerOpen
      && (end.Finished? ==> forall j :: i <= j < |b.payload.value| ==>
            Timed(b.payload.value[j]) && KeyOf(b.payload.value[j]) in v'.ledger)
    decreases |b.payload.value| - i
  {
    hide VaultOk, WindowsOk, CommitAtom, Advance, IsEvidence;
    var atoms := b.payload.value;
    if i < |atoms| && !Strikes(m, i, BeforeCommit) {
      var a := atoms[i];
      CommitOutcome(v, a);
      match CommitAtom(v, a)
      case Failed =>
      case Duplicate =>
        ProcessKeeps(v, w, b, i + 1, m, delivered);
      case Written(v', window) =>
        WrittenKeeps(v, w, a, delivered, b);
        var w' := if window.Some? then Advance(w, window.value.0, window.value.1) else w;
        if !Strikes(m, i, AfterCommit) && !Strikes(m, i, AfterWindow) {
          ProcessKeeps(v', w', b, i + 1, m, delivered);
          GrewTwice(v, v', Process(v', w', atoms, i + 1, m).0);
        }
    }
  }

  lemma WrittenKeeps(v: Vault, w: Windows, a: Atom, delivered: multiset<Body>, b: Body)
    requires VaultOk(v, delivered) && WindowsOk(w, v.messages) && CommitAtom(v, a).Written?
    requires b in delivered && b.Sealed? && b.payload.Some? && a in b.payload.value
    ensures var Written(v', window) := CommitAtom(v, a);
      && VaultOk(v', delivered) && Grew(v, v') && v'.dlq == v.dlq && v'.breakerOpen == v.breakerOpen
      && KeyOf(a) in v'.ledger && WindowsOk(w, v'.messages)
      && (window.Some? ==> WindowsOk(Advance(w, window.value.0, window.value.1), v'.messages))
  {
    hide VaultOk, WindowsOk, CommitAtom, Advance, IsEvidence;
    var Written(v', window) := CommitAtom(v, a);
    CommitKeeps(v, a, delivered, b);
    CommitGrows(v, a, delivered);
    EvidenceGrows(w, v.messages, v'.messages);
    if window.Some? {
      var row :| row in v'.messages && IsEvidence(v'.messages[row], window.value.0)
                 && v'.messages[row].content.lower == window.value.1;
      AdvanceKeeps(w, v'.messages, window.value.0, row);
    }
  }

  lemma CommitOutcome(v: Vault, a: Atom)
    ensures CommitAtom(v, a) != Failed ==> Timed(a)
    ensures CommitAtom(v, a).Duplicate? ==> KeyOf(a) in v.ledger
  {
  }

  /** Redelivering a body whose events are all in the ledger changes nothing: neither the vault nor the
      window. So a window left behind by a crash after the commit is not caught up by redelivery. */
  lemma {:induction false} RedeliveryChangesNothing(v: Vault, w: Windows, atoms: seq<Atom>, i: nat)
    requires i <= |atoms|
    requires forall j :: i <= j < |atoms| ==> Timed(atoms[j]) && KeyOf(atoms[j]) in v.ledger
    ensures Process(v, w, atoms, i, None) == (v, w, Finished)
    decreases |atoms| - i
  {
    if i < |atoms| {
      RedeliveryChangesNothing(v, w, atoms, i + 1);
    }
  }

  /** The lag is real for every inbound message newer than the stored window. */
  lemma CrashStrandsWindow(v: Vault, w: Windows, a: Atom)
    requires CommitAtom(v, a).Written? && CommitAtom(v, a).window.Some?
    ensures var c := CommitAtom(v, a);
      var (v1, w1, end) := Process(v, w, [a], 0, Some(Mishap(0, AfterCommit, true)));
      && (v1, w1, end) == (c.vault, w, Died)
      && Process(v1, w1, [a], 0, None) == (c.vault, w, Finished)
      && Process(v, w, [a], 0, None) == (c.vault, Advance(w, c.window.value.0, c.window.value.1), Finished)
  {
    assert Timed(a) && KeyOf(a) in CommitAtom(v, a).vault.ledger;
    hide CommitAtom, Advance;
    var c := CommitAtom(v, a);
    CommitOutcome(v, a);
    assert [a][0] == a;
    RedeliveryChangesNothing(c.vault, w, [a], 0);
    assert Process(v, w, [a], 0, Some(Mishap(0, AfterCommit, true))) == (c.vault, w, Died);
    assert Process(c.vault, Advance(w, c.window.value.0, c.window.value.1), [a], 1, None).2 == Finished;
  }

  // ---------------------------------------------------------------- the whole system

  ghost predicate InDlq(dlq: seq<(Body, Failure)>, b: Body)
  {
    exists i :: 0 <= i < |dlq| && dlq[i].0 == b
  }

  /** The body is quarantined, or every event of its plaintext is in the ledger. */
  ghost predicate Accounted(v: Vault, b: Body)
  {
    || InDlq(v.dlq, b)
    || (b.Sealed? && b.payload.Some? && forall i :: 0 <= i < |b.payload.value| ==>
          Timed(b.payload.value[i]) && KeyOf(b.payload.value[i]) in v.ledger)
  }

  ghost predicate AckedOk(acked: seq<Body>, v: Vault)
  {
    forall i :: 0 <= i < |acked| ==> Accounted(v, acked[i])
  }

  /** Some genuine body under key `k` was delivered. */
  ghost predicate Proven(k: KeyId, delivered: multiset<Body>)
  {
    exists b :: b in delivered && b.Sealed? && b.key == k
  }

  ghost predicate HealthOk(health: set<KeyId>, delivered: multiset<Body>)
  {
    forall k :: k in health ==> Proven(k, delivered)
  }

  /** Only undecryptable bodies are quarantined, and a forgery only once its key has proved healthy. */
  ghost predicate DlqOk(dlq: seq<(Body, Failure)>, delivered: multiset<Body>)
  {
    forall i :: 0 <= i < |dlq| ==> !dlq[i].0.Sealed? && (dlq[i].0.Forged? ==> Proven(dlq[i].0.key, delivered))
  }

  ghost predicate QueueOk(q: Q<Body>, delivered: multiset<Body>)
  {
    Numbered(q) && forall b :: Copies(q, b) == delivered[b]
  }

  ghost predicate Inv(s: Sys, delivered: multiset<Body>)
  {
    && VaultOk(s.v, delivered)
    && WindowsOk(s.w, s.v.messages)
    && QueueOk(s.q, delivered)
    && AckedOk(s.q.acked, s.v)
    && HealthOk(s.health, delivered)
    && DlqOk(s.v.dlq, delivered)
  }

  lemma AccountedStays(v: Vault, v': Vault, b: Body)
    requires Grew(v, v') && Accounted(v, b)
    ensures Accounted(v', b)
  {
    if InDlq(v.dlq, b) {
      var i :| 0 <= i < |v.dlq| && v.dlq[i].0 == b;
      assert v'.dlq[i].0 == b;
    }
  }

  lemma AckedStays(acked: seq<Body>, v: Vault, v': Vault)
    requires Grew(v, v') && AckedOk(acked, v)
    ensures AckedOk(acked, v')
  {
    forall i | 0 <= i < |acked| ensures Accounted(v', acked[i]) {
      AccountedStays(v, v', acked[i]);
    }
  }

  lemma NackKeeps(q: Q<Body>, id: LeaseId, delivered: multiset<Body>)
    requires QueueOk(q, delivered)
    ensures QueueOk(NackOne(q, id), delivered)
  {
    hide Copies, Numbered;
    forall b ensures Copies(NackOne(q, id), b) == delivered[b] {
      ReturnConserves(q, id, b);
    }
    ReturnConserves(q, id, Malformed(0));
  }

  lemma AckKeeps(q: Q<Body>, id: LeaseId, delivered: multiset<Body>)
    requires QueueOk(q, delivered)
    ensures QueueOk(AckOne(q, id), delivered)
  {
    hide Copies, Numbered;
    forall b ensures Copies(AckOne(q, id), b) == delivered[b] {
      ReturnConserves(q, id, b);
    }
    ReturnConserves(q, id, Malformed(0));
  }

  lemma Quarantined(v: Vault, b: Body, why: Failure, delivered: multiset<Body>)
    requires DlqOk(v.dlq, delivered) && !b.Sealed? && (b.Forged? ==> Proven(b.key, delivered))
    ensures var v' := v.(dlq := v.dlq + [(b, why)]); Grew(v, v') && Accounted(v', b) && DlqOk(v'.dlq, delivered)
  {
    var v' := v.(dlq := v.dlq + [(b, why)]);
    assert v'.dlq[|v.dlq|].0 == b;
  }

  /** One lease keeps the invariant, and a body that goes on the acknowledgement list is accounted for. */
  lemma HandleKeeps(s: Sys, id: LeaseId, body: Body, available: set<KeyId>, m: Option<Mishap>,
      delivered: multiset<Body>)
    requires Inv(s, delivered) && body in delivered
    ensures var (s', verdict) := Handle(s, id, body, available, m);
      && Inv(s', delivered) && Grew(s.v, s'.v)
      && (verdict == ToAck ==> Accounted(s'.v, body))
      && s'.q == (if verdict == Returned then NackOne(s.q, id) else s.q)
  {
    hide VaultOk, WindowsOk, QueueOk, AckedOk, HealthOk, DlqOk, Accounted, Process, NackOne, Proven;
    var (s', verdict) := Handle(s, id, body, available, m);
    NackKeeps(s.q, id, delivered);
    NackAcked(s.q, id);
    match Open(body, available)
    case KeyUnavailable =>
    case BadEnvelope =>
      Quarantined(s.v, body, PoisonMalformed, delivered);
      VaultOkDlq(s.v, s'.v, delivered);
      AckedStays(s.q.acked, s.v, s'.v);
    case AuthFailed =>
      HealthProven(s.health, delivered, body);
      if body.key in s.health { Quarantined(s.v, body, AuthFailedIsolated, delivered); }
      VaultOkDlq(s.v, s'.v, delivered);
      AckedStays(s.q.acked, s.v, s'.v);
    case Plain(payload) =>
      HealthMore(s.health, delivered, body);
      if payload.Some? {
        ProcessKeeps(s.v, s.w, body, 0, m, delivered);
        AckedStays(s.q.acked, s.v, s'.v);
        if verdict == ToAck { FinishedAccounted(s'.v, body); }
      }
  }

  lemma FinishedAccounted(v: Vault, b: Body)
    requires b.Sealed? && b.payload.Some?
    requires forall j :: 0 <= j < |b.payload.value| ==>
      Timed(b.payload.value[j]) && KeyOf(b.payload.value[j]) in v.ledger
    ensures Accounted(v, b)
  {
  }

  lemma NackAcked(q: Q<Body>, id: LeaseId)
    ensures NackOne(q, id).acked == q.acked
  {
  }

  lemma VaultOkDlq(v: Vault, v': Vault, delivered: multiset<Body>)
    requires VaultOk(v, delivered) && v' == v.(dlq := v'.dlq, breakerOpen := v'.breakerOpen)
    ensures VaultOk(v', delivered)
  {
  }

  lemma HealthProven(health: set<KeyId>, delivered: multiset<Body>, b: Body)
    requires HealthOk(health, delivered) && b.Forged?
    ensures b.key in health ==> Proven(b.key, delivered)
  {
  }

  lemma HealthMore(health: set<KeyId>, delivered: multiset<Body>, b: Body)
    requires HealthOk(health, delivered) && b in delivered && b.Sealed?
    ensures HealthOk(health + {b.key}, delivered)
  {
  }

  /** The leases still to handle name their bodies, and those on the list are accounted for. */
  ghost predicate LeasesNamed(q: Q<Body>, leases: seq<(LeaseId, Body)>, delivered: multiset<Body>)
  {
    forall j :: 0 <= j < |leases| ==>
      leases[j].1 in delivered && (leases[j].0 in q.leased ==> q.leased[leases[j].0] == leases[j].1)
  }

  ghost predicate ListAccounted(q: Q<Body>, toAck: seq<LeaseId>, v: Vault)
  {
    forall j :: 0 <= j < |toAck| && toAck[j] in q.leased ==> Accounted(v, q.leased[toAck[j]])
  }

  lemma ListStays(q: Q<Body>, q': Q<Body>, toAck: seq<LeaseId>, v: Vault, v': Vault)
    requires ListAccounted(q, toAck, v) && Grew(v, v')
    requires forall l :: l in q'.leased ==> l in q.leased && q'.leased[l] == q.leased[l]
    ensures ListAccounted(q', toAck, v')
  {
    hide Grew, Accounted;
    forall j | 0 <= j < |toAck| && toAck[j] in q'.leased ensures Accounted(v', q'.leased[toAck[j]]) {
      AccountedStays(v, v', q.leased[toAck[j]]);
    }
  }

  lemma {:induction false} DrainFromKeeps(s: Sys, leases: seq<(LeaseId, Body)>, i: nat, toAck: seq<LeaseId>, env: Env,
      delivered: multiset<Body>)
    requires i <= |leases| && Inv(s, delivered)
    requires LeasesNamed(s.q, leases, delivered) && ListAccounted(s.q, toAck, s.v)
    ensures var (s', toAck', _) := DrainFrom(s, leases, i, toAck, env);
      Inv(s', delivered) && ListAccounted(s'.q, toAck', s'.v)
    decreases |leases| - i
  {
    hide Inv, Handle, Grew, Accounted, Accounted, LeasesNamed, ListAccounted;
    if i !in env.deadBefore && i < |leases| {
      var (id, body) := leases[i];
      var (s', verdict) := Handle(s, id, body, env.available, MishapAt(env, i));
      NamedDelivered(s.q, leases, delivered, i);
      HandleKeeps(s, id, body, env.available, MishapAt(env, i), delivered);
      NackShrinks(s.q, id);
      NamedStays(s.q, s'.q, leases, delivered);
      ListStays(s.q, s'.q, toAck, s.v, s'.v);
      match verdict
      case ToAck =>
        ListMore(s'.q, toAck, s'.v, id, body);
        DrainFromKeeps(s', leases, i + 1, toAck + [id], env, delivered);
      case Returned =>
        DrainFromKeeps(s', leases, i + 1, toAck, env, delivered);
      case Tripped =>
      case Dead =>
    }
  }

  lemma NamedDelivered(q: Q<Body>, leases: seq<(LeaseId, Body)>, delivered: multiset<Body>, i: nat)
    requires LeasesNamed(q, leases, delivered) && i < |leases|
    ensures leases[i].1 in delivered && (leases[i].0 in q.leased ==> q.leased[leases[i].0] == leases[i].1)
  {
  }

  lemma NackShrinks(q: Q<Body>, id: LeaseId)
    ensures forall l :: l in NackOne(q, id).leased ==> l in q.leased && NackOne(q, id).leased[l] == q.leased[l]
  {
  }

  lemma NamedStays(q: Q<Body>, q': Q<Body>, leases: seq<(LeaseId, Body)>, delivered: multiset<Body>)
    requires LeasesNamed(q, leases, delivered)
    requires forall l :: l in q'.leased ==> l in q.leased && q'.leased[l] == q.leased[l]
    ensures LeasesNamed(q', leases, delivered)
  {
  }

  lemma ListMore(q: Q<Body>, toAck: seq<LeaseId>, v: Vault, id: LeaseId, body: Body)
    requires ListAccounted(q, toAck, v) && (id in q.leased ==> q.leased[id] == body) && Accounted(v, body)
    ensures ListAccounted(q, toAck + [id], v)
  {
    hide Accounted;
  }

  lemma {:induction false} AckAllKeeps(s: Sys, ids: seq<LeaseId>, delivered: multiset<Body>)
    requires Inv(s, delivered) && ListAccounted(s.q, ids, s.v)
    ensures Inv(s.(q := AckAll(s.q, ids)), delivered)
    ensures forall l :: l in AckAll(s.q, ids).leased ==> l in s.q.leased && AckAll(s.q, ids).leased[l] == s.q.leased[l]
  {
    hide VaultOk, WindowsOk, HealthOk, DlqOk, QueueOk, Accounted;
    if ids != [] {
      var rest := ids[..|ids| - 1];
      AckAllKeeps(s, rest, delivered);
      AckKeeps(AckAll(s.q, rest), ids[|ids| - 1], delivered);
    }
  }

  lemma LeaseKeeps(q: Q<Body>, n: nat, delivered: multiset<Body>)
    requires n <= |q.pending| && QueueOk(q, delivered)
    ensures QueueOk(LeaseFirst(q, n), delivered)
    ensures LeasesNamed(LeaseFirst(q, n), Leases(q, n), delivered)
    ensures LeaseFirst(q, n).acked == q.acked
  {
    hide LeaseFirst, Copies, Numbered;
    forall b ensures Copies(LeaseFirst(q, n), b) == delivered[b] {
      LeaseConserves(q, n, b);
    }
    LeaseConserves(q, n, Malformed(0));
    LeaseEntries(q, n);
    var leases := Leases(q, n);
    forall j | 0 <= j < n ensures leases[j].1 in delivered {
      PendingCounts(q, j);
    }
  }

  lemma PendingCounts(q: Q<Body>, j: nat)
    requires j < |q.pending|
    ensures Copies(q, q.pending[j]) > 0
  {
    assert q.pending[j] in multiset(q.pending);
  }

  lemma DrainKeeps(s: Sys, env: Env, delivered: multiset<Body>)
    requires Inv(s, delivered)
    ensures Inv(Drain(s, env), delivered)
  {
    hide VaultOk, WindowsOk, QueueOk, AckedOk, DlqOk, DrainFrom, LeasesNamed, Accounted, AckAll, LeaseFirst, Leases;
    if !s.v.breakerOpen {
      var n := LeaseCount(s.q, env.max);
      var s0, leases := s.(q := LeaseFirst(s.q, n)), Leases(s.q, n);
      LeaseKeeps(s.q, n, delivered);
      DrainFromKeeps(s0, leases, 0, [], env, delivered);
      var (s', toAck, dead) := DrainFrom(s0, leases, 0, [], env);
      AckAllKeeps(s', toAck, delivered);
      if env.acksSent.Some? && env.acksSent.value < |toAck| {
        AckAllKeeps(s', toAck[..env.acksSent.value], delivered);
      }
    }
  }

  // ---------------------------------------------------------------- every reachable state

  lemma DeliverKeeps(s: Sys, body: Body, delivered: multiset<Body>)
    requires Inv(s, delivered)
    ensures Inv(s.(q := Enqueue(s.q, body)), delivered + multiset{body})
  {
    hide Copies, Carries, OneToOne;
    forall b ensures Copies(Enqueue(s.q, body), b) == (delivered + multiset{body})[b] {
      AddCounts(s.q, body, b);
    }
    var more := delivered + multiset{body};
    assert forall b :: b in delivered ==> b in more;
    assert HealthOk(s.health, more) && LedgerEarned(s.v.ledger, more);
  }

  lemma MaintainKeeps(v: Vault, w: Windows, messages: map<MsgId, Message>, next: nat, delivered: multiset<Body>)
    requires VaultOk(v, delivered) && WindowsOk(w, v.messages) && Maintains(v, messages, next)
    ensures VaultOk(v.(messages := messages, next := next), delivered) && WindowsOk(w, messages)
  {
    hide LedgerEarned, StatusesLinked, WritesDistinct, StatusesLedgered, OthersWroteNothing;
    SameLiveRows(v.messages, messages);
    EvidenceGrows(w, v.messages, messages);
    hide WindowsOk;
    LiveRowsDecide(v.ledger, v.messages, messages, v.accounts);
  }

  lemma SameLiveRows(messages: map<MsgId, Message>, messages': map<MsgId, Message>)
    requires ProviderRows(messages') == ProviderRows(messages)
    ensures forall m :: m in messages && messages[m].fp == None ==> m in messages' && messages'[m] == messages[m]
    ensures forall m :: m in messages' && messages'[m].fp == None ==> m in messages && messages'[m] == messages[m]
  {
    var a, b := ProviderRows(messages), ProviderRows(messages');
    forall m | m in messages && messages[m].fp == None ensures m in messages' && messages'[m] == messages[m] {
      assert m in b && b[m] == a[m];
    }
    forall m | m in messages' && messages'[m].fp == None ensures m in messages && messages'[m] == messages[m] {
      assert m in a && b[m] == a[m];
    }
  }

  lemma LiveRowsDecide(ledger: map<Key, Option<nat>>, messages: map<MsgId, Message>, messages': map<MsgId, Message>,
      accounts: map<string, AccountId>)
    requires MessagesLinked(ledger, messages, accounts) && MessagesLedgered(ledger, messages)
    requires forall m :: m in messages && messages[m].fp == None ==> m in messages' && messages'[m] == messages[m]
    requires forall m :: m in messages' && messages'[m].fp == None ==> m in messages && messages'[m] == messages[m]
    ensures MessagesLinked(ledger, messages', accounts) && MessagesLedgered(ledger, messages')
  {
    hide WroteMessage;
  }

  lemma RebuildKeeps(w: Windows, messages: map<MsgId, Message>, conv: ConvId, latest: int)
    requires WindowsOk(w, messages) && IsLatest(messages, conv, latest)
    ensures WindowsOk(RebuildWindow(w, conv, latest), messages)
  {
  }

  lemma StepKeeps(s: Sys, e: Event, delivered: multiset<Body>)
    requires Inv(s, delivered) && Enabled(s, e)
    ensures Inv(Step(s, e), delivered + if e.Deliver? then multiset{e.body} else multiset{})
  {
    hide VaultOk, WindowsOk, QueueOk, HealthOk, DlqOk, Drain, Maintains, IsLatest, RebuildWindow, Enqueue, ProviderRows;
    assert delivered + multiset{} == delivered;
    match e
    case Deliver(body) => DeliverKeeps(s, body, delivered);
    case DoDrain(env) => DrainKeeps(s, env, delivered);
    case Redeliver(id) => NackKeeps(s.q, id, delivered);
    case Reset => VaultOkDlq(s.v, s.v.(breakerOpen := false), delivered);
    case Maintain(messages, next) => MaintainKeeps(s.v, s.w, messages, next, delivered);
    case Rebuild(conv, latest) => RebuildKeeps(s.w, s.v.messages, conv, latest);
  }

  lemma StartOk()
    ensures Inv(START, multiset{})
  {
    assert forall b: Body :: LeasesOf(START.q.leased, b) == {};
  }

  lemma {:induction false} RunKeeps(es: seq<Event>, n: nat)
    requires n <= |es| && Run(es)
    ensures Inv(At(es, n), Delivered(es, n))
  {
    hide Inv, Step, Enabled;
    if n == 0 {
      StartOk();
    } else {
      RunKeeps(es, n - 1);
      StepKeeps(At(es, n - 1), es[n - 1], Delivered(es, n - 1));
    }
  }

  /** Exactly-once effect: under any redelivery, reordering and fault placement, the ledger rows of the
      message families are in bijection with the live message rows, and those of the status family
      with the status events. */
  lemma ExactlyOnceEffect(es: seq<Event>, n: nat)
    requires n <= |es| && Run(es)
    ensures OneToOne(At(es, n).v)
  {
    hide At, Run, OneToOne, WindowsOk, QueueOk, AckedOk, HealthOk, DlqOk;
    RunKeeps(es, n);
  }

  /** Pending, leased and acknowledged bodies are, as a multiset, what was delivered. */
  lemma QueueConserves(es: seq<Event>, n: nat, b: Body)
    requires n <= |es| && Run(es)
    ensures Copies(At(es, n).q, b) == Delivered(es, n)[b]
  {
    hide At, Run, VaultOk, WindowsOk, AckedOk, HealthOk, DlqOk, Copies;
    RunKeeps(es, n);
  }

  /** An acknowledgement means accounted for: quarantined, or every event in the ledger. A forgery is
      acknowledged only if a genuine body under its key was delivered. */
  lemma AckMeansAccounted(es: seq<Event>, n: nat, b: Body)
    requires n <= |es| && Run(es) && b in At(es, n).q.acked
    ensures Accounted(At(es, n).v, b)
    ensures b.Forged? ==> Proven(b.key, Delivered(es, n))
    ensures b.Sealed? ==> !InDlq(At(es, n).v.dlq, b)
  {
    hide At, Run, VaultOk, WindowsOk, HealthOk, QueueOk, Delivered;
    RunKeeps(es, n);
    var s := At(es, n);
    assert Accounted(s.v, b);
    if InDlq(s.v.dlq, b) {
      var i :| 0 <= i < |s.v.dlq| && s.v.dlq[i].0 == b;
      assert !s.v.dlq[i].0.Sealed?;
    }
  }

  /** Once every body is acknowledged, the ledger's keys are exactly those of all delivered payloads. */
  lemma LedgerExactWhenDrained(es: seq<Event>, n: nat, k: Key)
    requires n <= |es| && Run(es) && At(es, n).q.pending == [] && At(es, n).q.leased == map[]
    ensures k in At(es, n).v.ledger <==> exists b :: b in Delivered(es, n) && Carries(b, k)
  {
    hide At, Run, WindowsOk, HealthOk, Delivered, OneToOne, AckedOk, DlqOk, Accounted;
    RunKeeps(es, n);
    var s := At(es, n);
    forall b | b in Delivered(es, n) && Carries(b, k) ensures k in s.v.ledger {
      assert Copies(s.q, b) > 0;
      assert LeasesOf(s.q.leased, b) == {};
      assert b in multiset(s.q.acked);
      AckMeansAccounted(es, n, b);
      CarriedIsLedgered(s.v, b, k);
    }
  }

  lemma CarriedIsLedgered(v: Vault, b: Body, k: Key)
    requires Accounted(v, b) && !InDlq(v.dlq, b) && Carries(b, k)
    ensures k in v.ledger
  {
    var a :| a in b.payload.value && Timed(a) && KeyOf(a) == k;
  }

  lemma DrainKeepsBreaker(s: Sys, env: Env)
    requires s.v.breakerOpen
    ensures Drain(s, env) == s
  {
  }

  /** Once open, the breaker stays open and drains lease nothing until it is reset. */
  lemma {:induction false} BreakerHolds(es: seq<Event>, m: nat, n: nat)
    requires m <= n <= |es| && At(es, m).v.breakerOpen && forall i :: m <= i < n ==> !es[i].Reset?
    ensures At(es, n).v.breakerOpen
    ensures forall env :: Drain(At(es, n), env) == At(es, n)
  {
    if m < n {
      hide Drain, RebuildWindow;
      BreakerHolds(es, m, n - 1);
    }
    forall env ensures Drain(At(es, n), env) == At(es, n) {
      DrainKeepsBreaker(At(es, n), env);
    }
  }

  /** In every reachable state, crashes included, a stored window value is 0 or the timestamp of a
      stored window-eligible inbound message of that conversation. */
  lemma WindowHasEvidence(es: seq<Event>, n: nat, conv: ConvId)
    requires n <= |es| && Run(es) && conv in At(es, n).w
    ensures var s := At(es, n);
      && s.w[conv] >= 0
      && (s.w[conv] == 0 || HasEvidence(s.v.messages, conv, s.w[conv]))
      && (exists m :: m in s.v.messages && IsEvidence(s.v.messages[m], conv))
  {
    hide At, Run, VaultOk, QueueOk, AckedOk, HealthOk, DlqOk, HasEvidence, IsEvidence;
    RunKeeps(es, n);
  }

  // ---------------------------------------------------------------- the code

  /** The consumer process. `v` and `w` are the committed contents of the two databases; a transaction
      works on a copy, which a commit stores and a rollback drops. */
  class Consumer {
    const queue: FakeQueue<Body>
    var v: Vault
    var w: Windows
    var health: set<KeyId>

    function View(): Sys
      reads this, queue
    {
      Sys(queue.View(), v, w, health)
    }

    constructor (queue: FakeQueue<Body>)
      ensures this.queue == queue && v == EMPTY_VAULT && w == map[] && health == {}
    {
      this.queue := queue;
      v, w, health := EMPTY_VAULT, map[], {};
    }

    /** The transaction of one atom: ledger row, find-or-create, domain row, commit. */
    method CommitEvent(a: Atom) returns (c: Committed)
      modifies this`v
      ensures c == CommitAtom(old(v), a)
      ensures v == if c.Written? then c.vault else old(v)
    {
      hide OrEmpty, MessageRow;
      if !Timed(a) { return Failed; }
      var key := KeyOf(a);
      if key in v.ledger { return Duplicate; }
      var tx := v;
      var window := None;
      match a {
        case MessageAtom(echo, phone, from, wamid, seconds, kind, text) =>
          if phone == None { return Failed; }
          var (tx1, account) := Account(tx, phone.value);
          var (tx2, contact) := Contact(tx1, from);
          var (tx3, conv) := Conversation(tx2, account, from);
          tx := tx3;
          tx := tx.(ledger := tx.ledger[key := Some(tx.next)],
                    messages := tx.messages[tx.next := MessageRow(a, account, contact, conv)],
                    next := tx.next + 1);
          if !echo { window := Some((conv, seconds.value * 1000)); }
        case StatusAtom(phone, wamid, status, seconds, recipient) =>
          if wamid == None || status == None { return Failed; }
          var row := Status(wamid.value, status.value, seconds.value * 1000, recipient);
          tx := tx.(
            ledger := tx.ledger[key := Some(tx.next)], statuses := tx.statuses[tx.next := row], next := tx.next + 1);
        case OtherAtom(_) =>
          tx := tx.(ledger := tx.ledger[key := None]);
      }
      v := tx;
      return Written(tx, window);
    }

    method AdvanceWindow(conv: ConvId, ms: int) returns (stored: int)
      modifies this`w
      ensures w == Advance(old(w), conv, ms) && stored == w[conv]
    {
      var existing := if conv in w then w[conv] else 0;
      stored := if existing > ms then existing else ms;
      w := w[conv := stored];
    }

    /** `_process_payload`, with faults where the oracle puts them. */
    method ProcessPayload(atoms: seq<Atom>, m: Option<Mishap>) returns (end: End)
      modifies this`v, this`w
      ensures (v, w, end) == Process(old(v), old(w), atoms, 0, m)
    {
      hide CommitAtom, Advance;
      var i := 0;
      while i < |atoms|
        invariant i <= |atoms|
        invariant Process(v, w, atoms, i, m) == Process(old(v), old(w), atoms, 0, m)
      {
        if Strikes(m, i, BeforeCommit) { return EndOf(m); }
        var c := CommitEvent(atoms[i]);
        if c.Failed? { return Raised; }
        if c.Written? {
          if Strikes(m, i, AfterCommit) { return EndOf(m); }
          if c.window.Some? {
            var _ := AdvanceWindow(c.window.value.0, c.window.value.1);
          }
          if Strikes(m, i, AfterWindow) { return EndOf(m); }
        }
        i := i + 1;
      }
      return Finished;
    }

    /** The body of the loop in `drain_once`. */
    method HandleLease(id: LeaseId, body: Body, available: set<KeyId>, m: Option<Mishap>) returns (verdict: Verdict)
      modifies this, queue
      ensures (View(), verdict) == Handle(old(View()), id, body, available, m)
    {
      hide Process;
      assert NackAll(queue.View(), [id]) == NackOne(queue.View(), id) by { NackSingle(queue.View(), id); }
      match Open(body, available) {
        case KeyUnavailable =>
          queue.Nack([id]);
          return Returned;
        case BadEnvelope =>
          v := v.(dlq := v.dlq + [(body, PoisonMalformed)]);
          return ToAck;
        case AuthFailed =>
          if body.key in health {
            v := v.(dlq := v.dlq + [(body, AuthFailedIsolated)]);
            return ToAck;
          }
          v := v.(breakerOpen := true);
          return Tripped;
        case Plain(payload) =>
          health := health + {body.key};
          if payload == None {
            queue.Nack([id]);
            return Returned;
          }
          var end := ProcessPayload(payload.value, m);
          match end {
            case Finished => return ToAck;
            case Died => return Dead;
            case Raised =>
              queue.Nack([id]);
              return Returned;
          }
      }
    }

    /** `drain_once`. The result is absent when the process died. */
    method DrainOnce(env: Env) returns (acked: Option<nat>)
      modifies this, queue
      ensures View() == Drain(old(View()), env)
      ensures old(v).breakerOpen ==> acked == Some(0)
    {
      hide Handle, AckAll, LeaseFirst;
      if v.breakerOpen { return Some(0); }
      var leases := queue.Lease(env.max);
      ghost var s0 := View();
      assert leases == Leases(old(queue.View()), LeaseCount(old(queue.View()), env.max));
      var toAck: seq<LeaseId> := [];
      var i := 0;
      while i < |leases| && i !in env.deadBefore
        invariant i <= |leases|
        invariant DrainFrom(View(), leases, i, toAck, env) == DrainFrom(s0, leases, 0, [], env)
      {
        var verdict := HandleLease(leases[i].0, leases[i].1, env.available, MishapAt(env, i));
        if verdict == Dead {
          health := {};
          return None;
        }
        if verdict == Tripped {
          acked := Acknowledge(toAck, env.acksSent);
          return;
        }
        if verdict == ToAck { toAck := toAck + [leases[i].0]; }
        i := i + 1;
      }
      if i in env.deadBefore {
        health := {};
        return None;
      }
      acked := Acknowledge(toAck, env.acksSent);
    }

    /** The acknowledgements at the end of a drain, cut short if the process dies among them. */
    method Acknowledge(toAck: seq<LeaseId>, sent: Option<nat>) returns (acked: Option<nat>)
      modifies this`health, queue
      ensures var cut := sent.Some? && sent.value < |toAck|;
        && queue.View() == AckAll(old(queue.View()), if cut then toAck[..sent.value] else toAck)
        && health == (if cut then {} else old(health))
        && acked == if cut then None else Some(|toAck|)
    {
      if sent.Some? && sent.value < |toAck| {
        queue.Ack(toAck[..sent.value]);
        health := {};
        return None;
      }
      queue.Ack(toAck);
      return Some(|toAck|);
    }

    /** `rebuild_window_from_evidence`: the maximum over the evidence, stored where it differs. */
    method Rebuild(conv: ConvId) returns (latest: int)
      modifies this`w
      ensures IsLatest(v.messages, conv, latest)
      ensures w == RebuildWindow(old(w), conv, latest)
    {
      var todo := set m | m in v.messages && IsEvidence(v.messages[m], conv);
      latest := 0;
      var found := false;
      ghost var seen: set<MsgId> := {};
      while todo != {}
        invariant forall m :: m in v.messages && IsEvidence(v.messages[m], conv) <==> m in todo || m in seen
        invariant found <==> seen != {}
        invariant found ==> exists m :: m in seen && v.messages[m].content.lower == latest
        invariant forall m :: m in seen ==> v.messages[m].content.lower <= latest
        invariant !found ==> latest == 0
        decreases todo
      {
        var m :| m in todo;
        todo := todo - {m};
        if !found || v.messages[m].content.lower > latest {
          latest := v.messages[m].content.lower;
        }
        found := true;
        seen := seen + {m};
      }
      var stored := if conv in w then w[conv] else 0;
      if stored != latest && latest >= 0 {
        w := w[conv := latest];
      }
    }
  }

  lemma NackSingle(q: Q<Body>, id: LeaseId)
    ensures NackAll(q, [id]) == NackOne(q, id)
  {
    assert [id][..0] == [];
    assert NackAll(q, [id][..0]) == q;
  }
}
