/** When the stored 24-hour window is up to date (doctor.py, apps/ingest/consumer.py). A message is
    committed to one database before its window is advanced in the other, so a fault between the two
    loses the update. What is proved is that nothing else makes a window lag, and exactly when one does. */
module WindowLag {
  import opened Prelude
  import opened Schema
  import opened Queue
  import opened Ingest

  function Stored(w: Windows, c: ConvId): int
  {
    if c in w then w[c] else 0
  }

  /** The stored value is the latest evidence, or 0 when that is not positive. */
  ghost predicate Current(w: Windows, messages: map<MsgId, Message>, c: ConvId)
  {
    && (forall m :: m in messages && IsEvidence(messages[m], c) ==> messages[m].content.lower <= Stored(w, c))
    && (Stored(w, c) == 0 || HasEvidence(messages, c, Stored(w, c)))
  }

  lemma CurrentIsLatest(w: Windows, messages: map<MsgId, Message>, c: ConvId, latest: int)
    requires Stored(w, c) >= 0 && IsLatest(messages, c, latest)
    ensures Current(w, messages, c) <==> Stored(w, c) == if latest > 0 then latest else 0
  {
    if exists m :: m in messages && IsEvidence(messages[m], c) {
      var m :| m in messages && IsEvidence(messages[m], c) && messages[m].content.lower == latest;
      if Current(w, messages, c) && Stored(w, c) != 0 {
        var k :| k in messages && IsEvidence(messages[k], c) && messages[k].content.lower == Stored(w, c);
        assert messages[k].content.lower <= latest;
      }
    }
  }

  // ---------------------------------------------------------------- what is lost

  /** The times, newer than the stored window of `c`, whose update a fault swallows while a payload is
      processed: the fault strikes between the commit of an inbound message and its window. */
  function LostIn(v: Vault, w: Windows, atoms: seq<Atom>, i: nat, m: Option<Mishap>, c: ConvId): seq<int>
    requires i <= |atoms|
    decreases |atoms| - i
  {
    if i == |atoms| || Strikes(m, i, BeforeCommit) then []
    else
      match CommitAtom(v, atoms[i])
      case Failed => []
      case Duplicate => LostIn(v, w, atoms, i + 1, m, c)
      case Written(v', window) =>
        if Strikes(m, i, AfterCommit) then Swallowed(w, window, c)
        else if Strikes(m, i, AfterWindow) then []
        else LostIn(v', Advanced(w, window), atoms, i + 1, m, c)
  }

  function Swallowed(w: Windows, window: Option<(ConvId, int)>, c: ConvId): seq<int>
  {
    if window.Some? && window.value.0 == c && window.value.1 > Stored(w, c) then [window.value.1] else []
  }

  function Advanced(w: Windows, window: Option<(ConvId, int)>): Windows
  {
    if window.Some? then Advance(w, window.value.0, window.value.1) else w
  }

  function LostInLease(s: Sys, body: Body, available: set<KeyId>, m: Option<Mishap>, c: ConvId): seq<int>
  {
    match Open(body, available)
    case Plain(payload) => if payload == None then [] else LostIn(s.v, s.w, payload.value, 0, m, c)
    case _ => []
  }

  function LostInLoop(s: Sys, leases: seq<(LeaseId, Body)>, i: nat, env: Env, c: ConvId): seq<int>
    requires i <= |leases|
    decreases |leases| - i
  {
    if i in env.deadBefore || i == |leases| then []
    else
      var (s', verdict) := Handle(s, leases[i].0, leases[i].1, env.available, MishapAt(env, i));
      LostInLease(s, leases[i].1, env.available, MishapAt(env, i), c)
      + if verdict == ToAck || verdict == Returned then LostInLoop(s', leases, i + 1, env, c) else []
  }

  function LostInDrain(s: Sys, env: Env, c: ConvId): seq<int>
  {
    if s.v.breakerOpen then []
    else
      var n := LeaseCount(s.q, env.max);
      LostInLoop(s.(q := LeaseFirst(s.q, n)), Leases(s.q, n), 0, env, c)
  }

  /** What has been lost for `c` since it was last rebuilt. */
  function LostSince(es: seq<Event>, n: nat, c: ConvId): seq<int>
    requires n <= |es|
  {
    if n == 0 then []
    else
      match es[n - 1]
      case Rebuild(conv, _) => if conv == c then [] else LostSince(es, n - 1, c)
      case DoDrain(env) => LostSince(es, n - 1, c) + LostInDrain(At(es, n - 1), env, c)
      case _ => LostSince(es, n - 1, c)
  }

  /** Only a fault right after the commit of a received message loses anything. */
  lemma {:induction false} LostMeans(v: Vault, w: Windows, atoms: seq<Atom>, i: nat, m: Option<Mishap>, c: ConvId,
      t: int)
    requires i <= |atoms| && t in LostIn(v, w, atoms, i, m, c)
    ensures m.Some? && m.value.point == AfterCommit && i <= m.value.atom < |atoms|
    ensures var a := atoms[m.value.atom]; a.MessageAtom? && !a.echo && a.seconds.Some? && a.seconds.value * 1000 == t
    decreases |atoms| - i
  {
    match CommitAtom(v, atoms[i])
    case Duplicate =>
      hide CommitAtom;
      LostMeans(v, w, atoms, i + 1, m, c, t);
    case Written(v', window) =>
      if !Strikes(m, i, AfterCommit) {
        hide CommitAtom, Advance;
        LostMeans(v', Advanced(w, window), atoms, i + 1, m, c, t);
      } else {
        WindowIsSeconds(v, atoms[i]);
      }
  }

  lemma WindowIsSeconds(v: Vault, a: Atom)
    requires CommitAtom(v, a).Written?
    ensures CommitAtom(v, a).window.Some? ==>
      a.MessageAtom? && !a.echo && a.seconds.Some? && a.seconds.value * 1000 == CommitAtom(v, a).window.value.1
  {
    hide Account, Contact, Conversation;
  }

  // ---------------------------------------------------------------- the invariant

  /** Evidence newer than the stored window is evidence whose update was lost. */
  ghost predicate Tracks(w: Windows, messages: map<MsgId, Message>, lost: seq<int>, c: ConvId)
  {
    && (forall m :: m in messages && IsEvidence(messages[m], c) ==>
          messages[m].content.lower <= Stored(w, c) || messages[m].content.lower in lost)
    && (forall t :: t in lost ==> HasEvidence(messages, c, t))
  }

  /** The window lags exactly when it lags behind something lost. */
  lemma TracksDecides(w: Windows, messages: map<MsgId, Message>, lost: seq<int>, c: ConvId)
    requires Tracks(w, messages, lost, c) && WindowsOk(w, messages)
    ensures Current(w, messages, c) <==> forall t :: t in lost ==> t <= Stored(w, c)
  {
    hide IsEvidence;
    if Current(w, messages, c) {
      forall t | t in lost ensures t <= Stored(w, c) {
        assert HasEvidence(messages, c, t);
      }
    }
  }

  /** What one commit does to the evidence of `c`. */
  ghost predicate EvidenceGrew(messages: map<MsgId, Message>, messages': map<MsgId, Message>,
      window: Option<(ConvId, int)>, c: ConvId)
  {
    && (forall m :: m in messages && IsEvidence(messages[m], c) ==> m in messages' && messages'[m] == messages[m])
    && (forall m :: m in messages' && IsEvidence(messages'[m], c) ==>
          (m in messages && messages[m] == messages'[m])
          || (window.Some? && window.value.0 == c && messages'[m].content.lower == window.value.1))
    && (window.Some? && window.value.0 == c ==> HasEvidence(messages', c, window.value.1))
  }

  lemma CommitEvidence(v: Vault, a: Atom, c: ConvId)
    requires AccountsOk(v.accounts, v.next) && RowsBelow(v.messages, v.statuses, v.next) && CommitAtom(v, a).Written?
    ensures EvidenceGrew(v.messages, CommitAtom(v, a).vault.messages, CommitAtom(v, a).window, c)
  {
    if a.MessageAtom? {
      MessageCommit(v, a);
      var r := CommitAtom(v, a);
      var id := r.vault.next - 1;
      EchoIsOut(v, a);
      hide CommitAtom, AccountsOk, IsMessageOf;
      RowGrew(v.messages, id, r.vault.messages[id], r.window, c);
    }
  }

  lemma EchoIsOut(v: Vault, a: Atom)
    requires a.MessageAtom? && CommitAtom(v, a).Written?
    ensures var r := CommitAtom(v, a);
      r.vault.next > 0 && r.vault.next - 1 in r.vault.messages &&
        (a.echo ==> r.vault.messages[r.vault.next - 1].stamp.direction == Out)
  {
    hide Account, Contact, Conversation;
  }

  lemma RowGrew(messages: map<MsgId, Message>, id: MsgId, row: Message, window: Option<(ConvId, int)>, c: ConvId)
    requires id !in messages
    requires window.Some? ==> IsEvidence(row, window.value.0) && row.content.lower == window.value.1
    requires window == None ==> row.stamp.direction == Out
    ensures EvidenceGrew(messages, messages[id := row], window, c)
  {
    var messages' := messages[id := row];
    if window.Some? && window.value.0 == c {
      assert id in messages' && IsEvidence(messages'[id], c);
    }
  }

  lemma GrewHasEvidence(messages: map<MsgId, Message>, messages': map<MsgId, Message>, window: Option<(ConvId, int)>,
      c: ConvId, t: int)
    requires EvidenceGrew(messages, messages', window, c) && HasEvidence(messages, c, t)
    ensures HasEvidence(messages', c, t)
  {
    var m :| m in messages && IsEvidence(messages[m], c) && messages[m].content.lower == t;
    assert m in messages' && messages'[m] == messages[m];
  }

  lemma TracksAdvance(w: Windows, messages: map<MsgId, Message>, messages': map<MsgId, Message>,
      window: Option<(ConvId, int)>, lost: seq<int>, c: ConvId)
    requires Tracks(w, messages, lost, c) && EvidenceGrew(messages, messages', window, c)
    ensures Tracks(Advanced(w, window), messages', lost, c)
  {
    forall t | t in lost ensures HasEvidence(messages', c, t) { GrewHasEvidence(messages, messages', window, c, t); }
    hide HasEvidence, IsEvidence;
    assert Stored(Advanced(w, window), c) >= Stored(w, c);
  }

  lemma TracksSwallow(w: Windows, messages: map<MsgId, Message>, messages': map<MsgId, Message>,
      window: Option<(ConvId, int)>, lost: seq<int>, c: ConvId)
    requires Tracks(w, messages, lost, c) && EvidenceGrew(messages, messages', window, c)
    ensures Tracks(w, messages', lost + Swallowed(w, window, c), c)
  {
    forall t | t in lost ensures HasEvidence(messages', c, t) { GrewHasEvidence(messages, messages', window, c, t); }
    hide HasEvidence, IsEvidence;
  }

  lemma VaultBasics(v: Vault, delivered: multiset<Body>)
    requires VaultOk(v, delivered)
    ensures AccountsOk(v.accounts, v.next) && RowsBelow(v.messages, v.statuses, v.next)
  {
    hide OneToOne, EligibleIsLive, LedgerEarned, AccountsOk, RowsBelow;
  }

  lemma AdvancedIs(w: Windows, window: Option<(ConvId, int)>)
    ensures Advanced(w, window) == if window.Some? then Advance(w, window.value.0, window.value.1) else w
  {
  }

  lemma {:induction false} ProcessTracks(v: Vault, w: Windows, b: Body, i: nat, m: Option<Mishap>,
      delivered: multiset<Body>, lost: seq<int>, c: ConvId)
    requires VaultOk(v, delivered) && Tracks(w, v.messages, lost, c)
    requires b in delivered && b.Sealed? && b.payload.Some? && i <= |b.payload.value|
    ensures var (v', w', _) := Process(v, w, b.payload.value, i, m);
      Tracks(w', v'.messages, lost + LostIn(v, w, b.payload.value, i, m, c), c)
    decreases |b.payload.value| - i
  {
    hide VaultOk, CommitAtom, Tracks, Advance, AccountsOk, RowsBelow, EvidenceGrew, Swallowed, Advanced, KeyOf;
    var atoms := b.payload.value;
    assert lost + [] == lost;
    VaultBasics(v, delivered);
    if i < |atoms| && !Strikes(m, i, BeforeCommit) {
      match CommitAtom(v, atoms[i])
      case Failed =>
      case Duplicate => ProcessTracks(v, w, b, i + 1, m, delivered, lost, c);
      case Written(v', window) =>
        AdvancedIs(w, window);
        CommitEvidence(v, atoms[i], c);
        TracksSwallow(w, v.messages, v'.messages, window, lost, c);
        TracksAdvance(w, v.messages, v'.messages, window, lost, c);
        if !Strikes(m, i, AfterCommit) && !Strikes(m, i, AfterWindow) {
          CommitKeeps(v, atoms[i], delivered, b);
          ProcessTracks(v', Advanced(w, window), b, i + 1, m, delivered, lost, c);
        }
    }
  }

  /** What was lost is still newer than the window when the payload's processing ends. */
  lemma {:induction false} LostStaysAhead(v: Vault, w: Windows, atoms: seq<Atom>, i: nat, m: Option<Mishap>,
      c: ConvId, t: int)
    requires i <= |atoms| && t in LostIn(v, w, atoms, i, m, c)
    ensures t > Stored(Process(v, w, atoms, i, m).1, c)
    decreases |atoms| - i
  {
    hide CommitAtom, Advance;
    match CommitAtom(v, atoms[i])
    case Duplicate => LostStaysAhead(v, w, atoms, i + 1, m, c, t);
    case Written(v', window) =>
      if !Strikes(m, i, AfterCommit) {
        LostStaysAhead(v', Advanced(w, window), atoms, i + 1, m, c, t);
      }
  }

  lemma TracksNothing(w: Windows, messages: map<MsgId, Message>, c: ConvId)
    requires Current(w, messages, c)
    ensures Tracks(w, messages, [], c)
  {
  }

  /** Processing a payload from a window that is up to date leaves it up to date if and only if no fault
      strikes between the commit of one of its newer messages and the window update. */
  lemma PayloadKeepsCurrentIff(v: Vault, w: Windows, b: Body, m: Option<Mishap>, delivered: multiset<Body>, c: ConvId)
    requires VaultOk(v, delivered) && WindowsOk(w, v.messages) && Current(w, v.messages, c)
    requires b in delivered && b.Sealed? && b.payload.Some?
    ensures var (v', w', _) := Process(v, w, b.payload.value, 0, m);
      Current(w', v'.messages, c) <==> LostIn(v, w, b.payload.value, 0, m, c) == []
  {
    hide VaultOk, WindowsOk, Current, Tracks, Process, LostIn;
    var lost := LostIn(v, w, b.payload.value, 0, m, c);
    TracksNothing(w, v.messages, c);
    ProcessTracks(v, w, b, 0, m, delivered, [], c);
    ProcessKeeps(v, w, b, 0, m, delivered);
    assert [] + lost == lost;
    var (v', w', _) := Process(v, w, b.payload.value, 0, m);
    TracksDecides(w', v'.messages, lost, c);
    forall t | t in lost ensures t > Stored(w', c) { LostStaysAhead(v, w, b.payload.value, 0, m, c, t); }
    if lost != [] { assert lost[0] in lost; }
  }

  // ---------------------------------------------------------------- drains

  lemma HandleTracks(s: Sys, id: LeaseId, body: Body, available: set<KeyId>, m: Option<Mishap>,
      delivered: multiset<Body>, lost: seq<int>, c: ConvId)
    requires VaultOk(s.v, delivered) && body in delivered && Tracks(s.w, s.v.messages, lost, c)
    ensures var s' := Handle(s, id, body, available, m).0;
      Tracks(s'.w, s'.v.messages, lost + LostInLease(s, body, available, m, c), c)
  {
    hide VaultOk, Process, Tracks, LostIn, Handle, LostInLease;
    LostPayload(s, body, available, m, c);
    assert lost + [] == lost;
    if HasPayload(body, available) {
      HandlePayload(s, id, body, available, m);
      ProcessTracks(s.v, s.w, body, 0, m, delivered, lost, c);
    } else {
      HandleOther(s, id, body, available, m);
    }
  }

  predicate HasPayload(body: Body, available: set<KeyId>)
  {
    body.Sealed? && body.key in available && body.payload.Some?
  }

  /** Handling a lease changes messages and windows only by processing its payload. */
  lemma HandlePayload(s: Sys, id: LeaseId, body: Body, available: set<KeyId>, m: Option<Mishap>)
    requires HasPayload(body, available)
    ensures Handle(s, id, body, available, m).0.v == Process(s.v, s.w, body.payload.value, 0, m).0
    ensures Handle(s, id, body, available, m).0.w == Process(s.v, s.w, body.payload.value, 0, m).1
  {
    hide Process, NackOne;
  }

  lemma HandleOther(s: Sys, id: LeaseId, body: Body, available: set<KeyId>, m: Option<Mishap>)
    requires !HasPayload(body, available)
    ensures var s' := Handle(s, id, body, available, m).0;
      s'.v == s.v.(dlq := s'.v.dlq, breakerOpen := s'.v.breakerOpen) && s'.w == s.w
  {
    hide Process, NackOne;
    var s' := Handle(s, id, body, available, m).0;
    match Open(body, available)
    case Plain(payload) =>
      assert payload == None;
      assert s'.v == s.v && s'.w == s.w;
    case KeyUnavailable => assert s'.v == s.v && s'.w == s.w;
    case BadEnvelope => assert s'.v == s.v.(dlq := s'.v.dlq) && s'.w == s.w;
    case AuthFailed => assert s'.v == s.v.(dlq := s'.v.dlq, breakerOpen := s'.v.breakerOpen) && s'.w == s.w;
  }

  lemma LostPayload(s: Sys, body: Body, available: set<KeyId>, m: Option<Mishap>, c: ConvId)
    ensures LostInLease(s, body, available, m, c) ==
      if HasPayload(body, available) then LostIn(s.v, s.w, body.payload.value, 0, m, c) else []
  {
    hide LostIn;
  }

  ghost predicate AllDelivered(leases: seq<(LeaseId, Body)>, delivered: multiset<Body>)
  {
    forall j :: 0 <= j < |leases| ==> leases[j].1 in delivered
  }

  lemma DeliveredAt(leases: seq<(LeaseId, Body)>, delivered: multiset<Body>, i: nat)
    requires AllDelivered(leases, delivered) && i < |leases|
    ensures leases[i].1 in delivered
  {
  }

  lemma InvParts(s: Sys, delivered: multiset<Body>)
    requires Inv(s, delivered)
    ensures VaultOk(s.v, delivered) && WindowsOk(s.w, s.v.messages) && QueueOk(s.q, delivered)
    ensures EligibleIsLive(s.v.messages)
  {
    hide WindowsOk, QueueOk, AckedOk, HealthOk, DlqOk, OneToOne, EligibleIsLive;
  }

  lemma {:induction false} LoopTracks(s: Sys, leases: seq<(LeaseId, Body)>, i: nat, toAck: seq<LeaseId>, env: Env,
      delivered: multiset<Body>, lost: seq<int>, c: ConvId)
    requires i <= |leases| && Inv(s, delivered) && AllDelivered(leases, delivered) && Tracks(s.w, s.v.messages, lost, c)
    ensures var s' := DrainFrom(s, leases, i, toAck, env).0;
      Tracks(s'.w, s'.v.messages, lost + LostInLoop(s, leases, i, env, c), c)
    decreases |leases| - i
  {
    hide Inv, Handle, Tracks, VaultOk, LostInLease, AllDelivered, MishapAt;
    assert lost + [] == lost;
    if i !in env.deadBefore && i < |leases| {
      var (id, body) := leases[i];
      DeliveredAt(leases, delivered, i);
      InvParts(s, delivered);
      var m := MishapAt(env, i);
      var (s', verdict) := Handle(s, id, body, env.available, m);
      var now := LostInLease(s, body, env.available, m, c);
      HandleKeeps(s, id, body, env.available, m, delivered);
      HandleTracks(s, id, body, env.available, m, delivered, lost, c);
      if verdict == ToAck || verdict == Returned {
        var list := if verdict == ToAck then toAck + [id] else toAck;
        LoopTracks(s', leases, i + 1, list, env, delivered, lost + now, c);
        var later := LostInLoop(s', leases, i + 1, env, c);
        assert lost + now + later == lost + (now + later);
      } else {
        assert now + [] == now;
      }
    }
  }

  lemma LeasesDelivered(q: Q<Body>, n: nat, delivered: multiset<Body>)
    requires n <= |q.pending| && QueueOk(q, delivered)
    ensures AllDelivered(Leases(q, n), delivered)
  {
    hide LeaseFirst;
    LeaseKeeps(q, n, delivered);
  }

  lemma DrainIs(s: Sys, env: Env)
    ensures !s.v.breakerOpen ==>
      var n := LeaseCount(s.q, env.max);
      var s' := DrainFrom(s.(q := LeaseFirst(s.q, n)), Leases(s.q, n), 0, [], env).0;
      Drain(s, env).v == s'.v && Drain(s, env).w == s'.w
    ensures s.v.breakerOpen ==> Drain(s, env) == s
  {
    hide DrainFrom, LeaseFirst, Leases, AckAll;
  }

  lemma LeasedInv(s: Sys, n: nat, delivered: multiset<Body>)
    requires Inv(s, delivered) && n <= |s.q.pending|
    ensures Inv(s.(q := LeaseFirst(s.q, n)), delivered)
  {
    hide VaultOk, WindowsOk, QueueOk, AckedOk, HealthOk, DlqOk, LeaseFirst, Leases;
    LeaseKeeps(s.q, n, delivered);
  }

  lemma DrainTracks(s: Sys, env: Env, delivered: multiset<Body>, lost: seq<int>, c: ConvId)
    requires Inv(s, delivered) && Tracks(s.w, s.v.messages, lost, c)
    ensures var s' := Drain(s, env); Tracks(s'.w, s'.v.messages, lost + LostInDrain(s, env, c), c)
  {
    DrainIs(s, env);
    assert lost + [] == lost;
    if !s.v.breakerOpen {
      var n := LeaseCount(s.q, env.max);
      InvParts(s, delivered);
      LeasesDelivered(s.q, n, delivered);
      LeasedInv(s, n, delivered);
      hide Inv, Tracks, Drain, DrainFrom, LostInLoop, LeaseFirst, Leases, QueueOk;
      LoopTracks(s.(q := LeaseFirst(s.q, n)), Leases(s.q, n), 0, [], env, delivered, lost, c);
    }
  }

  // ---------------------------------------------------------------- runs

  lemma MaintainTracks(v: Vault, w: Windows, messages: map<MsgId, Message>, next: nat, lost: seq<int>, c: ConvId)
    requires EligibleIsLive(v.messages) && Maintains(v, messages, next) && Tracks(w, v.messages, lost, c)
    ensures Tracks(w, messages, lost, c)
  {
    SameLiveRows(v.messages, messages);
    hide ProviderRows;
    assert EvidenceGrew(v.messages, messages, None, c);
    forall t | t in lost ensures HasEvidence(messages, c, t) { GrewHasEvidence(v.messages, messages, None, c, t); }
  }

  lemma RebuildTracks(w: Windows, messages: map<MsgId, Message>, conv: ConvId, latest: int, lost: seq<int>, c: ConvId)
    requires WindowsOk(w, messages) && IsLatest(messages, conv, latest) && Tracks(w, messages, lost, c)
    ensures Tracks(RebuildWindow(w, conv, latest), messages, if conv == c then [] else lost, c)
  {
  }

  lemma StepTracks(s: Sys, e: Event, delivered: multiset<Body>, lost: seq<int>, c: ConvId)
    requires Inv(s, delivered) && Enabled(s, e) && Tracks(s.w, s.v.messages, lost, c)
    ensures var s' := Step(s, e);
      Tracks(s'.w, s'.v.messages,
             match e
             case Rebuild(conv, _) => (if conv == c then [] else lost)
             case DoDrain(env) => lost + LostInDrain(s, env, c)
             case _ => lost, c)
  {
    InvParts(s, delivered);
    hide Inv, VaultOk, WindowsOk, Tracks, Drain, Maintains, IsLatest, RebuildWindow, LostInDrain, EligibleIsLive;
    match e
    case DoDrain(env) => DrainTracks(s, env, delivered, lost, c);
    case Maintain(messages, next) => MaintainTracks(s.v, s.w, messages, next, lost, c);
    case Rebuild(conv, latest) => RebuildTracks(s.w, s.v.messages, conv, latest, lost, c);
    case _ =>
  }

  lemma StartTracks(c: ConvId)
    ensures Tracks(START.w, START.v.messages, [], c)
  {
  }

  lemma {:induction false} RunTracks(es: seq<Event>, n: nat, c: ConvId)
    requires n <= |es| && Run(es)
    ensures Tracks(At(es, n).w, At(es, n).v.messages, LostSince(es, n, c), c)
  {
    hide Inv, Step, Enabled, Tracks, LostInDrain;
    if n == 0 {
      StartTracks(c);
    } else {
      RunTracks(es, n - 1, c);
      RunKeeps(es, n - 1);
      StepTracks(At(es, n - 1), es[n - 1], Delivered(es, n - 1), LostSince(es, n - 1, c), c);
    }
  }

  /** In every run, a conversation's window is up to date if and only if it has reached every message whose
      update was lost since it was last rebuilt. A later message or a rebuild makes up for a loss;
      redelivery does not. */
  lemma WindowCurrentIff(es: seq<Event>, n: nat, c: ConvId)
    requires n <= |es| && Run(es)
    ensures var s := At(es, n);
      Current(s.w, s.v.messages, c) <==> forall t :: t in LostSince(es, n, c) ==> t <= Stored(s.w, c)
  {
    RunTracks(es, n, c);
    RunKeeps(es, n);
    hide At, Run, VaultOk, QueueOk, AckedOk, HealthOk, DlqOk, Tracks, Current, LostSince, WindowsOk;
    TracksDecides(At(es, n).w, At(es, n).v.messages, LostSince(es, n, c), c);
  }

  /** So with nothing lost since its last rebuild, a window is up to date. */
  lemma NothingLostIsCurrent(es: seq<Event>, n: nat, c: ConvId)
    requires n <= |es| && Run(es) && LostSince(es, n, c) == []
    ensures Current(At(es, n).w, At(es, n).v.messages, c)
  {
    hide At, Run, Current;
    WindowCurrentIff(es, n, c);
  }

  /** A rebuild always brings the window up to date, and touches no other. It stores the latest evidence
      itself exactly when that is not negative; a negative one the column refuses, and 0 stays. */
  lemma RebuildIsCurrent(w: Windows, messages: map<MsgId, Message>, conv: ConvId, latest: int)
    requires WindowsOk(w, messages) && IsLatest(messages, conv, latest)
    ensures var w' := RebuildWindow(w, conv, latest);
      && Current(w', messages, conv)
      && (forall c :: c != conv ==> (c in w' <==> c in w) && (c in w ==> w'[c] == w[c]))
      && (Stored(w', conv) == latest <==> latest >= 0)
      && (latest < 0 ==> w' == w)
  {
    RebuildKeeps(w, messages, conv, latest);
  }
}
