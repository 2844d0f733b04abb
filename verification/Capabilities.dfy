/** Capability budgets under concurrency (approval/capabilities.py, and `mark_read` in
    approval/sender.py). A caller reads the grant rows, then takes them one by one: it reads the device's
    key and checks the row, and then tries a compare-and-set update. Anything may happen between any two
    of these steps. */
module Capabilities {
  import opened Prelude
  import opened Encoding
  import opened Devices

  type CallerId = nat

  /** The signed part of a grant, and the row around it. */
  datatype Terms = Terms(
    device: Bytes, account: Option<Bytes>, conv: Bytes, action: Bytes, created: Option<int>, expires: Option<int>,
    max: Option<int>, nonce: Option<Bytes>)

  datatype Grant = Grant(terms: Terms, signature: Signature, used: nat)

  /** The account and the wamid of a message. */
  type Target = (Bytes, Bytes)

  datatype MessageRow = MessageRow(conv: Bytes, inbound: bool)

  /** A caller between its SELECT and its result: the rows it read, how far it has got, whether the row
      it is at has passed its checks, and the message it wants to mark as read, if that is what it is
      for. */
  datatype Caller =
    | Trying(action: Bytes, conv: Bytes, now: int, rows: seq<(Bytes, Grant)>, at: nat, passed: bool,
      target: Option<Target>)
    | Won(grant: Bytes, target: Option<Target>)
    | Lost

  datatype State = State(
    grants: map<Bytes, Grant>,
    devices: map<Bytes, Device>,
    signed: set<Signature>,
    callers: map<CallerId, Caller>,
    messages: map<Target, MessageRow>,
    consumed: seq<Bytes>,
    marked: seq<Mark>)

  /** A call of the provider's `mark_read`, with the grant that paid for it. */
  datatype Mark = Mark(grant: Bytes, target: Target)

  const MARK_READ: Bytes := "MARK_READ"

  predicate IsU64s(t: Terms)
  {
    IsU64(t.created) && IsU64(t.expires) && IsU64(t.max)
  }

  /** The nine slots of `encode_grant`. */
  function Slots(id: Bytes, t: Terms): seq<Bytes>
    requires IsU64s(t)
  {
    [id, t.device, Slot(t.account), t.conv, t.action, U64Slot(t.created), U64Slot(t.expires), U64Slot(t.max),
      Slot(t.nonce)]
  }

  predicate Encodable(id: Bytes, t: Terms)
  {
    IsU64s(t) && Fits(Slots(id, t))
  }

  /** The stored signature is genuine under the device's current key. */
  predicate Vouched(s: State, id: Bytes, g: Grant)
  {
    && ActiveKey(s.devices, g.terms.device).Some?
    && Encodable(id, g.terms)
    && g.signature == Signature(ActiveKey(s.devices, g.terms.device).value, GrantBytes(Slots(id, g.terms)))
    && g.signature in s.signed
  }

  /** What `verify_and_consume` checks of a row it has read. */
  predicate Usable(s: State, id: Bytes, row: Grant, now: int)
  {
    && ActiveKey(s.devices, row.terms.device).Some?
    && (row.terms.expires.Some? ==> now < row.terms.expires.value)
    && (row.terms.max.Some? ==> row.used < row.terms.max.value)
    && Vouched(s, id, row)
  }

  /** Under an active device of that id, the key and the bytes of the signature are the device's and the grant's. */
  predicate SealedBy(s: State, id: Bytes, t: Terms, sig: Signature)
  {
    && t.device in s.devices && s.devices[t.device].active && sig.key == s.devices[t.device].key && sig in s.signed
    && Encodable(id, t)
    && sig.over == GrantBytes([id, t.device, Slot(t.account), t.conv, t.action, U64Slot(t.created), U64Slot(t.expires),
                               U64Slot(t.max), Slot(t.nonce)])
  }

  /** A row can be consumed if and only if its device is active and its key signed the row's own terms, it has not
      expired, and it has uses left. */
  lemma UsableIff(s: State, id: Bytes, row: Grant, now: int)
    ensures Usable(s, id, row, now) <==>
      && SealedBy(s, id, row.terms, row.signature)
      && (row.terms.expires == None || now < row.terms.expires.value)
      && (row.terms.max == None || row.used < row.terms.max.value)
  {
    hide GrantBytes, Fits, U64Slot, Slot;
  }

  /** A grant is stored, unused, if and only if its id is new, its maximum is not negative and its active device
      signed it; otherwise nothing changes. */
  lemma StoreIff(s: State, id: Bytes, t: Terms, sig: Signature)
    ensures var s' := Store(s, id, t, sig);
      if id !in s.grants && (t.max == None || t.max.value >= 0) && SealedBy(s, id, t, sig)
      then s' == s.(grants := s.grants[id := Grant(t, sig, 0)]) else s' == s
  {
    hide GrantBytes, Fits, U64Slot, Slot;
  }

  // ---------------------------------------------------------------- steps

  /** `store_grant`. The schema's check on `max_actions` and the primary key may refuse the row. */
  function Store(s: State, id: Bytes, t: Terms, sig: Signature): State
  {
    var g := Grant(t, sig, 0);
    if id in s.grants || (t.max.Some? && t.max.value < 0) || !Vouched(s, id, g) then s
    else s.(grants := s.grants[id := g])
  }

  predicate Matches(g: Grant, action: Bytes, conv: Bytes)
  {
    g.terms.action == action && g.terms.conv == conv
  }

  /** A SELECT returns each matching row once, as it stands, in some order. */
  predicate IsSelection(s: State, action: Bytes, conv: Bytes, rows: seq<(Bytes, Grant)>)
  {
    && (forall i :: 0 <= i < |rows| ==>
          rows[i].0 in s.grants && s.grants[rows[i].0] == rows[i].1 && Matches(rows[i].1, action, conv))
    && (forall i, j :: 0 <= i < j < |rows| ==> rows[i].0 != rows[j].0)
    && (forall id :: id in s.grants && Matches(s.grants[id], action, conv) ==>
          exists i :: 0 <= i < |rows| && rows[i].0 == id)
  }

  function Select(s: State, c: CallerId, action: Bytes, conv: Bytes, now: int, rows: seq<(Bytes, Grant)>,
      target: Option<Target>): State
  {
    if c in s.callers || !IsSelection(s, action, conv, rows) then s
    else s.(callers := s.callers[c := Trying(action, conv, now, rows, 0, false, target)])
  }

  /** The message exists under that account, is of that conversation, and was received. */
  predicate Bound(messages: map<Target, MessageRow>, target: Target, conv: Bytes)
  {
    target in messages && messages[target].conv == conv && messages[target].inbound
  }

  /** `mark_read` looks at its target before it asks for a grant. */
  function AskToMark(s: State, c: CallerId, target: Target, conv: Bytes, now: int, rows: seq<(Bytes, Grant)>): State
  {
    if Bound(s.messages, target, conv) then Select(s, c, MARK_READ, conv, now, rows, Some(target)) else s
  }

  /** The compare-and-set update that succeeds. */
  function Consume(s: State, c: CallerId, id: Bytes, target: Option<Target>): State
    requires id in s.grants
  {
    s.(grants := s.grants[id := s.grants[id].(used := s.grants[id].used + 1)],
       consumed := s.consumed + [id],
       callers := s.callers[c := Won(id, target)])
  }

  function Become(s: State, c: CallerId, x: Caller): State
  {
    s.(callers := s.callers[c := x])
  }

  /** The checks of one turn of the loop: the row passes or is skipped; after the last the caller gives up. */
  function Check(s: State, c: CallerId): State
  {
    if c !in s.callers || !s.callers[c].Trying? || s.callers[c].passed then s
    else
      var t := s.callers[c];
      if t.at >= |t.rows| then Become(s, c, Lost)
      else if Usable(s, t.rows[t.at].0, t.rows[t.at].1, t.now) then Become(s, c, t.(passed := true))
      else Become(s, c, t.(at := t.at + 1))
  }

  /** The row's counter has not moved since it was read. */
  predicate Unmoved(s: State, id: Bytes, row: Grant)
  {
    id in s.grants && s.grants[id].used == row.used
  }

  /** The update of a row that passed; losing the race moves on. */
  function Update(s: State, c: CallerId): State
  {
    if c !in s.callers || !s.callers[c].Trying? || !s.callers[c].passed || s.callers[c].at >= |s.callers[c].rows| then s
    else
      var t := s.callers[c];
      if Unmoved(s, t.rows[t.at].0, t.rows[t.at].1) then Consume(s, c, t.rows[t.at].0, t.target)
      else Become(s, c, t.(at := t.at + 1, passed := false))
  }

  /** `mark_read` calls the provider once its grant is consumed, and is done. */
  function MarkRead(s: State, c: CallerId): State
  {
    if c in s.callers && s.callers[c].Won? && s.callers[c].target.Some? then
      s.(marked := s.marked + [Mark(s.callers[c].grant, s.callers[c].target.value)], callers := s.callers - {c})
    else s
  }

  datatype Event =
    | DoStore(id: Bytes, terms: Terms, sig: Signature)
    | DoDevice(device: Bytes, row: Device)
    | DoSign(sig: Signature)
    | DoMessage(target: Target, message: MessageRow)
    | DoSelect(caller: CallerId, action: Bytes, conv: Bytes, now: int, rows: seq<(Bytes, Grant)>)
    | DoAskToMark(caller: CallerId, target: Target, conv: Bytes, now: int, rows: seq<(Bytes, Grant)>)
    | DoCheck(caller: CallerId)
    | DoUpdate(caller: CallerId)
    | DoMarkRead(caller: CallerId)
    | DoDie(caller: CallerId)

  function Step(s: State, e: Event): State
  {
    match e
    case DoStore(id, t, sig) => Store(s, id, t, sig)
    case DoDevice(d, row) => s.(devices := s.devices[d := row])
    case DoSign(sig) => s.(signed := s.signed + {sig})
    case DoSelect(c, action, conv, now, rows) => Select(s, c, action, conv, now, rows, None)
    case DoMessage(target, row) => if target in s.messages then s else s.(messages := s.messages[target := row])
    case DoAskToMark(c, target, conv, now, rows) => AskToMark(s, c, target, conv, now, rows)
    case DoCheck(c) => Check(s, c)
    case DoUpdate(c) => Update(s, c)
    case DoMarkRead(c) => MarkRead(s, c)
    case DoDie(c) => s.(callers := s.callers - {c})
  }

  const EMPTY := State(map[], map[], {}, map[], map[], [], [])

  function At(es: seq<Event>, n: nat): State
    requires n <= |es|
  {
    if n == 0 then EMPTY else Step(At(es, n - 1), es[n - 1])
  }

  // ---------------------------------------------------------------- budgets

  /** The counter of a grant is the number of times it was consumed, and within its maximum. */
  ghost predicate Counted(grants: map<Bytes, Grant>, consumed: seq<Bytes>)
  {
    && (forall id :: id in grants ==> grants[id].used == multiset(consumed)[id])
    && (forall id :: id in grants && grants[id].terms.max.Some? ==> grants[id].used <= grants[id].terms.max.value)
    && (forall i :: 0 <= i < |consumed| ==> consumed[i] in grants)
  }

  predicate PassedRow(x: Caller)
  {
    x.Trying? && x.passed ==>
      && x.at < |x.rows|
      && (x.rows[x.at].1.terms.max.Some? ==> x.rows[x.at].1.used < x.rows[x.at].1.terms.max.value)
  }

  /** A snapshot differs from its row at most in the counter, and its counter is no newer; one that has
      passed was not used up when it was read. */
  ghost predicate Snapshots(grants: map<Bytes, Grant>, callers: map<CallerId, Caller>)
  {
    && (forall c :: c in callers ==> PassedRow(callers[c]))
    && forall c, i :: c in callers && callers[c].Trying? && 0 <= i < |callers[c].rows| ==>
      var (id, row) := callers[c].rows[i];
      id in grants && grants[id].terms == row.terms && grants[id].signature == row.signature &&
        row.used <= grants[id].used
  }

  /** The callers that consumed a use of `g` and have not called the provider yet. */
  function Winners(callers: map<CallerId, Caller>, g: Bytes): set<CallerId>
  {
    set c | c in callers && callers[c].Won? && callers[c].grant == g
  }

  function Payers(marked: seq<Mark>): seq<Bytes>
  {
    seq(|marked|, i requires 0 <= i < |marked| => marked[i].grant)
  }

  /** Under each grant, calls made and calls still owed never exceed what was consumed of it. */
  ghost predicate Owed(s: State)
  {
    forall g :: multiset(Payers(s.marked))[g] + |Winners(s.callers, g)| <= multiset(s.consumed)[g]
  }

  ghost predicate Inv(s: State)
  {
    Counted(s.grants, s.consumed) && Snapshots(s.grants, s.callers) && Owed(s)
  }

  lemma ConsumeCounts(grants: map<Bytes, Grant>, consumed: seq<Bytes>, id: Bytes)
    requires Counted(grants, consumed) && id in grants
    requires grants[id].terms.max.Some? ==> grants[id].used < grants[id].terms.max.value
    ensures Counted(grants[id := grants[id].(used := grants[id].used + 1)], consumed + [id])
  {
  }

  lemma ConsumeSnapshots(grants: map<Bytes, Grant>, callers: map<CallerId, Caller>, id: Bytes, c: CallerId,
      target: Option<Target>)
    requires Snapshots(grants, callers) && id in grants
    ensures Snapshots(grants[id := grants[id].(used := grants[id].used + 1)], callers[c := Won(id, target)])
  {
  }

  lemma WinnersChange(callers: map<CallerId, Caller>, c: CallerId, x: Caller, g: Bytes)
    ensures c !in Winners(callers, g) ==>
      |Winners(callers[c := x], g)| == |Winners(callers, g)| + if x.Won? && x.grant == g then 1 else 0
    ensures |Winners(callers - {c}, g)| == |Winners(callers, g)| - if c in Winners(callers, g) then 1 else 0
  {
    var w := Winners(callers, g);
    if c !in w {
      assert Winners(callers[c := x], g) == if x.Won? && x.grant == g then w + {c} else w;
    }
    assert Winners(callers - {c}, g) == w - {c};
  }

  /** A caller that has not won changes into one that has not. */
  lemma OwedWaiting(s: State, c: CallerId, x: Caller)
    requires Owed(s) && (c in s.callers ==> !s.callers[c].Won?) && !x.Won?
    ensures Owed(s.(callers := s.callers[c := x]))
  {
    forall g ensures |Winners(s.callers[c := x], g)| == |Winners(s.callers, g)| { WinnersChange(s.callers, c, x, g); }
  }

  lemma OwedWin(s: State, s': State, c: CallerId, id: Bytes, target: Option<Target>)
    requires Owed(s) && c in s.callers && !s.callers[c].Won?
    requires s'.callers == s.callers[c := Won(id, target)] && s'.consumed == s.consumed + [id] && s'.marked == s.marked
    ensures Owed(s')
  {
    forall g ensures multiset(Payers(s'.marked))[g] + |Winners(s'.callers, g)| <= multiset(s'.consumed)[g] {
      WinnersChange(s.callers, c, Won(id, target), g);
    }
  }

  lemma OwedDie(s: State, c: CallerId)
    requires Owed(s)
    ensures Owed(s.(callers := s.callers - {c}))
  {
    forall g ensures |Winners(s.callers - {c}, g)| <= |Winners(s.callers, g)| { WinnersChange(s.callers, c, Lost, g); }
  }

  lemma OwedPaid(s: State, c: CallerId)
    requires Owed(s)
    ensures Owed(MarkRead(s, c))
  {
    if c in s.callers && s.callers[c].Won? && s.callers[c].target.Some? {
      var s' := MarkRead(s, c);
      var id := s.callers[c].grant;
      assert Payers(s'.marked) == Payers(s.marked) + [id];
      forall g ensures multiset(Payers(s'.marked))[g] + |Winners(s'.callers, g)| <= multiset(s'.consumed)[g] {
        WinnersChange(s.callers, c, Lost, g);
        assert c in Winners(s.callers, g) <==> g == id;
      }
    }
  }

  lemma SnapshotRow(s: State, c: CallerId, i: nat)
    requires Snapshots(s.grants, s.callers) && c in s.callers && s.callers[c].Trying? && i < |s.callers[c].rows|
    ensures var (id, row) := s.callers[c].rows[i];
      id in s.grants && s.grants[id].terms == row.terms && s.grants[id].signature == row.signature
      && (s.grants[id].used == row.used ==> s.grants[id] == row)
  {
  }

  lemma SnapshotsWaiting(grants: map<Bytes, Grant>, callers: map<CallerId, Caller>, c: CallerId, x: Caller)
    requires Snapshots(grants, callers) && c in callers && callers[c].Trying?
    requires PassedRow(x) && (x.Trying? ==> x.rows == callers[c].rows)
    ensures Snapshots(grants, callers[c := x])
  {
  }

  lemma BecomeKeeps(s: State, c: CallerId, x: Caller)
    requires Inv(s) && c in s.callers && s.callers[c].Trying? && !x.Won? && PassedRow(x)
    requires x.Trying? ==> x.rows == s.callers[c].rows
    ensures Inv(Become(s, c, x))
  {
    hide Counted, Owed, Snapshots;
    OwedWaiting(s, c, x);
    SnapshotsWaiting(s.grants, s.callers, c, x);
  }

  lemma ConsumeKeeps(s: State, c: CallerId, id: Bytes, target: Option<Target>)
    requires Inv(s) && c in s.callers && s.callers[c].Trying? && id in s.grants
    requires s.grants[id].terms.max.Some? ==> s.grants[id].used < s.grants[id].terms.max.value
    ensures Inv(Consume(s, c, id, target))
  {
    hide Counted, Owed, Snapshots;
    ConsumeCounts(s.grants, s.consumed, id);
    ConsumeSnapshots(s.grants, s.callers, id, c, target);
    OwedWin(s, Consume(s, c, id, target), c, id, target);
  }

  lemma CheckKeeps(s: State, c: CallerId)
    requires Inv(s)
    ensures Inv(Check(s, c))
  {
    hide Inv, Become, Vouched, ActiveKey;
    if c in s.callers && s.callers[c].Trying? && !s.callers[c].passed {
      var t := s.callers[c];
      if t.at >= |t.rows| {
        BecomeKeeps(s, c, Lost);
      } else if Usable(s, t.rows[t.at].0, t.rows[t.at].1, t.now) {
        BecomeKeeps(s, c, t.(passed := true));
      } else {
        BecomeKeeps(s, c, t.(at := t.at + 1));
      }
    }
  }

  lemma UpdateKeeps(s: State, c: CallerId)
    requires Inv(s)
    ensures Inv(Update(s, c))
  {
    hide Inv, Become, Consume;
    if c in s.callers && s.callers[c].Trying? && s.callers[c].passed && s.callers[c].at < |s.callers[c].rows| {
      var t := s.callers[c];
      InvSnapshots(s);
      if Unmoved(s, t.rows[t.at].0, t.rows[t.at].1) {
        SnapshotRow(s, c, t.at);
        PassedNow(s, c);
        ConsumeKeeps(s, c, t.rows[t.at].0, t.target);
      } else {
        BecomeKeeps(s, c, t.(at := t.at + 1, passed := false));
      }
    }
  }

  lemma PassedNow(s: State, c: CallerId)
    requires Snapshots(s.grants, s.callers) && c in s.callers
    ensures PassedRow(s.callers[c])
  {
  }

  lemma InvSnapshots(s: State)
    requires Inv(s)
    ensures Snapshots(s.grants, s.callers)
  {
  }

  lemma StoreCounts(grants: map<Bytes, Grant>, consumed: seq<Bytes>, id: Bytes, g: Grant)
    requires Counted(grants, consumed) && id !in grants && g.used == 0 && (g.terms.max.Some? ==> 0 <= g.terms.max.value)
    ensures Counted(grants[id := g], consumed)
  {
    assert id !in consumed;
    assert id !in multiset(consumed);
  }

  lemma StoreSnapshots(grants: map<Bytes, Grant>, callers: map<CallerId, Caller>, id: Bytes, g: Grant)
    requires Snapshots(grants, callers) && id !in grants
    ensures Snapshots(grants[id := g], callers)
  {
  }

  lemma StoreKeeps(s: State, id: Bytes, t: Terms, sig: Signature)
    requires Inv(s)
    ensures Inv(Store(s, id, t, sig))
  {
    hide Vouched, Counted, Snapshots, Owed;
    if Store(s, id, t, sig) != s {
      StoreCounts(s.grants, s.consumed, id, Grant(t, sig, 0));
      StoreSnapshots(s.grants, s.callers, id, Grant(t, sig, 0));
      OwedSame(s, Store(s, id, t, sig));
    }
  }

  lemma SelectKeeps(s: State, c: CallerId, action: Bytes, conv: Bytes, now: int, rows: seq<(Bytes, Grant)>,
      target: Option<Target>)
    requires Inv(s)
    ensures Inv(Select(s, c, action, conv, now, rows, target))
  {
    hide Counted, Owed;
    if c !in s.callers {
      OwedWaiting(s, c, Trying(action, conv, now, rows, 0, false, target));
    }
  }

  lemma StepKeeps(s: State, e: Event)
    requires Inv(s)
    ensures Inv(Step(s, e))
  {
    hide Store, Check, Update, Select, Counted, Owed, Bound;
    match e
    case DoStore(id, t, sig) => StoreKeeps(s, id, t, sig);
    case DoCheck(c) => CheckKeeps(s, c);
    case DoUpdate(c) => UpdateKeeps(s, c);
    case DoSelect(c, action, conv, now, rows) => SelectKeeps(s, c, action, conv, now, rows, None);
    case DoAskToMark(c, target, conv, now, rows) => SelectKeeps(s, c, MARK_READ, conv, now, rows, Some(target));
    case DoMarkRead(c) => OwedPaid(s, c);
    case DoDie(c) => OwedDie(s, c);
    case DoMessage(_, _) => OwedSame(s, Step(s, e));
    case DoDevice(_, _) => OwedSame(s, Step(s, e));
    case DoSign(_) => OwedSame(s, Step(s, e));
  }

  lemma OwedSame(s: State, s': State)
    requires Owed(s) && s'.callers == s.callers && s'.consumed == s.consumed && s'.marked == s.marked
    ensures Owed(s')
  {
  }

  lemma {:induction false} RunKeeps(es: seq<Event>, n: nat)
    requires n <= |es|
    ensures Inv(At(es, n))
  {
    hide Step;
    if n == 0 {
      forall g ensures Winners(EMPTY.callers, g) == {} { }
    } else {
      hide Inv;
      RunKeeps(es, n - 1);
      StepKeeps(At(es, n - 1), es[n - 1]);
    }
  }

  /** However callers interleave, each grant's counter equals its successful consumes and never exceeds
      its maximum, and under each grant the provider is called at most once per consume. */
  lemma BudgetsHold(es: seq<Event>, n: nat, id: Bytes)
    requires n <= |es| && id in At(es, n).grants
    ensures var s := At(es, n);
      && s.grants[id].used == multiset(s.consumed)[id]
      && (s.grants[id].terms.max.Some? ==> multiset(s.consumed)[id] <= s.grants[id].terms.max.value)
      && multiset(Payers(s.marked)) <= multiset(s.consumed) && |s.marked| <= |s.consumed|
  {
    hide At, Snapshots;
    RunKeeps(es, n);
    FewerElements(Payers(At(es, n).marked), At(es, n).consumed);
  }

  lemma {:induction false} FewerElements(a: seq<Bytes>, b: seq<Bytes>)
    requires multiset(a) <= multiset(b)
    ensures |a| <= |b|
  {
    assert multiset(b) == multiset(a) + (multiset(b) - multiset(a));
    assert |multiset(b)| == |multiset(a)| + |multiset(b) - multiset(a)|;
  }

  // ---------------------------------------------------------------- targets

  /** The grant is for marking messages read in the conversation that the message belongs to. */
  ghost predicate Covers(grants: map<Bytes, Grant>, messages: map<Target, MessageRow>, g: Bytes, target: Target)
  {
    g in grants && grants[g].terms.action == MARK_READ && Bound(messages, target, grants[g].terms.conv)
  }

  ghost predicate CallerBound(grants: map<Bytes, Grant>, messages: map<Target, MessageRow>, x: Caller)
  {
    match x
    case Lost => true
    case Won(g, target) => target.Some? ==> Covers(grants, messages, g, target.value)
    case Trying(action, conv, _, rows, _, _, target) =>
      && (target.Some? ==> action == MARK_READ && Bound(messages, target.value, conv))
      && (forall i :: 0 <= i < |rows| ==> rows[i].0 in grants && Matches(grants[rows[i].0], action, conv))
  }

  ghost predicate AllBound(s: State)
  {
    && (forall c :: c in s.callers ==> CallerBound(s.grants, s.messages, s.callers[c]))
    && (forall i :: 0 <= i < |s.marked| ==> Covers(s.grants, s.messages, s.marked[i].grant, s.marked[i].target))
  }

  /** Rows are added, and keep their signed terms. */
  ghost predicate Keeps(s: State, s': State)
  {
    && (forall g :: g in s.grants ==> g in s'.grants && s'.grants[g].terms == s.grants[g].terms)
    && (forall t :: t in s.messages ==> t in s'.messages && s'.messages[t] == s.messages[t])
  }

  lemma StaysBound(s: State, s': State, x: Caller)
    requires CallerBound(s.grants, s.messages, x) && Keeps(s, s')
    ensures CallerBound(s'.grants, s'.messages, x)
  {
  }

  lemma StayBound(s: State, s': State)
    requires AllBound(s) && Keeps(s, s') && s'.marked == s.marked
    requires forall c :: c in s'.callers ==>
      (c in s.callers && s'.callers[c] == s.callers[c]) || CallerBound(s'.grants, s'.messages, s'.callers[c])
    ensures AllBound(s')
  {
    forall c | c in s'.callers ensures CallerBound(s'.grants, s'.messages, s'.callers[c]) {
      if c in s.callers && s'.callers[c] == s.callers[c] { StaysBound(s, s', s.callers[c]); }
    }
  }

  lemma BecomeBound(s: State, c: CallerId, x: Caller)
    requires AllBound(s) && CallerBound(s.grants, s.messages, x)
    ensures AllBound(Become(s, c, x))
  {
    hide CallerBound;
  }

  lemma CheckBound(s: State, c: CallerId)
    requires AllBound(s)
    ensures AllBound(Check(s, c))
  {
    if c in s.callers && s.callers[c].Trying? {
      var t := s.callers[c];
      assert CallerBound(s.grants, s.messages, t);
      assert CallerBound(s.grants, s.messages, t.(passed := true)) &&
        CallerBound(s.grants, s.messages, t.(at := t.at + 1));
      hide AllBound, CallerBound, Usable, Become;
      BecomeBound(s, c, Lost) by { assert CallerBound(s.grants, s.messages, Lost) by { LostBound(s); } }
      BecomeBound(s, c, t.(passed := true));
      BecomeBound(s, c, t.(at := t.at + 1));
    }
  }

  lemma LostBound(s: State)
    ensures CallerBound(s.grants, s.messages, Lost)
  {
  }

  lemma ConsumeBound(s: State, c: CallerId, id: Bytes, target: Option<Target>)
    requires AllBound(s) && id in s.grants && (target.Some? ==> Covers(s.grants, s.messages, id, target.value))
    ensures AllBound(Consume(s, c, id, target))
  {
    var s' := Consume(s, c, id, target);
    assert CallerBound(s'.grants, s'.messages, Won(id, target));
    assert Keeps(s, s');
    hide AllBound, CallerBound, Keeps, Covers;
    StayBound(s, s');
  }

  lemma UpdateBound(s: State, c: CallerId)
    requires AllBound(s)
    ensures AllBound(Update(s, c))
  {
    if c in s.callers && s.callers[c].Trying? && s.callers[c].passed && s.callers[c].at < |s.callers[c].rows| {
      var t := s.callers[c];
      assert CallerBound(s.grants, s.messages, t);
      var id := t.rows[t.at].0;
      assert CallerBound(s.grants, s.messages, t.(at := t.at + 1, passed := false));
      assert id in s.grants && (t.target.Some? ==> Covers(s.grants, s.messages, id, t.target.value));
      hide AllBound, CallerBound, Become, Consume, Covers;
      ConsumeBound(s, c, id, t.target);
      BecomeBound(s, c, t.(at := t.at + 1, passed := false));
    }
  }

  lemma StepBound(s: State, e: Event)
    requires AllBound(s)
    ensures AllBound(Step(s, e))
  {
    hide AllBound, Vouched, Check, Update;
    match e
    case DoCheck(c) => CheckBound(s, c);
    case DoUpdate(c) => UpdateBound(s, c);
    case DoMarkRead(c) => MarkBound(s, c);
    case DoSelect(c, action, conv, now, rows) => SelectBound(s, c, action, conv, now, rows, None);
    case DoAskToMark(c, target, conv, now, rows) =>
      if Bound(s.messages, target, conv) { SelectBound(s, c, MARK_READ, conv, now, rows, Some(target)); }
    case _ => StayBound(s, Step(s, e));
  }

  lemma SelectBound(s: State, c: CallerId, action: Bytes, conv: Bytes, now: int, rows: seq<(Bytes, Grant)>,
      target: Option<Target>)
    requires AllBound(s) && (target.Some? ==> action == MARK_READ && Bound(s.messages, target.value, conv))
    ensures AllBound(Select(s, c, action, conv, now, rows, target))
  {
  }

  lemma MarkBound(s: State, c: CallerId)
    requires AllBound(s)
    ensures AllBound(MarkRead(s, c))
  {
  }

  lemma {:induction false} RunBound(es: seq<Event>, n: nat)
    requires n <= |es|
    ensures AllBound(At(es, n))
  {
    if n > 0 {
      hide Step, AllBound;
      RunBound(es, n - 1);
      StepBound(At(es, n - 1), es[n - 1]);
    }
  }

  /** Every message the provider was told to mark as read was received, in a conversation for which the
      grant that paid is a MARK_READ grant. (The grant's account is signed and not compared.) */
  lemma MarksAreBound(es: seq<Event>, n: nat, i: nat)
    requires n <= |es| && i < |At(es, n).marked|
    ensures var s := At(es, n); var m := s.marked[i];
      && m.grant in s.grants && s.grants[m.grant].terms.action == MARK_READ
      && m.target in s.messages && s.messages[m.target].inbound &&
         s.messages[m.target].conv == s.grants[m.grant].terms.conv
  {
    hide At;
    RunBound(es, n);
  }

  // ---------------------------------------------------------------- what a consume rests on

  lemma OnlyUpdateConsumes(s: State, e: Event)
    requires |Step(s, e).consumed| > |s.consumed|
    ensures e.DoUpdate? && e.caller in s.callers && s.callers[e.caller].Trying? && s.callers[e.caller].passed
    ensures var t := s.callers[e.caller];
      t.at < |t.rows| && Unmoved(s, t.rows[t.at].0, t.rows[t.at].1) &&
        Step(s, e).consumed == s.consumed + [t.rows[t.at].0]
  {
    hide Vouched, IsSelection, Usable, Bound;
  }

  /** A caller that has passed got there by its own check of that very row. */
  lemma StepPassed(s: State, e: Event, c: CallerId)
    requires c in Step(s, e).callers && Step(s, e).callers[c].Trying? && Step(s, e).callers[c].passed
    ensures var t := Step(s, e).callers[c];
      || (c in s.callers && s.callers[c] == t)
      || (e == DoCheck(c) && c in s.callers && s.callers[c].Trying? && t == s.callers[c].(passed := true) &&
         t.at < |t.rows|
          && Usable(s, t.rows[t.at].0, t.rows[t.at].1, t.now))
  {
    hide Vouched, IsSelection, Usable, Bound;
  }

  lemma {:induction false} CheckedWhen(es: seq<Event>, n: nat, c: CallerId) returns (m: nat)
    requires n <= |es| && c in At(es, n).callers && At(es, n).callers[c].Trying? && At(es, n).callers[c].passed
    ensures m < n && es[m] == DoCheck(c) && c in At(es, m).callers && At(es, m).callers[c].Trying?
    ensures var t := At(es, n).callers[c];
      At(es, m).callers[c].rows == t.rows && t.at < |t.rows| && Usable(At(es, m), t.rows[t.at].0, t.rows[t.at].1, t.now)
    decreases n
  {
    hide Step, Usable;
    assert n != 0;
    StepPassed(At(es, n - 1), es[n - 1], c);
    if c in At(es, n - 1).callers && At(es, n - 1).callers[c] == At(es, n).callers[c] {
      m := CheckedWhen(es, n - 1, c);
    } else {
      m := n - 1;
    }
  }

  /** A grant whose terms and signature are those of a usable row is vouched for. */
  lemma UsableVouches(s: State, id: Bytes, row: Grant, g: Grant, now: int)
    requires Usable(s, id, row, now) && g.terms == row.terms && g.signature == row.signature
    ensures Vouched(s, id, g) && (g.terms.expires.Some? ==> now < g.terms.expires.value)
  {
    hide ActiveKey, GrantBytes, Encodable;
  }

  /** Signatures are not withdrawn, so a grant vouched for then is vouched for now exactly when its device
      has the same active key. */
  lemma VouchedAgain(s: State, s': State, id: Bytes, g: Grant, g': Grant)
    requires Vouched(s, id, g) && s.signed <= s'.signed && g'.terms == g.terms && g'.signature == g.signature
    ensures Vouched(s', id, g') <==> ActiveKey(s'.devices, g.terms.device) == ActiveKey(s.devices, g.terms.device)
  {
    hide ActiveKey, GrantBytes, Encodable;
  }

  lemma StepSigned(s: State, e: Event)
    ensures s.signed <= Step(s, e).signed
  {
    hide Vouched, IsSelection, Usable, Bound, Unmoved;
  }

  lemma {:induction false} SignedStays(es: seq<Event>, m: nat, n: nat)
    requires m <= n <= |es|
    ensures At(es, m).signed <= At(es, n).signed
  {
    if m < n {
      hide Step;
      SignedStays(es, m, n - 1);
      StepSigned(At(es, n - 1), es[n - 1]);
    }
  }

  /** A consume rests on a check its caller made before: at that moment the grant, with the terms it has
      now, was signed by the key of an active device and had not expired. At the consume itself it is
      not used up; and it is still vouched for exactly when its device has kept its active key. */
  lemma ConsumeIsVouched(es: seq<Event>, n: nat) returns (m: nat, id: Bytes)
    requires n < |es| && |At(es, n + 1).consumed| > |At(es, n).consumed|
    ensures es[n].DoUpdate? && m < n && es[m] == DoCheck(es[n].caller)
    ensures es[n].caller in At(es, n).callers && At(es, n).callers[es[n].caller].Trying?
    ensures var s, past := At(es, n), At(es, m);
      && id in s.grants && At(es, n + 1).consumed == s.consumed + [id]
      && id in past.grants && past.grants[id].terms == s.grants[id].terms && Vouched(past, id, past.grants[id])
      && (s.grants[id].terms.expires.Some? ==> s.callers[es[n].caller].now < s.grants[id].terms.expires.value)
      && (s.grants[id].terms.max.Some? ==> s.grants[id].used < s.grants[id].terms.max.value)
      && (Vouched(s, id, s.grants[id]) <==>
            ActiveKey(s.devices, s.grants[id].terms.device) == ActiveKey(past.devices, s.grants[id].terms.device))
  {
    var s, e := At(es, n), es[n];
    assert At(es, n + 1) == Step(s, e);
    hide At, Step, Inv, Vouched, Usable, Snapshots;
    RunKeeps(es, n);
    InvSnapshots(s);
    OnlyUpdateConsumes(s, e);
    var t := s.callers[e.caller];
    id := t.rows[t.at].0;
    m := CheckedWhen(es, n, e.caller);
    var past := At(es, m);
    RunKeeps(es, m);
    InvSnapshots(past);
    SnapshotRow(past, e.caller, t.at);
    SnapshotRow(s, e.caller, t.at);
    PassedNow(s, e.caller);
    UsableVouches(past, id, t.rows[t.at].1, past.grants[id], t.now);
    SignedStays(es, m, n);
    VouchedAgain(past, s, id, past.grants[id], s.grants[id]);
  }

  /** A revocation between check and update comes too late: the use is spent on a grant that nobody
      vouches for any more. */
  lemma RevocationTooLate(s: State, c: CallerId)
    requires c in s.callers && s.callers[c].Trying? && s.callers[c].passed && s.callers[c].at < |s.callers[c].rows|
    requires Unmoved(s, s.callers[c].rows[s.callers[c].at].0, s.callers[c].rows[s.callers[c].at].1)
    ensures var id := s.callers[c].rows[s.callers[c].at].0;
      var revoked := Step(s, DoDevice(s.grants[id].terms.device, Device("", false)));
      && !Vouched(revoked, id, revoked.grants[id])
      && Step(revoked, DoUpdate(c)).consumed == s.consumed + [id]
  {
  }

  /** Changing any signed field of a stored grant breaks its signature. */
  lemma TermsAreSealed(s: State, id: Bytes, g: Grant, id': Bytes, g': Grant)
    requires Vouched(s, id, g) && Vouched(s, id', g') && g.signature == g'.signature
    ensures Slots(id, g.terms) == Slots(id', g'.terms)
  {
    GrantInjective(Slots(id, g.terms), Slots(id', g'.terms));
  }

  // ---------------------------------------------------------------- whose grant pays

  /** The ids a SELECT may return, in some order: those of the matching grants, each once. */
  ghost predicate IsOrdering(grants: map<Bytes, Grant>, action: Bytes, conv: Bytes, rows: seq<Bytes>)
  {
    && (forall id :: id in rows <==> id in grants && Matches(grants[id], action, conv))
    && (forall i, j :: 0 <= i < j < |rows| ==> rows[i] != rows[j])
  }

  /** The grant an uninterrupted `verify_and_consume` spends: the first usable row. */
  function FirstUsable(s: State, rows: seq<Bytes>, now: int): Option<Bytes>
  {
    if rows == [] then None
    else if rows[0] in s.grants && Usable(s, rows[0], s.grants[rows[0]], now) then Some(rows[0])
    else FirstUsable(s, rows[1..], now)
  }

  lemma {:induction false} FirstUsableHas(s: State, rows: seq<Bytes>, now: int)
    ensures var r := FirstUsable(s, rows, now);
      && (r.Some? ==> r.value in rows && r.value in s.grants && Usable(s, r.value, s.grants[r.value], now))
      && (r == None <==> forall id :: id in rows && id in s.grants ==> !Usable(s, id, s.grants[id], now))
  {
    hide Usable;
    if rows != [] {
      FirstUsableHas(s, rows[1..], now);
      assert forall id :: id in rows <==> id == rows[0] || id in rows[1..];
    }
  }

  lemma OrderingStored(grants: map<Bytes, Grant>, action: Bytes, conv: Bytes, rows: seq<Bytes>)
    requires IsOrdering(grants, action, conv, rows)
    ensures forall id :: id in rows ==> id in grants
  {
  }

  lemma FirstUsableIs(s: State, action: Bytes, conv: Bytes, rows: seq<Bytes>, now: int)
    requires IsOrdering(s.grants, action, conv, rows)
    ensures var r := FirstUsable(s, rows, now);
      && (r == None <==> forall id ::
         id in s.grants && Matches(s.grants[id], action, conv) ==> !Usable(s, id, s.grants[id], now))
      && (r.Some? ==>
         r.value in s.grants && Matches(s.grants[r.value], action, conv) && Usable(s, r.value, s.grants[r.value], now))
  {
    hide Usable, Matches;
    FirstUsableHas(s, rows, now);
  }

  lemma {:induction false} Listing(ids: set<Bytes>) returns (rows: seq<Bytes>)
    ensures forall id :: id in rows <==> id in ids
    ensures forall i, j :: 0 <= i < j < |rows| ==> rows[i] != rows[j]
    decreases ids
  {
    if ids == {} {
      rows := [];
    } else {
      var x :| x in ids;
      var rest := Listing(ids - {x});
      rows := [x] + rest;
      assert forall id :: id in rows <==> id == x || id in rest;
    }
  }

  /** Some order puts any matching grant first. */
  lemma OrderingWithFirst(grants: map<Bytes, Grant>, action: Bytes, conv: Bytes, id: Bytes) returns (rows: seq<Bytes>)
    requires id in grants && Matches(grants[id], action, conv)
    ensures rows != [] && rows[0] == id && IsOrdering(grants, action, conv, rows)
  {
    hide Matches;
    var rest := Listing((set g | g in grants && Matches(grants[g], action, conv)) - {id});
    rows := [id] + rest;
    assert forall g :: g in rows <==> g == id || g in rest;
  }

  /** The rows of an ordering, as they stand, are a selection. */
  lemma SelectionWithFirst(s: State, action: Bytes, conv: Bytes, id: Bytes) returns (rows: seq<(Bytes, Grant)>)
    requires id in s.grants && Matches(s.grants[id], action, conv)
    ensures rows != [] && rows[0] == (id, s.grants[id]) && IsSelection(s, action, conv, rows)
  {
    hide Matches;
    var ids := OrderingWithFirst(s.grants, action, conv, id);
    assert forall i :: 0 <= i < |ids| ==> ids[i] in ids;
    rows := seq(|ids|, i requires 0 <= i < |ids| => (ids[i], s.grants[ids[i]]));
    forall g | g in s.grants && Matches(s.grants[g], action, conv)
      ensures exists i :: 0 <= i < |rows| && rows[i].0 == g
    {
      assert g in ids;
      var i :| 0 <= i < |ids| && ids[i] == g;
      assert rows[i].0 == g;
    }
  }

  /** The grant spent, if any, is of this account. */
  predicate SpendsOn(s: State, spent: Option<Bytes>, account: Bytes)
  {
    spent.Some? ==> spent.value in s.grants && s.grants[spent.value].terms.account == Some(account)
  }

  /** The account in a grant is signed and never compared: whatever order a SELECT returns, the use is
      spent on a grant of the message's account exactly when every usable MARK_READ grant for the
      conversation names that account. */
  lemma AccountKeptIff(s: State, target: Target, conv: Bytes, now: int)
    ensures
      (forall rows: seq<Bytes> :: IsOrdering(s.grants, MARK_READ, conv, rows) ==>
        SpendsOn(s, FirstUsable(s, rows, now), target.0))
      <==>
      (forall id :: id in s.grants && Matches(s.grants[id], MARK_READ, conv) && Usable(s, id, s.grants[id], now) ==>
        s.grants[id].terms.account == Some(target.0))
  {
    hide Usable, Matches, IsOrdering;
    forall rows: seq<Bytes> | IsOrdering(s.grants, MARK_READ, conv, rows)
      ensures var r := FirstUsable(s, rows, now);
        r.Some? ==>
          r.value in s.grants && Matches(s.grants[r.value], MARK_READ, conv) &&
          Usable(s, r.value, s.grants[r.value], now)
    {
      FirstUsableIs(s, MARK_READ, conv, rows, now);
    }
    if forall rows: seq<Bytes> ::
      IsOrdering(s.grants, MARK_READ, conv, rows) ==> SpendsOn(s, FirstUsable(s, rows, now), target.0) {
      forall id | id in s.grants && Matches(s.grants[id], MARK_READ, conv) && Usable(s, id, s.grants[id], now)
        ensures s.grants[id].terms.account == Some(target.0)
      {
        var rows := OrderingWithFirst(s.grants, MARK_READ, conv, id);
        assert FirstUsable(s, rows, now) == Some(id);
      }
    }
  }

  /** One caller alone: a usable grant that the SELECT returns first pays for a bound message, whatever
      accounts the two name. */
  lemma AnyAccountPays(s: State, c: CallerId, target: Target, conv: Bytes, now: int, id: Bytes,
      rows: seq<(Bytes, Grant)>)
    requires c !in s.callers && Bound(s.messages, target, conv) && IsSelection(s, MARK_READ, conv, rows)
    requires rows != [] && rows[0].0 == id && id in s.grants && Usable(s, id, s.grants[id], now)
    ensures var s1 := Step(s, DoAskToMark(c, target, conv, now, rows));
      var s' := Step(Step(Step(s1, DoCheck(c)), DoUpdate(c)), DoMarkRead(c));
      && s'.marked == s.marked + [Mark(id, target)]
      && s'.grants == s.grants[id := s.grants[id].(used := s.grants[id].used + 1)]
  {
    hide Vouched, Matches;
    assert rows[0].1 == s.grants[id];
    var s1 := Step(s, DoAskToMark(c, target, conv, now, rows));
    var t := Trying(MARK_READ, conv, now, rows, 0, false, Some(target));
    assert s1 == Become(s, c, t);
    assert Usable(s1, id, s.grants[id], now) by { SameUsable(s, s1, id, s.grants[id], now); }
    hide Usable, IsSelection;
    assert Step(s1, DoCheck(c)) == Become(s1, c, t.(passed := true));
  }

  lemma SameUsable(s: State, s': State, id: Bytes, row: Grant, now: int)
    requires Usable(s, id, row, now) && s'.devices == s.devices && s'.signed == s.signed
    ensures Usable(s', id, row, now)
  {
  }

  lemma {:induction false} AtPrefix(es: seq<Event>, more: seq<Event>, n: nat)
    requires n <= |es|
    ensures At(es + more, n) == At(es, n)
  {
    hide Step;
    if n > 0 { AtPrefix(es, more, n - 1); }
  }

  lemma AtMore(es: seq<Event>, e: Event)
    ensures At(es + [e], |es| + 1) == Step(At(es, |es|), e)
  {
    hide Step;
    AtPrefix(es, [e], |es|);
  }

  /** A vouched grant and a received message can be stored. */
  lemma SetupReached(id: Bytes, terms: Terms, key: Bytes, target: Target)
    requires Encodable(id, terms) && terms.max.Some? && terms.max.value >= 0
    ensures var sig := Signature(key, GrantBytes(Slots(id, terms)));
      var es := [DoDevice(terms.device, Device(key, true)), DoSign(sig), DoStore(id, terms, sig),
        DoMessage(target, MessageRow(terms.conv, true))];
      At(es, 4) == State(map[id := Grant(terms, sig, 0)], map[terms.device := Device(key, true)], {sig}, map[],
                         map[target := MessageRow(terms.conv, true)], [], [])
  {
    var sig := Signature(key, GrantBytes(Slots(id, terms)));
    hide GrantBytes, Encodable, Slots;
    var e1, e2, e3 := DoDevice(terms.device, Device(key, true)), DoSign(sig), DoStore(id, terms, sig);
    var es := [e1, e2, e3, DoMessage(target, MessageRow(terms.conv, true))];
    assert At(es, 1) == EMPTY.(devices := map[terms.device := Device(key, true)]);
    assert At(es, 2) == At(es, 1).(signed := {sig});
    assert Vouched(At(es, 2), id, Grant(terms, sig, 0));
    assert At(es, 3) == At(es, 2).(grants := map[id := Grant(terms, sig, 0)]);
  }

  lemma AtFourMore(es: seq<Event>, e1: Event, e2: Event, e3: Event, e4: Event)
    ensures At(es + [e1, e2, e3, e4], |es| + 4) == Step(Step(Step(Step(At(es, |es|), e1), e2), e3), e4)
  {
    hide Step, At;
    AtMore(es, e1);
    AtMore(es + [e1], e2);
    AtMore(es + [e1] + [e2], e3);
    AtMore(es + [e1] + [e2] + [e3], e4);
    assert es + [e1, e2, e3, e4] == es + [e1] + [e2] + [e3] + [e4];
  }

  lemma ReadyGrant(s: State, id: Bytes, key: Bytes, now: int)
    requires id in s.grants && Encodable(id, s.grants[id].terms) && s.grants[id].used == 0
    requires var t := s.grants[id].terms;
      && t.max == Some(1) && t.expires == None && s.devices == map[t.device := Device(key, true)]
      && s.grants[id].signature == Signature(key, GrantBytes(Slots(id, t))) && s.signed == {s.grants[id].signature}
    ensures Usable(s, id, s.grants[id], now)
  {
    hide GrantBytes, Encodable, Slots;
  }

  /** From empty tables: any grant that can be encoded is stored and pays for any message received in its
      conversation. */
  lemma AnyGrantPays(id: Bytes, terms: Terms, key: Bytes, target: Target) returns (es: seq<Event>)
    requires Encodable(id, terms) && terms.action == MARK_READ && terms.expires == None && terms.max == Some(1)
    ensures var s := At(es, |es|); s.marked == [Mark(id, target)] && id in s.grants && s.grants[id].terms == terms
  {
    var sig := Signature(key, GrantBytes(Slots(id, terms)));
    var setup := [DoDevice(terms.device, Device(key, true)), DoSign(sig), DoStore(id, terms, sig),
      DoMessage(target, MessageRow(terms.conv, true))];
    SetupReached(id, terms, key, target);
    var s := At(setup, 4);
    ReadyGrant(s, id, key, 0);
    hide GrantBytes, Encodable, Slots, At, Step, Usable;
    var rows := SelectionWithFirst(s, MARK_READ, terms.conv, id);
    AnyAccountPays(s, 0, target, terms.conv, 0, id, rows);
    var e1, e2, e3, e4 := DoAskToMark(0, target, terms.conv, 0, rows), DoCheck(0), DoUpdate(0), DoMarkRead(0);
    AtFourMore(setup, e1, e2, e3, e4);
    es := setup + [e1, e2, e3, e4];
  }

  lemma SampleEncodes()
    ensures Encodable("grant", Terms.Terms("phone", Some("theirs"), "chat", MARK_READ, None, None, Some(1), None))
  {
  }

  /** So a grant of account "theirs" pays for a message of account "ours". */
  lemma ForeignAccountPays() returns (es: seq<Event>)
    ensures var s := At(es, |es|);
      && |s.marked| == 1 && s.marked[0].grant in s.grants
      && s.grants[s.marked[0].grant].terms.account == Some("theirs") && s.marked[0].target.0 == "ours"
  {
    hide Encodable, At;
    SampleEncodes();
    es := AnyGrantPays("grant", Terms.Terms("phone", Some("theirs"), "chat", MARK_READ, None, None, Some(1), None),
      "key", ("ours", "wamid"));
  }

  // ---------------------------------------------------------------- the code

  datatype MarkOutcome = Done(grant: Bytes) | UnknownTarget | ConversationMismatch | NotInbound | AuthorizationMissing

  class GrantStore {
    var grants: map<Bytes, Grant>
    var devices: map<Bytes, Device>
    var signed: set<Signature>

    function View(): State
      reads this
    {
      State(grants, devices, signed, map[], map[], [], [])
    }

    /** `verify_and_consume` run without interruption over the rows its SELECT returned: it succeeds
        exactly when some matching grant is usable, and then spends one use of the first such. */
    method VerifyAndConsume(action: Bytes, conv: Bytes, now: int, rows: seq<Bytes>) returns (spent: Option<Bytes>)
      requires IsOrdering(grants, action, conv, rows)
      modifies this`grants
      ensures spent == FirstUsable(old(View()), rows, now)
      ensures spent == None <==> forall id :: id in old(grants) && Matches(old(grants)[id], action, conv) ==>
                !Usable(old(View()), id, old(grants)[id], now)
      ensures spent == None ==> grants == old(grants)
      ensures spent.Some? ==>
        && spent.value in old(grants) && Matches(old(grants)[spent.value], action, conv)
        && Usable(old(View()), spent.value, old(grants)[spent.value], now)
        && grants == old(grants)[spent.value := old(grants)[spent.value].(used := old(grants)[spent.value].used + 1)]
    {
      hide Usable, Matches, IsOrdering;
      OrderingStored(grants, action, conv, rows);
      FirstUsableIs(View(), action, conv, rows, now);
      assert rows[0..] == rows;
      for i := 0 to |rows|
        invariant grants == old(grants)
        invariant FirstUsable(old(View()), rows[i..], now) == FirstUsable(old(View()), rows, now)
      {
        assert rows[i..][1..] == rows[i + 1..] && rows[i..][0] == rows[i];
        var id := rows[i];
        assert id in rows;
        var row := grants[id];
        if Usable(View(), id, row, now) {
          grants := grants[id := row.(used := row.used + 1)];
          return Some(id);
        }
      }
      return None;
    }

    /** `mark_read`, uninterrupted: the provider is called exactly when the target is bound and a grant is
        usable; a refusal spends nothing. */
    method MarkTarget(messages: map<Target, MessageRow>, target: Target, conv: Bytes, now: int, rows: seq<Bytes>)
      returns (r: MarkOutcome)
      requires IsOrdering(grants, MARK_READ, conv, rows)
      modifies this`grants
      ensures r.Done? <==>
        && Bound(messages, target, conv)
        && (exists id ::
           id in old(grants) && Matches(old(grants)[id], MARK_READ, conv) &&
           Usable(old(View()), id, old(grants)[id], now))
      ensures r == UnknownTarget <==> target !in messages
      ensures r == ConversationMismatch <==> target in messages && messages[target].conv != conv
      ensures r == NotInbound <==> target in messages && messages[target].conv == conv && !messages[target].inbound
      ensures !r.Done? ==> grants == old(grants)
      ensures r.Done? ==>
        && r.grant in old(grants) && Matches(old(grants)[r.grant], MARK_READ, conv)
        && grants == old(grants)[r.grant := old(grants)[r.grant].(used := old(grants)[r.grant].used + 1)]
    {
      hide Usable, Matches;
      if target !in messages { return UnknownTarget; }
      if messages[target].conv != conv { return ConversationMismatch; }
      if !messages[target].inbound { return NotInbound; }
      var spent := VerifyAndConsume(MARK_READ, conv, now, rows);
      return if spent.Some? then Done(spent.value) else AuthorizationMissing;
    }
  }
}
