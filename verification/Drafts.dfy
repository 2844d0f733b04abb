/** `prepare` in runs of the sender (approval/drafts.py). The SELECT that looks for a draft to reuse compares
    the conversation and the body's hash, and nothing else: not the recipient, not the expiry, and not
    whether the draft was sent. What is proved is which draft that makes it return, for ever. */
module Drafts {
  import opened Prelude
  import opened Encoding
  import opened Policy
  import opened Devices
  import opened Send

  /** A call of `prepare`, with the row its SELECT returned and the id and nonce it would use for a new
      draft; or any other step. Templates are the only other drafts: they carry neither body nor recipient. */
  datatype Event =
    | DoAsk(ask: Ask, windowOpen: bool, now: int, id: Bytes, nonce: Bytes, found: Option<Bytes>)
    | Other(send: Send.Event)

  function Answer(e: Event): Prepared
    requires e.DoAsk?
  {
    AnswerTo(e.ask, e.windowOpen, e.found, e.id, e.now)
  }

  predicate Creates(e: Event)
  {
    e.DoAsk? && Answer(e).Created? && e.ask.recipient.Some?
  }

  /** What an event is to the sender: a new draft, its own step, or nothing. */
  function SendOf(h: Hash, s: State, e: Event): Send.Event
  {
    match e
    case DoAsk(ask, _, now, id, nonce, _) =>
      if Creates(e) then DoPrepare(id, DraftFor(h, ask, nonce, now)) else DoWindows(s.windows)
    case Other(x) => x
  }

  function Step(h: Hash, s: State, e: Event): State
  {
    Send.Step(h, s, SendOf(h, s, e)).0
  }

  function At(h: Hash, ds: seq<Event>, n: nat): State
    requires n <= |ds|
  {
    if n == 0 then EMPTY else Step(h, At(h, ds, n - 1), ds[n - 1])
  }

  ghost predicate Enabled(h: Hash, s: State, e: Event)
  {
    match e
    case DoAsk(ask, _, _, id, nonce, found) => Selected(h, s.drafts, ask, found) && id !in s.drafts && |nonce| == 32
    case Other(x) => x.DoPrepare? ==> x.draft.terms.bodySha == None && x.draft.terms.recipient == None
  }

  ghost predicate Runs(h: Hash, ds: seq<Event>)
  {
    forall i :: 0 <= i < |ds| ==> Enabled(h, At(h, ds, i), ds[i])
  }

  /** The same run as the sender sees it. */
  function SendRun(h: Hash, ds: seq<Event>): (r: seq<Send.Event>)
    ensures |r| == |ds| && forall i :: 0 <= i < |ds| ==> r[i] == SendOf(h, At(h, ds, i), ds[i])
  {
    seq(|ds|, i requires 0 <= i < |ds| => SendOf(h, At(h, ds, i), ds[i]))
  }

  lemma {:induction false} Projects(h: Hash, ds: seq<Event>, n: nat)
    requires n <= |ds|
    ensures Send.At(h, SendRun(h, ds), n) == At(h, ds, n)
  {
    hide Send.Step, SendOf, SendRun;
    if n > 0 { Projects(h, ds, n - 1); }
  }

  // ---------------------------------------------------------------- one draft for the same words

  /** The draft holds these words for this conversation. */
  predicate Holds(d: Draft, conv: ConvId, sha: Bytes)
  {
    d.conv == conv && d.terms.bodySha == Some(sha)
  }

  predicate SameWords(d: Draft, e: Draft)
  {
    d.terms.bodySha.Some? && d.conv == e.conv && d.terms.bodySha == e.terms.bodySha
  }

  /** No two drafts hold the same words for the same conversation. */
  ghost predicate OneEach(drafts: map<Bytes, Draft>)
  {
    forall i, j :: i in drafts && j in drafts && SameWords(drafts[i], drafts[j]) ==> i == j
  }

  /** What an event does to the drafts. */
  lemma StepDrafts(h: Hash, s: State, e: Event)
    requires Enabled(h, s, e)
    ensures var drafts' := Step(h, s, e).drafts;
      || (Creates(e) && e.id !in s.drafts && drafts' == s.drafts[e.id := DraftFor(h, e.ask, e.nonce, e.now)])
      || (!Creates(e) && drafts' == s.drafts)
      || (e.Other? && e.send.DoPrepare? && e.send.id !in s.drafts && drafts' == s.drafts[e.send.id := e.send.draft])
  {
    hide Send.Step, Selected, DraftFor, AnswerTo;
    SendDrafts(h, s, SendOf(h, s, e));
  }

  lemma SendDrafts(h: Hash, s: State, x: Send.Event)
    ensures Send.Step(h, s, x).0.drafts ==
      if x.DoPrepare? && x.id !in s.drafts then s.drafts[x.id := x.draft] else s.drafts
  {
    hide Authorise, Post, Finish, Recover, StatusEvent;
    match x
    case DoAuthorise(p, env, reading) => AuthoriseDrafts(h, s, p, env, reading);
    case DoPost(p, answer) => PostDrafts(s, p, answer);
    case DoFinish(p) => FinishDrafts(s, p);
    case DoRecover => RecoverDrafts(s);
    case DoStatus(callback, wamid) => StatusDrafts(s, callback, wamid);
    case _ =>
  }

  lemma AuthoriseDrafts(h: Hash, s: State, p: SenderId, env: Envelope, reading: int)
    ensures Authorise(h, s, p, env, reading).0.drafts == s.drafts
  {
    hide Check, Trusted;
  }

  lemma PostDrafts(s: State, p: SenderId, answer: Send.Answer)
    ensures Post(s, p, answer).drafts == s.drafts
  {
  }

  lemma FinishDrafts(s: State, p: SenderId)
    ensures Finish(s, p).drafts == s.drafts
  {
  }

  lemma RecoverDrafts(s: State)
    ensures Recover(s).drafts == s.drafts
  {
  }

  lemma StatusDrafts(s: State, callback: Option<AttemptId>, wamid: Option<Bytes>)
    ensures StatusEvent(s, callback, wamid).0.drafts == s.drafts
  {
    hide KnownWamid;
  }

  lemma OneMore(h: Hash, drafts: map<Bytes, Draft>, a: Ask, id: Bytes, d: Draft)
    requires OneEach(drafts) && id !in drafts && Selected(h, drafts, a, None) && Holds(d, a.conv, h(a.body))
    ensures OneEach(drafts[id := d])
  {
  }

  lemma OneMoreTemplate(drafts: map<Bytes, Draft>, id: Bytes, d: Draft)
    requires OneEach(drafts) && id !in drafts && d.terms.bodySha == None
    ensures OneEach(drafts[id := d])
  {
  }

  lemma CreatedFound(e: Event)
    requires Creates(e)
    ensures e.found == None
  {
    hide Failed;
  }

  /** What `prepare` writes: the words, the address and the times of the ask, a fresh nonce, and no attachments. */
  lemma DraftForIs(h: Hash, a: Ask, nonce: Bytes, now: int)
    requires a.recipient.Some?
    ensures var d := DraftFor(h, a, nonce, now);
      && Holds(d, a.conv, h(a.body)) && AddressedAs(d, a) && IsPrepared(h, d) && d.body == Some(a.body)
      && d.terms.nonce == Some(nonce) && d.terms.createdAt == Some(now)
      && d.terms.expiresAt == Some(ExpiryOf(a, now)) && d.terms.attachments == Some(h("WHATSVAULT-ATTACHMENTS-V1\n"))
      && d.terms.templateId == None && d.terms.templateParamsSha == None && d.terms.replyTo == None
      && d.terms.target == None
  {
  }

  /** When a draft prepared for this ask at this time expires. */
  function ExpiryOf(a: Ask, now: int): int
  {
    if a.expires.Some? && a.expires.value != 0 then a.expires.value else now + 15 * 60 * 1000
  }

  lemma StepOneEach(h: Hash, s: State, e: Event)
    requires OneEach(s.drafts) && Enabled(h, s, e)
    ensures OneEach(Step(h, s, e).drafts)
  {
    hide OneEach, Step, Selected, DraftFor, Holds;
    StepDrafts(h, s, e);
    if Creates(e) {
      CreatedFound(e);
      DraftForIs(h, e.ask, e.nonce, e.now);
      OneMore(h, s.drafts, e.ask, e.id, DraftFor(h, e.ask, e.nonce, e.now));
    } else if e.Other? && e.send.DoPrepare? && e.send.id !in s.drafts {
      OneMoreTemplate(s.drafts, e.send.id, e.send.draft);
    }
  }

  /** In every run there is at most one draft for the same words in the same conversation. */
  lemma {:induction false} OneDraftPerWords(h: Hash, ds: seq<Event>, n: nat)
    requires n <= |ds| && Runs(h, ds)
    ensures OneEach(At(h, ds, n).drafts)
  {
    hide Step, Enabled, SameWords;
    if n > 0 {
      hide OneEach;
      OneDraftPerWords(h, ds, n - 1);
      StepOneEach(h, At(h, ds, n - 1), ds[n - 1]);
    }
  }

  /** So which row the SELECT returns is settled. */
  lemma SelectIsSettled(h: Hash, drafts: map<Bytes, Draft>, a: Ask, one: Option<Bytes>, two: Option<Bytes>)
    requires OneEach(drafts) && Selected(h, drafts, a, one) && Selected(h, drafts, a, two)
    ensures one == two
  {
  }

  // ---------------------------------------------------------------- where a draft comes from

  lemma DraftStays(h: Hash, s: State, e: Event, id: Bytes)
    requires Enabled(h, s, e) && id in s.drafts
    ensures id in Step(h, s, e).drafts && Step(h, s, e).drafts[id] == s.drafts[id]
  {
    hide Step, DraftFor, Selected;
    StepDrafts(h, s, e);
  }

  lemma {:induction false} DraftsStay(h: Hash, ds: seq<Event>, m: nat, n: nat, id: Bytes)
    requires m <= n <= |ds| && Runs(h, ds) && id in At(h, ds, m).drafts
    ensures id in At(h, ds, n).drafts && At(h, ds, n).drafts[id] == At(h, ds, m).drafts[id]
  {
    hide Step, Enabled;
    if m < n {
      DraftsStay(h, ds, m, n - 1, id);
      DraftStays(h, At(h, ds, n - 1), ds[n - 1], id);
    }
  }

  /** Every draft with a body was created by one ask, and is what that ask asked for. */
  lemma {:induction false} DraftFrom(h: Hash, ds: seq<Event>, n: nat, id: Bytes) returns (m: nat)
    requires n <= |ds| && Runs(h, ds) && id in At(h, ds, n).drafts && At(h, ds, n).drafts[id].terms.bodySha.Some?
    ensures m < n && Creates(ds[m]) && ds[m].id == id && id !in At(h, ds, m).drafts
    ensures At(h, ds, n).drafts[id] == DraftFor(h, ds[m].ask, ds[m].nonce, ds[m].now)
    decreases n
  {
    hide Step, Enabled, DraftFor, Creates;
    assert n != 0;
    var s, e := At(h, ds, n - 1), ds[n - 1];
    StepDrafts(h, s, e);
    if id in s.drafts {
      DraftStays(h, s, e, id);
      m := DraftFrom(h, ds, n - 1, id);
    } else {
      m := n - 1;
      TemplateHasNoBody(h, s, e);
    }
  }

  lemma TemplateHasNoBody(h: Hash, s: State, e: Event)
    requires Enabled(h, s, e)
    ensures e.Other? && e.send.DoPrepare? ==> e.send.draft.terms.bodySha == None && e.send.draft.terms.recipient == None
  {
    hide Selected;
  }

  // ---------------------------------------------------------------- what a reuse returns

  predicate SameAskWords(h: Hash, a: Ask, b: Ask)
  {
    a.conv == b.conv && h(a.body) == h(b.body)
  }

  predicate SameAddress(a: Ask, b: Ask)
  {
    a.recipient == b.recipient && a.phone == b.phone && a.account == b.account && a.kind == b.kind
  }

  /** Once a draft holds these words, every later ask for them finds that draft, whatever else it asks for. */
  lemma WordsTaken(h: Hash, ds: seq<Event>, m: nat, n: nat, id: Bytes)
    requires m <= n < |ds| && Runs(h, ds) && id in At(h, ds, m).drafts
    requires ds[n].DoAsk? && Holds(At(h, ds, m).drafts[id], ds[n].ask.conv, h(ds[n].ask.body))
    ensures ds[n].found == Some(id)
  {
    assert Enabled(h, At(h, ds, n), ds[n]);
    hide At, Runs;
    DraftsStay(h, ds, m, n, id);
    OneDraftPerWords(h, ds, n);
    hide OneEach;
    assert Selected(h, At(h, ds, n).drafts, ds[n].ask, Some(id));
    SelectIsSettled(h, At(h, ds, n).drafts, ds[n].ask, ds[n].found, Some(id));
  }

  /** An ask that is not refused leaves a draft with its words behind, the one it answers with. */
  lemma AskLeavesDraft(h: Hash, ds: seq<Event>, k: nat)
    requires k < |ds| && Runs(h, ds) && ds[k].DoAsk? && !Answer(ds[k]).Refused?
    ensures var id, drafts := Answer(ds[k]).id, At(h, ds, k + 1).drafts;
      id in drafts && Holds(drafts[id], ds[k].ask.conv, h(ds[k].ask.body))
  {
    var s, e := At(h, ds, k), ds[k];
    assert Enabled(h, s, e) && At(h, ds, k + 1) == Step(h, s, e);
    AnsweredNamesRecipient(e.ask, e.windowOpen, e.found, e.id, e.now);
    hide At, Runs, Step, Failed, DraftFor;
    StepDrafts(h, s, e);
    DraftForIs(h, e.ask, e.nonce, e.now);
  }

  /** A draft handed back is the one the first answered ask for those words created. Asks before that one
      were all refused, and asks since were refused or handed the same draft. So it is addressed as asked
      if and only if this ask agrees with that first one on recipient, phone number, account and kind. */
  lemma ReusedAsFirstAsked(h: Hash, ds: seq<Event>, n: nat) returns (m: nat)
    requires n < |ds| && Runs(h, ds) && ds[n].DoAsk? && Answer(ds[n]).Reused?
    ensures m < n && Creates(ds[m]) && ds[m].id == Answer(ds[n]).id && SameAskWords(h, ds[m].ask, ds[n].ask)
    ensures forall k :: 0 <= k < n && ds[k].DoAsk? && SameAskWords(h, ds[k].ask, ds[n].ask) ==>
      Answer(ds[k]).Refused? || k == m || (k > m && Answer(ds[k]) == Reused(ds[m].id))
    ensures Answer(ds[n]).id in At(h, ds, n).drafts
    ensures AddressedAs(At(h, ds, n).drafts[Answer(ds[n]).id], ds[n].ask) <==> SameAddress(ds[m].ask, ds[n].ask)
  {
    var e := ds[n];
    assert Enabled(h, At(h, ds, n), e);
    var id := Answer(e).id;
    assert e.found == Some(id);
    assert id in At(h, ds, n).drafts && Matches(h, At(h, ds, n).drafts[id], e.ask);
    hide At, Runs, Enabled, AnswerTo, DraftFor;
    m := DraftFrom(h, ds, n, id);
    DraftForIs(h, ds[m].ask, ds[m].nonce, ds[m].now);
    hide Creates;
    forall k | 0 <= k < n && ds[k].DoAsk? && SameAskWords(h, ds[k].ask, e.ask)
      ensures Answer(ds[k]).Refused? || k == m || (k > m && Answer(ds[k]) == Reused(ds[m].id))
    {
      OnlyFirstCreates(h, ds, m, k);
    }
  }

  /** Of the asks for the same words only the first answered one creates a draft. */
  lemma OnlyFirstCreates(h: Hash, ds: seq<Event>, m: nat, k: nat)
    requires m < |ds| && k < |ds| && Runs(h, ds) && Creates(ds[m]) && ds[k].DoAsk?
    requires SameAskWords(h, ds[k].ask, ds[m].ask)
    ensures Answer(ds[k]).Refused? || k == m || (k > m && Answer(ds[k]) == Reused(ds[m].id))
  {
    CreatedIs(ds[m]);
    if k > m {
      AskLeavesDraft(h, ds, m);
      hide At, Runs, Creates;
      WordsTaken(h, ds, m + 1, k, ds[m].id);
      FoundAnswer(ds[k]);
    } else if k < m && !Answer(ds[k]).Refused? {
      AskLeavesDraft(h, ds, k);
      hide At, Runs, Creates;
      WordsTaken(h, ds, k + 1, m, Answer(ds[k]).id);
    }
  }

  lemma CreatedIs(e: Event)
    requires Creates(e)
    ensures Answer(e) == Created(e.id) && e.found == None
  {
    hide Failed;
  }

  lemma FoundAnswer(e: Event)
    requires e.DoAsk? && e.found.Some?
    ensures Answer(e).Refused? || Answer(e) == Reused(e.found.value)
  {
    hide Failed;
  }

  // ---------------------------------------------------------------- whether it can still be sent

  /** Somebody signs this envelope. */
  function Signed(s: State, env: Envelope): State
  {
    s.(signed := s.signed + {env.signature})
  }

  /** The device can approve the draft: it is active and the decision can be encoded. */
  predicate CanApprove(s: State, id: Bytes, d: Draft, dev: Bytes)
  {
    dev in s.devices && s.devices[dev].active && Encodable(Decision(APPROVE, id, d.terms, dev))
  }

  lemma PolicyOf(s: State, d: Draft, reading: int)
    requires d.terms.expiresAt.Some? && d.terms.recipient.Some? && d.terms.recipient.value != ""
    ensures (forall r :: !Fails(ContextOf(s, d, reading), r)) <==>
      reading < d.terms.expiresAt.value && (d.terms.kind == "text" ==> WindowOpen(s.windows, d.conv, reading))
  {
    hide WindowOpen;
    var c := ContextOf(s, d, reading);
    assert Fails(c, Expired) <==> reading >= d.terms.expiresAt.value;
    assert Fails(c, WindowClosed) <==> d.terms.kind == "text" && !WindowOpen(s.windows, d.conv, reading);
  }

  /** A draft as `prepare` writes it. */
  ghost predicate Sound(h: Hash, d: Draft)
  {
    && IsPrepared(h, d) && d.terms.expiresAt.Some? && d.terms.recipient.Some? && d.terms.recipient.value != ""
    && |d.terms.nonce.value| == 32
  }

  /** The envelope of an approval by `dev`. */
  function ApprovalBy(s: State, id: Bytes, d: Draft, dev: Bytes): Envelope
    requires dev in s.devices && d.terms.nonce.Some? && Encodable(Decision(APPROVE, id, d.terms, dev))
  {
    Envelope(id, APPROVE, dev, d.terms.nonce.value,
             Signature(s.devices[dev].key, DecisionBytes(Decision(APPROVE, id, d.terms, dev))))
  }

  lemma PassesIff(h: Hash, s: State, env: Envelope, reading: int)
    requires env.draftId in s.drafts && Sound(h, s.drafts[env.draftId])
    ensures var d := s.drafts[env.draftId];
      Passes(h, Signed(s, env), env, reading) ==>
        CanApprove(s, env.draftId, d, env.deviceId)
        && reading < d.terms.expiresAt.value && (d.terms.kind == "text" ==> WindowOpen(s.windows, d.conv, reading))
  {
    hide WindowOpen, DecisionBytes, Encodable, Fails;
    var d := s.drafts[env.draftId];
    PolicyOf(s, d, reading);
    SameContext(s, Signed(s, env), d, reading);
  }

  lemma SameContext(s: State, s': State, d: Draft, reading: int)
    requires s'.windows == s.windows
    ensures ContextOf(s', d, reading) == ContextOf(s, d, reading)
  {
  }

  lemma ApprovalPasses(h: Hash, s: State, id: Bytes, dev: Bytes, reading: int)
    requires id in s.drafts && Sound(h, s.drafts[id]) && CanApprove(s, id, s.drafts[id], dev)
    requires var d := s.drafts[id];
      reading < d.terms.expiresAt.value && (d.terms.kind == "text" ==> WindowOpen(s.windows, d.conv, reading))
    ensures var env := ApprovalBy(s, id, s.drafts[id], dev); Passes(h, Signed(s, env), env, reading)
  {
    var d := s.drafts[id];
    var env := ApprovalBy(s, id, d, dev);
    PolicyOf(s, d, reading);
    SameContext(s, Signed(s, env), d, reading);
    hide WindowOpen, DecisionBytes, Encodable, Fails;
  }

  lemma DraftIsSound(h: Hash, ds: seq<Event>, n: nat, id: Bytes)
    requires n <= |ds| && Runs(h, ds) && id in At(h, ds, n).drafts && At(h, ds, n).drafts[id].terms.bodySha.Some?
    ensures Sound(h, At(h, ds, n).drafts[id])
  {
    hide At, DraftFor;
    var m := DraftFrom(h, ds, n, id);
    DraftForIs(h, ds[m].ask, ds[m].nonce, ds[m].now);
    AnsweredNamesRecipient(ds[m].ask, ds[m].windowOpen, ds[m].found, ds[m].id, ds[m].now);
    hide AnswerTo;
    assert Enabled(h, At(h, ds, m), ds[m]);
  }

  /** Whether the draft an ask is handed can still be sent: some approval of it, with its own nonce, starts a
      send at this reading if and only if the sender is free, the clock is trusted, the nonce has not been
      consumed (the draft was not approved before), the draft has not expired, a text's window is open,
      and some active device can approve it. None of this looks at what the ask wanted. */
  lemma HandedBackSendableIff(h: Hash, ds: seq<Event>, n: nat, id: Bytes, p: SenderId, reading: int)
    requires n <= |ds| && Runs(h, ds) && id in At(h, ds, n).drafts && At(h, ds, n).drafts[id].terms.bodySha.Some?
    ensures var s, d := At(h, ds, n), At(h, ds, n).drafts[id];
      && d.terms.nonce.Some? && d.terms.expiresAt.Some?
      && ((exists env: Envelope :: env.draftId == id && env.nonce == d.terms.nonce.value
             && Authorise(h, Signed(s, env), p, env, reading).1.Started?)
          <==>
          (&& p !in s.flights && Trusted(s.clock, reading) && d.terms.nonce.value !in s.nonces
           && reading < d.terms.expiresAt.value
           && (d.terms.kind == "text" ==> WindowOpen(s.windows, d.conv, reading))
           && exists dev :: CanApprove(s, id, d, dev)))
  {
    hide At, Runs, WindowOpen, Authorise, Passes, CanApprove;
    var s, d := At(h, ds, n), At(h, ds, n).drafts[id];
    DraftIsSound(h, ds, n, id);
    forall env: Envelope | env.draftId == id
      ensures Authorise(h, Signed(s, env), p, env, reading).1.Started? <==>
        && p !in s.flights && Trusted(s.clock, reading) && Passes(h, Signed(s, env), env, reading)
        && |env.nonce| == 32 && env.nonce !in s.nonces
    {
      StartedIff(h, Signed(s, env), p, env, reading);
    }
    if exists env: Envelope :: env.draftId == id && env.nonce == d.terms.nonce.value
         && Authorise(h, Signed(s, env), p, env, reading).1.Started?
    {
      var env: Envelope :| env.draftId == id && env.nonce == d.terms.nonce.value
        && Authorise(h, Signed(s, env), p, env, reading).1.Started?;
      PassesIff(h, s, env, reading);
    }
    if && p !in s.flights && Trusted(s.clock, reading) && d.terms.nonce.value !in s.nonces
       && reading < d.terms.expiresAt.value
       && (d.terms.kind == "text" ==> WindowOpen(s.windows, d.conv, reading))
       && exists dev :: CanApprove(s, id, d, dev)
    {
      var dev :| CanApprove(s, id, d, dev);
      ApproveFacts(s, id, d, dev);
      ApprovalPasses(h, s, id, dev, reading);
      var env := ApprovalBy(s, id, d, dev);
      assert Authorise(h, Signed(s, env), p, env, reading).1.Started?;
    }
  }

  lemma ApproveFacts(s: State, id: Bytes, d: Draft, dev: Bytes)
    requires CanApprove(s, id, d, dev)
    ensures dev in s.devices && Encodable(Decision(APPROVE, id, d.terms, dev))
  {
  }

  // ---------------------------------------------------------------- expired for ever

  /** Templates carry no recipient. */
  ghost predicate AddressedHasWords(drafts: map<Bytes, Draft>)
  {
    forall id :: id in drafts && drafts[id].terms.recipient.Some? ==> drafts[id].terms.bodySha.Some?
  }

  lemma StepAddressed(h: Hash, s: State, e: Event)
    requires AddressedHasWords(s.drafts) && Enabled(h, s, e)
    ensures AddressedHasWords(Step(h, s, e).drafts)
  {
    hide Step, DraftFor, Selected;
    StepDrafts(h, s, e);
    if Creates(e) { DraftForIs(h, e.ask, e.nonce, e.now); }
  }

  lemma {:induction false} RunAddressed(h: Hash, ds: seq<Event>, n: nat)
    requires n <= |ds| && Runs(h, ds)
    ensures AddressedHasWords(At(h, ds, n).drafts)
  {
    hide Step, Enabled;
    if n > 0 {
      hide AddressedHasWords;
      RunAddressed(h, ds, n - 1);
      StepAddressed(h, At(h, ds, n - 1), ds[n - 1]);
    }
  }

  /** Whatever is sent of some words is sent before the expiry that the first answered ask for them set;
      every later ask for them is refused or handed that draft, so none can move it. */
  lemma SentBeforeFirstExpiry(h: Hash, ds: seq<Event>, n: nat) returns (m: nat)
    requires n < |ds| && Runs(h, ds) && ds[n].Other? && ds[n].send.DoAuthorise?
    requires Send.Step(h, At(h, ds, n), ds[n].send).1.Started?
    ensures m < n && Creates(ds[m]) && ds[m].id == ds[n].send.env.draftId
    ensures ds[n].send.reading < ExpiryOf(ds[m].ask, ds[m].now)
    ensures forall k :: m < k < |ds| && ds[k].DoAsk? && SameAskWords(h, ds[k].ask, ds[m].ask) ==>
      Answer(ds[k]).Refused? || Answer(ds[k]) == Reused(ds[m].id)
  {
    hide At, Runs, DraftFor, Authorise, AnswerTo;
    var s, e := At(h, ds, n), ds[n].send;
    StartedIff(h, s, e.sender, e.env, e.reading);
    RunAddressed(h, ds, n);
    var id := e.env.draftId;
    PassedDraft(h, s, e.env, e.reading);
    hide Passes;
    m := DraftFrom(h, ds, n, id);
    DraftForIs(h, ds[m].ask, ds[m].nonce, ds[m].now);
    hide Creates;
    forall k | m < k < |ds| && ds[k].DoAsk? && SameAskWords(h, ds[k].ask, ds[m].ask)
      ensures Answer(ds[k]).Refused? || Answer(ds[k]) == Reused(ds[m].id)
    {
      OnlyFirstCreates(h, ds, m, k);
    }
  }

  lemma PassedDraft(h: Hash, s: State, env: Envelope, reading: int)
    requires Passes(h, s, env, reading)
    ensures env.draftId in s.drafts
    ensures var d := s.drafts[env.draftId];
      d.terms.recipient.Some? && (d.terms.expiresAt.Some? ==> reading < d.terms.expiresAt.value)
  {
    var c := ContextOf(s, s.drafts[env.draftId], reading);
    assert !Fails(c, RecipientUnbound) && !Fails(c, Expired);
  }

  /** And it happens: any answered ask, asked again when its draft has expired, is handed the expired draft,
      although no approval of it can start a send any more. */
  lemma ExpiredHandedBack(h: Hash, a: Ask, b: Ask, id: Bytes, other: Bytes, nonce: Bytes, now: int, later: int)
    returns (ds: seq<Event>)
    requires Failed(AskContext(a, true, now)) == [] && Failed(AskContext(b, true, later)) == []
    requires SameAskWords(h, a, b) && id != other && |nonce| == 32 && later >= ExpiryOf(a, now)
    ensures |ds| == 2 && Runs(h, ds) && ds[1].DoAsk? && ds[1].ask == b && ds[1].now == later
    ensures Answer(ds[1]) == Reused(id)
    ensures forall env: Envelope, p, reading :: env.draftId == id && reading >= later ==>
      !Authorise(h, Signed(At(h, ds, 2), env), p, env, reading).1.Started?
  {
    hide Failed;
    var e1, e2 := DoAsk(a, true, now, id, nonce, None), DoAsk(b, true, later, other, nonce, Some(id));
    ds := [e1, e2];
    AnsweredNamesRecipient(a, true, None, id, now);
    DraftForIs(h, a, nonce, now);
    hide DraftFor;
    var d := DraftFor(h, a, nonce, now);
    assert At(h, ds, 1).drafts == map[id := d];
    assert Enabled(h, At(h, ds, 0), e1);
    assert Enabled(h, At(h, ds, 1), e2);
    assert At(h, ds, 2).drafts == map[id := d];
    hide At, Runs;
    var s := At(h, ds, 2);
    forall env: Envelope, p, reading | env.draftId == id && reading >= later
      ensures !Authorise(h, Signed(s, env), p, env, reading).1.Started?
    {
      LateNotPassed(h, Signed(s, env), env, reading);
      StartedIff(h, Signed(s, env), p, env, reading);
    }
  }

  lemma LateNotPassed(h: Hash, s: State, env: Envelope, reading: int)
    requires env.draftId in s.drafts && s.drafts[env.draftId].terms.expiresAt.Some?
    requires reading >= s.drafts[env.draftId].terms.expiresAt.value
    ensures !Passes(h, s, env, reading)
  {
    assert Fails(ContextOf(s, s.drafts[env.draftId], reading), Expired);
  }

  // ---------------------------------------------------------------- one call for the same words

  /** Every call carries the body of its attempt's draft. */
  ghost predicate CallsCarry(s: State)
  {
    forall i :: 0 <= i < |s.calls| ==>
      && s.calls[i].attempt in s.attempts && s.attempts[s.calls[i].attempt].draftId in s.drafts
      && s.calls[i].body == BodyOf(s.drafts[s.attempts[s.calls[i].attempt].draftId])
  }

  /** Attempts keep their drafts. */
  lemma AttemptStays(h: Hash, s: State, x: Send.Event, a: AttemptId)
    requires Send.Inv(s) && a in s.attempts
    ensures a in Send.Step(h, s, x).0.attempts && Send.Step(h, s, x).0.attempts[a].draftId == s.attempts[a].draftId
  {
    hide Send.Inv, Authorise, Post, Finish, Recover, StatusEvent;
    match x
    case DoAuthorise(p, env, reading) => AuthoriseKeepsAttempt(h, s, p, env, reading, a);
    case DoPost(p, answer) => PostAttempts(s, p, answer);
    case DoFinish(p) => FinishKeepsAttempt(s, p, a);
    case DoRecover => RecoverKeepsAttempt(s, a);
    case DoStatus(callback, wamid) => StatusKeepsAttempt(s, callback, wamid, a);
    case _ =>
  }

  lemma AuthoriseKeepsAttempt(h: Hash, s: State, p: SenderId, env: Envelope, reading: int, a: AttemptId)
    requires Send.Inv(s) && a in s.attempts
    ensures var s' := Authorise(h, s, p, env, reading).0; a in s'.attempts && s'.attempts[a] == s.attempts[a]
  {
    hide Check, Trusted, FlightsOk, CallsOk;
    assert a < s.next;
    hide AttemptsOk;
  }

  lemma FinishKeepsAttempt(s: State, p: SenderId, a: AttemptId)
    requires a in s.attempts
    ensures a in Finish(s, p).attempts && Finish(s, p).attempts[a].draftId == s.attempts[a].draftId
  {
  }

  lemma RecoverKeepsAttempt(s: State, a: AttemptId)
    requires a in s.attempts
    ensures a in Recover(s).attempts && Recover(s).attempts[a].draftId == s.attempts[a].draftId
  {
  }

  lemma StatusKeepsAttempt(s: State, callback: Option<AttemptId>, wamid: Option<Bytes>, a: AttemptId)
    requires a in s.attempts
    ensures var s' := StatusEvent(s, callback, wamid).0;
      a in s'.attempts && s'.attempts[a].draftId == s.attempts[a].draftId
  {
    hide KnownWamid;
  }

  lemma StepCarries(h: Hash, s: State, x: Send.Event)
    requires Send.Inv(s) && CallsCarry(s)
    ensures CallsCarry(Send.Step(h, s, x).0)
  {
    hide Send.Inv, Send.Step, BodyOf;
    var s' := Send.Step(h, s, x).0;
    StepKeepsCalls(h, s, x);
    forall i | 0 <= i < |s'.calls|
      ensures s'.calls[i].attempt in s'.attempts && s'.attempts[s'.calls[i].attempt].draftId in s'.drafts
        && s'.calls[i].body == BodyOf(s'.drafts[s'.attempts[s'.calls[i].attempt].draftId])
    {
      if i >= |s.calls| { StepCalls(h, s, x); }
      var a := s'.calls[i].attempt;
      AttemptStays(h, s, x, a);
      Send.StepDrafts(h, s, x, s.attempts[a].draftId);
    }
  }

  lemma {:induction false} RunCarries(h: Hash, es: seq<Send.Event>, n: nat)
    requires n <= |es|
    ensures CallsCarry(Send.At(h, es, n))
  {
    hide Send.Step, Send.Inv;
    if n > 0 {
      hide CallsCarry;
      RunCarries(h, es, n - 1);
      Send.RunKeeps(h, es, n - 1);
      StepCarries(h, Send.At(h, es, n - 1), es[n - 1]);
    }
  }

  /** Every provider call is for a draft an ask created. */
  lemma CallHasWords(h: Hash, ds: seq<Event>, n: nat, i: nat)
    requires n <= |ds| && Runs(h, ds) && i < |At(h, ds, n).calls|
    ensures var s := At(h, ds, n); var a := s.calls[i].attempt;
      && a in s.attempts && s.attempts[a].draftId in s.drafts && s.drafts[s.attempts[a].draftId].terms.bodySha.Some?
      && s.calls[i].body == BodyOf(s.drafts[s.attempts[a].draftId])
  {
    hide At, Send.At, Runs, BodyOf, Send.Step;
    Projects(h, ds, n);
    var es, s := SendRun(h, ds), At(h, ds, n);
    RunCarries(h, es, n);
    var a := s.calls[i].attempt;
    var k := AttemptFrom(h, es, n, a);
    Projects(h, ds, k);
    var id := s.attempts[a].draftId;
    StartedAddressed(h, es, k);
    Send.DraftsStay(h, es, k, n, id);
    RunAddressed(h, ds, n);
  }

  lemma StartedAddressed(h: Hash, es: seq<Send.Event>, k: nat)
    requires k < |es| && es[k].DoAuthorise? && Out(h, es, k).Started?
    ensures var s, id := Send.At(h, es, k), es[k].env.draftId; id in s.drafts && s.drafts[id].terms.recipient.Some?
  {
    hide Send.At, Authorise, Passes;
    AuthoriseOut(h, es, k);
    StartedIff(h, Send.At(h, es, k), es[k].sender, es[k].env, es[k].reading);
    PassedDraft(h, Send.At(h, es, k), es[k].env, es[k].reading);
  }

  /** If every envelope carries its draft's nonce, the provider is called at most once, over a whole run, with
      the same words for the same conversation, however often they are asked for. */
  lemma OneCallPerWords(h: Hash, ds: seq<Event>, n: nat, i: nat, j: nat)
    requires n <= |ds| && Runs(h, ds) && HonestNonces(h, SendRun(h, ds))
    requires i < |At(h, ds, n).calls| && j < |At(h, ds, n).calls|
    ensures var s := At(h, ds, n);
      && s.calls[i].attempt in s.attempts && s.calls[j].attempt in s.attempts
      && var d, e := s.attempts[s.calls[i].attempt].draftId, s.attempts[s.calls[j].attempt].draftId;
         && d in s.drafts && e in s.drafts
         && (s.drafts[d].conv == s.drafts[e].conv && s.calls[i].body == s.calls[j].body ==> i == j)
  {
    hide At, Send.At, Runs, HonestNonces;
    CallHasWords(h, ds, n, i);
    CallHasWords(h, ds, n, j);
    var s := At(h, ds, n);
    var d, e := s.attempts[s.calls[i].attempt].draftId, s.attempts[s.calls[j].attempt].draftId;
    DraftIsSound(h, ds, n, d);
    DraftIsSound(h, ds, n, e);
    OneDraftPerWords(h, ds, n);
    Projects(h, ds, n);
    AtMostOncePerDraft(h, SendRun(h, ds), n, i, j);
  }
}
