/** The send path (approval/sender.py with drafts.py, devices.py and reconcile.py): check an approval,
    consume its nonce and open an attempt in one commit, then call the provider, then record the
    result. Any number of senders may be in flight; the process may die between any two steps.

    SHA-256 is a parameter `h` about which nothing is assumed. A signature is genuine only if its key's
    device signed its bytes. */
module Send {
  import opened Prelude
  import opened Encoding
  import opened Policy
  import opened Devices

  type ConvId = nat
  type AttemptId = nat
  type SenderId = nat
  type Hash = Bytes -> Bytes

  const WINDOW_MS := 24 * 3600 * 1000
  const DEFAULT_TTL := 15 * 60 * 1000
  const APPROVE: Bytes := "APPROVE"

  datatype Draft = Draft(conv: ConvId, body: Option<Bytes>, terms: Terms)
  datatype Envelope = Envelope(draftId: Bytes, verdict: Bytes, deviceId: Bytes, nonce: Bytes, signature: Signature)

  datatype AttemptState = Submitting | Submitted | FailedState | Indeterminate
  datatype Attempt = Attempt(draftId: Bytes, nonce: Bytes, state: AttemptState, wamid: Option<Bytes>)

  /** One call of `send_text`, with the attempt it was made for. */
  datatype Call = Call(attempt: AttemptId, phone: Bytes, recipient: Bytes, body: Bytes)

  /** What the provider answered. */
  datatype Answer = Accepted(wamid: Option<Bytes>) | Rejected | TimedOut | NoConnection

  /** Where a running `execute_write` stands after its commit. */
  datatype Flight = ToPost(attempt: AttemptId) | Posted(attempt: AttemptId, answer: Answer)

  datatype State = State(
    drafts: map<Bytes, Draft>,
    devices: map<Bytes, Device>,
    signed: set<Signature>,
    windows: map<ConvId, int>,
    nonces: map<Bytes, Bytes>,
    attempts: map<AttemptId, Attempt>,
    calls: seq<Call>,
    flights: map<SenderId, Flight>,
    candidates: nat,
    clock: Option<int>,
    next: nat)

  datatype Denial =
    | UnknownDraft | NotApproved | DeviceNotActive | SignatureInvalid | PayloadChanged
    | PolicyFailed(first: Reason) | AlreadyConsumed

  datatype Output = Nothing | ClockUntrusted | CannotEncode | Denied(why: Denial) | Started(attempt: AttemptId)
    | Resolved | PossibleMatch

  // ---------------------------------------------------------------- checking an envelope

  /** `_canonical_fields` */
  function DecisionOf(env: Envelope, d: Draft): Decision
  {
    Decision(env.verdict, env.draftId, d.terms, env.deviceId)
  }

  predicate Verifies(s: State, payload: Bytes, sig: Signature, key: Bytes)
  {
    sig == Signature(key, payload) && sig in s.signed
  }

  function BodyOf(d: Draft): Bytes
  {
    Slot(d.body)
  }

  /** `_window_open` */
  predicate WindowOpen(windows: map<ConvId, int>, conv: ConvId, now: int)
  {
    var last := if conv in windows then windows[conv] else 0;
    last > 0 && now < last + WINDOW_MS
  }

  function ContextOf(s: State, d: Draft, now: int): Context
  {
    Context(d.terms.recipient, d.terms.kind, WindowOpen(s.windows, d.conv, now), true, Some(now), d.terms.expiresAt,
      true, true, false)
  }

  /** Everything `execute_write` checks before it writes, in its order. */
  function Check(h: Hash, s: State, env: Envelope, now: int): Option<Output>
  {
    if env.draftId !in s.drafts then Some(Denied(UnknownDraft))
    else
      var d := s.drafts[env.draftId];
      if env.verdict != APPROVE then Some(Denied(NotApproved))
      else if ActiveKey(s.devices, env.deviceId) == None then Some(Denied(DeviceNotActive))
      else if !Encodable(DecisionOf(env, d)) then Some(CannotEncode)
      else if !Verifies(s, DecisionBytes(DecisionOf(env, d)), env.signature, ActiveKey(s.devices, env.deviceId).value)
      then Some(Denied(SignatureInvalid))
      else if d.terms.bodySha.Some? && h(BodyOf(d)) != d.terms.bodySha.value then Some(Denied(PayloadChanged))
      else if Failed(ContextOf(s, d, now)) != [] then Some(Denied(PolicyFailed(Failed(ContextOf(s, d, now))[0])))
      else None
  }

  // ---------------------------------------------------------------- steps

  /** `execute_write` up to its commit. The nonce consumed is the envelope's, not the draft's. A nonce
      that is not 32 bytes violates a column check, which the code reports as already consumed. */
  function Authorise(h: Hash, s0: State, p: SenderId, env: Envelope, reading: int): (State, Output)
  {
    if p in s0.flights then (s0, Nothing)
    else if !Trusted(s0.clock, reading) then (s0, ClockUntrusted)
    else
      var s := s0.(clock := Some(reading));
      if Check(h, s, env, reading).Some? then (s, Check(h, s, env, reading).value)
      else if |env.nonce| != 32 || env.nonce in s.nonces then (s, Denied(AlreadyConsumed))
      else
        (s.(nonces := s.nonces[env.nonce := env.draftId],
            attempts := s.attempts[s.next := Attempt(env.draftId, env.nonce, Submitting, None)],
            flights := s.flights[p := ToPost(s.next)],
            next := s.next + 1),
         Started(s.next))
  }

  function CallFor(s: State, a: AttemptId): Call
    requires a in s.attempts && s.attempts[a].draftId in s.drafts
  {
    var d := s.drafts[s.attempts[a].draftId];
    Call(a, d.terms.phone, Slot(d.terms.recipient), BodyOf(d))
  }

  /** The provider call, with retries disabled. */
  function Post(s: State, p: SenderId, answer: Answer): State
  {
    if p in s.flights && s.flights[p].ToPost? && s.flights[p].attempt in s.attempts
       && s.attempts[s.flights[p].attempt].draftId in s.drafts
    then
      var a := s.flights[p].attempt;
      s.(calls := s.calls + [CallFor(s, a)], flights := s.flights[p := Posted(a, answer)])
    else s
  }

  function Finished(t: Attempt, answer: Answer): Attempt
  {
    match answer
    case Accepted(wamid) => t.(state := Submitted, wamid := wamid)
    case Rejected => t.(state := FailedState)
    case NoConnection => t.(state := FailedState)
    case TimedOut => t.(state := Indeterminate)
  }

  function Finish(s: State, p: SenderId): State
  {
    if p in s.flights && s.flights[p].Posted? && s.flights[p].attempt in s.attempts then
      var a := s.flights[p].attempt;
      s.(attempts := s.attempts[a := Finished(s.attempts[a], s.flights[p].answer)], flights := s.flights - {p})
    else s
  }

  /** The process dies: flights and the clock guard are gone, committed rows stay. */
  function Crash(s: State): State
  {
    s.(flights := map[], clock := None)
  }

  /** `recover_startup` */
  function Recover(s: State): State
  {
    s.(attempts := map a | a in s.attempts ::
         if s.attempts[a].state == Submitting then s.attempts[a].(state := Indeterminate) else s.attempts[a])
  }

  predicate KnownWamid(s: State, wamid: Option<Bytes>)
  {
    wamid.Some? && wamid.value != "" && exists a :: a in s.attempts && s.attempts[a].wamid == wamid
  }

  /** `on_status_event`: by callback, then by wamid, else a candidate for a human. */
  function StatusEvent(s: State, callback: Option<AttemptId>, wamid: Option<Bytes>): (State, Output)
  {
    if callback.Some? && callback.value in s.attempts && s.attempts[callback.value].state == Indeterminate then
      (s.(attempts := s.attempts[callback.value := s.attempts[callback.value].(state := Submitted, wamid := wamid)]),
        Resolved)
    else if KnownWamid(s, wamid) then (s, Resolved)
    else (s.(candidates := s.candidates + 1), PossibleMatch)
  }

  /** The draft `prepare` writes once its policy check has passed. */
  function Prepare(h: Hash, conv: ConvId, account: Bytes, phone: Bytes, recipient: Bytes, body: Bytes, kind: Bytes,
                   nonce: Bytes, now: int, expires: Option<int>): (d: Draft)
    ensures IsPrepared(h, d)
  {
    Draft(conv, Some(body),
          Terms(account, phone, Some(recipient), Some(h(body)), kind, None, None, None, None,
                Some(h("WHATSVAULT-ATTACHMENTS-V1\n")), Some(nonce), Some(now),
                Some(if expires.Some? && expires.value != 0 then expires.value else now + DEFAULT_TTL)))
  }

  /** One call of `prepare`. */
  datatype Ask = Ask(
    conv: ConvId, account: Bytes, phone: Bytes, recipient: Option<Bytes>, body: Bytes, kind: Bytes,
    expires: Option<int>)

  datatype Prepared = Refused(why: Reason) | Reused(id: Bytes) | Created(id: Bytes)

  /** What the policy is asked at that stage: the draft cannot have expired yet. */
  function AskContext(a: Ask, windowOpen: bool, now: int): Context
  {
    Context(a.recipient, a.kind, windowOpen, true, Some(now), Some(now + 1), true, true, false)
  }

  /** The drafts its SELECT matches. No draft ever leaves PENDING_APPROVAL. */
  predicate Matches(h: Hash, d: Draft, a: Ask)
  {
    d.conv == a.conv && d.terms.bodySha == Some(h(a.body))
  }

  /** `found` is a row that SELECT may return. */
  ghost predicate Selected(h: Hash, drafts: map<Bytes, Draft>, a: Ask, found: Option<Bytes>)
  {
    match found
    case Some(id) => id in drafts && Matches(h, drafts[id], a)
    case None => forall id :: id in drafts ==> !Matches(h, drafts[id], a)
  }

  function DraftFor(h: Hash, a: Ask, nonce: Bytes, now: int): Draft
    requires a.recipient.Some?
  {
    Prepare(h, a.conv, a.account, a.phone, a.recipient.value, a.body, a.kind, nonce, now, a.expires)
  }

  /** A pending draft is reused for the same words in the same conversation, whoever they are for now: the
      draft returned keeps the recipient, phone number and kind it was first prepared with. */
  lemma ReuseIgnoresRecipient(h: Hash, drafts: map<Bytes, Draft>, id: Bytes, a: Ask, b: Ask, nonce: Bytes, now: int)
    requires a.recipient.Some? && b.conv == a.conv && b.body == a.body
    requires forall k :: k in drafts ==> !Matches(h, drafts[k], a)
    ensures var drafts' := drafts[id := DraftFor(h, a, nonce, now)];
      forall found :: Selected(h, drafts', b, found) <==> found == Some(id)
    ensures DraftFor(h, a, nonce, now).terms.recipient == a.recipient
  {
    var drafts' := drafts[id := DraftFor(h, a, nonce, now)];
    assert Matches(h, drafts'[id], b);
    forall found ensures Selected(h, drafts', b, found) <==> found == Some(id) {
      match found
      case None => assert id in drafts';
      case Some(k) => assert k in drafts' && k != id ==> !Matches(h, drafts'[k], b);
    }
  }

  predicate AddressedAs(d: Draft, a: Ask)
  {
    d.terms.recipient == a.recipient && d.terms.phone == a.phone && d.terms.account == a.account &&
      d.terms.kind == a.kind
  }

  /** What `prepare` answers when its SELECT returns `found`. */
  function AnswerTo(a: Ask, windowOpen: bool, found: Option<Bytes>, id: Bytes, now: int): Prepared
  {
    var failed := Failed(AskContext(a, windowOpen, now));
    if failed != [] then Refused(failed[0]) else if found.Some? then Reused(found.value) else Created(id)
  }

  /** Only an ask that names a recipient gets past the policy. */
  lemma AnsweredNamesRecipient(a: Ask, windowOpen: bool, found: Option<Bytes>, id: Bytes, now: int)
    requires !AnswerTo(a, windowOpen, found, id, now).Refused?
    ensures a.recipient.Some? && a.recipient.value != ""
  {
    hide Failed;
    FailedExact(AskContext(a, windowOpen, now), RecipientUnbound);
  }

  /** The ask names a recipient, and if it is a text the window is open. */
  predicate Allowed(a: Ask, windowOpen: bool)
  {
    a.recipient.Some? && a.recipient.value != "" && (a.kind != "text" || windowOpen)
  }

  /** An ask is refused if and only if it names no recipient or is a text while the window is closed; otherwise it is
      handed the draft that was found, or a new one if none was. */
  lemma AskAnswered(a: Ask, windowOpen: bool, found: Option<Bytes>, id: Bytes, now: int)
    ensures var r := AnswerTo(a, windowOpen, found, id, now);
      && (r == Refused(RecipientUnbound) <==> a.recipient == None || a.recipient.value == "")
      && (r == Refused(WindowClosed) <==>
            a.recipient.Some? && a.recipient.value != "" && a.kind == "text" && !windowOpen)
      && (r.Refused? <==> !Allowed(a, windowOpen))
      && (r.Reused? <==> Allowed(a, windowOpen) && found.Some?) && (r.Reused? ==> found == Some(r.id))
      && (r == Created(id) <==> Allowed(a, windowOpen) && found == None)
  {
    var c := AskContext(a, windowOpen, now);
    assert Fails(c, RecipientUnbound) <==> a.recipient == None || a.recipient.value == "";
    assert Fails(c, WindowClosed) <==> a.kind == "text" && !windowOpen;
    assert !Fails(c, AccountBinding) && !Fails(c, Expired) && !Fails(c, DeviceInactive) && !Fails(c, RateLimit);
    assert !Fails(c, GroupRecipient);
    hide Fails;
  }

  /** The draft's hash is that of its own body. */
  predicate IsPrepared(h: Hash, d: Draft)
  {
    d.body.Some? && d.terms.bodySha == Some(h(d.body.value)) && d.terms.nonce.Some?
  }

  // ---------------------------------------------------------------- runs

  datatype Event =
    | DoPrepare(id: Bytes, draft: Draft)
    | DoEnroll(deviceId: Bytes, key: Bytes)
    | DoRevoke(deviceId: Bytes)
    | DoSign(sig: Signature)
    | DoWindows(windows: map<ConvId, int>)
    | DoAuthorise(sender: SenderId, env: Envelope, reading: int)
    | DoPost(sender: SenderId, answer: Answer)
    | DoFinish(sender: SenderId)
    | DoCrash
    | DoRecover
    | DoStatus(callback: Option<AttemptId>, wamid: Option<Bytes>)

  function Step(h: Hash, s: State, e: Event): (State, Output)
  {
    match e
    case DoPrepare(id, d) => (if id in s.drafts then s else s.(drafts := s.drafts[id := d]), Nothing)
    case DoEnroll(id, key) =>
      (if id in s.devices then s else s.(devices := s.devices[id := Device(key, true)]), Nothing)
    case DoRevoke(id) =>
      (if id in s.devices then s.(devices := s.devices[id := s.devices[id].(active := false)]) else s, Nothing)
    case DoSign(sig) => (s.(signed := s.signed + {sig}), Nothing)
    case DoWindows(w) => (s.(windows := w), Nothing)
    case DoAuthorise(p, env, reading) => Authorise(h, s, p, env, reading)
    case DoPost(p, answer) => (Post(s, p, answer), Nothing)
    case DoFinish(p) => (Finish(s, p), Nothing)
    case DoCrash => (Crash(s), Nothing)
    case DoRecover => (Recover(s), Nothing)
    case DoStatus(callback, wamid) => StatusEvent(s, callback, wamid)
  }

  const EMPTY := State(map[], map[], {}, map[], map[], map[], [], map[], 0, None, 0)

  function At(h: Hash, es: seq<Event>, n: nat): State
    requires n <= |es|
  {
    if n == 0 then EMPTY else Step(h, At(h, es, n - 1), es[n - 1]).0
  }

  function Out(h: Hash, es: seq<Event>, i: nat): Output
    requires i < |es|
  {
    Step(h, At(h, es, i), es[i]).1
  }

  // ---------------------------------------------------------------- at most once

  /** Attempts and consumed nonces correspond one to one. */
  ghost predicate AttemptsOk(attempts: map<AttemptId, Attempt>, nonces: map<Bytes, Bytes>, drafts: map<Bytes, Draft>,
      next: nat)
  {
    && (forall a :: a in attempts ==>
          && a < next && attempts[a].draftId in drafts && |attempts[a].nonce| == 32
          && attempts[a].nonce in nonces && nonces[attempts[a].nonce] == attempts[a].draftId)
    && (forall a, b :: a in attempts && b in attempts && attempts[a].nonce == attempts[b].nonce ==> a == b)
  }

  ghost predicate FlightsOk(flights: map<SenderId, Flight>, attempts: map<AttemptId, Attempt>)
  {
    && (forall p :: p in flights ==> flights[p].attempt in attempts)
    && (forall p, q :: p in flights && q in flights && flights[p].attempt == flights[q].attempt ==> p == q)
  }

  /** Each call belongs to a committed attempt, no attempt has two, and one still to be posted has none. */
  ghost predicate CallsOk(calls: seq<Call>, attempts: map<AttemptId, Attempt>, flights: map<SenderId, Flight>)
  {
    && (forall i :: 0 <= i < |calls| ==> calls[i].attempt in attempts)
    && (forall i, j :: 0 <= i < j < |calls| ==> calls[i].attempt != calls[j].attempt)
    && (forall i, p :: 0 <= i < |calls| && p in flights && flights[p].ToPost? ==>
       calls[i].attempt != flights[p].attempt)
  }

  ghost predicate Inv(s: State)
  {
    && AttemptsOk(s.attempts, s.nonces, s.drafts, s.next)
    && FlightsOk(s.flights, s.attempts)
    && CallsOk(s.calls, s.attempts, s.flights)
  }

  lemma OpenAttempt(s: State, p: SenderId, draftId: Bytes, nonce: Bytes)
    requires Inv(s) && draftId in s.drafts && |nonce| == 32 && nonce !in s.nonces && p !in s.flights
    ensures Inv(s.(nonces := s.nonces[nonce := draftId],
                   attempts := s.attempts[s.next := Attempt(draftId, nonce, Submitting, None)],
                   flights := s.flights[p := ToPost(s.next)],
                   next := s.next + 1))
  {
    assert s.next !in s.attempts;
    hide AttemptsOk, FlightsOk, CallsOk;
    OpenAttempts(s.attempts, s.nonces, s.drafts, s.next, draftId, nonce);
    OpenFlight(s.flights, s.attempts, s.calls, p, s.next, Attempt(draftId, nonce, Submitting, None));
  }

  lemma OpenAttempts(attempts: map<AttemptId, Attempt>, nonces: map<Bytes, Bytes>, drafts: map<Bytes, Draft>,
      next: nat, draftId: Bytes, nonce: Bytes)
    requires AttemptsOk(attempts, nonces, drafts, next) && draftId in drafts && |nonce| == 32 && nonce !in nonces
    ensures AttemptsOk(attempts[next := Attempt(draftId, nonce, Submitting, None)], nonces[nonce := draftId], drafts,
      next + 1)
  {
  }

  lemma OpenFlight(flights: map<SenderId, Flight>, attempts: map<AttemptId, Attempt>, calls: seq<Call>, p: SenderId,
      a: AttemptId, t: Attempt)
    requires FlightsOk(flights, attempts) && CallsOk(calls, attempts, flights) && a !in attempts && p !in flights
    ensures FlightsOk(flights[p := ToPost(a)], attempts[a := t])
    ensures CallsOk(calls, attempts[a := t], flights[p := ToPost(a)])
  {
  }

  lemma AuthoriseKeeps(h: Hash, s: State, p: SenderId, env: Envelope, reading: int)
    requires Inv(s)
    ensures Inv(Authorise(h, s, p, env, reading).0)
  {
    hide AttemptsOk, FlightsOk, CallsOk, ContextOf, Failed, DecisionBytes, Encodable, ActiveKey, Verifies;
    var s1 := s.(clock := Some(reading));
    if p !in s.flights && Trusted(s.clock, reading) && Check(h, s1, env, reading) == None
       && |env.nonce| == 32 && env.nonce !in s.nonces {
      assert env.draftId in s.drafts;
      OpenAttempt(s1, p, env.draftId, env.nonce);
    }
  }

  lemma PostKeeps(s: State, p: SenderId, answer: Answer)
    requires Inv(s)
    ensures Inv(Post(s, p, answer))
  {
    hide AttemptsOk;
  }

  lemma SameIdentity(s: State, attempts': map<AttemptId, Attempt>)
    requires Inv(s)
    requires forall a :: a in attempts' <==> a in s.attempts
    requires forall a :: a in attempts' ==>
      attempts'[a] == s.attempts[a].(state := attempts'[a].state, wamid := attempts'[a].wamid)
    ensures Inv(s.(attempts := attempts'))
  {
  }

  lemma FinishKeeps(s: State, p: SenderId)
    requires Inv(s)
    ensures Inv(Finish(s, p))
  {
    hide Inv;
    if p in s.flights && s.flights[p].Posted? && s.flights[p].attempt in s.attempts {
      var attempts' := Finish(s, p).attempts;
      SameIdentity(s, attempts');
      LandKeeps(s.(attempts := attempts'), p);
    }
  }

  lemma LandKeeps(s: State, p: SenderId)
    requires Inv(s)
    ensures Inv(s.(flights := s.flights - {p}))
  {
    hide AttemptsOk;
  }

  lemma RecoverKeeps(s: State)
    requires Inv(s)
    ensures Inv(Recover(s))
  {
    hide Inv;
    SameIdentity(s, Recover(s).attempts);
  }

  lemma CountCandidate(s: State)
    requires Inv(s)
    ensures Inv(s.(candidates := s.candidates + 1))
  {
    hide AttemptsOk, FlightsOk, CallsOk;
  }

  lemma StatusKeeps(s: State, callback: Option<AttemptId>, wamid: Option<Bytes>)
    requires Inv(s)
    ensures Inv(StatusEvent(s, callback, wamid).0)
  {
    hide KnownWamid, Inv;
    CountCandidate(s);
    if callback.Some? && callback.value in s.attempts {
      var t := s.attempts[callback.value].(state := Submitted, wamid := wamid);
      SameIdentity(s, s.attempts[callback.value := t]);
    }
  }

  lemma StepKeeps(h: Hash, s: State, e: Event)
    requires Inv(s)
    ensures Inv(Step(h, s, e).0)
  {
    hide AttemptsOk, FlightsOk, CallsOk, Authorise, Post, Finish, Recover, StatusEvent;
    match e
    case DoAuthorise(p, env, reading) => AuthoriseKeeps(h, s, p, env, reading);
    case DoPost(p, answer) => PostKeeps(s, p, answer);
    case DoFinish(p) => FinishKeeps(s, p);
    case DoRecover => RecoverKeeps(s);
    case DoStatus(callback, wamid) => StatusKeeps(s, callback, wamid);
    case DoPrepare(id, d) => PrepareKeeps(s.attempts, s.nonces, s.drafts, s.next, id, d);
    case DoCrash => CrashKeeps(s.attempts, s.flights, s.calls);
    case _ =>
  }

  lemma PrepareKeeps(attempts: map<AttemptId, Attempt>, nonces: map<Bytes, Bytes>, drafts: map<Bytes, Draft>,
      next: nat, id: Bytes, d: Draft)
    requires AttemptsOk(attempts, nonces, drafts, next)
    ensures AttemptsOk(attempts, nonces, drafts[id := d], next)
  {
  }

  lemma CrashKeeps(attempts: map<AttemptId, Attempt>, flights: map<SenderId, Flight>, calls: seq<Call>)
    requires CallsOk(calls, attempts, flights)
    ensures CallsOk(calls, attempts, map[]) && FlightsOk(map[], attempts)
  {
  }

  lemma {:induction false} RunKeeps(h: Hash, es: seq<Event>, n: nat)
    requires n <= |es|
    ensures Inv(At(h, es, n))
  {
    hide Step;
    if n > 0 {
      hide Inv;
      RunKeeps(h, es, n - 1);
      StepKeeps(h, At(h, es, n - 1), es[n - 1]);
    }
  }

  /** Each consumed nonce has at most one provider call, and every call belongs to a committed attempt. */
  lemma AtMostOncePerNonce(h: Hash, es: seq<Event>, n: nat, i: nat, j: nat)
    requires n <= |es| && i < |At(h, es, n).calls| && j < |At(h, es, n).calls|
    ensures var s := At(h, es, n);
      && s.calls[i].attempt in s.attempts && s.calls[j].attempt in s.attempts
      && s.attempts[s.calls[i].attempt].nonce in s.nonces
      && (s.attempts[s.calls[i].attempt].nonce == s.attempts[s.calls[j].attempt].nonce ==> i == j)
  {
    hide At;
    RunKeeps(h, es, n);
  }

  /** The call is made from a state that already holds the committed attempt, still submitting unless
      recovery or a status event got there first, and its nonce. */
  lemma CallFollowsCommit(h: Hash, es: seq<Event>, n: nat)
    requires n < |es| && |At(h, es, n + 1).calls| > |At(h, es, n).calls|
    ensures var s, s' := At(h, es, n), At(h, es, n + 1);
      && es[n].DoPost? && es[n].sender in s.flights
      && s'.calls == s.calls + [s'.calls[|s.calls|]]
      && s'.calls[|s.calls|].attempt in s.attempts
      && s.attempts[s'.calls[|s.calls|].attempt].nonce in s.nonces
      && (forall i :: 0 <= i < |s.calls| ==> s.calls[i].attempt != s'.calls[|s.calls|].attempt)
  {
    hide At, Step;
    RunKeeps(h, es, n);
    AtNext(h, es, n);
    StepCalls(h, At(h, es, n), es[n]);
  }

  lemma StepCalls(h: Hash, s: State, e: Event)
    requires |Step(h, s, e).0.calls| > |s.calls|
    ensures e.DoPost? && e.sender in s.flights && s.flights[e.sender].ToPost?
    ensures s.flights[e.sender].attempt in s.attempts && s.attempts[s.flights[e.sender].attempt].draftId in s.drafts
    ensures Step(h, s, e).0.calls == s.calls + [CallFor(s, s.flights[e.sender].attempt)]
  {
    hide Check, Trusted, KnownWamid;
  }

  lemma AtNext(h: Hash, es: seq<Event>, n: nat)
    requires n < |es|
    ensures At(h, es, n + 1) == Step(h, At(h, es, n), es[n]).0
  {
  }

  /** The idempotency key is a hash of draft id and nonce, without a separator; since nonces have 32
      bytes, two attempts never share its pre-image and the unique constraint never fires. */
  lemma IdempotencyKeyUnique(h: Hash, es: seq<Event>, n: nat, a: AttemptId, b: AttemptId)
    requires n <= |es| && a in At(h, es, n).attempts && b in At(h, es, n).attempts
    requires var s := At(h, es, n);
      s.attempts[a].draftId + s.attempts[a].nonce == s.attempts[b].draftId + s.attempts[b].nonce
    ensures a == b
  {
    hide At;
    RunKeeps(h, es, n);
    var x, y := At(h, es, n).attempts[a], At(h, es, n).attempts[b];
    assert (x.draftId + x.nonce)[|x.draftId|..] == x.nonce;
    assert (y.draftId + y.nonce)[|y.draftId|..] == y.nonce;
  }

  // ---------------------------------------------------------------- once per draft, if nonces agree

  /** Every envelope presented carries its draft's own nonce. */
  ghost predicate HonestNonces(h: Hash, es: seq<Event>)
  {
    forall i :: 0 <= i < |es| && es[i].DoAuthorise? ==>
      var s := At(h, es, i);
      es[i].env.draftId in s.drafts ==> s.drafts[es[i].env.draftId].terms.nonce == Some(es[i].env.nonce)
  }

  ghost predicate OwnNonces(s: State)
  {
    forall a :: a in s.attempts ==>
      s.attempts[a].draftId in s.drafts && s.drafts[s.attempts[a].draftId].terms.nonce == Some(s.attempts[a].nonce)
  }

  lemma StepOwnNonces(h: Hash, s: State, e: Event)
    requires OwnNonces(s)
    requires e.DoAuthorise? && e.env.draftId in s.drafts ==> s.drafts[e.env.draftId].terms.nonce == Some(e.env.nonce)
    ensures OwnNonces(Step(h, s, e).0)
  {
    hide Authorise, StatusEvent, Post, Finish, Recover, OwnNonces;
    match e
    case DoAuthorise(p, env, reading) => AuthoriseOwnNonces(h, s, p, env, reading);
    case DoPost(p, answer) => PostOwnNonces(s, p, answer);
    case DoFinish(p) => FinishOwnNonces(s, p);
    case DoStatus(callback, wamid) => StatusOwnNonces(s, callback, wamid);
    case DoRecover => RecoverOwnNonces(s);
    case _ => OtherOwnNonces(h, s, e);
  }

  lemma FinishOwnNonces(s: State, p: SenderId)
    requires OwnNonces(s)
    ensures OwnNonces(Finish(s, p))
  {
  }

  lemma StatusOwnNonces(s: State, callback: Option<AttemptId>, wamid: Option<Bytes>)
    requires OwnNonces(s)
    ensures OwnNonces(StatusEvent(s, callback, wamid).0)
  {
    hide KnownWamid;
  }

  lemma RecoverOwnNonces(s: State)
    requires OwnNonces(s)
    ensures OwnNonces(Recover(s))
  {
  }

  lemma OtherOwnNonces(h: Hash, s: State, e: Event)
    requires OwnNonces(s) && !e.DoAuthorise? && !e.DoPost? && !e.DoFinish? && !e.DoStatus? && !e.DoRecover?
    ensures OwnNonces(Step(h, s, e).0)
  {
  }

  lemma AuthoriseOwnNonces(h: Hash, s: State, p: SenderId, env: Envelope, reading: int)
    requires OwnNonces(s) && (env.draftId in s.drafts ==> s.drafts[env.draftId].terms.nonce == Some(env.nonce))
    ensures OwnNonces(Authorise(h, s, p, env, reading).0)
  {
    hide Trusted, Check;
    if Check(h, s.(clock := Some(reading)), env, reading) == None {
      CheckedDraft(h, s.(clock := Some(reading)), env, reading);
    }
  }

  lemma PostOwnNonces(s: State, p: SenderId, answer: Answer)
    requires OwnNonces(s)
    ensures OwnNonces(Post(s, p, answer))
  {
  }

  lemma CheckedDraft(h: Hash, s: State, env: Envelope, now: int)
    requires Check(h, s, env, now) == None
    ensures env.draftId in s.drafts
  {
    hide ContextOf, Failed, Encodable, DecisionBytes, Verifies, ActiveKey;
  }

  lemma {:induction false} RunOwnNonces(h: Hash, es: seq<Event>, n: nat)
    requires n <= |es| && HonestNonces(h, es)
    ensures OwnNonces(At(h, es, n))
  {
    hide Step, OwnNonces;
    if n == 0 {
      assert OwnNonces(EMPTY) by { EmptyOwnNonces(); }
    } else {
      RunOwnNonces(h, es, n - 1);
      StepOwnNonces(h, At(h, es, n - 1), es[n - 1]);
    }
  }

  lemma EmptyOwnNonces()
    ensures OwnNonces(EMPTY)
  {
  }

  /** If every envelope carries its draft's nonce, each draft has at most one provider call. */
  lemma AtMostOncePerDraft(h: Hash, es: seq<Event>, n: nat, i: nat, j: nat)
    requires n <= |es| && HonestNonces(h, es)
    requires i < |At(h, es, n).calls| && j < |At(h, es, n).calls|
    ensures var s := At(h, es, n);
      && s.calls[i].attempt in s.attempts && s.calls[j].attempt in s.attempts
      && (s.attempts[s.calls[i].attempt].draftId == s.attempts[s.calls[j].attempt].draftId ==> i == j)
  {
    hide At, Inv;
    AtMostOncePerNonce(h, es, n, i, j);
    RunOwnNonces(h, es, n);
  }

  /** Nothing in the code equates the two nonces. After an envelope has been authorised, the same signed
      envelope with another nonce is authorised again exactly when that nonce is 32 bytes long and
      not yet consumed. */
  lemma SecondNonceAdmits(h: Hash, s: State, p: SenderId, q: SenderId, env: Envelope, reading: int, nonce: Bytes)
    requires Authorise(h, s, p, env, reading).1.Started? && q !in s.flights && q != p
    ensures var s' := Authorise(h, s, p, env, reading).0;
      Authorise(h, s', q, env.(nonce := nonce), reading).1.Started? <==> |nonce| == 32 && nonce !in s'.nonces
  {
    hide Failed, Encodable, DecisionBytes;
    var s' := Authorise(h, s, p, env, reading).0;
    assert Check(h, s.(clock := Some(reading)), env, reading) == None;
    assert Check(h, s'.(clock := Some(reading)), env.(nonce := nonce), reading) == None;
  }

  // ---------------------------------------------------------------- what is sent is what was signed

  /** What the checks ask of an envelope: an approval of a stored draft, signed over exactly this
      decision by the key of an active device, for a body that has not changed, within the policy. */
  ghost predicate Passes(h: Hash, s: State, env: Envelope, reading: int)
  {
    && env.draftId in s.drafts
    && var d := s.drafts[env.draftId];
      && env.verdict == APPROVE
      && env.deviceId in s.devices && s.devices[env.deviceId].active
      && env.signature.key == s.devices[env.deviceId].key && env.signature in s.signed
      && Encodable(DecisionOf(env, d)) && env.signature.over == DecisionBytes(DecisionOf(env, d))
      && (d.terms.bodySha.Some? ==> h(BodyOf(d)) == d.terms.bodySha.value)
      && (forall r :: !Fails(ContextOf(s, d, reading), r))
  }

  lemma CheckIff(h: Hash, s: State, env: Envelope, reading: int)
    ensures Check(h, s, env, reading) == None <==> Passes(h, s, env, reading)
  {
    hide Encodable, DecisionBytes, Failed, Fails, ContextOf;
    if env.draftId in s.drafts {
      FailedExact(ContextOf(s, s.drafts[env.draftId], reading), Expired);
    }
  }

  /** A send is started exactly when its envelope passes, at a trusted time, with a nonce of 32 bytes
      that has not been consumed. */
  lemma StartedIff(h: Hash, s: State, p: SenderId, env: Envelope, reading: int)
    ensures Authorise(h, s, p, env, reading).1.Started? <==>
      && p !in s.flights && Trusted(s.clock, reading) && Passes(h, s, env, reading)
      && |env.nonce| == 32 && env.nonce !in s.nonces
  {
    var s1 := s.(clock := Some(reading));
    assert Passes(h, s1, env, reading) <==> Passes(h, s, env, reading) by {
      hide Encodable, DecisionBytes, Failed, Fails;
      if env.draftId in s.drafts {
        assert ContextOf(s1, s.drafts[env.draftId], reading) == ContextOf(s, s.drafts[env.draftId], reading);
      }
    }
    hide Check, Passes, Trusted;
    CheckIff(h, s1, env, reading);
    NotStarted(h, s1, env, reading);
  }

  lemma NotStarted(h: Hash, s: State, env: Envelope, reading: int)
    ensures Check(h, s, env, reading).Some? ==> !Check(h, s, env, reading).value.Started?
  {
    hide Encodable, DecisionBytes, Failed, ContextOf, Verifies, ActiveKey;
  }

  /** One send from its checks to the provider. */
  lemma SendOne(h: Hash, s: State, p: SenderId, env: Envelope, reading: int, answer: Answer)
    requires Passes(h, s, env, reading) && p !in s.flights && Trusted(s.clock, reading)
    requires |env.nonce| == 32 && env.nonce !in s.nonces
    ensures var s' := Post(Authorise(h, s, p, env, reading).0, p, answer);
      && s'.drafts == s.drafts && s'.devices == s.devices && s'.signed == s.signed && s'.windows == s.windows
      && s'.nonces == s.nonces[env.nonce := env.draftId] && s'.clock == Some(reading) && s'.next == s.next + 1
      && s'.attempts == s.attempts[s.next := Attempt(env.draftId, env.nonce, Submitting, None)]
      && s'.flights == s.flights[p := Posted(s.next, answer)]
      && |s'.calls| == |s.calls| + 1 && s'.calls[..|s.calls|] == s.calls && s'.calls[|s.calls|].attempt == s.next
  {
    assert env.draftId in s.drafts;
    var s1 := s.(clock := Some(reading));
    SamePasses(h, s, s1, env, env.nonce, reading);
    hide Check, Passes, Trusted;
    CheckIff(h, s1, env, reading);
    var s2 := Authorise(h, s, p, env, reading).0;
    assert s2.flights == s.flights[p := ToPost(s.next)];
  }

  /** The checks do not look at the envelope's nonce, nor at what a send changes. */
  lemma SamePasses(h: Hash, s: State, s': State, env: Envelope, nonce: Bytes, reading: int)
    requires Passes(h, s, env, reading)
    requires s'.drafts == s.drafts && s'.devices == s.devices && s'.signed == s.signed && s'.windows == s.windows
    ensures Passes(h, s', env.(nonce := nonce), reading)
  {
    hide Encodable, DecisionBytes, Fails;
    var d := s.drafts[env.draftId];
    assert ContextOf(s', d, reading) == ContextOf(s, d, reading);
  }

  /** So whatever envelope a state would accept, it accepts twice: two calls for one draft. */
  lemma SendsTwice(h: Hash, s: State, p: SenderId, q: SenderId, env: Envelope, reading: int, nonce: Bytes,
      answer: Answer)
    requires Passes(h, s, env, reading) && p !in s.flights && q !in s.flights && p != q && Trusted(s.clock, reading)
    requires |env.nonce| == 32 && env.nonce !in s.nonces && |nonce| == 32 && nonce !in s.nonces && nonce != env.nonce
    ensures var s1 := Post(Authorise(h, s, p, env, reading).0, p, answer);
      var s2 := Post(Authorise(h, s1, q, env.(nonce := nonce), reading).0, q, answer);
      && |s2.calls| == |s.calls| + 2
      && var a, b := s2.calls[|s.calls|].attempt, s2.calls[|s.calls| + 1].attempt;
         && a in s2.attempts && b in s2.attempts && a != b
         && s2.attempts[a].draftId == env.draftId && s2.attempts[b].draftId == env.draftId
  {
    hide Passes, Authorise, Post;
    var s1 := Post(Authorise(h, s, p, env, reading).0, p, answer);
    SendOne(h, s, p, env, reading, answer);
    SamePasses(h, s, s1, env, nonce, reading);
    assert Trusted(s1.clock, reading);
    SendOne(h, s1, q, env.(nonce := nonce), reading, answer);
    var s2 := Post(Authorise(h, s1, q, env.(nonce := nonce), reading).0, q, answer);
    assert s2.calls[..|s1.calls|][|s.calls|] == s1.calls[|s.calls|];
  }

  /** The state in which `env`, signed by `device`, asks for `draft`. */
  function Ready(draft: Draft, id: Bytes, device: Bytes, key: Bytes, sig: Signature): State
  {
    EMPTY.(devices := map[device := Device(key, true)], drafts := map[id := draft], signed := {sig})
  }

  lemma ReadyReached(h: Hash, draft: Draft, id: Bytes, device: Bytes, key: Bytes, sig: Signature)
    ensures At(h, [DoEnroll(device, key), DoPrepare(id, draft), DoSign(sig)], 3) == Ready(draft, id, device, key, sig)
  {
    var es := [DoEnroll(device, key), DoPrepare(id, draft), DoSign(sig)];
    assert At(h, es, 1) == EMPTY.(devices := map[device := Device(key, true)]);
    assert At(h, es, 2) == At(h, es, 1).(drafts := map[id := draft]);
  }

  lemma {:induction false} AtPrefix(h: Hash, es: seq<Event>, more: seq<Event>, n: nat)
    requires n <= |es|
    ensures At(h, es + more, n) == At(h, es, n)
  {
    hide Step;
    if n > 0 { AtPrefix(h, es, more, n - 1); }
  }

  /** A draft made by `prepare` that is not a text, and its approval, pass. */
  lemma ReadyPasses(h: Hash, phone: Bytes, who: Bytes, body: Bytes, id: Bytes, device: Bytes, key: Bytes, nonce: Bytes)
    requires who != ""
    ensures var draft := Prepare(h, 0, "", phone, who, body, "template", nonce, 0, None);
      var d := Decision(APPROVE, id, draft.terms, device);
      Encodable(d) ==>
        var sig := Signature(key, DecisionBytes(d));
        Passes(h, Ready(draft, id, device, key, sig), Envelope(id, APPROVE, device, nonce, sig), 0)
  {
    hide DecisionBytes, Encodable;
  }

  lemma AtMore(h: Hash, es: seq<Event>, e: Event)
    ensures At(h, es + [e], |es| + 1) == Step(h, At(h, es, |es|), e).0
  {
    hide Step;
    AtPrefix(h, es, [e], |es|);
  }

  /** One send at the end of a run. */
  lemma SendAtEnd(h: Hash, es: seq<Event>, p: SenderId, env: Envelope, reading: int, answer: Answer)
    ensures var s := At(h, es, |es|);
      At(h, es + [DoAuthorise(p, env, reading), DoPost(p, answer)], |es| + 2) ==
        Post(Authorise(h, s, p, env, reading).0, p, answer)
  {
    hide Authorise, Post, At;
    var e1, e2 := DoAuthorise(p, env, reading), DoPost(p, answer);
    AtMore(h, es, e1);
    AtMore(h, es + [e1], e2);
    assert es + [e1] + [e2] == es + [e1, e2];
  }

  /** And there is such a run: a draft made by `prepare` and approved once goes out twice. */
  lemma DoubleSend() returns (h: Hash, es: seq<Event>)
    ensures var s := At(h, es, |es|);
      && |s.calls| == 2 && s.calls[0].attempt in s.attempts && s.calls[1].attempt in s.attempts
      && s.attempts[s.calls[0].attempt].draftId == s.attempts[s.calls[1].attempt].draftId
  {
    h := (b: Bytes) => "";
    var nonce, other := seq(32, i => 'a'), seq(32, i => 'b');
    assert nonce[0] != other[0];
    var draft := Prepare(h, 0, "", "phone", "who", "hi", "template", nonce, 0, None);
    var d := Decision(APPROVE, "draft", draft.terms, "device");
    assert Encodable(d);
    hide Passes, DecisionBytes, Encodable, Authorise, Post, At, Prepare;
    ReadyPasses(h, "phone", "who", "hi", "draft", "device", "key", nonce);
    var sig := Signature("key", DecisionBytes(d));
    var env := Envelope("draft", APPROVE, "device", nonce, sig);
    var s := Ready(draft, "draft", "device", "key", sig);
    var start := [DoEnroll("device", "key"), DoPrepare("draft", draft), DoSign(sig)];
    ReadyReached(h, draft, "draft", "device", "key", sig);
    SendsTwice(h, s, 0, 1, env, 0, other, TimedOut);
    var once := start + [DoAuthorise(0, env, 0), DoPost(0, TimedOut)];
    SendAtEnd(h, start, 0, env, 0, TimedOut);
    SendAtEnd(h, once, 1, env.(nonce := other), 0, TimedOut);
    es := once + [DoAuthorise(1, env.(nonce := other), 0), DoPost(1, TimedOut)];
  }

  lemma StepDrafts(h: Hash, s: State, e: Event, id: Bytes)
    requires id in s.drafts
    ensures id in Step(h, s, e).0.drafts && Step(h, s, e).0.drafts[id] == s.drafts[id]
  {
    hide Check, Trusted, KnownWamid;
  }

  /** Drafts are frozen. */
  lemma {:induction false} DraftsStay(h: Hash, es: seq<Event>, m: nat, n: nat, id: Bytes)
    requires m <= n <= |es| && id in At(h, es, m).drafts
    ensures id in At(h, es, n).drafts && At(h, es, n).drafts[id] == At(h, es, m).drafts[id]
  {
    if m < n {
      hide Step;
      DraftsStay(h, es, m, n - 1, id);
      StepDrafts(h, At(h, es, n - 1), es[n - 1], id);
    }
  }

  lemma StepAttempts(h: Hash, s: State, e: Event, a: AttemptId)
    requires a in Step(h, s, e).0.attempts
    ensures var t := Step(h, s, e).0.attempts[a];
      || (a in s.attempts && t.draftId == s.attempts[a].draftId && t.nonce == s.attempts[a].nonce)
      || (e.DoAuthorise? && Step(h, s, e).1 == Started(a) && t.draftId == e.env.draftId)
  {
    hide Authorise, StatusEvent, Finish, Post;
    match e
    case DoAuthorise(p, env, reading) => AuthoriseAttempts(h, s, p, env, reading, a);
    case DoStatus(callback, wamid) => StatusAttempts(s, callback, wamid, a);
    case DoFinish(p) => FinishAttempts(s, p, a);
    case DoPost(p, answer) => PostAttempts(s, p, answer);
    case _ =>
  }

  lemma AuthoriseAttempts(h: Hash, s: State, p: SenderId, env: Envelope, reading: int, a: AttemptId)
    requires a in Authorise(h, s, p, env, reading).0.attempts
    ensures var (s', o) := Authorise(h, s, p, env, reading);
      || (a in s.attempts && s'.attempts[a] == s.attempts[a])
      || (o == Started(a) && s'.attempts[a].draftId == env.draftId)
  {
    hide Check, Trusted;
  }

  lemma StatusAttempts(s: State, callback: Option<AttemptId>, wamid: Option<Bytes>, a: AttemptId)
    ensures var s' := StatusEvent(s, callback, wamid).0;
      a in s'.attempts ==>
        a in s.attempts && s'.attempts[a].draftId == s.attempts[a].draftId &&
        s'.attempts[a].nonce == s.attempts[a].nonce
  {
    hide KnownWamid;
  }

  lemma FinishAttempts(s: State, p: SenderId, a: AttemptId)
    ensures var s' := Finish(s, p);
      a in s'.attempts ==>
        a in s.attempts && s'.attempts[a].draftId == s.attempts[a].draftId &&
        s'.attempts[a].nonce == s.attempts[a].nonce
  {
  }

  lemma PostAttempts(s: State, p: SenderId, answer: Answer)
    ensures Post(s, p, answer).attempts == s.attempts
  {
  }

  lemma {:induction false} AttemptFrom(h: Hash, es: seq<Event>, n: nat, a: AttemptId) returns (k: nat)
    requires n <= |es| && a in At(h, es, n).attempts
    ensures k < n && es[k].DoAuthorise? && Out(h, es, k) == Started(a)
    ensures At(h, es, n).attempts[a].draftId == es[k].env.draftId
    decreases n
  {
    hide Step;
    assert n != 0;
    StepAttempts(h, At(h, es, n - 1), es[n - 1], a);
    if es[n - 1].DoAuthorise? && Out(h, es, n - 1) == Started(a) &&
      At(h, es, n).attempts[a].draftId == es[n - 1].env.draftId {
      k := n - 1;
    } else {
      k := AttemptFrom(h, es, n - 1, a);
    }
  }

  lemma StepKeepsCalls(h: Hash, s: State, e: Event)
    ensures |Step(h, s, e).0.calls| >= |s.calls|
    ensures forall i :: 0 <= i < |s.calls| ==> Step(h, s, e).0.calls[i] == s.calls[i]
  {
    hide Check, Trusted, KnownWamid;
  }

  /** Every call goes back to an authorisation, and carries that draft's phone number, recipient and body. */
  lemma {:induction false} CallFrom(h: Hash, es: seq<Event>, n: nat, i: nat) returns (k: nat)
    requires n <= |es| && i < |At(h, es, n).calls|
    ensures k < n && es[k].DoAuthorise? && Out(h, es, k) == Started(At(h, es, n).calls[i].attempt)
    ensures es[k].env.draftId in At(h, es, k).drafts
    ensures var d, c := At(h, es, k).drafts[es[k].env.draftId], At(h, es, n).calls[i];
      c.phone == d.terms.phone && c.recipient == Slot(d.terms.recipient) && c.body == BodyOf(d)
    decreases n
  {
    hide Step, BodyOf;
    assert n != 0;
    var s := At(h, es, n - 1);
    StepKeepsCalls(h, s, es[n - 1]);
    if i < |s.calls| {
      k := CallFrom(h, es, n - 1, i);
    } else {
      StepCalls(h, s, es[n - 1]);
      var a := s.flights[es[n - 1].sender].attempt;
      k := AttemptFrom(h, es, n - 1, a);
      AuthorisedDraft(h, At(h, es, k), es[k]);
      DraftsStay(h, es, k, n - 1, es[k].env.draftId);
    }
  }

  lemma AuthorisedDraft(h: Hash, s: State, e: Event)
    requires e.DoAuthorise? && Step(h, s, e).1.Started?
    ensures e.env.draftId in s.drafts
  {
    StartedIff(h, s, e.sender, e.env, e.reading);
  }

  /** Every provider call was authorised by a signature that a device active at that moment gave over a
      decision, and any decision with those bytes approves this draft and names this phone number,
      this recipient and, whenever the draft carries a body hash, the hash of this body. The same
      bytes are never a capability grant or an enrolment. */
  lemma SentIsSigned(h: Hash, es: seq<Event>, n: nat, i: nat) returns (k: nat)
    requires n <= |es| && i < |At(h, es, n).calls|
    ensures k < n && es[k].DoAuthorise?
    ensures var s, env, c := At(h, es, k), es[k].env, At(h, es, n).calls[i];
      && env.deviceId in s.devices && s.devices[env.deviceId].active
      && env.signature.key == s.devices[env.deviceId].key && env.signature in s.signed
      && env.draftId in s.drafts && Encodable(DecisionOf(env, s.drafts[env.draftId]))
      && env.signature.over == DecisionBytes(DecisionOf(env, s.drafts[env.draftId]))
      && (forall d :: Encodable(d) && DecisionBytes(d) == env.signature.over ==>
            && d.verdict == APPROVE && d.draftId == env.draftId && d.deviceId == env.deviceId
            && d.terms.phone == c.phone && Slot(d.terms.recipient) == c.recipient
            && (IsPrepared(h, s.drafts[env.draftId]) ==> Slot(d.terms.bodySha) == h(c.body)))
      && (forall slots :: Fits(slots) ==>
         GrantBytes(slots) != env.signature.over && EnrolBytes(slots) != env.signature.over)
  {
    hide At, Authorise, Encodable, DecisionBytes, GrantBytes, EnrolBytes, Fits, BodyOf, Slot;
    k := CallFrom(h, es, n, i);
    var s, env := At(h, es, k), es[k].env;
    AuthoriseOut(h, es, k);
    StartedIff(h, s, es[k].sender, env, es[k].reading);
    BytesBind(env, s.drafts[env.draftId]);
    PreparedBody(h, s.drafts[env.draftId]);
  }

  lemma AuthoriseOut(h: Hash, es: seq<Event>, k: nat)
    requires k < |es| && es[k].DoAuthorise?
    ensures Out(h, es, k) == Authorise(h, At(h, es, k), es[k].sender, es[k].env, es[k].reading).1
  {
    hide At, Authorise;
  }

  lemma PreparedBody(h: Hash, d: Draft)
    ensures IsPrepared(h, d) ==> d.terms.bodySha.Some? && Slot(d.terms.bodySha) == h(BodyOf(d))
  {
  }

  /** The signed bytes determine the decision, slot by slot, and its purpose. */
  lemma BytesBind(env: Envelope, draft: Draft)
    requires Encodable(DecisionOf(env, draft)) && env.verdict == APPROVE
    ensures var over := DecisionBytes(DecisionOf(env, draft));
      && (forall d :: Encodable(d) && DecisionBytes(d) == over ==>
            && d.verdict == APPROVE && d.draftId == env.draftId && d.deviceId == env.deviceId
            && d.terms.phone == draft.terms.phone && Slot(d.terms.recipient) == Slot(draft.terms.recipient)
            && Slot(d.terms.bodySha) == Slot(draft.terms.bodySha))
      && (forall slots :: Fits(slots) ==> GrantBytes(slots) != over && EnrolBytes(slots) != over)
  {
    hide Encodable, DecisionBytes, GrantBytes, EnrolBytes, Slot, Fits;
    var mine := DecisionOf(env, draft);
    forall d | Encodable(d) && DecisionBytes(d) == DecisionBytes(mine)
      ensures d.verdict == APPROVE && d.draftId == env.draftId && d.deviceId == env.deviceId
      ensures d.terms.phone == draft.terms.phone && Slot(d.terms.recipient) == Slot(draft.terms.recipient)
      ensures Slot(d.terms.bodySha) == Slot(draft.terms.bodySha)
    {
      DecisionInjective(d, mine);
    }
    forall slots | Fits(slots)
      ensures GrantBytes(slots) != DecisionBytes(mine) && EnrolBytes(slots) != DecisionBytes(mine)
    {
      PurposesDisjoint(mine, slots, slots);
    }
  }

  // ---------------------------------------------------------------- the window and the clock

  /** A text goes out only while the stored window is open. */
  lemma TextNeedsOpenWindow(h: Hash, s: State, p: SenderId, env: Envelope, reading: int)
    requires Authorise(h, s, p, env, reading).1.Started?
    requires s.drafts[env.draftId].terms.kind == "text"
    ensures env.draftId in s.drafts
    ensures var conv := s.drafts[env.draftId].conv;
      conv in s.windows && s.windows[conv] > 0 && reading < s.windows[conv] + 24 * 3600 * 1000
  {
    StartedIff(h, s, p, env, reading);
    assert !Fails(ContextOf(s, s.drafts[env.draftId], reading), WindowClosed);
  }

  ghost predicate ClockAtLeast(s: State, t: int)
  {
    s.clock.Some? && s.clock.value >= t
  }

  lemma StepClock(h: Hash, s: State, e: Event, t: int)
    requires ClockAtLeast(s, t) && !e.DoCrash?
    ensures ClockAtLeast(Step(h, s, e).0, t)
  {
    hide Check, KnownWamid;
  }

  lemma {:induction false} ClockStays(h: Hash, es: seq<Event>, m: nat, n: nat, t: int)
    requires m <= n <= |es| && ClockAtLeast(At(h, es, m), t) && forall i :: m <= i < n ==> !es[i].DoCrash?
    ensures ClockAtLeast(At(h, es, n), t)
  {
    if m < n {
      hide Step, ClockAtLeast;
      ClockStays(h, es, m, n - 1, t);
      StepClock(h, At(h, es, n - 1), es[n - 1], t);
    }
  }

  lemma DeniedExpired(h: Hash, s: State, e: Event)
    requires e.DoAuthorise? && Step(h, s, e).1 == Denied(PolicyFailed(Expired))
    ensures ClockAtLeast(Step(h, s, e).0, e.reading) && e.env.draftId in s.drafts
    ensures var d := s.drafts[e.env.draftId]; d.terms.expiresAt.Some? && e.reading >= d.terms.expiresAt.value
  {
    hide Encodable, DecisionBytes, Failed;
    var s1 := s.(clock := Some(e.reading));
    assert Check(h, s1, e.env, e.reading).Some?;
    var c := ContextOf(s1, s.drafts[e.env.draftId], e.reading);
    assert Failed(c) != [] && Failed(c)[0] == Expired;
    FailedExact(c, Expired);
  }

  /** Under one clock guard, a draft refused as expired is never authorised later. */
  lemma ExpiredNeverAuthorised(h: Hash, es: seq<Event>, m: nat, n: nat)
    requires m < n < |es| && es[m].DoAuthorise? && es[n].DoAuthorise? && es[m].env.draftId == es[n].env.draftId
    requires Out(h, es, m) == Denied(PolicyFailed(Expired)) && forall i :: m < i < n ==> !es[i].DoCrash?
    ensures !Out(h, es, n).Started?
  {
    hide Step, ClockAtLeast;
    DeniedExpired(h, At(h, es, m), es[m]);
    AtNext(h, es, m);
    ClockStays(h, es, m + 1, n, es[m].reading);
    DraftsStay(h, es, m, n, es[m].env.draftId);
    LateNotStarted(h, At(h, es, n), es[n], es[m].reading);
  }

  lemma StepFlights(h: Hash, s: State, e: Event, p: SenderId, a: AttemptId)
    requires p in Step(h, s, e).0.flights && Step(h, s, e).0.flights[p] == ToPost(a)
    ensures (p in s.flights && s.flights[p] == ToPost(a)) || (e.DoAuthorise? && Step(h, s, e).1 == Started(a))
  {
    hide Check, Trusted, KnownWamid;
  }

  /** A flight still to be posted at `r` was open at `m`, or was authorised since. */
  lemma {:induction false} FlightSince(h: Hash, es: seq<Event>, m: nat, r: nat, p: SenderId, a: AttemptId)
      returns (k: nat)
    requires m <= r <= |es| && p in At(h, es, r).flights && At(h, es, r).flights[p] == ToPost(a)
    requires a in At(h, es, r).attempts
    ensures m <= k <= r
    ensures k == r ==> p in At(h, es, m).flights && At(h, es, m).flights[p] == ToPost(a) && a in At(h, es, m).attempts
                       && At(h, es, m).attempts[a].draftId == At(h, es, r).attempts[a].draftId
    ensures k < r ==>
      es[k].DoAuthorise? && Out(h, es, k) == Started(a) && es[k].env.draftId == At(h, es, r).attempts[a].draftId
    decreases r
  {
    hide Step;
    if m == r {
      k := r;
    } else {
      StepFlights(h, At(h, es, r - 1), es[r - 1], p, a);
      StepAttempts(h, At(h, es, r - 1), es[r - 1], a);
      if es[r - 1].DoAuthorise? && Out(h, es, r - 1) == Started(a) {
        k := r - 1;
        StartedDraft(h, At(h, es, r - 1), es[r - 1], a);
      } else {
        var j := FlightSince(h, es, m, r - 1, p, a);
        k := if j == r - 1 then r else j;
      }
    }
  }

  lemma StartedDraft(h: Hash, s: State, e: Event, a: AttemptId)
    requires e.DoAuthorise? && Step(h, s, e).1 == Started(a)
    ensures a in Step(h, s, e).0.attempts && Step(h, s, e).0.attempts[a].draftId == e.env.draftId
  {
    hide Trusted;
    NotStarted(h, s.(clock := Some(e.reading)), e.env, e.reading);
    hide Check;
  }

  /** No send of the draft is waiting to be posted. */
  ghost predicate NoneOpen(s: State, draftId: Bytes)
  {
    forall p :: p in s.flights && s.flights[p].ToPost? && s.flights[p].attempt in s.attempts ==>
      s.attempts[s.flights[p].attempt].draftId != draftId
  }

  /** Under one clock guard, once a draft has been refused as expired and no send of it is open, every later
      provider call is for another draft. */
  lemma ExpiredNeverSent(h: Hash, es: seq<Event>, m: nat, r: nat)
    requires m < r < |es| && es[m].DoAuthorise? && Out(h, es, m) == Denied(PolicyFailed(Expired))
    requires (forall i :: m < i < r ==> !es[i].DoCrash?) && NoneOpen(At(h, es, m), es[m].env.draftId)
    requires |At(h, es, r + 1).calls| > |At(h, es, r).calls|
    ensures var s := At(h, es, r);
      var a := At(h, es, r + 1).calls[|s.calls|].attempt;
      a in s.attempts && s.attempts[a].draftId != es[m].env.draftId
  {
    hide Step, At;
    AtNext(h, es, r);
    var s := At(h, es, r);
    StepCalls(h, s, es[r]);
    var p := es[r].sender;
    var a := s.flights[p].attempt;
    var k := FlightSince(h, es, m, r, p, a);
    if m < k < r && es[k].env.draftId == es[m].env.draftId {
      ExpiredNeverAuthorised(h, es, m, k);
    }
  }

  lemma LateNotStarted(h: Hash, s: State, e: Event, t: int)
    requires e.DoAuthorise? && ClockAtLeast(s, t) && e.env.draftId in s.drafts
    requires var d := s.drafts[e.env.draftId]; d.terms.expiresAt.Some? && t >= d.terms.expiresAt.value
    ensures !Step(h, s, e).1.Started?
  {
    hide Encodable, DecisionBytes, Failed;
    var s1 := s.(clock := Some(e.reading));
    var c := ContextOf(s1, s.drafts[e.env.draftId], e.reading);
    FailedExact(c, Expired);
    assert Trusted(s.clock, e.reading) ==> Fails(c, Expired);
  }

  // ---------------------------------------------------------------- the life of an attempt

  /** The moves an attempt may make: out of Submitting anywhere, from Indeterminate to Submitted, and
      nothing else; a submitted attempt keeps its wamid. */
  predicate Moves(t: Attempt, t': Attempt)
  {
    && t'.draftId == t.draftId && t'.nonce == t.nonce
    && (t'.state == t.state || t.state == Submitting || (t.state == Indeterminate && t'.state == Submitted))
    && (t.state == Submitted ==> t'.wamid == t.wamid)
  }

  ghost predicate FlightsSubmitting(flights: map<SenderId, Flight>, attempts: map<AttemptId, Attempt>)
  {
    forall p :: p in flights ==> flights[p].attempt in attempts && attempts[flights[p].attempt].state == Submitting
  }

  ghost predicate AllMove(attempts: map<AttemptId, Attempt>, attempts': map<AttemptId, Attempt>)
  {
    forall a :: a in attempts ==> a in attempts' && Moves(attempts[a], attempts'[a])
  }

  lemma FinishMoves(s: State, p: SenderId)
    requires FlightsOk(s.flights, s.attempts) && FlightsSubmitting(s.flights, s.attempts)
    ensures var s' := Finish(s, p); FlightsSubmitting(s'.flights, s'.attempts) && AllMove(s.attempts, s'.attempts)
  {
  }

  lemma StatusMoves(s: State, callback: Option<AttemptId>, wamid: Option<Bytes>)
    requires FlightsSubmitting(s.flights, s.attempts)
    ensures var s' := StatusEvent(s, callback, wamid).0;
      FlightsSubmitting(s'.flights, s'.attempts) && AllMove(s.attempts, s'.attempts)
  {
    hide KnownWamid;
    if callback.Some? && callback.value in s.attempts && s.attempts[callback.value].state == Indeterminate {
      ResolveMoves(s.flights, s.attempts, callback.value, wamid);
    }
  }

  lemma ResolveMoves(flights: map<SenderId, Flight>, attempts: map<AttemptId, Attempt>, a: AttemptId,
      wamid: Option<Bytes>)
    requires FlightsSubmitting(flights, attempts) && a in attempts && attempts[a].state == Indeterminate
    ensures var attempts' := attempts[a := attempts[a].(state := Submitted, wamid := wamid)];
      FlightsSubmitting(flights, attempts') && AllMove(attempts, attempts')
  {
  }

  lemma AuthoriseMoves(h: Hash, s: State, p: SenderId, env: Envelope, reading: int)
    requires AttemptsOk(s.attempts, s.nonces, s.drafts, s.next) && FlightsSubmitting(s.flights, s.attempts)
    ensures var s' := Authorise(h, s, p, env, reading).0;
      FlightsSubmitting(s'.flights, s'.attempts) && AllMove(s.attempts, s'.attempts)
  {
    hide Check, Trusted, AttemptsOk, FlightsSubmitting, AllMove;
    NextIsFresh(s);
    NobodyMoves(s.flights, s.attempts);
    OpenMoves(s.flights, s.attempts, p, s.next, Attempt(env.draftId, env.nonce, Submitting, None));
  }

  lemma NextIsFresh(s: State)
    requires AttemptsOk(s.attempts, s.nonces, s.drafts, s.next)
    ensures s.next !in s.attempts
  {
  }

  lemma OpenMoves(flights: map<SenderId, Flight>, attempts: map<AttemptId, Attempt>, p: SenderId, a: AttemptId,
      t: Attempt)
    requires FlightsSubmitting(flights, attempts) && a !in attempts && t.state == Submitting
    ensures FlightsSubmitting(flights[p := ToPost(a)], attempts[a := t]) && AllMove(attempts, attempts[a := t])
  {
  }

  lemma StepMoves(h: Hash, s: State, e: Event)
    requires Inv(s) && FlightsSubmitting(s.flights, s.attempts) && (e.DoRecover? ==> s.flights == map[])
    ensures var s' := Step(h, s, e).0;
      FlightsSubmitting(s'.flights, s'.attempts) && AllMove(s.attempts, s'.attempts)
  {
    hide Authorise, Finish, StatusEvent, CallsOk, FlightsSubmitting, AllMove, Post, Recover;
    match e
    case DoAuthorise(p, env, reading) => AuthoriseMoves(h, s, p, env, reading);
    case DoFinish(p) => FinishMoves(s, p);
    case DoStatus(callback, wamid) => StatusMoves(s, callback, wamid);
    case DoPost(p, answer) => PostMoves(s, p, answer);
    case DoRecover => RecoverMoves(s);
    case _ => NobodyMoves(s.flights, s.attempts);
  }

  lemma PostMoves(s: State, p: SenderId, answer: Answer)
    requires FlightsSubmitting(s.flights, s.attempts)
    ensures var s' := Post(s, p, answer); FlightsSubmitting(s'.flights, s'.attempts) && AllMove(s.attempts, s'.attempts)
  {
  }

  lemma RecoverMoves(s: State)
    requires s.flights == map[]
    ensures var s' := Recover(s); FlightsSubmitting(s'.flights, s'.attempts) && AllMove(s.attempts, s'.attempts)
  {
  }

  lemma NobodyMoves(flights: map<SenderId, Flight>, attempts: map<AttemptId, Attempt>)
    ensures FlightsSubmitting(map[], attempts) && AllMove(attempts, attempts)
  {
  }

  /** Recovery runs only when no send is in flight. */
  ghost predicate QuietRecovery(h: Hash, es: seq<Event>)
  {
    forall i :: 0 <= i < |es| && es[i].DoRecover? ==> At(h, es, i).flights == map[]
  }

  lemma {:induction false} RunFlightsSubmitting(h: Hash, es: seq<Event>, n: nat)
    requires n <= |es| && QuietRecovery(h, es)
    ensures FlightsSubmitting(At(h, es, n).flights, At(h, es, n).attempts)
  {
    hide Step, Inv;
    if n > 0 {
      hide FlightsSubmitting, AllMove;
      RunFlightsSubmitting(h, es, n - 1);
      RunKeeps(h, es, n - 1);
      StepMoves(h, At(h, es, n - 1), es[n - 1]);
    }
  }

  /** Every attempt, at every step of every run with quiet recovery, moves only as allowed. */
  lemma AttemptLifecycle(h: Hash, es: seq<Event>, n: nat, a: AttemptId)
    requires n < |es| && QuietRecovery(h, es) && a in At(h, es, n).attempts
    ensures a in At(h, es, n + 1).attempts && Moves(At(h, es, n).attempts[a], At(h, es, n + 1).attempts[a])
  {
    hide Step, Inv, FlightsSubmitting, Moves, At;
    RunFlightsSubmitting(h, es, n);
    RunKeeps(h, es, n);
    StepMoves(h, At(h, es, n), es[n]);
    AtNext(h, es, n);
  }

  /** A wamid that this answer does not carry. */
  function OtherWamid(f: Flight): Bytes
  {
    if f.Posted? && f.answer.Accepted? && f.answer.wamid == Some("a") then "b" else "a"
  }

  /** A recovery during a send lets a status event submit the attempt, which the sender then overwrites:
      whatever the provider answers, or has answered, its result is a forbidden move. */
  lemma OverwriteForbidden(s: State, p: SenderId)
    requires p in s.flights && s.flights[p].Posted? && s.flights[p].attempt in s.attempts
    requires var t := s.attempts[s.flights[p].attempt];
      t.state == Submitted && t.wamid == Some(OtherWamid(s.flights[p]))
    ensures var a := s.flights[p].attempt; a in Finish(s, p).attempts && !Moves(s.attempts[a], Finish(s, p).attempts[a])
  {
  }

  /** The attempt of a flight, recovered and then resolved by a status event. */
  lemma Resubmitted(s: State, p: SenderId)
    requires p in s.flights && s.flights[p].attempt in s.attempts
    requires s.attempts[s.flights[p].attempt].state == Submitting
    ensures var a, wamid := s.flights[p].attempt, Some(OtherWamid(s.flights[p]));
      var s' := StatusEvent(Recover(s), Some(a), wamid).0;
      && s'.flights == s.flights && s'.drafts == s.drafts
      && a in s'.attempts && s'.attempts[a] == s.attempts[a].(state := Submitted, wamid := wamid)
  {
    hide KnownWamid;
  }

  lemma PostsAnswer(s: State, p: SenderId, answer: Answer)
    requires p in s.flights && s.flights[p].ToPost? && s.flights[p].attempt in s.attempts
    requires s.attempts[s.flights[p].attempt].draftId in s.drafts
    ensures var s' := Post(s, p, answer);
      s'.attempts == s.attempts && s'.flights == s.flights[p := Posted(s.flights[p].attempt, answer)]
  {
  }

  /** From step `from` on, every attempt moves only as allowed. */
  ghost predicate Lawful(h: Hash, es: seq<Event>, from: nat)
  {
    forall i: nat, a :: from <= i < |es| && a in At(h, es, i).attempts ==>
      a in At(h, es, i + 1).attempts && Moves(At(h, es, i).attempts[a], At(h, es, i + 1).attempts[a])
  }

  /** Recoveries among the last events run only when no send is in flight. */
  ghost predicate QuietFrom(h: Hash, es: seq<Event>, from: nat)
  {
    forall i: nat :: from <= i < |es| && es[i].DoRecover? ==> At(h, es, i).flights == map[]
  }

  lemma AppendSteps(h: Hash, es: seq<Event>, e: Event)
    ensures At(h, es + [e], |es|) == At(h, es, |es|) && At(h, es + [e], |es| + 1) == Step(h, At(h, es, |es|), e).0
  {
    hide Step;
    AtPrefix(h, es, [e], |es|);
    AtMore(h, es, e);
  }

  lemma UnlawfulEnd(h: Hash, es: seq<Event>, e: Event, a: AttemptId, from: nat)
    requires from <= |es| && a in At(h, es, |es|).attempts
    requires var s' := Step(h, At(h, es, |es|), e).0;
      a in s'.attempts && !Moves(At(h, es, |es|).attempts[a], s'.attempts[a])
    ensures !Lawful(h, es + [e], from)
  {
    hide Step, Moves, At;
    AppendSteps(h, es, e);
    var all, i: nat := es + [e], |es|;
    assert from <= i < |all| && a in At(h, all, i).attempts &&
      !Moves(At(h, all, i).attempts[a], At(h, all, i + 1).attempts[a]);
  }

  lemma FlightFacts(s: State, p: SenderId)
    requires Inv(s) && FlightsSubmitting(s.flights, s.attempts) && p in s.flights
    ensures var a := s.flights[p].attempt;
      a in s.attempts && s.attempts[a].state == Submitting && s.attempts[a].draftId in s.drafts
  {
  }

  /** After a recovery and a status event the attempt in flight for `p` counts as submitted. */
  lemma AfterRecovery(h: Hash, es: seq<Event>, p: SenderId)
    requires QuietRecovery(h, es) && p in At(h, es, |es|).flights
    ensures var s, f := At(h, es, |es|), At(h, es, |es|).flights[p];
      var es2 := es + [DoRecover] + [DoStatus(Some(f.attempt), Some(OtherWamid(f)))];
      var s2 := At(h, es2, |es2|);
      && p in s2.flights && s2.flights[p] == f && f.attempt in s2.attempts
      && s2.attempts[f.attempt].state == Submitted && s2.attempts[f.attempt].wamid == Some(OtherWamid(f))
      && s2.attempts[f.attempt].draftId in s2.drafts
  {
    hide At, Inv, FlightsSubmitting, Recover, StatusEvent, QuietRecovery, OtherWamid;
    var s := At(h, es, |es|);
    RunFlightsSubmitting(h, es, |es|);
    RunKeeps(h, es, |es|);
    var f := s.flights[p];
    FlightFacts(s, p);
    Resubmitted(s, p);
    AppendSteps(h, es, DoRecover);
    AppendSteps(h, es + [DoRecover], DoStatus(Some(f.attempt), Some(OtherWamid(f))));
  }

  /** The events that break the life of the attempt in flight for `p`. */
  lemma BreakingEvents(h: Hash, es: seq<Event>, p: SenderId) returns (more: seq<Event>)
    requires QuietRecovery(h, es) && p in At(h, es, |es|).flights
    ensures forall i :: 0 <= i < |more| ==> !more[i].DoRecover?
    ensures !Lawful(h, es + [DoRecover] + more, |es|)
  {
    hide At, QuietRecovery, Lawful, Moves, Post, Finish, OtherWamid;
    var f := At(h, es, |es|).flights[p];
    var e := DoStatus(Some(f.attempt), Some(OtherWamid(f)));
    AfterRecovery(h, es, p);
    var es2 := es + [DoRecover] + [e];
    if f.Posted? {
      OverwriteForbidden(At(h, es2, |es2|), p);
      UnlawfulEnd(h, es2, DoFinish(p), f.attempt, |es|);
      more := [e, DoFinish(p)];
      assert es + [DoRecover] + more == es2 + [DoFinish(p)];
    } else {
      PostsAnswer(At(h, es2, |es2|), p, TimedOut);
      var es3 := es2 + [DoPost(p, TimedOut)];
      AppendSteps(h, es2, DoPost(p, TimedOut));
      OverwriteAfterPost(At(h, es3, |es3|), p);
      UnlawfulEnd(h, es3, DoFinish(p), f.attempt, |es|);
      more := [e, DoPost(p, TimedOut), DoFinish(p)];
      assert es + [DoRecover] + more == es3 + [DoFinish(p)];
    }
  }

  lemma OverwriteAfterPost(s: State, p: SenderId)
    requires p in s.flights && s.flights[p].Posted? && s.flights[p].answer == TimedOut
    requires s.flights[p].attempt in s.attempts
    requires s.attempts[s.flights[p].attempt].state == Submitted
    ensures var a := s.flights[p].attempt; a in Finish(s, p).attempts && !Moves(s.attempts[a], Finish(s, p).attempts[a])
  {
  }

  lemma QuietWhole(h: Hash, es: seq<Event>, more: seq<Event>)
    requires QuietRecovery(h, es) && At(h, es, |es|).flights == map[]
    requires QuietFrom(h, es + [DoRecover] + more, |es| + 1)
    ensures QuietRecovery(h, es + [DoRecover] + more)
  {
    hide At;
    var all := es + [DoRecover] + more;
    assert all == es + ([DoRecover] + more);
    forall i | 0 <= i < |all| && all[i].DoRecover? ensures At(h, all, i).flights == map[] {
      if i <= |es| { AtPrefix(h, es, [DoRecover] + more, i); }
    }
  }

  lemma QuietIsLawful(h: Hash, es: seq<Event>, from: nat)
    requires QuietRecovery(h, es)
    ensures Lawful(h, es, from)
  {
    hide At, QuietRecovery, Moves;
    forall i: nat, a | from <= i < |es| && a in At(h, es, i).attempts
      ensures a in At(h, es, i + 1).attempts && Moves(At(h, es, i).attempts[a], At(h, es, i + 1).attempts[a])
    {
      AttemptLifecycle(h, es, i, a);
    }
  }

  /** After any run whose recoveries were quiet, one more recovery is safe, whatever follows it, if and only
      if no send is in flight when it runs. */
  lemma RecoverySafeIff(h: Hash, es: seq<Event>)
    requires QuietRecovery(h, es)
    ensures At(h, es, |es|).flights == map[] <==>
      forall more :: QuietFrom(h, es + [DoRecover] + more, |es| + 1) ==> Lawful(h, es + [DoRecover] + more, |es|)
  {
    hide At, QuietRecovery, Lawful;
    if At(h, es, |es|).flights == map[] {
      forall more | QuietFrom(h, es + [DoRecover] + more, |es| + 1) ensures Lawful(h, es + [DoRecover] + more, |es|) {
        QuietWhole(h, es, more);
        QuietIsLawful(h, es + [DoRecover] + more, |es|);
      }
    } else {
      var p :| p in At(h, es, |es|).flights;
      var more := BreakingEvents(h, es, p);
      var all := es + [DoRecover] + more;
      assert forall i: nat :: |es| + 1 <= i < |all| ==> all[i] == more[i - |es| - 1];
      assert QuietFrom(h, all, |es| + 1);
    }
  }

  /** An attempt that has a wamid is submitted. */
  ghost predicate WamidsSubmitted(attempts: map<AttemptId, Attempt>)
  {
    forall a :: a in attempts && attempts[a].wamid.Some? ==> attempts[a].state == Submitted
  }

  lemma StepWamids(h: Hash, s: State, e: Event)
    requires WamidsSubmitted(s.attempts) && FlightsSubmitting(s.flights, s.attempts)
    ensures WamidsSubmitted(Step(h, s, e).0.attempts)
  {
    hide Authorise, Post, Finish, Recover, StatusEvent, FlightsSubmitting, WamidsSubmitted;
    match e
    case DoAuthorise(p, env, reading) => AuthoriseWamids(h, s, p, env, reading);
    case DoPost(p, answer) => PostAttempts(s, p, answer);
    case DoFinish(p) => FinishWamids(s, p);
    case DoRecover => RecoverWamids(s);
    case DoStatus(callback, wamid) => StatusWamids(s, callback, wamid);
    case _ =>
  }

  lemma AuthoriseWamids(h: Hash, s: State, p: SenderId, env: Envelope, reading: int)
    requires WamidsSubmitted(s.attempts)
    ensures WamidsSubmitted(Authorise(h, s, p, env, reading).0.attempts)
  {
    hide Check, Trusted;
  }

  lemma FinishWamids(s: State, p: SenderId)
    requires WamidsSubmitted(s.attempts) && FlightsSubmitting(s.flights, s.attempts)
    ensures WamidsSubmitted(Finish(s, p).attempts)
  {
  }

  lemma RecoverWamids(s: State)
    requires WamidsSubmitted(s.attempts)
    ensures WamidsSubmitted(Recover(s).attempts)
  {
  }

  lemma StatusWamids(s: State, callback: Option<AttemptId>, wamid: Option<Bytes>)
    requires WamidsSubmitted(s.attempts)
    ensures WamidsSubmitted(StatusEvent(s, callback, wamid).0.attempts)
  {
    hide KnownWamid;
  }

  lemma {:induction false} RunWamids(h: Hash, es: seq<Event>, n: nat)
    requires n <= |es| && QuietRecovery(h, es)
    ensures WamidsSubmitted(At(h, es, n).attempts)
  {
    hide Step, FlightsSubmitting;
    if n > 0 {
      hide WamidsSubmitted;
      RunWamids(h, es, n - 1);
      RunFlightsSubmitting(h, es, n - 1);
      StepWamids(h, At(h, es, n - 1), es[n - 1]);
    }
  }

  /** The event's callback names an attempt whose outcome is unknown. */
  predicate NamesUnknown(attempts: map<AttemptId, Attempt>, callback: Option<AttemptId>)
  {
    callback.Some? && callback.value in attempts && attempts[callback.value].state == Indeterminate
  }

  ghost predicate SubmittedAs(attempts: map<AttemptId, Attempt>, wamid: Option<Bytes>)
  {
    wamid.Some? && wamid.value != ""
    && exists a :: a in attempts && attempts[a].wamid == wamid && attempts[a].state == Submitted
  }

  /** In runs with quiet recovery a status event that names an attempt of unknown outcome submits that one,
      under the event's wamid, and touches no other. Any other event changes no attempt: it is resolved if and
      only if its wamid is that of an attempt already submitted, and otherwise leaves one candidate. */
  lemma StatusResolvesOrAsks(h: Hash, es: seq<Event>, n: nat)
    requires n < |es| && QuietRecovery(h, es) && es[n].DoStatus?
    ensures var s, s', callback, wamid := At(h, es, n), At(h, es, n + 1), es[n].callback, es[n].wamid;
      && (Out(h, es, n) == Resolved <==> NamesUnknown(s.attempts, callback) || SubmittedAs(s.attempts, wamid))
      && (Out(h, es, n) == PossibleMatch <==> Out(h, es, n) != Resolved)
      && s'.candidates == s.candidates + (if Out(h, es, n) == Resolved then 0 else 1)
      && s'.attempts == if NamesUnknown(s.attempts, callback)
           then s.attempts[callback.value := s.attempts[callback.value].(state := Submitted, wamid := wamid)]
           else s.attempts
  {
    var s, e := At(h, es, n), es[n];
    RunWamids(h, es, n);
    AtNext(h, es, n);
    assert Out(h, es, n) == StatusEvent(s, e.callback, e.wamid).1;
    assert At(h, es, n + 1) == StatusEvent(s, e.callback, e.wamid).0;
    hide At, QuietRecovery;
    if KnownWamid(s, e.wamid) {
      var a :| a in s.attempts && s.attempts[a].wamid == e.wamid;
      assert s.attempts[a].state == Submitted;
    }
  }

  // ---------------------------------------------------------------- what a whole call records

  /** How an answer is recorded: an accepted message is submitted under the provider's wamid, one that was turned
      down or never reached the provider has failed, and one that may or may not have gone out is indeterminate. */
  predicate RecordedAs(t: Attempt, x: Answer)
  {
    && (t.state == Submitted <==> x.Accepted?)
    && (t.state == FailedState <==> x == Rejected || x == NoConnection)
    && (t.state == Indeterminate <==> x == TimedOut)
    && t.wamid == if x.Accepted? then x.wamid else None
  }

  lemma FinishRecords(s: State, p: SenderId)
    requires p in s.flights && s.flights[p].Posted? && s.flights[p].attempt in s.attempts
    requires s.attempts[s.flights[p].attempt].wamid == None
    ensures var s', a, x := Finish(s, p), s.flights[p].attempt, s.flights[p].answer;
      && a in s'.attempts && RecordedAs(s'.attempts[a], x)
      && s'.attempts[a].draftId == s.attempts[a].draftId && s'.attempts[a].nonce == s.attempts[a].nonce
      && s'.attempts == s.attempts[a := s'.attempts[a]]
      && s' == s.(attempts := s'.attempts, flights := s.flights - {p})
  {
  }

  lemma CheckAnswers(h: Hash, s: State, env: Envelope, now: int)
    ensures var o := Check(h, s, env, now);
      o.Some? ==> (o.value.Denied? && o.value.why != AlreadyConsumed) || o.value == CannotEncode
  {
    hide Encodable, DecisionBytes, Failed, ContextOf, Verifies, ActiveKey;
  }

  /** A whole call of `execute_write`: if it starts, the provider is called once with the draft's own number,
      recipient and body, and the attempt is recorded as answered. */
  lemma WholeCall(h: Hash, s: State, p: SenderId, env: Envelope, now: int, x: Answer)
    requires p !in s.flights
    ensures var (s1, o) := Authorise(h, s, p, env, now);
      var s' := Finish(Post(s1, p, x), p);
      o.Started? ==>
        && env.draftId in s.drafts
        && var d := s.drafts[env.draftId];
           && s'.calls == s.calls + [Call(s.next, d.terms.phone, Slot(d.terms.recipient), Slot(d.body))]
           && s.next in s'.attempts && RecordedAs(s'.attempts[s.next], x)
           && s'.attempts[s.next].draftId == env.draftId && s'.attempts[s.next].nonce == env.nonce
           && s'.attempts == s.attempts[s.next := s'.attempts[s.next]]
           && s'.nonces == s.nonces[env.nonce := env.draftId] && s'.flights == s.flights
           && s'.drafts == s.drafts && s'.devices == s.devices && s'.windows == s.windows
           && s'.candidates == s.candidates && s'.next == s.next + 1
  {
    hide Check, Finish;
    var (s1, o) := Authorise(h, s, p, env, now);
    if o.Started? {
      StartedKnown(h, s, p, env, now);
      hide Authorise, Trusted;
      var s2 := Post(s1, p, x);
      FinishRecords(s2, p);
      assert s.flights[p := ToPost(s.next)][p := Posted(s.next, x)] - {p} == s.flights;
    }
  }

  lemma StartedKnown(h: Hash, s: State, p: SenderId, env: Envelope, now: int)
    requires p !in s.flights
    ensures var (s', o) := Authorise(h, s, p, env, now);
      && (o.Started? ==> env.draftId in s.drafts && o.attempt == s.next)
      && (o.Started? ==>
            s' == s.(clock := Some(now), nonces := s.nonces[env.nonce := env.draftId],
                     attempts := s.attempts[s.next := Attempt(env.draftId, env.nonce, Submitting, None)],
                     flights := s.flights[p := ToPost(s.next)], next := s.next + 1))
      && (!o.Started? ==> s' == s.(clock := s'.clock))
  {
    StartedIff(h, s, p, env, now);
    CheckAnswers(h, s.(clock := Some(now)), env, now);
    hide Check;
  }

  // ---------------------------------------------------------------- the code

  class Sender {
    var drafts: map<Bytes, Draft>
    var devices: map<Bytes, Device>
    ghost var signed: set<Signature>
    var windows: map<ConvId, int>
    var nonces: map<Bytes, Bytes>
    var attempts: map<AttemptId, Attempt>
    var calls: seq<Call>
    var flights: map<SenderId, Flight>
    var candidates: nat
    var next: nat
    const guard: ClockGuard

    ghost function View(): State
      reads this, guard
    {
      State(drafts, devices, signed, windows, nonces, attempts, calls, flights, candidates, guard.last, next)
    }

    constructor (guard: ClockGuard)
      ensures this.guard == guard && drafts == map[] && devices == map[] && signed == {} && windows == map[]
      ensures nonces == map[] && attempts == map[] && calls == [] && flights == map[] && candidates == 0 && next == 0
    {
      this.guard := guard;
      drafts, devices, signed, windows := map[], map[], {}, map[];
      nonces, attempts, calls, flights, candidates, next := map[], map[], [], map[], 0, 0;
    }

    /** `prepare`: refused by the policy, answered with a pending draft, or written. */
    method PrepareDraft(h: Hash, a: Ask, windowOpen: bool, found: Option<Bytes>, id: Bytes, nonce: Bytes, now: int)
        returns (r: Prepared)
      requires Selected(h, drafts, a, found) && id !in drafts && |nonce| == 32
      modifies this`drafts
      ensures r == AnswerTo(a, windowOpen, found, id, now) && (r.Refused? <==> !Allowed(a, windowOpen))
      ensures r.Refused? <==> exists why :: Fails(AskContext(a, windowOpen, now), why)
      ensures r.Refused? ==> Fails(AskContext(a, windowOpen, now), r.why)
      ensures !r.Created? ==> drafts == old(drafts)
      ensures r.Reused? ==> found == Some(r.id)
      ensures r.Created? ==>
        && found == None && r.id == id && a.recipient.Some? && a.recipient.value != ""
        && drafts == old(drafts)[id := DraftFor(h, a, nonce, now)] && IsPrepared(h, drafts[id])
    {
      AskAnswered(a, windowOpen, found, id, now);
      var c := AskContext(a, windowOpen, now);
      FailedExact(c, RecipientUnbound);
      if Failed(c) != [] {
        FailedExact(c, Failed(c)[0]);
        return Refused(Failed(c)[0]);
      }
      assert !Fails(c, RecipientUnbound);
      if found.Some? { return Reused(found.value); }
      drafts := drafts[id := DraftFor(h, a, nonce, now)];
      return Created(id);
    }

    /** Everything before the nonce, in the order of the code; `genuine` answers the signature check. */
    method CheckEnvelope(h: Hash, env: Envelope, now: int, genuine: bool) returns (o: Option<Output>)
      requires genuine <==> env.signature in signed
      ensures o == Check(h, View(), env, now)
    {
      hide Encodable, DecisionBytes, Failed;
      if env.draftId !in drafts { return Some(Denied(UnknownDraft)); }
      var d := drafts[env.draftId];
      if env.verdict != APPROVE { return Some(Denied(NotApproved)); }
      if env.deviceId !in devices || !devices[env.deviceId].active { return Some(Denied(DeviceNotActive)); }
      if !Encodable(DecisionOf(env, d)) { return Some(CannotEncode); }
      var payload := DecisionBytes(DecisionOf(env, d));
      if env.signature != Signature(devices[env.deviceId].key, payload) || !genuine {
        return Some(Denied(SignatureInvalid));
      }
      if d.terms.bodySha.Some? && h(BodyOf(d)) != d.terms.bodySha.value { return Some(Denied(PayloadChanged)); }
      var failed := Evaluate(Context(d.terms.recipient, d.terms.kind, WindowOpen(windows, d.conv, now), true, Some(now),
                                     d.terms.expiresAt, true, true, false));
      if failed != [] { return Some(Denied(PolicyFailed(failed[0]))); }
      return None;
    }

    /** `execute_write` when nothing dies: the three steps of the machine, one after another. */
    method ExecuteWrite(h: Hash, p: SenderId, env: Envelope, reading: int, genuine: bool, answer: Answer)
        returns (o: Output)
      requires genuine <==> env.signature in signed
      requires p !in flights
      modifies this, guard
      ensures var (s1, o1) := Authorise(h, old(View()), p, env, reading);
        o == o1 && View() == if o.Started? then Finish(Post(s1, p, answer), p) else s1
      ensures !o.Started? ==> attempts == old(attempts) && calls == old(calls) && nonces == old(nonces)
      ensures o.Started? ==>
        && env.draftId in old(drafts) && o.attempt in attempts && RecordedAs(attempts[o.attempt], answer)
        && attempts[o.attempt].draftId == env.draftId && attempts[o.attempt].nonce == env.nonce
        && attempts == old(attempts)[o.attempt := attempts[o.attempt]]
        && nonces == old(nonces)[env.nonce := env.draftId]
        && var d := old(drafts)[env.draftId];
           calls == old(calls) + [Call(o.attempt, d.terms.phone, Slot(d.terms.recipient), Slot(d.body))]
    {
      hide Authorise, Post, Finish, RecordedAs;
      StartedKnown(h, View(), p, env, reading);
      WholeCall(h, View(), p, env, reading, answer);
      o := Begin(h, p, env, reading, genuine);
      if o.Started? {
        Transmit(p, answer);
        Record(p);
      }
    }

    /** The checks, then nonce and attempt in one commit. */
    method Begin(h: Hash, p: SenderId, env: Envelope, reading: int, genuine: bool) returns (o: Output)
      requires genuine <==> env.signature in signed
      requires p !in flights
      modifies this, guard
      ensures (View(), o) == Authorise(h, old(View()), p, env, reading)
      ensures signed == old(signed)
    {
      hide Check;
      var now := guard.TrustedNow(reading);
      if now == None { return ClockUntrusted; }
      var refusal := CheckEnvelope(h, env, reading, genuine);
      if refusal.Some? { return refusal.value; }
      if |env.nonce| != 32 || env.nonce in nonces { return Denied(AlreadyConsumed); }
      var a := next;
      nonces := nonces[env.nonce := env.draftId];
      attempts := attempts[a := Attempt(env.draftId, env.nonce, Submitting, None)];
      flights := flights[p := ToPost(a)];
      next := next + 1;
      return Started(a);
    }

    /** The provider call. */
    method Transmit(p: SenderId, answer: Answer)
      modifies this`calls, this`flights
      ensures View() == Post(old(View()), p, answer)
    {
      if p in flights && flights[p].ToPost? && flights[p].attempt in attempts &&
        attempts[flights[p].attempt].draftId in drafts {
        var a := flights[p].attempt;
        var d := drafts[attempts[a].draftId];
        calls := calls + [Call(a, d.terms.phone, Slot(d.terms.recipient), BodyOf(d))];
        flights := flights[p := Posted(a, answer)];
      }
    }

    /** `_finish` */
    method Record(p: SenderId)
      modifies this`attempts, this`flights
      ensures View() == Finish(old(View()), p)
    {
      if p in flights && flights[p].Posted? && flights[p].attempt in attempts {
        var a := flights[p].attempt;
        attempts := attempts[a := Finished(attempts[a], flights[p].answer)];
        flights := flights - {p};
      }
    }

    method RecoverStartup() returns (recovered: nat)
      modifies this`attempts
      ensures View() == Recover(old(View()))
      ensures recovered == |set a | a in old(attempts) && old(attempts)[a].state == Submitting|
    {
      var stranded := set a | a in attempts && attempts[a].state == Submitting;
      recovered := |stranded|;
      attempts := map a | a in attempts ::
        if attempts[a].state == Submitting then attempts[a].(state := Indeterminate) else attempts[a];
    }

    method OnStatusEvent(callback: Option<AttemptId>, wamid: Option<Bytes>) returns (o: Output)
      modifies this`attempts, this`candidates
      ensures (View(), o) == StatusEvent(old(View()), callback, wamid)
    {
      if callback.Some? && callback.value in attempts && attempts[callback.value].state == Indeterminate {
        attempts := attempts[callback.value := attempts[callback.value].(state := Submitted, wamid := wamid)];
        return Resolved;
      }
      if wamid.Some? && wamid.value != "" && exists a :: a in attempts && attempts[a].wamid == wamid {
        return Resolved;
      }
      candidates := candidates + 1;
      return PossibleMatch;
    }
  }
}
