/** What `execute_write` answers and records (approval/sender.py): why it refuses, and what becomes of an attempt
    by what the provider answered. */
module Outcomes {
  import opened Prelude
  import opened Encoding
  import opened Policy
  import opened Devices
  import opened Send

  // ---------------------------------------------------------------- refusals

  /** The window of the draft's conversation is open: a message came in less than 24 hours ago. */
  predicate Open(s: State, d: Draft, now: int)
  {
    d.conv in s.windows && s.windows[d.conv] > 0 && now < s.windows[d.conv] + 86_400_000
  }

  predicate Addressed(d: Draft)
  {
    d.terms.recipient.Some? && d.terms.recipient.value != ""
  }

  predicate Late(d: Draft, now: int)
  {
    d.terms.expiresAt.Some? && now >= d.terms.expiresAt.value
  }

  predicate Active(s: State, env: Envelope)
  {
    env.deviceId in s.devices && s.devices[env.deviceId].active
  }

  /** The body is the one whose hash the draft holds, if it holds one. */
  predicate Intact(h: Hash, d: Draft)
  {
    d.terms.bodySha == None || d.terms.bodySha.value == h(if d.body.Some? then d.body.value else "")
  }

  /** The device's key signed these bytes. */
  predicate SignedBy(s: State, env: Envelope, bytes: Bytes)
    requires env.deviceId in s.devices
  {
    env.signature in s.signed && env.signature.key == s.devices[env.deviceId].key && env.signature.over == bytes
  }

  /** The first check the send policy fails, if any. */
  function FirstFailure(s: State, d: Draft, now: int): Option<Reason>
  {
    if !Addressed(d) then Some(RecipientUnbound)
    else if d.terms.kind == "text" && !Open(s, d, now) then Some(WindowClosed)
    else if Late(d, now) then Some(Expired)
    else None
  }

  lemma FirstFailureIs(s: State, d: Draft, now: int)
    ensures var failed := Failed(ContextOf(s, d, now));
      if failed == [] then FirstFailure(s, d, now) == None else FirstFailure(s, d, now) == Some(failed[0])
  {
    var c := ContextOf(s, d, now);
    assert Fails(c, RecipientUnbound) <==> !Addressed(d);
    assert Fails(c, WindowClosed) <==> d.terms.kind == "text" && !Open(s, d, now);
    assert Fails(c, Expired) <==> Late(d, now);
    assert !Fails(c, AccountBinding) && !Fails(c, DeviceInactive) && !Fails(c, RateLimit) && !Fails(c, GroupRecipient);
    hide Fails;
  }

  /** The decision that is signed: the verdict and the device of the envelope, all else from the draft. */
  predicate Decides(d: Decision, env: Envelope, draft: Draft)
  {
    d.verdict == env.verdict && d.deviceId == env.deviceId && d.draftId == env.draftId && d.terms == draft.terms
  }

  /** What the checks answer, first failure first. */
  lemma ChecksInOrder(h: Hash, s: State, env: Envelope, now: int, dec: Decision)
    requires env.draftId in s.drafts ==> Decides(dec, env, s.drafts[env.draftId])
    ensures var o := Check(h, s, env, now);
      if env.draftId !in s.drafts then o == Some(Denied(UnknownDraft))
      else
        var d := s.drafts[env.draftId];
        if env.verdict != "APPROVE" then o == Some(Denied(NotApproved))
        else if !Active(s, env) then o == Some(Denied(DeviceNotActive))
        else if !Encodable(dec) then o == Some(CannotEncode)
        else if !SignedBy(s, env, DecisionBytes(dec)) then o == Some(Denied(SignatureInvalid))
        else if !Intact(h, d) then o == Some(Denied(PayloadChanged))
        else if FirstFailure(s, d, now).Some? then o == Some(Denied(PolicyFailed(FirstFailure(s, d, now).value)))
        else o == None
  {
    hide Encodable, DecisionBytes, Failed, FirstFailure, ContextOf;
    if env.draftId in s.drafts {
      FirstFailureIs(s, s.drafts[env.draftId], now);
      assert DecisionOf(env, s.drafts[env.draftId]) == dec;
    }
  }

  /** What one authorisation answers and writes: nothing but the clock reading moves unless all checks pass and
      the nonce is new; then the nonce is taken and one attempt opened, both for the envelope's draft. */
  lemma AuthorisedOrNot(h: Hash, s: State, p: SenderId, env: Envelope, now: int)
    requires p !in s.flights
    ensures var (s', o) := Authorise(h, s, p, env, now);
      var checked := Check(h, s.(clock := Some(now)), env, now);
      && (s.clock.Some? && now < s.clock.value <==> o == ClockUntrusted)
      && (o == ClockUntrusted ==> s' == s)
      && (o != ClockUntrusted && checked.Some? ==> o == checked.value && s' == s.(clock := Some(now)))
      && (o == Denied(AlreadyConsumed) <==>
            o != ClockUntrusted && checked == None && (|env.nonce| != 32 || env.nonce in s.nonces))
      && (o == Denied(AlreadyConsumed) ==> s' == s.(clock := Some(now)))
      && (o.Started? ==>
            && o.attempt == s.next && s'.nonces == s.nonces[env.nonce := env.draftId]
            && s'.attempts == s.attempts[s.next := Attempt(env.draftId, env.nonce, Submitting, None)]
            && s'.calls == s.calls && s'.drafts == s.drafts && s'.flights == s.flights[p := ToPost(s.next)])
  {
    CheckAnswers(h, s.(clock := Some(now)), env, now);
    hide Check;
  }

  // ---------------------------------------------------------------- what is recorded

  lemma StepPosted(h: Hash, s: State, e: Event, p: SenderId)
    requires p in Step(h, s, e).0.flights && Step(h, s, e).0.flights[p].Posted?
    ensures var f := Step(h, s, e).0.flights[p];
      || (p in s.flights && s.flights[p] == f)
      || (e == DoPost(p, f.answer) && p in s.flights && s.flights[p] == ToPost(f.attempt)
          && |Step(h, s, e).0.calls| == |s.calls| + 1 && Step(h, s, e).0.calls[|s.calls|].attempt == f.attempt)
  {
    hide Check, Trusted, KnownWamid;
  }

  /** A flight that has been posted holds the answer of the provider call that was made for it. */
  lemma {:induction false} PostedFrom(h: Hash, es: seq<Event>, n: nat, p: SenderId) returns (k: nat)
    requires n <= |es| && p in At(h, es, n).flights && At(h, es, n).flights[p].Posted?
    ensures var f := At(h, es, n).flights[p];
      && k < n && es[k] == DoPost(p, f.answer)
      && |At(h, es, k + 1).calls| == |At(h, es, k).calls| + 1
      && At(h, es, k + 1).calls[|At(h, es, k).calls|].attempt == f.attempt
    decreases n
  {
    hide Step;
    assert n > 0;
    StepPosted(h, At(h, es, n - 1), es[n - 1], p);
    if p in At(h, es, n - 1).flights && At(h, es, n - 1).flights[p] == At(h, es, n).flights[p] {
      k := PostedFrom(h, es, n - 1, p);
    } else {
      k := n - 1;
    }
  }

  /** In every run with quiet recoveries, finishing a send records what the provider answered to the call that was
      made for it, on an attempt that was still being submitted, and touches nothing else. */
  lemma AnswerIsRecorded(h: Hash, es: seq<Event>, n: nat) returns (k: nat)
    requires n < |es| && QuietRecovery(h, es) && es[n].DoFinish?
    requires var p := es[n].sender; p in At(h, es, n).flights && At(h, es, n).flights[p].Posted?
    ensures var s, s', p := At(h, es, n), At(h, es, n + 1), es[n].sender;
      var a := s.flights[p].attempt;
      && k < n && es[k].DoPost? && es[k].sender == p && |At(h, es, k + 1).calls| == |At(h, es, k).calls| + 1
      && At(h, es, k + 1).calls[|At(h, es, k).calls|].attempt == a
      && a in s.attempts && s.attempts[a].state == Submitting
      && a in s'.attempts && RecordedAs(s'.attempts[a], es[k].answer)
      && s'.attempts[a].draftId == s.attempts[a].draftId && s'.attempts[a].nonce == s.attempts[a].nonce
      && s' == s.(attempts := s.attempts[a := s'.attempts[a]], flights := s.flights - {p})
  {
    var p := es[n].sender;
    AtNext(h, es, n);
    assert At(h, es, n + 1) == Finish(At(h, es, n), p);
    hide At, Step, QuietRecovery, Finish;
    RunFlightsSubmitting(h, es, n);
    RunWamids(h, es, n);
    FinishRecords(At(h, es, n), p);
    k := PostedFrom(h, es, n, p);
  }

  /** A recovery makes every attempt that was being submitted indeterminate, and changes nothing else. */
  lemma RecoveryMarks(s: State)
    ensures var s' := Recover(s);
      && s' == s.(attempts := s'.attempts) && s'.attempts.Keys == s.attempts.Keys
      && (forall a :: a in s.attempts && s.attempts[a].state != Submitting ==> s'.attempts[a] == s.attempts[a])
      && (forall a :: a in s.attempts && s.attempts[a].state == Submitting ==>
            s'.attempts[a] == s.attempts[a].(state := Indeterminate))
  {
  }

  /** A crash loses the flights and the clock guard, and no row. */
  lemma CrashLoses(h: Hash, s: State)
    ensures var s' := Step(h, s, DoCrash).0;
      && s'.flights == map[] && s'.clock == None && s' == s.(flights := map[], clock := None)
  {
  }
}
