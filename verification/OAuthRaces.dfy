/** OAuth calls that interleave (mcp/oauth.py). `poll`, `exchange_code` and `refresh` first read a row and
    later write on the strength of what they read; the server and the command line are different processes,
    so anything may happen in between. `exchange_code` guards its write by the row count, the other two do
    not. What is proved is what survives that, exactly when the rest does, and that every token still comes from
    one request of the client it is issued to. */
module OAuthRaces {
  import opened Prelude
  import opened OAuth

  type CallerId = nat

  /** A call between its read and its write, with the row it read. */
  datatype Caller =
    | Polling(req: RequestId, polled: Pending, now: int)
    | Exchanging(code: Secret, read: Code, now: int)
    | Rotating(held: Token, now: int)

  datatype Sys = Sys(s: State, callers: map<CallerId, Caller>)

  /** The other calls are one step each. */
  datatype Move =
    | Whole(e: Event)
    | ReadPoll(c: CallerId, req: RequestId, now: int)
    | ReadExchange(c: CallerId, code: Secret, client: ClientId, redirect: string, verifier: string, now: int)
    | ReadRotate(c: CallerId, token: Secret, client: ClientId, now: int)
    | Write(c: CallerId)
    | Die(c: CallerId)

  predicate IsSplit(e: Event)
  {
    e.Poll? || e.Exchange? || e.Rotate?
  }

  // ---------------------------------------------------------------- reads and writes

  predicate Collectable(s: State, req: RequestId, now: int)
  {
    req in s.pending && s.pending[req].approved.Some? && s.pending[req].collected == None &&
      now <= s.pending[req].expires
  }

  /** The code row, and the mark on the request row if that is still there. */
  function WritePoll(s: State, req: RequestId, row: Pending, now: int): (State, Output)
  {
    (s.(codes := s.codes[s.next := Code(row.client, row.redirect, row.challenge, now + CODE_TTL, None)],
        pending := if req in s.pending then s.pending[req := s.pending[req].(collected := Some(now))] else s.pending,
        next := s.next + 1),
     Collected(s.next))
  }

  /** The guarded update, then the pair of a new family. */
  function WriteExchange(s: State, code: Secret, row: Code, now: int): (State, Output)
  {
    if code in s.codes && s.codes[code].consumed == None then
      Issue(s.(codes := s.codes[code := s.codes[code].(consumed := Some(now))], next := s.next + 1), row.client,
        s.next, now)
    else (s, Refused(InvalidGrant))
  }

  /** Whatever has become of the family, it is revoked and given a new pair. */
  function WriteRotate(s: State, row: Token, now: int): (State, Output)
  {
    Issue(s.(tokens := RevokeFamily(s.tokens, row.grant, now)), row.client, row.grant, now)
  }

  function DoWrite(s: State, x: Caller): (State, Output)
  {
    match x
    case Polling(req, row, now) => WritePoll(s, req, row, now)
    case Exchanging(code, row, now) => WriteExchange(s, code, row, now)
    case Rotating(row, now) => WriteRotate(s, row, now)
  }

  /** The read of a rotation answers a reuse at once: one statement revokes the family. */
  function ReadRotation(y: Sys, c: CallerId, token: Secret, client: ClientId, now: int): (Sys, Output)
  {
    if !IsRefreshToken(y.s, token) then (y, Refused(InvalidGrant))
    else
      var row := y.s.tokens[token];
      if row.revoked.Some? then
        (y.(s := y.s.(tokens := RevokeFamily(y.s.tokens, row.grant, now))), Refused(InvalidGrant))
      else if now > row.expires || client != row.client then (y, Refused(InvalidGrant))
      else (y.(callers := y.callers[c := Rotating(row, now)]), Done)
  }

  function Step(y: Sys, e: Move): (Sys, Output)
  {
    match e
    case Whole(x) => if IsSplit(x) then (y, Done) else (y.(s := OAuth.Step(y.s, x).0), OAuth.Step(y.s, x).1)
    case ReadPoll(c, req, now) =>
      if c in y.callers then (y, Done)
      else if Collectable(y.s, req, now) then (y.(callers := y.callers[c := Polling(req, y.s.pending[req], now)]), Done)
      else (y, NotYet)
    case ReadExchange(c, code, client, redirect, verifier, now) =>
      if c in y.callers then (y, Done)
      else if Redeemable(y.s, code, client, redirect, verifier, now)
      then (y.(callers := y.callers[c := Exchanging(code, y.s.codes[code], now)]), Done)
      else (y, Refused(InvalidGrant))
    case ReadRotate(c, token, client, now) =>
      if c in y.callers then (y, Done) else ReadRotation(y, c, token, client, now)
    case Write(c) =>
      if c in y.callers then (Sys(DoWrite(y.s, y.callers[c]).0, y.callers - {c}), DoWrite(y.s, y.callers[c]).1)
      else (y, Done)
    case Die(c) => (y.(callers := y.callers - {c}), Done)
  }

  const START := Sys(EMPTY, map[])

  function At(es: seq<Move>, n: nat): Sys
    requires n <= |es|
  {
    if n == 0 then START else Step(At(es, n - 1), es[n - 1]).0
  }

  function Out(es: seq<Move>, i: nat): Output
    requires i < |es|
  {
    Step(At(es, i), es[i]).1
  }

  function ReadOf(c: CallerId, e: Event): Move
    requires IsSplit(e)
  {
    match e
    case Poll(req, now) => ReadPoll(c, req, now)
    case Exchange(code, client, redirect, verifier, now) => ReadExchange(c, code, client, redirect, verifier, now)
    case Rotate(token, client, now) => ReadRotate(c, token, client, now)
  }

  lemma TakenOff(callers: map<CallerId, Caller>, c: CallerId, x: Caller)
    requires c !in callers
    ensures callers[c := x] - {c} == callers
  {
  }

  /** A read followed at once by its write is the whole call, so the runs of whole calls are among these. */
  lemma UninterruptedIsWhole(y: Sys, c: CallerId, e: Event)
    requires c !in y.callers && IsSplit(e)
    ensures var (y1, o1) := Step(y, ReadOf(c, e)); var (y2, o2) := Step(y1, Write(c));
      y2 == y.(s := OAuth.Step(y.s, e).0) && OAuth.Step(y.s, e).1 == if c in y1.callers then o2 else o1
  {
    var y1 := Step(y, ReadOf(c, e)).0;
    hide RevokeFamily, S256;
    if c in y1.callers { TakenOff(y.callers, c, y1.callers[c]); }
  }

  // ---------------------------------------------------------------- what survives

  /** Names are fresh, and rows held by callers are of families that exist. */
  ghost predicate Sound(y: Sys)
  {
    && Fresh(y.s) && OneOfEachKind(y.s.tokens)
    && (forall c :: c in y.callers && y.callers[c].Rotating? ==> y.callers[c].held.grant < y.s.next)
    && (forall c :: c in y.callers && y.callers[c].Exchanging? ==> y.callers[c].code < y.s.next)
    && (forall c :: c in y.callers && y.callers[c].Polling? ==> y.callers[c].req < y.s.next)
  }

  /** The family `g` is dead and nobody is about to rotate it. */
  ghost predicate Finished(y: Sys, g: GrantId)
  {
    && g < y.s.next && DeadIn(y.s.tokens, g)
    && forall c :: c in y.callers && y.callers[c].Rotating? ==> y.callers[c].held.grant != g
  }

  lemma WritePollKeeps(s: State, req: RequestId, row: Pending, now: int)
    requires Fresh(s)
    ensures var s' := WritePoll(s, req, row, now).0; Fresh(s') && s'.tokens == s.tokens && s.next <= s'.next
  {
  }

  lemma WriteExchangeKeeps(s: State, code: Secret, row: Code, now: int, g: GrantId)
    requires Fresh(s) && OneOfEachKind(s.tokens)
    ensures var (s', o) := WriteExchange(s, code, row, now);
      && Fresh(s') && OneOfEachKind(s'.tokens) && s.next <= s'.next
      && (g < s.next && DeadIn(s.tokens, g) ==> DeadIn(s'.tokens, g) && !Serves(o, g))
  {
    if code in s.codes && s.codes[code].consumed == None {
      var s1 := s.(codes := s.codes[code := s.codes[code].(consumed := Some(now))], next := s.next + 1);
      RedeemFresh(s, code, now);
      hide OneOfEachKind, DeadIn, Fresh;
      IssueKeeps(s1, row.client, s.next, now);
      IssueFresh(s1, row.client, s.next, now);
    }
  }

  lemma RedeemFresh(s: State, code: Secret, now: int)
    requires Fresh(s) && code in s.codes
    ensures var s1 := s.(codes := s.codes[code := s.codes[code].(consumed := Some(now))], next := s.next + 1);
      Fresh(s1) && DeadIn(s1.tokens, s.next)
  {
  }

  lemma IssueFresh(s: State, client: ClientId, g: GrantId, now: int)
    requires Fresh(s) && g < s.next
    ensures Fresh(Issue(s, client, g, now).0) && s.next <= Issue(s, client, g, now).0.next
  {
  }

  lemma WriteRotateKeeps(s: State, row: Token, now: int, g: GrantId)
    requires Fresh(s) && OneOfEachKind(s.tokens) && row.grant < s.next
    ensures var (s', o) := WriteRotate(s, row, now);
      && Fresh(s') && OneOfEachKind(s'.tokens) && s.next <= s'.next
      && (g != row.grant && DeadIn(s.tokens, g) ==> DeadIn(s'.tokens, g) && !Serves(o, g))
      && Serves(o, row.grant)
  {
    RevokedFamilyIsDead(s.tokens, row.grant, now);
    var s1 := s.(tokens := RevokeFamily(s.tokens, row.grant, now));
    assert Fresh(s1);
    hide OneOfEachKind, DeadIn, RevokeFamily;
    IssueKeeps(s1, row.client, row.grant, now);
    IssueFresh(s1, row.client, row.grant, now);
  }

  lemma WriteKeeps(s: State, x: Caller, g: GrantId)
    requires Fresh(s) && OneOfEachKind(s.tokens) && (x.Rotating? ==> x.held.grant < s.next)
    ensures var (s', o) := DoWrite(s, x);
      && Fresh(s') && OneOfEachKind(s'.tokens) && s.next <= s'.next
      && (g < s.next && DeadIn(s.tokens, g) && !(x.Rotating? && x.held.grant == g) ==>
         DeadIn(s'.tokens, g) && !Serves(o, g))
  {
    hide Fresh, OneOfEachKind, DeadIn, WriteExchange, WriteRotate;
    match x
    case Polling(req, row, now) => WritePollKeeps(s, req, row, now);
    case Exchanging(code, row, now) => WriteExchangeKeeps(s, code, row, now, g);
    case Rotating(row, now) => WriteRotateKeeps(s, row, now, g);
  }

  lemma ReadRotationKeeps(y: Sys, c: CallerId, token: Secret, client: ClientId, now: int, g: GrantId)
    requires Sound(y) && c !in y.callers
    ensures var (y', o) := ReadRotation(y, c, token, client, now);
      Sound(y') && (Finished(y, g) ==> Finished(y', g) && !Serves(o, g))
  {
    if IsRefreshToken(y.s, token) {
      var row := y.s.tokens[token];
      assert row.grant < y.s.next;
      assert row.revoked == None ==> !DeadIn(y.s.tokens, row.grant);
      if row.revoked.Some? {
        RevokedFamilyIsDead(y.s.tokens, row.grant, now);
        assert Fresh(y.s.(tokens := RevokeFamily(y.s.tokens, row.grant, now)));
        hide OneOfEachKind, DeadIn, RevokeFamily, Fresh;
      }
    }
  }

  lemma WholeKeeps(y: Sys, e: Event, g: GrantId)
    requires Sound(y) && !IsSplit(e)
    ensures var (y', o) := Step(y, Whole(e)); Sound(y') && (Finished(y, g) ==> Finished(y', g) && !Serves(o, g))
  {
    hide OAuth.Step, Fresh, OneOfEachKind, DeadIn;
    StepFamilies(y.s, e, g);
    StepFresh(y.s, e);
  }

  lemma WriteMoveKeeps(y: Sys, c: CallerId, g: GrantId)
    requires Sound(y)
    ensures var (y', o) := Step(y, Write(c)); Sound(y') && (Finished(y, g) ==> Finished(y', g) && !Serves(o, g))
  {
    hide Fresh, OneOfEachKind, DeadIn, DoWrite;
    if c in y.callers { WriteKeeps(y.s, y.callers[c], g); }
  }

  lemma StepKeeps(y: Sys, e: Move, g: GrantId)
    requires Sound(y)
    ensures var (y', o) := Step(y, e); Sound(y') && (Finished(y, g) ==> Finished(y', g) && !Serves(o, g))
  {
    match e
    case Whole(x) => if !IsSplit(x) { WholeKeeps(y, x, g); }
    case Write(c) => WriteMoveKeeps(y, c, g);
    case ReadRotate(c, token, client, now) =>
      hide Sound, Finished, ReadRotation;
      if c !in y.callers { ReadRotationKeeps(y, c, token, client, now, g); }
    case ReadPoll(c, req, now) => hide OneOfEachKind, DeadIn;
    case ReadExchange(c, code, client, redirect, verifier, now) =>
      hide OneOfEachKind, DeadIn, S256;
    case Die(c) => hide OneOfEachKind, DeadIn, Fresh;
  }

  lemma StartSound()
    ensures Sound(START)
  {
  }

  lemma {:induction false} RunSound(es: seq<Move>, n: nat)
    requires n <= |es|
    ensures Sound(At(es, n))
  {
    hide Step, Sound;
    if n == 0 {
      StartSound();
    } else {
      RunSound(es, n - 1);
      StepKeeps(At(es, n - 1), es[n - 1], 0);
    }
  }

  /** However the calls interleave, each family has at most one unrevoked token of each kind. */
  lemma OneLivePairStill(es: seq<Move>, n: nat)
    requires n <= |es|
    ensures OneOfEachKind(At(es, n).s.tokens)
  {
    hide At, Fresh, OneOfEachKind;
    RunSound(es, n);
  }

  lemma {:induction false} AtPrefix(es: seq<Move>, more: seq<Move>, n: nat)
    requires n <= |es|
    ensures At(es + more, n) == At(es, n)
  {
    hide Step;
    if n > 0 { AtPrefix(es, more, n - 1); }
  }

  // ---------------------------------------------------------------- codes and requests

  lemma WriteKeepsSpent(s: State, x: Caller, r: RequestId, code: Secret)
    requires Fresh(s)
    ensures Spent(s, r) ==> Spent(DoWrite(s, x).0, r)
    ensures Redeemed(s, code) ==> Redeemed(DoWrite(s, x).0, code)
  {
    hide RevokeFamily;
  }

  lemma MoveKeepsSpent(y: Sys, e: Move, r: RequestId, code: Secret)
    requires Sound(y)
    ensures Spent(y.s, r) ==> Spent(Step(y, e).0.s, r)
    ensures Redeemed(y.s, code) ==> Redeemed(Step(y, e).0.s, code)
  {
    hide OAuth.Step, DoWrite, OneOfEachKind, RevokeFamily, Redeemable;
    match e
    case Whole(x) => StepKeepsSpent(y.s, x, r, code);
    case Write(c) => if c in y.callers { WriteKeepsSpent(y.s, y.callers[c], r, code); }
    case _ =>
  }

  lemma {:induction false} SpentStays(es: seq<Move>, m: nat, n: nat, r: RequestId, code: Secret)
    requires m <= n <= |es|
    ensures Spent(At(es, m).s, r) ==> Spent(At(es, n).s, r)
    ensures Redeemed(At(es, m).s, code) ==> Redeemed(At(es, n).s, code)
  {
    hide Step, Spent, Redeemed, Sound;
    if m < n {
      SpentStays(es, m, n - 1, r, code);
      RunSound(es, n - 1);
      MoveKeepsSpent(At(es, n - 1), es[n - 1], r, code);
    }
  }

  /** Move `n` is the write of an exchange of this code. */
  predicate ExchangesAt(es: seq<Move>, n: nat, code: Secret)
    requires n < |es|
  {
    es[n].Write? && es[n].c in At(es, n).callers && At(es, n).callers[es[n].c].Exchanging?
    && At(es, n).callers[es[n].c].code == code
  }

  /** The row count guard holds: however exchanges of a code interleave, one of them at most issues a pair. */
  lemma NoSecondExchangeStill(es: seq<Move>, m: nat, n: nat, code: Secret)
    requires m < n < |es| && ExchangesAt(es, m, code) && ExchangesAt(es, n, code) && Out(es, m).Issued?
    ensures Out(es, n) == Refused(InvalidGrant)
  {
    RunSound(es, m);
    var y := At(es, m);
    ExchangeRedeems(y, es[m].c);
    assert At(es, m + 1) == Step(y, es[m]).0;
    hide At, Sound, Redeemed;
    SpentStays(es, m + 1, n, 0, code);
    RedeemedRefuses(At(es, n), es[n].c);
  }

  lemma ExchangeRedeems(y: Sys, c: CallerId)
    requires Sound(y) && c in y.callers && y.callers[c].Exchanging? && Step(y, Write(c)).1.Issued?
    ensures Redeemed(Step(y, Write(c)).0.s, y.callers[c].code)
  {
    hide OneOfEachKind;
  }

  lemma RedeemedRefuses(y: Sys, c: CallerId)
    requires c in y.callers && y.callers[c].Exchanging? && Redeemed(y.s, y.callers[c].code)
    ensures Step(y, Write(c)).1 == Refused(InvalidGrant)
  {
  }

  /** Move `n` writes a code for this request. */
  predicate CollectsAt(es: seq<Move>, n: nat, r: RequestId)
    requires n < |es|
  {
    es[n].Write? && es[n].c in At(es, n).callers && At(es, n).callers[es[n].c].Polling?
    && At(es, n).callers[es[n].c].req == r
  }

  ghost predicate NobodyPolls(y: Sys, r: RequestId)
  {
    forall c :: c in y.callers && y.callers[c].Polling? ==> y.callers[c].req != r
  }

  ghost predicate NoCodeAfter(es: seq<Move>, more: seq<Move>, r: RequestId)
  {
    forall i: nat :: |es| <= i < |es + more| ==> !CollectsAt(es + more, i, r)
  }

  /** A poll's write always yields a code, and spends the request. */
  lemma CollectSpends(es: seq<Move>, n: nat, r: RequestId)
    requires n < |es| && CollectsAt(es, n, r)
    ensures Out(es, n).Collected? && Spent(At(es, n + 1).s, r)
  {
    RunSound(es, n);
    hide OneOfEachKind;
  }

  lemma StaysUnpolled(y: Sys, e: Move, r: RequestId)
    requires Spent(y.s, r) && NobodyPolls(y, r)
    ensures NobodyPolls(Step(y, e).0, r)
  {
    hide OAuth.Step, DoWrite, Redeemable, RevokeFamily;
  }

  lemma {:induction false} RunUnpolled(es: seq<Move>, more: seq<Move>, n: nat, r: RequestId)
    requires |es| <= n <= |es + more| && Spent(At(es, |es|).s, r) && NobodyPolls(At(es, |es|), r)
    ensures NobodyPolls(At(es + more, n), r)
  {
    hide Step, Spent, NobodyPolls;
    AtPrefix(es, more, |es|);
    if n > |es| {
      RunUnpolled(es, more, n - 1, r);
      SpentStays(es + more, |es|, n - 1, r, 0);
      StaysUnpolled(At(es + more, n - 1), (es + more)[n - 1], r);
    }
  }

  /** Once a request has been collected it never yields a second code, whatever follows, if and only if no
      other poll that read it is still to write. */
  lemma NoSecondCodeIff(es: seq<Move>, r: RequestId)
    requires Spent(At(es, |es|).s, r)
    ensures NobodyPolls(At(es, |es|), r) <==> forall more :: NoCodeAfter(es, more, r)
  {
    hide At, Spent;
    if NobodyPolls(At(es, |es|), r) {
      forall more ensures NoCodeAfter(es, more, r) {
        forall i: nat | |es| <= i < |es + more| ensures !CollectsAt(es + more, i, r) {
          RunUnpolled(es, more, i, r);
        }
      }
    } else {
      var c :| c in At(es, |es|).callers && At(es, |es|).callers[c].Polling? && At(es, |es|).callers[c].req == r;
      var more := [Write(c)];
      AtPrefix(es, more, |es|);
      var i: nat := |es|;
      assert (es + more)[i] == Write(c);
      assert CollectsAt(es + more, i, r);
      assert !NoCodeAfter(es, more, r);
    }
  }

  /** Two polls that both read the request before either writes get a code each. */
  lemma TwoCodes(y: Sys, r: RequestId, c: CallerId, d: CallerId, now: int)
    requires Collectable(y.s, r, now) && c !in y.callers && d !in y.callers && c != d
    ensures var y1 := Step(Step(y, ReadPoll(c, r, now)).0, ReadPoll(d, r, now)).0;
      var (y2, o2) := Step(y1, Write(c)); var (_, o3) := Step(y2, Write(d));
      o2.Collected? && o3.Collected? && o2.code != o3.code
  {
  }

  // ---------------------------------------------------------------- dead families

  ghost predicate NobodyRotates(y: Sys, g: GrantId)
  {
    forall c :: c in y.callers && y.callers[c].Rotating? ==> y.callers[c].held.grant != g
  }

  ghost predicate SilentAfter(es: seq<Move>, more: seq<Move>, g: GrantId)
  {
    forall i: nat :: |es| <= i < |es + more| ==> !Serves(Out(es + more, i), g)
  }

  lemma {:induction false} RunFinished(es: seq<Move>, more: seq<Move>, n: nat, g: GrantId)
    requires |es| <= n <= |es + more| && Finished(At(es, |es|), g)
    ensures Finished(At(es + more, n), g)
  {
    hide Step, Finished, Sound;
    AtPrefix(es, more, |es|);
    if n > |es| {
      RunFinished(es, more, n - 1, g);
      RunSound(es + more, n - 1);
      StepKeeps(At(es + more, n - 1), (es + more)[n - 1], g);
    }
  }

  /** A family without a live token never validates or issues again, whatever follows, if and only if no
      rotation that read one of its tokens is still to write. */
  lemma FamilySilentIff(es: seq<Move>, g: GrantId)
    requires g < At(es, |es|).s.next && Dead(At(es, |es|).s, g)
    ensures NobodyRotates(At(es, |es|), g) <==> forall more :: SilentAfter(es, more, g)
  {
    hide At, DeadIn;
    if NobodyRotates(At(es, |es|), g) {
      assert Finished(At(es, |es|), g);
      hide Finished, Step, Sound;
      forall more ensures SilentAfter(es, more, g) {
        forall i: nat | |es| <= i < |es + more| ensures !Serves(Out(es + more, i), g) {
          RunFinished(es, more, i, g);
          RunSound(es + more, i);
          StepKeeps(At(es + more, i), (es + more)[i], g);
        }
      }
    } else {
      var c :| c in At(es, |es|).callers && At(es, |es|).callers[c].Rotating? &&
        At(es, |es|).callers[c].held.grant == g;
      var more := [Write(c)];
      AtPrefix(es, more, |es|);
      var i: nat := |es|;
      assert (es + more)[i] == Write(c);
      assert Serves(Out(es + more, i), g);
      assert !SilentAfter(es, more, g);
    }
  }

  /** A rotation that read its token before `revoke_all` ran brings the family back after it. */
  lemma RevokedFamilyRevives(y: Sys, c: CallerId, token: Secret, client: ClientId, now: int, later: int)
    requires c !in y.callers && IsRefreshToken(y.s, token) && y.s.tokens[token].revoked == None
    requires now <= y.s.tokens[token].expires && client == y.s.tokens[token].client
    ensures var g := y.s.tokens[token].grant;
      var y2 := Step(Step(y, ReadRotate(c, token, client, now)).0, Whole(RevokeEverything(later))).0;
      var (y3, o) := Step(y2, Write(c));
      && Dead(y2.s, g) && Serves(o, g)
      && Step(y3, Whole(Validate(o.access, now))).1 == Claims(g, client)
  {
    hide RevokeFamily;
  }

  lemma AfterRevokeAll(es: seq<Move>, now: int)
    ensures var es' := es + [Whole(RevokeEverything(now))];
      var y, y' := At(es, |es|), At(es', |es'|);
      && y'.callers == y.callers && y'.s.next == y.s.next
      && (forall g: GrantId :: Dead(y'.s, g))
      && (forall c :: c in y.callers && y.callers[c].Rotating? ==> y.callers[c].held.grant < y.s.next)
  {
    var e := Whole(RevokeEverything(now));
    var y := At(es, |es|);
    AtPrefix(es, [e], |es|);
    assert At(es + [e], |es| + 1) == Step(y, e).0;
    RunSound(es, |es|);
    hide At, Fresh, OneOfEachKind, DeadIn;
    forall g: GrantId ensures DeadIn(RevokeAll(y.s, now).tokens, g) { RevokeAllFamilies(y.s, now, g); }
  }

  ghost predicate NoRotation(y: Sys)
  {
    forall c :: c in y.callers ==> !y.callers[c].Rotating?
  }

  /** Every family named so far stays silent, whatever follows. */
  ghost predicate AllSilent(es: seq<Move>, next: nat)
  {
    forall g: GrantId, more: seq<Move> :: g < next ==> SilentAfter(es, more, g)
  }

  /** After `revoke_all` every family there is stays silent, whatever follows, if and only if no rotation was
      between its read and its write when it ran. */
  lemma RevokeAllSilencesIff(es: seq<Move>, now: int)
    ensures var y := At(es, |es|);
      NoRotation(y) <==> AllSilent(es + [Whole(RevokeEverything(now))], y.s.next)
  {
    hide At, SilentAfter, Step, Dead;
    var es', y := es + [Whole(RevokeEverything(now))], At(es, |es|);
    AfterRevokeAll(es, now);
    var y' := At(es', |es'|);
    forall g: GrantId | g < y.s.next ensures NobodyRotates(y', g) <==> forall more :: SilentAfter(es', more, g) {
      FamilySilentIff(es', g);
    }
    if NoRotation(y) {
      forall g: GrantId, more: seq<Move> | g < y.s.next ensures SilentAfter(es', more, g) {
        assert NobodyRotates(y', g);
      }
    }
    if !NoRotation(y) {
      var c :| c in y.callers && y.callers[c].Rotating?;
      var g := y.callers[c].held.grant;
      assert !NobodyRotates(y', g);
      var more :| !SilentAfter(es', more, g);
      assert !AllSilent(es', y.s.next);
    }
  }

  // ---------------------------------------------------------------- what a caller read

  /** Move `m` is the read that made `x` of caller `c`, and the row it holds was stored then and fit. */
  ghost predicate ReadAs(es: seq<Move>, m: nat, c: CallerId, x: Caller)
    requires m < |es|
  {
    var s := At(es, m).s;
    match x
    case Polling(req, row, now) =>
      && es[m] == ReadPoll(c, req, now) && req in s.pending && row == s.pending[req]
      && row.approved.Some? && row.collected == None && now <= row.expires
    case Exchanging(code, row, now) =>
      && es[m].ReadExchange? && es[m].c == c && es[m].code == code && es[m].now == now
      && code in s.codes && row == s.codes[code] && row.consumed == None && now <= row.expires
      && row.client == es[m].client && row.redirect == es[m].redirect && row.challenge == S256(es[m].verifier)
    case Rotating(row, now) =>
      && es[m].ReadRotate? && es[m].c == c && es[m].now == now
      && es[m].token in s.tokens && row == s.tokens[es[m].token] && row.kind == Refresh && row.revoked == None
      && now <= row.expires && row.client == es[m].client
  }

  lemma StepCallers(es: seq<Move>, n: nat, c: CallerId)
    requires n < |es| && c in At(es, n + 1).callers
    ensures (c in At(es, n).callers && At(es, n).callers[c] == At(es, n + 1).callers[c]) ||
      ReadAs(es, n, c, At(es, n + 1).callers[c])
  {
    var y, e := At(es, n), es[n];
    assert At(es, n + 1) == Step(y, e).0;
    hide At, OAuth.Step, DoWrite, S256, RevokeFamily;
  }

  /** Every caller between its read and its write holds a row that was stored, and fit, when it read it. */
  lemma {:induction false} CallerFrom(es: seq<Move>, n: nat, c: CallerId) returns (m: nat)
    requires n <= |es| && c in At(es, n).callers
    ensures m < n && ReadAs(es, m, c, At(es, n).callers[c])
    decreases n
  {
    hide Step, ReadAs;
    assert n > 0;
    StepCallers(es, n - 1, c);
    if ReadAs(es, n - 1, c, At(es, n).callers[c]) {
      m := n - 1;
    } else {
      m := CallerFrom(es, n - 1, c);
    }
  }

  // ---------------------------------------------------------------- where rows come from

  /** Event `i` begins request `r` with the row's client, redirect and challenge, ten minutes before its expiry,
      for a redirect registered then. */
  ghost predicate Begins(es: seq<Move>, i: nat, r: RequestId, row: Pending)
  {
    && i < |es| && es[i].Whole? && es[i].e.Begin? && Out(es, i) == Began(r) && r == At(es, i).s.next
    && var a := es[i].e.ask;
       && row.client == a.client && row.redirect == a.redirect && row.challenge == a.challenge
       && row.expires == es[i].e.now + 600_000
       && a.client in At(es, i).s.clients && a.redirect in At(es, i).s.clients[a.client]
  }

  lemma MovePending(y: Sys, e: Move, r: RequestId)
    requires r in Step(y, e).0.s.pending
    ensures var row, o := Step(y, e).0.s.pending[r], Step(y, e).1;
      || (r in y.s.pending && row == y.s.pending[r].(approved := row.approved, collected := row.collected)
          && (y.s.pending[r].approved.Some? || row.approved == None
              || (e.Whole? && e.e.Approve? && o == Approved(r))))
      || (e.Whole? && e.e.Begin? && o == Began(r) && r == y.s.next && CheckAsk(y.s, e.e.ask) == None
          && row == Pending(e.e.ask.client, e.e.ask.redirect, e.e.ask.challenge, e.e.now + PENDING_TTL, None, None))
  {
    hide OAuth.Step, CheckAsk, S256, RevokeFamily;
    if e.Whole? && !IsSplit(e.e) { StepPending(y.s, e.e, r); }
  }

  lemma {:induction false} RequestFrom(es: seq<Move>, n: nat, r: RequestId) returns (i: nat)
    requires n <= |es| && r in At(es, n).s.pending
    ensures i < n && Begins(es, i, r, At(es, n).s.pending[r])
    decreases n
  {
    hide Step;
    assert n > 0;
    var y, e := At(es, n - 1), es[n - 1];
    MovePending(y, e, r);
    if e.Whole? && e.e.Begin? && Out(es, n - 1) == Began(r) && r == y.s.next {
      i := n - 1;
      BelowNext(es, n - 1, r);
    } else {
      i := RequestFrom(es, n - 1, r);
    }
  }

  lemma BelowNext(es: seq<Move>, n: nat, r: RequestId)
    requires n <= |es|
    ensures r in At(es, n).s.pending ==> r < At(es, n).s.next
  {
    hide At;
    RunSound(es, n);
  }

  lemma {:induction false} ApprovalFrom(es: seq<Move>, n: nat, r: RequestId) returns (j: nat)
    requires n <= |es| && r in At(es, n).s.pending && At(es, n).s.pending[r].approved.Some?
    ensures j < n && es[j].Whole? && es[j].e.Approve? && Out(es, j) == Approved(r)
    decreases n
  {
    hide Step;
    assert n > 0;
    MovePending(At(es, n - 1), es[n - 1], r);
    if es[n - 1].Whole? && es[n - 1].e.Approve? && Out(es, n - 1) == Approved(r) {
      j := n - 1;
    } else {
      j := ApprovalFrom(es, n - 1, r);
    }
  }

  lemma {:induction false} SupplyGrows(es: seq<Move>, m: nat, n: nat)
    requires m <= n <= |es|
    ensures At(es, m).s.next <= At(es, n).s.next
  {
    hide Step, Sound;
    if m < n {
      SupplyGrows(es, m, n - 1);
      RunSound(es, n - 1);
      MoveSupply(At(es, n - 1), es[n - 1]);
    }
  }

  lemma MoveSupply(y: Sys, e: Move)
    requires Sound(y)
    ensures y.s.next <= Step(y, e).0.s.next
  {
    hide OAuth.Step, S256, RevokeFamily, OneOfEachKind;
    if e.Whole? { StepFresh(y.s, e.e); }
  }

  lemma ApprovedStored(es: seq<Move>, j: nat, r: RequestId)
    requires j < |es| && es[j].Whole? && es[j].e.Approve? && Out(es, j) == Approved(r)
    ensures r in At(es, j).s.pending
  {
    hide At, CheckAsk;
  }

  lemma ApprovedLater(es: seq<Move>, i: nat, j: nat, r: RequestId)
    requires i < |es| && r == At(es, i).s.next
    requires j < |es| && es[j].Whole? && es[j].e.Approve? && Out(es, j) == Approved(r)
    requires es[i].Whole? && es[i].e.Begin?
    ensures i < j
  {
    ApprovedStored(es, j, r);
    hide Step;
    BelowNext(es, j, r);
    if j <= i { SupplyGrows(es, j, i); }
  }

  /** Move `k` is the write of a poll of `r`, which yields code `c`. */
  ghost predicate Polls(es: seq<Move>, k: nat, r: RequestId, c: Secret)
  {
    k < |es| && CollectsAt(es, k, r) && Out(es, k) == Collected(c)
  }

  ghost predicate CodeChain(es: seq<Move>, c: Secret, row: Code, r: RequestId, i: nat, j: nat, k: nat)
  {
    && i < j < k < |es| && Polls(es, k, r, c)
    && es[j].Whole? && es[j].e.Approve? && Out(es, j) == Approved(r)
    && es[i].Whole? && es[i].e.Begin? && Out(es, i) == Began(r)
    && var a := es[i].e.ask;
       && row.client == a.client && row.redirect == a.redirect && row.challenge == a.challenge
       && a.client in At(es, i).s.clients && a.redirect in At(es, i).s.clients[a.client]
       && row.expires <= es[i].e.now + 660_000
  }

  lemma MoveCodes(y: Sys, e: Move, c: Secret)
    requires c in Step(y, e).0.s.codes
    ensures var row := Step(y, e).0.s.codes[c];
      || (c in y.s.codes && row == y.s.codes[c].(consumed := row.consumed))
      || (e.Write? && e.c in y.callers && y.callers[e.c].Polling? && Step(y, e).1 == Collected(c)
          && var x := y.callers[e.c].polled;
             row == Code(x.client, x.redirect, x.challenge, y.callers[e.c].now + CODE_TTL, None))
  {
    hide OAuth.Step, S256, RevokeFamily, CheckAsk;
    if e.Whole? && !IsSplit(e.e) { StepCodes(y.s, e.e, c); }
  }

  lemma {:induction false} CodeOrigin(es: seq<Move>, n: nat, c: Secret)
    returns (r: RequestId, i: nat, j: nat, k: nat)
    requires n <= |es| && c in At(es, n).s.codes
    ensures k < n && CodeChain(es, c, At(es, n).s.codes[c], r, i, j, k)
    decreases n
  {
    hide Step;
    assert n > 0;
    var y, e := At(es, n - 1), es[n - 1];
    var row := At(es, n).s.codes[c];
    MoveCodes(y, e, c);
    if c in y.s.codes && row == y.s.codes[c].(consumed := row.consumed) {
      r, i, j, k := CodeOrigin(es, n - 1, c);
    } else {
      k := n - 1;
      var x := y.callers[e.c];
      r := x.req;
      var m := CallerFrom(es, k, e.c);
      i := RequestFrom(es, m, r);
      j := ApprovalFrom(es, m, r);
      ApprovedLater(es, i, j, r);
    }
  }

  /** Begin, approve, the writes of poll and exchange, and the exchange's read, that made family `g`. */
  ghost predicate RaceChain(es: seq<Move>, g: GrantId, i: nat, j: nat, k: nat, m: nat, l: nat)
  {
    && i < j < k < m < l < |es|
    && es[i].Whole? && es[i].e.Begin? && es[j].Whole? && es[j].e.Approve? && es[m].ReadExchange?
    && ExchangesAt(es, l, es[m].code) && es[l].c == es[m].c && Out(es, l).Issued? && Out(es, l).grant == g
    && (exists r :: Out(es, i) == Began(r) && Out(es, j) == Approved(r) && Polls(es, k, r, es[m].code))
    && var a := es[i].e.ask;
       && es[m].client == a.client && es[m].redirect == a.redirect && a.challenge == S256(es[m].verifier)
       && a.client in At(es, i).s.clients && a.redirect in At(es, i).s.clients[a.client]
       && es[m].now <= es[i].e.now + 660_000
  }

  lemma MoveTokens(y: Sys, e: Move, t: Secret)
    requires t in Step(y, e).0.s.tokens
    ensures var row, o := Step(y, e).0.s.tokens[t], Step(y, e).1;
      || (t in y.s.tokens && row == y.s.tokens[t].(revoked := row.revoked))
      || (e.Write? && e.c in y.callers && o.Issued? && o.grant == row.grant
          && ((y.callers[e.c].Rotating? && row.client == y.callers[e.c].held.client
               && row.grant == y.callers[e.c].held.grant)
              || (y.callers[e.c].Exchanging? && row.client == y.callers[e.c].read.client)))
  {
    hide OAuth.Step, S256, CheckAsk, Redeemable;
    if e.Whole? && !IsSplit(e.e) { StepTokens(y.s, e.e, t); }
  }

  lemma PolledBefore(es: seq<Move>, k: nat, m: nat, r: RequestId, c: Secret)
    requires Polls(es, k, r, c) && m <= |es| && c in At(es, m).s.codes
    ensures k < m
  {
    CollectedIsNext(es, k, r, c);
    hide Step;
    RunSound(es, m);
    if m <= k { SupplyGrows(es, m, k); }
  }

  lemma CollectedIsNext(es: seq<Move>, k: nat, r: RequestId, c: Secret)
    requires Polls(es, k, r, c)
    ensures c == At(es, k).s.next
  {
    hide At;
  }

  /** However the calls interleave, every stored token descends from such a chain and belongs to its client. */
  lemma {:induction false} TokenOrigin(es: seq<Move>, n: nat, t: Secret)
    returns (i: nat, j: nat, k: nat, m: nat, l: nat)
    requires n <= |es| && t in At(es, n).s.tokens
    ensures l < n && RaceChain(es, At(es, n).s.tokens[t].grant, i, j, k, m, l)
    ensures At(es, n).s.tokens[t].client == es[i].e.ask.client
    decreases n
  {
    hide Step, S256;
    assert n > 0;
    var y, e := At(es, n - 1), es[n - 1];
    var row := At(es, n).s.tokens[t];
    MoveTokens(y, e, t);
    if t in y.s.tokens && row == y.s.tokens[t].(revoked := row.revoked) {
      i, j, k, m, l := TokenOrigin(es, n - 1, t);
    } else {
      var x := y.callers[e.c];
      var p := CallerFrom(es, n - 1, e.c);
      if x.Rotating? {
        hide RaceChain;
        i, j, k, m, l := TokenOrigin(es, p, es[p].token);
      } else {
        l, m := n - 1, p;
        var r: RequestId;
        r, i, j, k := CodeOrigin(es, p, x.code);
        PolledBefore(es, k, m, r, x.code);
      }
    }
  }

  // ---------------------------------------------------------------- who may rotate

  /** In every run of interleaved calls, a rotation gets past its checks if and only if its token is a stored
      refresh token, not revoked, not past its expiry, and presented by the client that began its chain. */
  lemma RotationPassesIff(es: seq<Move>, n: nat) returns (i: nat, j: nat, k: nat, m: nat, l: nat)
    requires n < |es| && es[n].ReadRotate? && es[n].c !in At(es, n).callers
    requires IsRefreshToken(At(es, n).s, es[n].token)
    ensures var row := At(es, n).s.tokens[es[n].token];
      && l < n && RaceChain(es, row.grant, i, j, k, m, l)
      && (es[n].c in At(es, n + 1).callers <==>
            row.revoked == None && es[n].now <= row.expires && es[n].client == es[i].e.ask.client)
      && (es[n].c in At(es, n + 1).callers ==> At(es, n + 1).callers[es[n].c] == Rotating(row, es[n].now))
  {
    var y, e := At(es, n), es[n];
    assert At(es, n + 1) == Step(y, e).0;
    assert e.c in Step(y, e).0.callers <==>
      y.s.tokens[e.token].revoked == None && e.now <= y.s.tokens[e.token].expires
      && e.client == y.s.tokens[e.token].client;
    hide At, Step, RaceChain;
    i, j, k, m, l := TokenOrigin(es, n, e.token);
  }

  /** And a pair is issued for no other client: whatever a write issues belongs to the client that began the
      chain of its family, and was asked for by that client. */
  lemma IssuedToItsBeginner(es: seq<Move>, n: nat) returns (p: nat, i: nat, j: nat, k: nat, m: nat, l: nat)
    requires n < |es| && es[n].Write? && Out(es, n).Issued?
    ensures var o, tokens := Out(es, n), At(es, n + 1).s.tokens;
      && p < n && (es[p].ReadRotate? || es[p].ReadExchange?) && es[p].c == es[n].c
      && l <= n && RaceChain(es, o.grant, i, j, k, m, l)
      && es[p].client == es[i].e.ask.client
      && o.access in tokens && o.refresh in tokens
      && tokens[o.access] == Token(Access, es[p].client, o.grant, es[p].now + 3_600_000, None)
      && tokens[o.refresh] == Token(Refresh, es[p].client, o.grant, es[p].now + 2_592_000_000, None)
  {
    var y, e := At(es, n), es[n];
    assert At(es, n + 1) == Step(y, e).0 && Out(es, n) == Step(y, e).1;
    var x := y.callers[e.c];
    WriteIssues(y, e.c);
    hide At, Step, RaceChain, S256;
    p := CallerFrom(es, n, e.c);
    i, j, k, m, l := TokenOrigin(es, n + 1, Out(es, n).access);
  }

  lemma WriteIssues(y: Sys, c: CallerId)
    requires c in y.callers && Step(y, Write(c)).1.Issued?
    ensures var (y', o), x := Step(y, Write(c)), y.callers[c];
      && (x.Rotating? || x.Exchanging?)
      && o.access in y'.s.tokens && o.refresh in y'.s.tokens
      && var client := if x.Rotating? then x.held.client else x.read.client;
         && y'.s.tokens[o.access] == Token(Access, client, o.grant, x.now + 3_600_000, None)
         && y'.s.tokens[o.refresh] == Token(Refresh, client, o.grant, x.now + 2_592_000_000, None)
  {
    hide RevokeFamily;
  }

  /** What a write answers: a poll and a rotation always go through, an exchange if and only if its code is still
      stored and not consumed. */
  lemma WriteAnswers(y: Sys, c: CallerId)
    requires c in y.callers
    ensures var o, x := Step(y, Write(c)).1, y.callers[c];
      match x
      case Polling(_, _, _) => o == Collected(y.s.next)
      case Exchanging(code, _, _) =>
        (o.Issued? <==> code in y.s.codes && y.s.codes[code].consumed == None)
        && (o.Issued? || o == Refused(InvalidGrant))
      case Rotating(row, _) => o.Issued? && o.grant == row.grant
  {
    hide RevokeFamily;
  }
}
