/** The OAuth 2.1 grant machine (mcp/oauth.py): request, approval, code, token family, rotation,
    reuse response and garbage collection. Every clock value is supplied by the caller and nothing
    is assumed about their order.

    Secrets are stored as hashes in the source; here a secret stands for its own hash. Random
    identifiers are drawn from a counter that never repeats, and a request and its user code are
    drawn together, so one number names both. */
module OAuth {
  import opened Prelude

  const CODE_TTL := 60_000
  const PENDING_TTL := 600_000
  const ACCESS_TTL := 3_600_000
  const REFRESH_TTL := 30 * 24 * 3_600_000
  const MAX_PENDING := 25
  const MAX_STATE_LEN := 512
  const MIN_CHALLENGE_LEN := 43
  const MAX_CHALLENGE_LEN := 128
  const MAX_REDIRECT_LEN := 512
  const MAX_REDIRECT_URIS := 10

  type ClientId = nat
  type RequestId = nat
  type Secret = nat
  type GrantId = nat

  /** A code challenge: the unpadded base64url SHA-256 of an ASCII verifier, always 43 characters,
      or a text that is no such digest. */
  datatype Challenge = S256Of(verifier: string) | Text(text: string) {
    function Len(): nat {
      match this
      case S256Of(_) => 43
      case Text(t) => |t|
    }
  }

  /** `encode("ascii", "ignore")` */
  function AsciiOnly(s: string): string
  {
    if s == "" then "" else (if s[0] as int < 128 then [s[0]] else "") + AsciiOnly(s[1..])
  }

  /** The challenge a verifier answers: section 4.6 of RFC 7636. */
  function S256(verifier: string): Challenge
  {
    S256Of(AsciiOnly(verifier))
  }

  datatype Pending = Pending(
    client: ClientId, redirect: string, challenge: Challenge, expires: int,
    approved: Option<int>, collected: Option<int>)

  datatype Code = Code(client: ClientId, redirect: string, challenge: Challenge, expires: int, consumed: Option<int>)

  datatype Kind = Access | Refresh

  datatype Token = Token(kind: Kind, client: ClientId, grant: GrantId, expires: int, revoked: Option<int>)

  datatype State = State(
    clients: map<ClientId, seq<string>>,
    pending: map<RequestId, Pending>,
    codes: map<Secret, Code>,
    tokens: map<Secret, Token>,
    next: nat)

  const EMPTY := State(map[], map[], map[], map[], 0)

  datatype Refusal = InvalidRedirectUri | InvalidRequest | InvalidClient | TemporarilyUnavailable | ExpiredToken
    | InvalidGrant

  datatype Output =
    | Refused(why: Refusal)
    | Done
    | Registered(client: ClientId)
    | Began(req: RequestId)
    | Approved(req: RequestId)
    | NotYet
    | Collected(code: Secret)
    | Issued(grant: GrantId, access: Secret, refresh: Secret)
    | Claims(grant: GrantId, client: ClientId)
    | Invalid

  // ---------------------------------------------------------------- operations

  function CheckUri(uri: string): Option<Refusal>
  {
    if |uri| > MAX_REDIRECT_LEN then Some(InvalidRequest)
    else if !("https://" <= uri) then Some(InvalidRedirectUri)
    else if '#' in uri then Some(InvalidRedirectUri)
    else None
  }

  function FirstBadUri(uris: seq<string>): Option<Refusal>
  {
    if uris == [] then None
    else if CheckUri(uris[0]).Some? then CheckUri(uris[0])
    else FirstBadUri(uris[1..])
  }

  function RegisterClient(s: State, uris: seq<string>): (State, Output)
  {
    if uris == [] || |uris| > MAX_REDIRECT_URIS then (s, Refused(InvalidRedirectUri))
    else if FirstBadUri(uris).Some? then (s, Refused(FirstBadUri(uris).value))
    else (s.(clients := s.clients[s.next := uris], next := s.next + 1), Registered(s.next))
  }

  function CollectExpired(s: State, now: int): State
  {
    s.(pending := map r | r in s.pending && s.pending[r].expires > now :: s.pending[r],
       codes := map c | c in s.codes && s.codes[c].expires > now :: s.codes[c],
       tokens := map t | t in s.tokens && s.tokens[t].expires > now :: s.tokens[t])
  }

  function Unapproved(pending: map<RequestId, Pending>): set<RequestId>
  {
    set r | r in pending && pending[r].approved == None
  }

  function LiveUnapproved(pending: map<RequestId, Pending>, now: int): set<RequestId>
  {
    set r | r in pending && pending[r].approved == None && pending[r].expires > now
  }

  datatype Ask = Ask(client: ClientId, redirect: string, state: Option<string>, challenge: Challenge, isS256: bool)

  function CheckAsk(s: State, a: Ask): Option<Refusal>
  {
    if a.client !in s.clients then Some(InvalidClient)
    else if a.redirect !in s.clients[a.client] then Some(InvalidRedirectUri)
    else if a.state.Some? && |a.state.value| > MAX_STATE_LEN then Some(InvalidRequest)
    else if a.challenge.Len() > MAX_CHALLENGE_LEN || a.challenge.Len() < MIN_CHALLENGE_LEN then Some(InvalidRequest)
    else if !a.isS256 then Some(InvalidRequest)
    else None
  }

  /** Expired rows are collected even when the request is then refused. */
  function BeginAuthorization(s0: State, a: Ask, now: int): (State, Output)
  {
    var s := CollectExpired(s0, now);
    if |LiveUnapproved(s.pending, now)| >= MAX_PENDING then (s, Refused(TemporarilyUnavailable))
    else if CheckAsk(s, a).Some? then (s, Refused(CheckAsk(s, a).value))
    else
      (s.(pending := s.pending[s.next := Pending(a.client, a.redirect, a.challenge, now + PENDING_TTL, None, None)],
          next := s.next + 1),
       Began(s.next))
  }

  function ApproveRequest(s: State, userCode: RequestId, now: int): (State, Output)
  {
    if userCode !in s.pending then (s, Refused(InvalidRequest))
    else if s.pending[userCode].approved.Some? then (s, Refused(InvalidRequest))
    else if now > s.pending[userCode].expires then (s, Refused(ExpiredToken))
    else (s.(pending := s.pending[userCode := s.pending[userCode].(approved := Some(now))]), Approved(userCode))
  }

  function PollRequest(s: State, req: RequestId, now: int): (State, Output)
  {
    if req !in s.pending || s.pending[req].approved == None || s.pending[req].collected.Some?
       || now > s.pending[req].expires then (s, NotYet)
    else
      var row := s.pending[req];
      (s.(codes := s.codes[s.next := Code(row.client, row.redirect, row.challenge, now + CODE_TTL, None)],
          pending := s.pending[req := row.(collected := Some(now))],
          next := s.next + 1),
       Collected(s.next))
  }

  /** Two tokens of one family, and the secrets they are known by. */
  function Issue(s: State, client: ClientId, grant: GrantId, now: int): (State, Output)
  {
    (s.(tokens := s.tokens[s.next := Token(Access, client, grant, now + ACCESS_TTL, None)]
                          [s.next + 1 := Token(Refresh, client, grant, now + REFRESH_TTL, None)],
        next := s.next + 2),
     Issued(grant, s.next, s.next + 1))
  }

  function RevokeFamily(tokens: map<Secret, Token>, grant: GrantId, now: int): map<Secret, Token>
  {
    map t | t in tokens ::
      if tokens[t].grant == grant && tokens[t].revoked == None then tokens[t].(revoked := Some(now)) else tokens[t]
  }

  /** The row `exchange_code` accepts: unspent, unexpired, asked for by the same client with the same
      redirect, and answered by the verifier. */
  predicate Redeemable(s: State, code: Secret, client: ClientId, redirect: string, verifier: string, now: int)
  {
    && code in s.codes
    && s.codes[code].consumed == None
    && now <= s.codes[code].expires
    && client == s.codes[code].client
    && redirect == s.codes[code].redirect
    && S256(verifier) == s.codes[code].challenge
  }

  function ExchangeCode(s: State, code: Secret, client: ClientId, redirect: string, verifier: string,
      now: int): (State, Output)
  {
    if !Redeemable(s, code, client, redirect, verifier, now) then (s, Refused(InvalidGrant))
    else
      var s' := s.(codes := s.codes[code := s.codes[code].(consumed := Some(now))], next := s.next + 1);
      Issue(s', client, s.next, now)
  }

  predicate IsRefreshToken(s: State, token: Secret)
  {
    token in s.tokens && s.tokens[token].kind == Refresh
  }

  function RefreshPair(s: State, token: Secret, client: ClientId, now: int): (State, Output)
  {
    if !IsRefreshToken(s, token) then (s, Refused(InvalidGrant))
    else
      var row := s.tokens[token];
      var revoked := s.(tokens := RevokeFamily(s.tokens, row.grant, now));
      if row.revoked.Some? then (revoked, Refused(InvalidGrant))
      else if now > row.expires || client != row.client then (s, Refused(InvalidGrant))
      else Issue(revoked, row.client, row.grant, now)
  }

  function ValidateAccess(s: State, token: Secret, now: int): Output
  {
    if token in s.tokens && s.tokens[token].kind == Access && s.tokens[token].revoked == None
       && now <= s.tokens[token].expires
    then Claims(s.tokens[token].grant, s.tokens[token].client)
    else Invalid
  }

  function RevokeAll(s: State, now: int): State
  {
    s.(tokens := map t | t in s.tokens ::
         if s.tokens[t].revoked == None then s.tokens[t].(revoked := Some(now)) else s.tokens[t])
  }

  // ---------------------------------------------------------------- runs

  datatype Event =
    | Register(uris: seq<string>)
    | Begin(ask: Ask, now: int)
    | Collect(now: int)
    | Approve(userCode: RequestId, now: int)
    | Poll(req: RequestId, now: int)
    | Exchange(code: Secret, client: ClientId, redirect: string, verifier: string, now: int)
    | Rotate(token: Secret, client: ClientId, now: int)
    | Validate(token: Secret, now: int)
    | RevokeEverything(now: int)

  function Step(s: State, e: Event): (State, Output)
  {
    match e
    case Register(uris) => RegisterClient(s, uris)
    case Begin(a, now) => BeginAuthorization(s, a, now)
    case Collect(now) => (CollectExpired(s, now), Done)
    case Approve(code, now) => ApproveRequest(s, code, now)
    case Poll(req, now) => PollRequest(s, req, now)
    case Exchange(code, client, redirect, verifier, now) => ExchangeCode(s, code, client, redirect, verifier, now)
    case Rotate(token, client, now) => RefreshPair(s, token, client, now)
    case Validate(token, now) => (s, ValidateAccess(s, token, now))
    case RevokeEverything(now) => (RevokeAll(s, now), Done)
  }

  /** The state before event `n`, from empty tables. */
  function At(es: seq<Event>, n: nat): State
    requires n <= |es|
  {
    if n == 0 then EMPTY else Step(At(es, n - 1), es[n - 1]).0
  }

  function Out(es: seq<Event>, i: nat): Output
    requires i < |es|
  {
    Step(At(es, i), es[i]).1
  }

  // ---------------------------------------------------------------- identifiers are never reused

  ghost predicate Fresh(s: State)
  {
    && (forall r :: r in s.pending ==> r < s.next)
    && (forall c :: c in s.codes ==> c < s.next)
    && (forall t :: t in s.tokens ==> t < s.next && s.tokens[t].grant < s.next)
  }

  lemma ExchangeFresh(s: State, code: Secret, client: ClientId, redirect: string, verifier: string, now: int)
    requires Fresh(s)
    ensures var s' := ExchangeCode(s, code, client, redirect, verifier, now).0; Fresh(s') && s.next <= s'.next
  {
    hide Redeemable;
    assert Redeemable(s, code, client, redirect, verifier, now) ==> code in s.codes
      by { RedeemableIsStored(s, code, client, redirect, verifier, now); }
  }

  lemma RedeemableIsStored(s: State, code: Secret, client: ClientId, redirect: string, verifier: string, now: int)
    ensures Redeemable(s, code, client, redirect, verifier, now) ==> code in s.codes
  {
  }

  lemma BeginFresh(s: State, a: Ask, now: int)
    requires Fresh(s)
    ensures var s' := BeginAuthorization(s, a, now).0; Fresh(s') && s.next <= s'.next
  {
    hide CheckAsk;
  }

  lemma RotateFresh(s: State, token: Secret, client: ClientId, now: int)
    requires Fresh(s)
    ensures var s' := RefreshPair(s, token, client, now).0; Fresh(s') && s.next <= s'.next
  {
  }

  lemma StepFresh(s: State, e: Event)
    requires Fresh(s)
    ensures Fresh(Step(s, e).0) && s.next <= Step(s, e).0.next
  {
    hide ExchangeCode, RefreshPair, BeginAuthorization;
    match e
    case Begin(a, now) => BeginFresh(s, a, now);
    case Exchange(code, client, redirect, verifier, now) => ExchangeFresh(s, code, client, redirect, verifier, now);
    case Rotate(token, client, now) => RotateFresh(s, token, client, now);
    case _ =>
  }

  lemma {:induction false} RunFresh(es: seq<Event>, n: nat)
    requires n <= |es|
    ensures Fresh(At(es, n))
  {
    if n > 0 {
      hide Step, Fresh;
      RunFresh(es, n - 1);
      StepFresh(At(es, n - 1), es[n - 1]);
    } else {
      assert Fresh(EMPTY);
    }
  }

  lemma {:induction false} NextGrows(es: seq<Event>, m: nat, n: nat)
    requires m <= n <= |es|
    ensures At(es, m).next <= At(es, n).next
  {
    if m < n {
      hide Step, Fresh;
      NextGrows(es, m, n - 1);
      RunFresh(es, n - 1);
      StepFresh(At(es, n - 1), es[n - 1]);
    }
  }

  // ---------------------------------------------------------------- token families

  predicate LiveTwins(a: Token, b: Token)
  {
    a.grant == b.grant && a.kind == b.kind && a.revoked == None && b.revoked == None
  }

  /** At most one unrevoked token of each kind in each family. */
  ghost predicate OneOfEachKind(tokens: map<Secret, Token>)
  {
    forall t, u :: t in tokens && u in tokens && LiveTwins(tokens[t], tokens[u]) ==> t == u
  }

  /** No unrevoked token of the family is stored. */
  ghost predicate DeadIn(tokens: map<Secret, Token>, g: GrantId)
  {
    forall t :: t in tokens && tokens[t].grant == g ==> tokens[t].revoked.Some?
  }

  ghost predicate Dead(s: State, g: GrantId)
  {
    DeadIn(s.tokens, g)
  }

  /** The call handed out, or vouched for, a token of family `g`. */
  predicate Serves(o: Output, g: GrantId)
  {
    (o.Issued? || o.Claims?) && o.grant == g
  }

  lemma RevokedFamilyIsDead(tokens: map<Secret, Token>, g: GrantId, now: int)
    ensures DeadIn(RevokeFamily(tokens, g, now), g)
    ensures forall h :: DeadIn(tokens, h) ==> DeadIn(RevokeFamily(tokens, g, now), h)
    ensures OneOfEachKind(tokens) ==> OneOfEachKind(RevokeFamily(tokens, g, now))
  {
  }

  lemma IssueKeeps(s: State, client: ClientId, g: GrantId, now: int)
    requires OneOfEachKind(s.tokens) && Fresh(s) && DeadIn(s.tokens, g)
    ensures OneOfEachKind(Issue(s, client, g, now).0.tokens)
    ensures forall h :: h != g && DeadIn(s.tokens, h) ==> DeadIn(Issue(s, client, g, now).0.tokens, h)
  {
  }

  lemma SubmapKeeps(tokens: map<Secret, Token>, part: map<Secret, Token>)
    requires forall t :: t in part ==> t in tokens && part[t] == tokens[t]
    ensures OneOfEachKind(tokens) ==> OneOfEachKind(part)
    ensures forall g :: DeadIn(tokens, g) ==> DeadIn(part, g)
  {
  }

  lemma ExchangeFamilies(s: State, code: Secret, client: ClientId, redirect: string, verifier: string, now: int,
      g: GrantId)
    requires Fresh(s) && OneOfEachKind(s.tokens)
    ensures var (s', o) := ExchangeCode(s, code, client, redirect, verifier, now);
      OneOfEachKind(s'.tokens) && (g < s.next && DeadIn(s.tokens, g) ==> DeadIn(s'.tokens, g) && !Serves(o, g))
  {
    if Redeemable(s, code, client, redirect, verifier, now) {
      var s' := s.(codes := s.codes[code := s.codes[code].(consumed := Some(now))], next := s.next + 1);
      assert DeadIn(s'.tokens, s.next);
      hide OneOfEachKind, DeadIn;
      IssueKeeps(s', client, s.next, now);
    }
  }

  lemma RotateFamilies(s: State, token: Secret, client: ClientId, now: int, g: GrantId)
    requires Fresh(s) && OneOfEachKind(s.tokens)
    ensures var (s', o) := RefreshPair(s, token, client, now);
      OneOfEachKind(s'.tokens) && (DeadIn(s.tokens, g) ==> DeadIn(s'.tokens, g) && !Serves(o, g))
  {
    if IsRefreshToken(s, token) {
      var row := s.tokens[token];
      assert row.revoked == None ==> !DeadIn(s.tokens, row.grant);
      hide OneOfEachKind, DeadIn;
      RevokedFamilyIsDead(s.tokens, row.grant, now);
      IssueKeeps(s.(tokens := RevokeFamily(s.tokens, row.grant, now)), row.client, row.grant, now);
    }
  }

  lemma RevokeAllFamilies(s: State, now: int, g: GrantId)
    ensures OneOfEachKind(RevokeAll(s, now).tokens) && DeadIn(RevokeAll(s, now).tokens, g)
  {
  }

  lemma ValidateFamilies(s: State, token: Secret, now: int, g: GrantId)
    requires DeadIn(s.tokens, g)
    ensures !Serves(ValidateAccess(s, token, now), g)
  {
  }

  lemma StepFamilies(s: State, e: Event, g: GrantId)
    requires Fresh(s) && OneOfEachKind(s.tokens)
    ensures OneOfEachKind(Step(s, e).0.tokens)
    ensures g < s.next && DeadIn(s.tokens, g) ==> DeadIn(Step(s, e).0.tokens, g) && !Serves(Step(s, e).1, g)
  {
    hide OneOfEachKind, DeadIn, Fresh, LiveUnapproved, CheckAsk, ExchangeCode, RefreshPair, RevokeAll, ValidateAccess,
      FirstBadUri;
    match e
    case Begin(a, now) => SubmapKeeps(s.tokens, CollectExpired(s, now).tokens);
    case Collect(now) => SubmapKeeps(s.tokens, CollectExpired(s, now).tokens);
    case Exchange(code, client, redirect, verifier, now) =>
      ExchangeFamilies(s, code, client, redirect, verifier, now, g);
    case Rotate(token, client, now) => RotateFamilies(s, token, client, now, g);
    case RevokeEverything(now) => RevokeAllFamilies(s, now, g);
    case Validate(token, now) => if DeadIn(s.tokens, g) { ValidateFamilies(s, token, now, g); }
    case _ =>
  }

  /** In every run from empty tables each grant has at most one unrevoked access token and at most
      one unrevoked refresh token. */
  lemma {:induction false} OneLivePair(es: seq<Event>, n: nat)
    requires n <= |es|
    ensures OneOfEachKind(At(es, n).tokens)
  {
    if n > 0 {
      hide Step, Fresh, OneOfEachKind, DeadIn;
      OneLivePair(es, n - 1);
      RunFresh(es, n - 1);
      StepFamilies(At(es, n - 1), es[n - 1], 0);
    }
  }

  /** A family with no unrevoked token is finished: it never validates or issues again. */
  lemma {:induction false} DeadForever(es: seq<Event>, m: nat, n: nat, g: GrantId)
    requires m <= n < |es| && Dead(At(es, m), g) && g < At(es, m).next
    ensures Dead(At(es, n), g) && !Serves(Out(es, n), g)
  {
    hide Step, Fresh, OneOfEachKind, DeadIn, Serves;
    RunFresh(es, n);
    OneLivePair(es, n);
    NextGrows(es, m, n);
    if m < n {
      DeadForever(es, m, n - 1, g);
      RunFresh(es, n - 1);
      OneLivePair(es, n - 1);
      NextGrows(es, m, n - 1);
      StepFamilies(At(es, n - 1), es[n - 1], g);
    }
    StepFamilies(At(es, n), es[n], g);
  }

  /** Presenting a rotated refresh token whose row is still stored is refused, revokes its family and
      finishes it for the rest of the run: section 4.14.2 of RFC 9700. */
  lemma ReuseFinishesFamily(es: seq<Event>, m: nat, n: nat)
    requires m < n < |es| && es[m].Rotate?
    requires IsRefreshToken(At(es, m), es[m].token) && At(es, m).tokens[es[m].token].revoked.Some?
    ensures var g := At(es, m).tokens[es[m].token].grant;
      Out(es, m) == Refused(InvalidGrant) && Dead(At(es, m + 1), g) && !Serves(Out(es, n), g)
  {
    var s, e := At(es, m), es[m];
    var g := s.tokens[e.token].grant;
    assert Step(s, e) == RefreshPair(s, e.token, e.client, e.now);
    RevokedFamilyIsDead(s.tokens, g, e.now);
    RunFresh(es, m);
    assert g < s.next;
    hide Step, DeadIn, Fresh, Serves;
    NextGrows(es, m, m + 1);
    DeadForever(es, m + 1, n, g);
  }

  /** A successful rotation leaves the family with the two tokens it returned and no others alive. */
  lemma RotationRetiresOldPair(es: seq<Event>, n: nat, t: Secret)
    requires n < |es| && es[n].Rotate? && Out(es, n).Issued?
    ensures var o, after := Out(es, n), At(es, n + 1).tokens;
      && o.grant == At(es, n).tokens[es[n].token].grant
      && (t in after && after[t].grant == o.grant && after[t].revoked == None <==> t == o.access || t == o.refresh)
      && after[o.access].kind == Access && after[o.refresh].kind == Refresh
  {
    var s, e := At(es, n), es[n];
    assert Step(s, e) == RefreshPair(s, e.token, e.client, e.now);
    RevokedFamilyIsDead(s.tokens, s.tokens[e.token].grant, e.now);
  }

  // ---------------------------------------------------------------- the pending cap

  lemma CollectedPendingAllLive(s: State, now: int)
    ensures var p := CollectExpired(s, now).pending;
      Unapproved(p) <= Unapproved(s.pending) && LiveUnapproved(p, now) == Unapproved(p)
  {
  }

  lemma BeginPendingCap(s: State, a: Ask, now: int)
    requires Fresh(s) && |Unapproved(s.pending)| <= MAX_PENDING
    ensures |Unapproved(BeginAuthorization(s, a, now).0.pending)| <= MAX_PENDING
  {
    hide CheckAsk, Unapproved, LiveUnapproved;
    CollectedPendingAllLive(s, now);
    var c := CollectExpired(s, now).pending;
    SubsetSize(Unapproved(c), Unapproved(s.pending));
    assert s.next !in c;
    hide CollectExpired, Fresh;
    OneMorePending(c, s.next, Pending(a.client, a.redirect, a.challenge, now + PENDING_TTL, None, None));
    CollectKeepsNext(s, now);
  }

  lemma CollectKeepsNext(s: State, now: int)
    ensures CollectExpired(s, now).next == s.next
  {
  }

  lemma OneMorePending(pending: map<RequestId, Pending>, r: RequestId, row: Pending)
    requires r !in pending && row.approved == None
    ensures |Unapproved(pending[r := row])| == |Unapproved(pending)| + 1
  {
    assert Unapproved(pending[r := row]) == Unapproved(pending) + {r};
  }

  lemma StepPendingCap(s: State, e: Event)
    requires Fresh(s) && |Unapproved(s.pending)| <= MAX_PENDING
    ensures |Unapproved(Step(s, e).0.pending)| <= MAX_PENDING
  {
    hide BeginAuthorization, Unapproved, CollectExpired, ApproveRequest, PollRequest, ExchangeCode, RefreshPair, Fresh;
    match e
    case Begin(a, now) => BeginPendingCap(s, a, now);
    case Collect(now) =>
      CollectedPendingAllLive(s, now);
      SubsetSize(Unapproved(CollectExpired(s, now).pending), Unapproved(s.pending));
    case Approve(code, now) =>
      ApproveShrinks(s, code, now);
      SubsetSize(Unapproved(ApproveRequest(s, code, now).0.pending), Unapproved(s.pending));
    case Poll(req, now) =>
      PollShrinks(s, req, now);
      SubsetSize(Unapproved(PollRequest(s, req, now).0.pending), Unapproved(s.pending));
    case _ => TokensOnly(s, e);
  }

  lemma ApproveShrinks(s: State, code: RequestId, now: int)
    ensures Unapproved(ApproveRequest(s, code, now).0.pending) <= Unapproved(s.pending)
  {
  }

  lemma PollShrinks(s: State, req: RequestId, now: int)
    ensures Unapproved(PollRequest(s, req, now).0.pending) <= Unapproved(s.pending)
  {
  }

  lemma TokensOnly(s: State, e: Event)
    requires !e.Begin? && !e.Collect? && !e.Approve? && !e.Poll?
    ensures Step(s, e).0.pending == s.pending
  {
    hide Redeemable, FirstBadUri, RevokeFamily;
  }

  /** However the clock jumps about, the whole table never holds more than 25 unapproved requests. */
  lemma {:induction false} PendingCap(es: seq<Event>, n: nat)
    requires n <= |es|
    ensures |Unapproved(At(es, n).pending)| <= 25
  {
    if n == 0 {
      assert Unapproved(EMPTY.pending) == {};
    } else {
      hide Step, Fresh;
      PendingCap(es, n - 1);
      RunFresh(es, n - 1);
      StepPendingCap(At(es, n - 1), es[n - 1]);
    }
  }

  // ---------------------------------------------------------------- where a family comes from

  /** What one event does to the request rows. */
  lemma StepPending(s: State, e: Event, r: RequestId)
    requires r in Step(s, e).0.pending
    ensures var row := Step(s, e).0.pending[r];
      || (r in s.pending && row == s.pending[r].(approved := row.approved, collected := row.collected)
          && (s.pending[r].approved.Some? || row.approved == None || (e.Approve? && Step(s, e).1 == Approved(r))))
      || (e.Begin? && Step(s, e).1 == Began(r) && r == s.next && CheckAsk(s, e.ask) == None
          && row == Pending(e.ask.client, e.ask.redirect, e.ask.challenge, e.now + PENDING_TTL, None, None))
  {
    hide RevokeFamily, Redeemable, FirstBadUri, LiveUnapproved;
  }

  lemma StepCodes(s: State, e: Event, c: Secret)
    requires c in Step(s, e).0.codes
    ensures var row := Step(s, e).0.codes[c];
      || (c in s.codes && row == s.codes[c].(consumed := row.consumed))
      || (e.Poll? && Step(s, e).1 == Collected(c) && e.req in s.pending && s.pending[e.req].approved.Some?
          && e.now <= s.pending[e.req].expires
          && row == Code(s.pending[e.req].client, s.pending[e.req].redirect, s.pending[e.req].challenge,
             e.now + CODE_TTL, None))
  {
    hide RevokeFamily, S256, FirstBadUri, LiveUnapproved, CheckAsk;
  }

  lemma StepTokens(s: State, e: Event, t: Secret)
    requires t in Step(s, e).0.tokens
    ensures var row := Step(s, e).0.tokens[t];
      || (t in s.tokens && row == s.tokens[t].(revoked := row.revoked))
      || (e.Exchange? && Step(s, e).1.Issued? && Step(s, e).1.grant == row.grant && row.client == e.client
          && Redeemable(s, e.code, e.client, e.redirect, e.verifier, e.now))
      || (e.Rotate? && IsRefreshToken(s, e.token)
          && row.grant == s.tokens[e.token].grant && row.client == s.tokens[e.token].client)
  {
    hide Redeemable, FirstBadUri, LiveUnapproved, CheckAsk;
  }

  /** Event `i` is the successful request `r` for these terms, its redirect registered for the client. */
  ghost predicate BeganAs(es: seq<Event>, i: nat, r: RequestId, client: ClientId, redirect: string,
      challenge: Challenge, expires: int)
  {
    && i < |es| && es[i].Begin? && Out(es, i) == Began(r)
    && es[i].ask.client == client && es[i].ask.redirect == redirect && es[i].ask.challenge == challenge
    && expires == es[i].now + PENDING_TTL
    && client in At(es, i).clients && redirect in At(es, i).clients[client]
    && r == At(es, i).next
  }

  lemma {:induction false} PendingFrom(es: seq<Event>, n: nat, r: RequestId) returns (i: nat)
    requires n <= |es| && r in At(es, n).pending
    ensures i < n
    ensures var row := At(es, n).pending[r]; BeganAs(es, i, r, row.client, row.redirect, row.challenge, row.expires)
    decreases n
  {
    hide Step;
    assert n != 0;
    var s, e := At(es, n - 1), es[n - 1];
    StepPending(s, e, r);
    RunFresh(es, n - 1);
    if r in s.pending {
      i := PendingFrom(es, n - 1, r);
    } else {
      i := n - 1;
    }
  }

  lemma {:induction false} ApprovedFrom(es: seq<Event>, n: nat, r: RequestId) returns (j: nat)
    requires n <= |es| && r in At(es, n).pending && At(es, n).pending[r].approved.Some?
    ensures j < n && es[j].Approve? && Out(es, j) == Approved(r)
    decreases n
  {
    hide Step;
    assert n != 0;
    StepPending(At(es, n - 1), es[n - 1], r);
    if es[n - 1].Approve? && Out(es, n - 1) == Approved(r) {
      j := n - 1;
    } else {
      j := ApprovedFrom(es, n - 1, r);
    }
  }

  /** A request is approved after it began: its name did not exist before. */
  lemma ApprovedAfterBegun(es: seq<Event>, i: nat, j: nat, r: RequestId)
    requires i < |es| && r == At(es, i).next && j < |es| && es[j].Approve? && Out(es, j) == Approved(r)
    ensures i < j
  {
    assert r in At(es, j).pending;
    RunFresh(es, j);
    assert r < At(es, j).next;
    hide Step, Fresh;
    if j <= i { NextGrows(es, j, i); }
  }

  ghost predicate CodeChain(es: seq<Event>, c: Secret, row: Code, i: nat, j: nat, k: nat)
  {
    && i < j < k < |es|
    && es[i].Begin? && es[k].Poll? && Out(es, k) == Collected(c)
    && es[j].Approve? && Out(es, j) == Approved(es[k].req)
    && BeganAs(es, i, es[k].req, row.client, row.redirect, row.challenge, es[i].now + PENDING_TTL)
    && es[k].now <= es[i].now + PENDING_TTL
    && row.expires == es[k].now + CODE_TTL
  }

  lemma {:induction false} CodeFrom(es: seq<Event>, n: nat, c: Secret) returns (i: nat, j: nat, k: nat)
    requires n <= |es| && c in At(es, n).codes
    ensures k < n && CodeChain(es, c, At(es, n).codes[c], i, j, k)
    decreases n
  {
    hide Step;
    assert n != 0;
    var s, e := At(es, n - 1), es[n - 1];
    StepCodes(s, e, c);
    if c in s.codes && At(es, n).codes[c] == s.codes[c].(consumed := At(es, n).codes[c].consumed) {
      i, j, k := CodeFrom(es, n - 1, c);
    } else {
      k := n - 1;
      i := PendingFrom(es, n - 1, e.req);
      j := ApprovedFrom(es, n - 1, e.req);
      ApprovedAfterBegun(es, i, j, e.req);
    }
  }

  /** One begin, approve, poll, exchange chain that yields family `g`, for one client and one of its
      registered redirects, closed by the verifier of its challenge within 660 seconds. */
  ghost predicate Chain(es: seq<Event>, g: GrantId, i: nat, j: nat, k: nat, l: nat)
  {
    && i < j < k < l < |es|
    && es[i].Begin? && es[j].Approve? && es[k].Poll? && es[l].Exchange?
    && Out(es, i) == Began(es[k].req)
    && Out(es, j) == Approved(es[k].req)
    && Out(es, k) == Collected(es[l].code)
    && Out(es, l).Issued? && Out(es, l).grant == g
    && es[l].client == es[i].ask.client
    && es[l].redirect == es[i].ask.redirect
    && es[l].client in At(es, i).clients && es[l].redirect in At(es, i).clients[es[l].client]
    && es[i].ask.challenge == S256(es[l].verifier)
    && es[l].now <= es[i].now + 660_000
  }

  /** Every stored token descends from such a chain, and belongs to the client that began it. */
  lemma {:induction false} TokenFrom(es: seq<Event>, n: nat, t: Secret) returns (i: nat, j: nat, k: nat, l: nat)
    requires n <= |es| && t in At(es, n).tokens
    ensures l < n && Chain(es, At(es, n).tokens[t].grant, i, j, k, l)
    ensures At(es, n).tokens[t].client == es[i].ask.client
    decreases n
  {
    hide Step;
    assert n != 0;
    var s, e := At(es, n - 1), es[n - 1];
    var row := At(es, n).tokens[t];
    StepTokens(s, e, t);
    if t in s.tokens && row == s.tokens[t].(revoked := row.revoked) {
      i, j, k, l := TokenFrom(es, n - 1, t);
    } else if e.Rotate? {
      i, j, k, l := TokenFrom(es, n - 1, e.token);
    } else {
      l := n - 1;
      i, j, k := CodeFrom(es, n - 1, e.code);
    }
  }

  /** Whatever a run issues or vouches for comes from a chain, even after the rows are gone. */
  lemma EveryFamilyHasAChain(es: seq<Event>, n: nat)
    requires n < |es| && (Out(es, n).Issued? || Out(es, n).Claims?)
    ensures exists i: nat, j: nat, k: nat, l: nat :: l <= n && Chain(es, Out(es, n).grant, i, j, k, l)
  {
    var t := if Out(es, n).Issued? then Out(es, n).access else es[n].token;
    assert t in At(es, n + 1).tokens && At(es, n + 1).tokens[t].grant == Out(es, n).grant;
    hide Step, Chain;
    var i, j, k, l := TokenFrom(es, n + 1, t);
  }

  // ---------------------------------------------------------------- lifetimes

  predicate BornAs(o: Output, t: Secret, row: Token, now: int)
  {
    && o.Issued? && o.grant == row.grant
    && t == (if row.kind == Access then o.access else o.refresh)
    && row.expires == now + (if row.kind == Access then ACCESS_TTL else REFRESH_TTL)
  }

  lemma StepBorn(s: State, e: Event, t: Secret)
    requires t in Step(s, e).0.tokens
    ensures var row := Step(s, e).0.tokens[t];
      (t in s.tokens && row == s.tokens[t].(revoked := row.revoked)) ||
      ((e.Exchange? || e.Rotate?) && BornAs(Step(s, e).1, t, row, e.now))
  {
    hide Redeemable, CheckAsk, FirstBadUri, LiveUnapproved;
  }

  /** The call that issued a stored token, and the lifetime it gave it. */
  lemma {:induction false} TokenBorn(es: seq<Event>, n: nat, t: Secret) returns (k: nat)
    requires n <= |es| && t in At(es, n).tokens
    ensures k < n && (es[k].Exchange? || es[k].Rotate?) && BornAs(Out(es, k), t, At(es, n).tokens[t], es[k].now)
    decreases n
  {
    hide Step;
    assert n != 0;
    var s, row := At(es, n - 1), At(es, n).tokens[t];
    StepBorn(s, es[n - 1], t);
    if t in s.tokens && row == s.tokens[t].(revoked := row.revoked) {
      k := TokenBorn(es, n - 1, t);
    } else {
      k := n - 1;
    }
  }

  /** However the clock jumps about, an access token is vouched for no later than an hour after the call
      that issued it, and a refresh token rotates no later than thirty days after. */
  lemma CredentialsExpire(es: seq<Event>, n: nat) returns (k: nat)
    requires n < |es| && ((es[n].Validate? && Out(es, n).Claims?) || (es[n].Rotate? && Out(es, n).Issued?))
    ensures k < n && (es[k].Exchange? || es[k].Rotate?) && Out(es, k).Issued? && Out(es, k).grant == Out(es, n).grant
    ensures es[n].Validate? ==> Out(es, k).access == es[n].token && es[n].now <= es[k].now + 3_600_000
    ensures es[n].Rotate? ==> Out(es, k).refresh == es[n].token && es[n].now <= es[k].now + 30 * 24 * 3_600_000
  {
    var s, t := At(es, n), es[n].token;
    assert t in s.tokens && es[n].now <= s.tokens[t].expires && s.tokens[t].grant == Out(es, n).grant
      && s.tokens[t].kind == (if es[n].Validate? then Access else Refresh);
    hide Step;
    k := TokenBorn(es, n, t);
  }

  // ---------------------------------------------------------------- each chain is used once

  ghost predicate Spent(s: State, r: RequestId)
  {
    r < s.next && (r in s.pending ==> s.pending[r].collected.Some?)
  }

  ghost predicate Redeemed(s: State, c: Secret)
  {
    c < s.next && (c in s.codes ==> s.codes[c].consumed.Some?)
  }

  lemma StepKeepsSpent(s: State, e: Event, r: RequestId, c: Secret)
    ensures Spent(s, r) ==> Spent(Step(s, e).0, r)
    ensures Redeemed(s, c) ==> Redeemed(Step(s, e).0, c)
  {
    hide RevokeFamily, S256, FirstBadUri, LiveUnapproved, CheckAsk;
  }

  lemma {:induction false} SpentForever(es: seq<Event>, m: nat, n: nat, r: RequestId, c: Secret)
    requires m <= n <= |es|
    ensures Spent(At(es, m), r) ==> Spent(At(es, n), r)
    ensures Redeemed(At(es, m), c) ==> Redeemed(At(es, n), c)
  {
    if m < n {
      hide Step, Spent, Redeemed;
      SpentForever(es, m, n - 1, r, c);
      StepKeepsSpent(At(es, n - 1), es[n - 1], r, c);
    }
  }

  /** An approval yields one code, ever. */
  lemma NoSecondCode(es: seq<Event>, m: nat, n: nat)
    requires m < n < |es| && es[m].Poll? && es[n].Poll? && es[m].req == es[n].req && Out(es, m).Collected?
    ensures Out(es, n) == NotYet
  {
    RunFresh(es, m);
    assert Spent(At(es, m + 1), es[m].req);
    SpentForever(es, m + 1, n, es[m].req, 0);
  }

  /** A code yields one family, ever. */
  lemma NoSecondExchange(es: seq<Event>, m: nat, n: nat)
    requires m < n < |es| && es[m].Exchange? && es[n].Exchange? && es[m].code == es[n].code && Out(es, m).Issued?
    ensures Out(es, n).Refused?
  {
    hide S256;
    RunFresh(es, m);
    assert Redeemed(At(es, m + 1), es[m].code);
    SpentForever(es, m + 1, n, 0, es[m].code);
  }

  /** Two families share no event of their chains. */
  lemma ChainsAreDisjoint(es: seq<Event>, g: GrantId, i: nat, j: nat, k: nat, l: nat, g': GrantId, i': nat, j': nat,
      k': nat, l': nat)
    requires Chain(es, g, i, j, k, l) && Chain(es, g', i', j', k', l') && g != g'
    ensures i != i' && j != j' && k != k' && l != l'
  {
    hide At, Step, S256;
    assert l != l';
    if es[l].code == es[l'].code {
      if l < l' { NoSecondExchange(es, l, l'); } else { NoSecondExchange(es, l', l); }
    }
    if es[k].req == es[k'].req && k != k' {
      if k < k' { NoSecondCode(es, k, k'); } else { NoSecondCode(es, k', k); }
    }
  }

  // ---------------------------------------------------------------- garbage collection

  predicate Accepted(o: Output)
  {
    !o.Refused? && o != NotYet && o != Invalid
  }

  predicate UsesOneRow(e: Event)
  {
    e.Approve? || e.Poll? || e.Exchange? || e.Rotate? || e.Validate?
  }

  /** The row the call looks up is stored and outlives a collection at `t`. */
  predicate RowOutlives(s: State, e: Event, t: int)
    requires UsesOneRow(e)
  {
    match e
    case Approve(r, _) => r in s.pending && s.pending[r].expires > t
    case Poll(r, _) => r in s.pending && s.pending[r].expires > t
    case Exchange(c, _, _, _, _) => c in s.codes && s.codes[c].expires > t
    case Rotate(k, _, _) => k in s.tokens && s.tokens[k].expires > t
    case Validate(k, _) => k in s.tokens && s.tokens[k].expires > t
  }

  /** Exactly when a collection at `t` turns an accepted call into a refusal, for any two times. */
  lemma CollectExact(s: State, t: int, e: Event)
    requires UsesOneRow(e)
    ensures Accepted(Step(CollectExpired(s, t), e).1) <==> Accepted(Step(s, e).1) && RowOutlives(s, e, t)
  {
    hide S256;
  }

  /** A collection at `t` changes neither success nor refusal of a call at a later time. */
  lemma CollectHarmlessLater(s: State, t: int, e: Event)
    requires UsesOneRow(e) && e.now > t
    ensures Accepted(Step(CollectExpired(s, t), e).1) <==> Accepted(Step(s, e).1)
  {
    hide S256;
    CollectExact(s, t, e);
  }

  /** At `t` itself it does: a request expiring at `t` can still be approved, until it is collected. */
  lemma CollectBitesAtTheSameInstant(s: State, r: RequestId, t: int)
    requires r in s.pending && s.pending[r].approved == None && s.pending[r].expires == t
    ensures Accepted(Step(s, Approve(r, t)).1) && !Accepted(Step(CollectExpired(s, t), Approve(r, t)).1)
  {
  }

  /** What a collection does change: reuse of a rotated token still ends its family exactly when the
      rotated row outlived the collection; otherwise the reuse goes unnoticed. */
  lemma ReuseNoticedIffStored(s: State, t: int, token: Secret, client: ClientId, now: int)
    requires IsRefreshToken(s, token) && s.tokens[token].revoked.Some?
    ensures var c := CollectExpired(s, t);
      var after := RefreshPair(c, token, client, now).0;
      if s.tokens[token].expires > t then Dead(after, s.tokens[token].grant) else after == c
  {
    RevokedFamilyIsDead(CollectExpired(s, t).tokens, s.tokens[token].grant, now);
  }

  // ---------------------------------------------------------------- revoking everything

  ghost predicate AllDead(s: State)
  {
    forall t :: t in s.tokens ==> s.tokens[t].revoked.Some?
  }

  lemma StepKeepsAllDead(s: State, e: Event)
    requires AllDead(s) && !(e.Exchange? && Step(s, e).1.Issued?)
    ensures AllDead(Step(s, e).0) && !Step(s, e).1.Issued? && !Step(s, e).1.Claims?
  {
    hide S256, FirstBadUri, LiveUnapproved, CheckAsk;
  }

  lemma {:induction false} AllDeadUntilExchange(es: seq<Event>, m: nat, n: nat)
    requires m <= n <= |es| && AllDead(At(es, m))
    requires forall k :: m <= k < n && es[k].Exchange? ==> !Out(es, k).Issued?
    ensures AllDead(At(es, n))
  {
    if m < n {
      hide Step, AllDead;
      AllDeadUntilExchange(es, m, n - 1);
      StepKeepsAllDead(At(es, n - 1), es[n - 1]);
    }
  }

  /** After `revoke_all` nothing validates and nothing rotates until a code is exchanged. */
  lemma RevokeAllSilences(es: seq<Event>, m: nat, n: nat)
    requires m < n < |es| && es[m].RevokeEverything?
    requires forall k :: m < k <= n && es[k].Exchange? ==> !Out(es, k).Issued?
    ensures !Out(es, n).Issued? && !Out(es, n).Claims?
  {
    assert AllDead(At(es, m + 1));
    hide Step, AllDead;
    AllDeadUntilExchange(es, m + 1, n);
    StepKeepsAllDead(At(es, n), es[n]);
  }

  /** But codes and approved requests are left alone, so a new family can still follow. */
  lemma RevokeAllSparesCodes(s: State, now: int, e: Event)
    requires e.Poll? || e.Exchange?
    ensures Step(RevokeAll(s, now), e).1 == Step(s, e).1
  {
    hide S256;
  }

  // ---------------------------------------------------------------- the code

  class Server {
    var clients: map<ClientId, seq<string>>
    var pending: map<RequestId, Pending>
    var codes: map<Secret, Code>
    var tokens: map<Secret, Token>
    var next: nat

    function View(): State
      reads this
    {
      State(clients, pending, codes, tokens, next)
    }

    constructor ()
      ensures View() == EMPTY
    {
      clients, pending, codes, tokens, next := map[], map[], map[], map[], 0;
    }

    method Register(uris: seq<string>) returns (o: Output)
      modifies this
      ensures (View(), o) == RegisterClient(old(View()), uris)
    {
      if uris == [] || |uris| > MAX_REDIRECT_URIS { return Refused(InvalidRedirectUri); }
      for i := 0 to |uris|
        invariant FirstBadUri(uris) == FirstBadUri(uris[i..])
      {
        if |uris[i]| > MAX_REDIRECT_LEN { return Refused(InvalidRequest); }
        if !("https://" <= uris[i]) { return Refused(InvalidRedirectUri); }
        if '#' in uris[i] { return Refused(InvalidRedirectUri); }
      }
      clients := clients[next := uris];
      o := Registered(next);
      next := next + 1;
    }

    /** Three deletes, one per table. */
    method Collect(now: int) returns (n: nat)
      modifies this
      ensures View() == CollectExpired(old(View()), now)
      ensures n == |old(pending)| - |pending| + (|old(codes)| - |codes|) + (|old(tokens)| - |tokens|)
    {
      var before := |pending| + |codes| + |tokens|;
      pending := map r | r in pending && pending[r].expires > now :: pending[r];
      codes := map c | c in codes && codes[c].expires > now :: codes[c];
      tokens := map t | t in tokens && tokens[t].expires > now :: tokens[t];
      assert pending.Keys <= old(pending).Keys && codes.Keys <= old(codes).Keys && tokens.Keys <= old(tokens).Keys;
      SubsetSize(pending.Keys, old(pending).Keys);
      SubsetSize(codes.Keys, old(codes).Keys);
      SubsetSize(tokens.Keys, old(tokens).Keys);
      n := before - |pending| - |codes| - |tokens|;
    }

    method Begin(a: Ask, now: int) returns (o: Output)
      modifies this
      ensures (View(), o) == BeginAuthorization(old(View()), a, now)
    {
      hide CollectExpired;
      var _ := Collect(now);
      var live := set r | r in pending && pending[r].approved == None && pending[r].expires > now;
      assert live == LiveUnapproved(CollectExpired(old(View()), now).pending, now);
      if |live| >= MAX_PENDING { return Refused(TemporarilyUnavailable); }
      if a.client !in clients { return Refused(InvalidClient); }
      if a.redirect !in clients[a.client] { return Refused(InvalidRedirectUri); }
      if a.state.Some? && |a.state.value| > MAX_STATE_LEN { return Refused(InvalidRequest); }
      if a.challenge.Len() > MAX_CHALLENGE_LEN { return Refused(InvalidRequest); }
      if a.challenge.Len() < MIN_CHALLENGE_LEN { return Refused(InvalidRequest); }
      if !a.isS256 { return Refused(InvalidRequest); }
      pending := pending[next := Pending(a.client, a.redirect, a.challenge, now + PENDING_TTL, None, None)];
      o := Began(next);
      next := next + 1;
    }

    method Approve(userCode: RequestId, now: int) returns (o: Output)
      modifies this
      ensures (View(), o) == ApproveRequest(old(View()), userCode, now)
    {
      if userCode !in pending { return Refused(InvalidRequest); }
      var row := pending[userCode];
      if row.approved.Some? { return Refused(InvalidRequest); }
      if now > row.expires { return Refused(ExpiredToken); }
      pending := pending[userCode := row.(approved := Some(now))];
      return Approved(userCode);
    }

    method Poll(req: RequestId, now: int) returns (o: Output)
      modifies this
      ensures (View(), o) == PollRequest(old(View()), req, now)
    {
      if req !in pending || pending[req].approved == None { return NotYet; }
      var row := pending[req];
      if row.collected.Some? { return NotYet; }
      if now > row.expires { return NotYet; }
      codes := codes[next := Code(row.client, row.redirect, row.challenge, now + CODE_TTL, None)];
      pending := pending[req := row.(collected := Some(now))];
      o := Collected(next);
      next := next + 1;
    }

    method IssuePair(client: ClientId, grant: GrantId, now: int) returns (o: Output)
      modifies this
      ensures (View(), o) == Issue(old(View()), client, grant, now)
    {
      var access, refresh := next, next + 1;
      tokens := tokens[access := Token(Access, client, grant, now + ACCESS_TTL, None)];
      tokens := tokens[refresh := Token(Refresh, client, grant, now + REFRESH_TTL, None)];
      next := next + 2;
      return Issued(grant, access, refresh);
    }

    method Exchange(code: Secret, client: ClientId, redirect: string, verifier: string, now: int) returns (o: Output)
      modifies this
      ensures (View(), o) == ExchangeCode(old(View()), code, client, redirect, verifier, now)
    {
      hide AsciiOnly;
      if code !in codes { return Refused(InvalidGrant); }
      var row := codes[code];
      if row.consumed.Some? { return Refused(InvalidGrant); }
      if now > row.expires { return Refused(InvalidGrant); }
      if client != row.client { return Refused(InvalidGrant); }
      if redirect != row.redirect { return Refused(InvalidGrant); }
      if S256(verifier) != row.challenge { return Refused(InvalidGrant); }
      codes := codes[code := row.(consumed := Some(now))];
      var grant := next;
      next := next + 1;
      o := IssuePair(row.client, grant, now);
    }

    method Rotate(token: Secret, client: ClientId, now: int) returns (o: Output)
      modifies this
      ensures (View(), o) == RefreshPair(old(View()), token, client, now)
    {
      if !(token in tokens && tokens[token].kind == Kind.Refresh) { return Refused(InvalidGrant); }
      var row := tokens[token];
      if row.revoked.Some? {
        tokens := RevokeFamily(tokens, row.grant, now);
        return Refused(InvalidGrant);
      }
      if now > row.expires { return Refused(InvalidGrant); }
      if client != row.client { return Refused(InvalidGrant); }
      tokens := RevokeFamily(tokens, row.grant, now);
      o := IssuePair(row.client, row.grant, now);
    }

    method Validate(token: Secret, now: int) returns (o: Output)
      ensures o == ValidateAccess(View(), token, now)
    {
      if token !in tokens || tokens[token].kind != Access { return Invalid; }
      var row := tokens[token];
      if row.revoked.Some? || now > row.expires { return Invalid; }
      return Claims(row.grant, row.client);
    }

    method RevokeEverything(now: int)
      modifies this
      ensures View() == RevokeAll(old(View()), now)
    {
      tokens := map t | t in tokens ::
        if tokens[t].revoked == None then tokens[t].(revoked := Some(now)) else tokens[t];
    }
  }
}
