/** What each OAuth call accepts and writes (mcp/oauth.py), in the columns of the rows it reads and with the
    limits written out; and what that makes of every run. */
module OAuthCalls {
  import opened Prelude
  import opened OAuth

  // ---------------------------------------------------------------- registration

  /** A redirect that may be registered: https, without a fragment, at most 512 characters. */
  predicate Safe(uri: string)
  {
    |uri| <= 512 && |uri| >= 8 && uri[..8] == "https://" && forall i :: 0 <= i < |uri| ==> uri[i] != '#'
  }

  ghost predicate FirstUnsafe(uris: seq<string>, i: nat)
  {
    i < |uris| && !Safe(uris[i]) && forall j :: 0 <= j < i ==> Safe(uris[j])
  }

  lemma CheckIsSafe(uri: string)
    ensures CheckUri(uri) == None <==> Safe(uri)
    ensures CheckUri(uri) == Some(InvalidRequest) <==> |uri| > 512
    ensures CheckUri(uri) == Some(InvalidRedirectUri) <==> |uri| <= 512 && !Safe(uri)
  {
    assert "https://" <= uri <==> |uri| >= 8 && uri[..8] == "https://";
  }

  lemma {:induction false} FirstBadIs(uris: seq<string>)
    ensures FirstBadUri(uris) == None <==> forall i :: 0 <= i < |uris| ==> Safe(uris[i])
    ensures FirstBadUri(uris).Some? ==>
      exists i: nat :: FirstUnsafe(uris, i) && FirstBadUri(uris) == CheckUri(uris[i])
  {
    if uris != [] {
      hide CheckUri, Safe;
      CheckIsSafe(uris[0]);
      FirstBadIs(uris[1..]);
      if CheckUri(uris[0]).Some? {
        var i: nat := 0;
        assert FirstUnsafe(uris, i);
      } else if FirstBadUri(uris[1..]).Some? {
        var i: nat :| FirstUnsafe(uris[1..], i) && FirstBadUri(uris[1..]) == CheckUri(uris[1..][i]);
        assert FirstUnsafe(uris, i + 1) && uris[i + 1] == uris[1..][i];
      }
    }
  }

  lemma FirstUnsafeIsOne(uris: seq<string>, i: nat, j: nat)
    requires FirstUnsafe(uris, i) && FirstUnsafe(uris, j)
    ensures i == j
  {
    hide Safe;
  }

  /** A client is registered if and only if it gives one to ten safe redirects; otherwise nothing changes, and
      the refusal names the first redirect's fault: too long, or not https without a fragment. */
  lemma RegisterIff(s: State, uris: seq<string>)
    ensures var (s', o) := Step(s, Register(uris));
      && (o == Registered(s.next) <==> 1 <= |uris| <= 10 && forall i :: 0 <= i < |uris| ==> Safe(uris[i]))
      && (o.Registered? ==> s' == s.(clients := s.clients[s.next := uris], next := s.next + 1))
      && (!o.Registered? ==> s' == s && (o == Refused(InvalidRequest) || o == Refused(InvalidRedirectUri)))
      && (1 <= |uris| <= 10 ==>
            forall i: nat :: FirstUnsafe(uris, i) ==> (o == Refused(InvalidRequest) <==> |uris[i]| > 512))
  {
    hide FirstBadUri;
    FirstBadIs(uris);
    if FirstBadUri(uris).Some? {
      var k: nat :| FirstUnsafe(uris, k) && FirstBadUri(uris) == CheckUri(uris[k]);
      CheckIsSafe(uris[k]);
      hide Safe, CheckUri;
      forall i: nat | FirstUnsafe(uris, i) ensures i == k { FirstUnsafeIsOne(uris, i, k); }
    }
  }

  // ---------------------------------------------------------------- the other calls

  /** What a request must be, whatever the tables hold. */
  predicate WellAsked(a: Ask)
  {
    && (a.state.Some? ==> |a.state.value| <= 512)
    && 43 <= a.challenge.Len() <= 128 && a.isS256
  }

  /** The requests that wait for the operator at `now`. */
  ghost function Waiting(s: State, now: int): set<RequestId>
  {
    set r | r in s.pending && s.pending[r].approved == None && now < s.pending[r].expires
  }

  lemma WaitingIsCounted(s: State, now: int)
    ensures LiveUnapproved(CollectExpired(s, now).pending, now) == Waiting(s, now)
  {
  }

  /** A request begins if and only if fewer than 25 wait, the client is registered with that very redirect, and
      the request is well asked. It then waits ten minutes. In any case every expired row is gone. */
  lemma BeginIff(s: State, a: Ask, now: int)
    ensures var (s', o) := Step(s, Begin(a, now));
      && (o == Began(s.next) <==>
            |Waiting(s, now)| < 25 && a.client in s.clients && a.redirect in s.clients[a.client] && WellAsked(a))
      && (o.Began? || o.Refused?)
      && (o == Refused(TemporarilyUnavailable) <==> |Waiting(s, now)| >= 25)
      && (o == Refused(InvalidClient) <==> |Waiting(s, now)| < 25 && a.client !in s.clients)
      && s'.clients == s.clients
      && (forall c :: c in s'.codes <==> c in s.codes && now < s.codes[c].expires)
      && (forall c :: c in s'.codes ==> s'.codes[c] == s.codes[c])
      && (forall t :: t in s'.tokens <==> t in s.tokens && now < s.tokens[t].expires)
      && (forall t :: t in s'.tokens ==> s'.tokens[t] == s.tokens[t])
  {
    hide LiveUnapproved, Waiting;
    WaitingIsCounted(s, now);
  }

  lemma BeginWrites(s: State, a: Ask, now: int)
    requires Fresh(s)
    ensures var (s', o) := Step(s, Begin(a, now));
      && (o.Began? ==>
            && s.next in s'.pending && s'.next == s.next + 1
            && s'.pending[s.next] == Pending(a.client, a.redirect, a.challenge, now + 600_000, None, None))
      && (!o.Began? ==> s'.next == s.next)
      && (forall r :: r in s'.pending && !(o.Began? && r == s.next) <==> r in s.pending && now < s.pending[r].expires)
      && (forall r :: r in s'.pending && r in s.pending ==> s'.pending[r] == s.pending[r])
  {
    hide LiveUnapproved, CheckAsk;
  }

  /** An approval is accepted if and only if the request is stored, not approved yet and not past its expiry. */
  lemma ApproveIff(s: State, r: RequestId, now: int)
    ensures var (s', o) := Step(s, Approve(r, now));
      var waits := r in s.pending && s.pending[r].approved == None;
      && (o == Approved(r) <==> waits && now <= s.pending[r].expires)
      && (o == Refused(ExpiredToken) <==> waits && now > s.pending[r].expires)
      && (o == Refused(InvalidRequest) <==> !waits)
      && s' == if o == Approved(r) then s.(pending := s.pending[r := s.pending[r].(approved := Some(now))]) else s
  {
  }

  /** A poll yields a code if and only if the request is stored, approved, not collected and not past its expiry;
      the code is for the request's client, redirect and challenge, and lives a minute. */
  lemma PollIff(s: State, r: RequestId, now: int)
    ensures var (s', o) := Step(s, Poll(r, now));
      && (o == Collected(s.next) <==>
            && r in s.pending && s.pending[r].approved.Some? && s.pending[r].collected == None
            && now <= s.pending[r].expires)
      && (o == Collected(s.next) || (o == NotYet && s' == s))
      && (o.Collected? ==>
            && s'.codes.Keys == s.codes.Keys + {s.next} && s'.next == s.next + 1
            && (forall c :: c in s.codes && c != s.next ==> s'.codes[c] == s.codes[c])
            && s'.codes[s.next].client == s.pending[r].client && s'.codes[s.next].redirect == s.pending[r].redirect
            && s'.codes[s.next].challenge == s.pending[r].challenge
            && s'.codes[s.next].expires == now + 60_000 && s'.codes[s.next].consumed == None
            && s'.pending == s.pending[r := s.pending[r].(collected := Some(now))]
            && s'.clients == s.clients && s'.tokens == s.tokens)
  {
  }

  /** The two tokens a call hands out: an hour for access, thirty days for refresh, for this client and family. */
  ghost predicate Hands(s: State, s': State, o: Output, client: ClientId, g: GrantId, now: int)
  {
    && o.Issued? && o.grant == g && o.access != o.refresh && o.access !in s.tokens && o.refresh !in s.tokens
    && o.access in s'.tokens && s'.tokens[o.access] == Token(Access, client, g, now + 3_600_000, None)
    && o.refresh in s'.tokens && s'.tokens[o.refresh] == Token(Refresh, client, g, now + 2_592_000_000, None)
    && s'.tokens.Keys == s.tokens.Keys + {o.access, o.refresh}
  }

  /** A code is exchanged if and only if it is stored, not consumed, not past its expiry, and presented by its
      client with its redirect and a verifier of its challenge. It opens a new family for that client. */
  lemma ExchangeIff(s: State, code: Secret, client: ClientId, redirect: string, verifier: string, now: int)
    requires Fresh(s)
    ensures var (s', o) := Step(s, Exchange(code, client, redirect, verifier, now));
      && (o.Issued? <==>
            && code in s.codes && s.codes[code].consumed == None && now <= s.codes[code].expires
            && s.codes[code].client == client && s.codes[code].redirect == redirect
            && s.codes[code].challenge == S256(verifier))
      && (!o.Issued? ==> o == Refused(InvalidGrant) && s' == s)
      && (o.Issued? ==>
            && Hands(s, s', o, client, s.next, now)
            && s'.codes == s.codes[code := s.codes[code].(consumed := Some(now))]
            && (forall t :: t in s.tokens ==> s'.tokens[t] == s.tokens[t])
            && s'.clients == s.clients && s'.pending == s.pending)
  {
    hide S256;
  }

  /** The refresh token is stored and was revoked before. */
  predicate Reused(s: State, token: Secret)
  {
    token in s.tokens && s.tokens[token].kind == Refresh && s.tokens[token].revoked.Some?
  }

  /** A refresh token rotates if and only if it is a stored refresh token, not revoked, not past its expiry, and
      presented by its own client. Its family is then revoked and has the new pair; a revoked one that is
      presented again revokes its family too, and otherwise nothing changes. */
  lemma RotateIff(s: State, token: Secret, client: ClientId, now: int)
    requires Fresh(s)
    ensures var (s', o) := Step(s, Rotate(token, client, now));
      && (o.Issued? <==>
            && token in s.tokens && s.tokens[token].kind == Refresh && s.tokens[token].revoked == None
            && now <= s.tokens[token].expires && s.tokens[token].client == client)
      && (!o.Issued? ==> o == Refused(InvalidGrant))
      && (o.Issued? ==> Hands(s, s', o, client, s.tokens[token].grant, now))
      && s'.clients == s.clients && s'.pending == s.pending && s'.codes == s.codes
      && (forall t :: t in s.tokens ==> t in s'.tokens)
      && (forall t :: t in s.tokens ==>
            s'.tokens[t] ==
              if (o.Issued? || Reused(s, token)) && s.tokens[t].grant == s.tokens[token].grant
                 && s.tokens[t].revoked == None
              then s.tokens[t].(revoked := Some(now)) else s.tokens[t])
      && (!o.Issued? ==> s'.tokens.Keys == s.tokens.Keys && s'.next == s.next)
  {
  }

  /** An access token is vouched for if and only if it is a stored access token, not revoked and not past its
      expiry; the answer names its own family and client. */
  lemma ValidateIff(s: State, token: Secret, now: int)
    ensures var (s', o) := Step(s, Validate(token, now));
      && s' == s && (o.Claims? || o == Invalid)
      && (o.Claims? <==>
            && token in s.tokens && s.tokens[token].kind == Access && s.tokens[token].revoked == None
            && now <= s.tokens[token].expires)
      && (o.Claims? ==> o.grant == s.tokens[token].grant && o.client == s.tokens[token].client)
  {
  }

  /** A collection keeps exactly the rows that expire later, as they are. */
  lemma CollectKeeps(s: State, now: int)
    ensures var s' := Step(s, Collect(now)).0;
      && s'.clients == s.clients && s'.next == s.next
      && (forall r :: r in s'.pending <==> r in s.pending && now < s.pending[r].expires)
      && (forall r :: r in s'.pending ==> s'.pending[r] == s.pending[r])
      && (forall c :: c in s'.codes <==> c in s.codes && now < s.codes[c].expires)
      && (forall c :: c in s'.codes ==> s'.codes[c] == s.codes[c])
      && (forall t :: t in s'.tokens <==> t in s.tokens && now < s.tokens[t].expires)
      && (forall t :: t in s'.tokens ==> s'.tokens[t] == s.tokens[t])
  {
  }

  /** `revoke_all` stamps the tokens that have no stamp yet, and nothing else. */
  lemma RevokeAllStamps(s: State, now: int)
    ensures var s' := Step(s, RevokeEverything(now)).0;
      && s'.clients == s.clients && s'.pending == s.pending && s'.codes == s.codes && s'.next == s.next
      && s'.tokens.Keys == s.tokens.Keys
      && (forall t :: t in s.tokens ==>
            s'.tokens[t] == if s.tokens[t].revoked.Some? then s.tokens[t] else s.tokens[t].(revoked := Some(now)))
  {
  }

  lemma {:induction false} AsciiAppend(a: string, b: string)
    ensures AsciiOnly(a + b) == AsciiOnly(a) + AsciiOnly(b)
  {
    hide AsciiOnly;
    AsciiHead(a);
    if a == "" {
      assert a + b == b;
    } else {
      AsciiAppend(a[1..], b);
      AsciiHead(a + b);
      assert (a + b)[1..] == a[1..] + b;
      Associates(if a[0] as int < 128 then [a[0]] else "", AsciiOnly(a[1..]), AsciiOnly(b));
    }
  }

  lemma Associates(x: string, y: string, z: string)
    ensures x + (y + z) == (x + y) + z
  {
  }

  lemma AsciiHead(s: string)
    ensures AsciiOnly(s) == if s == "" then "" else (if s[0] as int < 128 then [s[0]] else "") + AsciiOnly(s[1..])
  {
  }

  /** The verifier of a challenge is read as its ASCII characters, in order. */
  lemma S256Is(a: string, b: string)
    ensures S256(a).S256Of? && S256("").verifier == ""
    ensures S256(a + b).verifier == S256(a).verifier + S256(b).verifier
  {
    hide AsciiOnly;
    AsciiHead("");
    AsciiAppend(a, b);
  }

  lemma S256Character(c: char)
    ensures S256([c]).verifier == if c as int < 128 then [c] else ""
  {
    assert AsciiOnly([c][1..]) == "";
    assert AsciiOnly([c]) == if c as int < 128 then [c] else "";
  }

  // ---------------------------------------------------------------- every run

  ghost predicate AllSafe(clients: map<ClientId, seq<string>>)
  {
    forall c :: c in clients ==> 1 <= |clients[c]| <= 10 && forall i :: 0 <= i < |clients[c]| ==> Safe(clients[c][i])
  }

  lemma StepClients(s: State, e: Event)
    requires AllSafe(s.clients)
    ensures AllSafe(Step(s, e).0.clients)
  {
    if e.Register? {
      hide Step;
      RegisterIff(s, e.uris);
    } else {
      OnlyRegister(s, e);
      hide Step;
    }
  }

  lemma OnlyRegister(s: State, e: Event)
    requires !e.Register?
    ensures Step(s, e).0.clients == s.clients
  {
    hide LiveUnapproved, CheckAsk, Redeemable, RevokeFamily;
  }

  /** Every redirect registered in any run is safe, and no client has more than ten. */
  lemma {:induction false} RedirectsAreSafe(es: seq<Event>, n: nat)
    requires n <= |es|
    ensures AllSafe(At(es, n).clients)
  {
    hide Step;
    if n > 0 {
      hide AllSafe;
      RedirectsAreSafe(es, n - 1);
      StepClients(At(es, n - 1), es[n - 1]);
    }
  }

  /** Every request that any run begins was well asked, for a safe redirect of its client; and so, through
      OAuth.TokenFrom, was the request behind every token. */
  lemma BegunIsWellAsked(es: seq<Event>, n: nat)
    requires n < |es| && es[n].Begin? && Out(es, n).Began?
    ensures WellAsked(es[n].ask) && es[n].ask.client in At(es, n).clients && Safe(es[n].ask.redirect)
  {
    hide At, Step, Waiting;
    BeginIff(At(es, n), es[n].ask, es[n].now);
    RunFresh(es, n);
    BeginOutput(At(es, n), es[n].ask, es[n].now);
    RedirectsAreSafe(es, n);
    hide Safe;
  }

  lemma BeginOutput(s: State, a: Ask, now: int)
    ensures var o := Step(s, Begin(a, now)).1; o.Began? ==> o == Began(s.next)
  {
    hide LiveUnapproved, CheckAsk;
  }

  /** In every run, a refresh token rotates if and only if it is stored, not revoked and not past its expiry, and
      the caller is the client that began the chain its family comes from. */
  lemma RotatesForItsBeginner(es: seq<Event>, n: nat) returns (i: nat, j: nat, k: nat, l: nat)
    requires n < |es| && es[n].Rotate? && IsRefreshToken(At(es, n), es[n].token)
    ensures var row := At(es, n).tokens[es[n].token];
      && l < n && Chain(es, row.grant, i, j, k, l)
      && (Out(es, n).Issued? <==>
            row.revoked == None && es[n].now <= row.expires && es[n].client == es[i].ask.client)
  {
    hide Step, Chain, At;
    RunFresh(es, n);
    i, j, k, l := TokenFrom(es, n, es[n].token);
    RotateIff(At(es, n), es[n].token, es[n].client, es[n].now);
    AtChain(es, At(es, n).tokens[es[n].token].grant, i, j, k, l);
  }

  lemma AtChain(es: seq<Event>, g: GrantId, i: nat, j: nat, k: nat, l: nat)
    requires Chain(es, g, i, j, k, l)
    ensures i < |es| && es[i].Begin?
  {
    hide At, Step, S256;
  }

  /** And an access token is vouched for, in the name of the client that began its chain, if and only if it is
      stored, not revoked and not past its expiry. */
  lemma VouchesForItsBeginner(es: seq<Event>, n: nat) returns (i: nat, j: nat, k: nat, l: nat)
    requires n < |es| && es[n].Validate? && es[n].token in At(es, n).tokens
    ensures var row := At(es, n).tokens[es[n].token];
      && l < n && Chain(es, row.grant, i, j, k, l)
      && (row.kind == Access && row.revoked == None && es[n].now <= row.expires
          <==> Out(es, n) == Claims(row.grant, es[i].ask.client))
  {
    hide Step, Chain, At;
    i, j, k, l := TokenFrom(es, n, es[n].token);
    ValidateIff(At(es, n), es[n].token, es[n].now);
    AtChain(es, At(es, n).tokens[es[n].token].grant, i, j, k, l);
  }
}
