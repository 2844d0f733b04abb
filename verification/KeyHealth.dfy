/** Key health over runs of the ingest loop: which keys have opened an envelope since the process
    started, and what becomes of a body that fails authentication (apps/ingest/consumer.py). */
module KeyHealth {
  import opened Prelude
  import opened Queue
  import opened Ingest

  // ---------------------------------------------------------------- inside one drain

  /** What a drain starts its loop with. */
  function Started(s: Sys, env: Env): Sys
  {
    s.(q := LeaseFirst(s.q, LeaseCount(s.q, env.max)))
  }

  function Taken(s: Sys, env: Env): seq<(LeaseId, Body)>
  {
    Leases(s.q, LeaseCount(s.q, env.max))
  }

  /** The loop's state and list just before it handles lease `i`, if it gets there. */
  function Before(s: Sys, leases: seq<(LeaseId, Body)>, i: nat, env: Env): Option<(Sys, seq<LeaseId>)>
    requires i <= |leases|
  {
    if i == 0 then (if 0 in env.deadBefore then None else Some((s, [])))
    else
      match Before(s, leases, i - 1, env)
      case None => None
      case Some((s1, toAck)) =>
        var (s2, verdict) := Handle(s1, leases[i - 1].0, leases[i - 1].1, env.available, MishapAt(env, i - 1));
        if verdict == Tripped || verdict == Dead || i in env.deadBefore then None
        else Some((s2, if verdict == ToAck then toAck + [leases[i - 1].0] else toAck))
  }

  /** The rest of the loop is what follows from there. */
  lemma {:induction false} LoopPasses(s: Sys, leases: seq<(LeaseId, Body)>, i: nat, env: Env)
    requires i <= |leases| && Before(s, leases, i, env).Some?
    ensures i !in env.deadBefore
    ensures var (s1, toAck) := Before(s, leases, i, env).value;
      DrainFrom(s, leases, 0, [], env) == DrainFrom(s1, leases, i, toAck, env)
  {
    hide Handle;
    if i > 0 {
      LoopPasses(s, leases, i - 1, env);
    }
  }

  /** The keys that leases below `i` open: genuine envelopes whose key is available. */
  function OpenedBelow(leases: seq<(LeaseId, Body)>, i: nat, available: set<KeyId>): set<KeyId>
    requires i <= |leases|
  {
    set j | 0 <= j < i && leases[j].1.Sealed? && leases[j].1.key in available :: leases[j].1.key
  }

  lemma HandleHealth(s: Sys, id: LeaseId, body: Body, available: set<KeyId>, m: Option<Mishap>)
    ensures Handle(s, id, body, available, m).0.health
      == s.health + if body.Sealed? && body.key in available then {body.key} else {}
  {
    hide Process;
  }

  lemma OpenedNext(leases: seq<(LeaseId, Body)>, i: nat, available: set<KeyId>)
    requires i < |leases|
    ensures OpenedBelow(leases, i + 1, available) == OpenedBelow(leases, i, available)
      + if leases[i].1.Sealed? && leases[i].1.key in available then {leases[i].1.key} else {}
  {
  }

  /** Inside a drain, health is what it was and what has been opened so far. */
  lemma {:induction false} HealthBefore(s: Sys, leases: seq<(LeaseId, Body)>, i: nat, env: Env)
    requires i <= |leases| && Before(s, leases, i, env).Some?
    ensures Before(s, leases, i, env).value.0.health == s.health + OpenedBelow(leases, i, env.available)
  {
    hide Handle, OpenedBelow;
    if i > 0 {
      HealthBefore(s, leases, i - 1, env);
      var (s1, toAck) := Before(s, leases, i - 1, env).value;
      HandleHealth(s1, leases[i - 1].0, leases[i - 1].1, env.available, MishapAt(env, i - 1));
      OpenedNext(leases, i - 1, env.available);
    } else {
      NothingBelow(leases, env.available);
    }
  }

  lemma NothingBelow(leases: seq<(LeaseId, Body)>, available: set<KeyId>)
    ensures OpenedBelow(leases, 0, available) == {}
  {
  }

  lemma {:induction false} NotReachedAgain(s: Sys, leases: seq<(LeaseId, Body)>, i: nat, j: nat, env: Env)
    requires i <= j <= |leases| && Before(s, leases, i, env) == None
    ensures Before(s, leases, j, env) == None
  {
    hide Handle;
    if i < j { NotReachedAgain(s, leases, i, j - 1, env); }
  }

  /** Lease `j` is handled and opens under `k`. */
  predicate OpensLease(s: Sys, leases: seq<(LeaseId, Body)>, j: nat, env: Env, k: KeyId)
  {
    j < |leases| && Before(s, leases, j, env).Some? && leases[j].1.Sealed? && leases[j].1.key == k && k in env.available
  }

  ghost predicate OpensFrom(s: Sys, leases: seq<(LeaseId, Body)>, i: nat, env: Env, k: KeyId)
  {
    exists j: nat :: i <= j && OpensLease(s, leases, j, env, k)
  }

  lemma OpensFromNext(s: Sys, leases: seq<(LeaseId, Body)>, i: nat, env: Env, k: KeyId)
    ensures OpensFrom(s, leases, i, env, k) <==> OpensLease(s, leases, i, env, k) || OpensFrom(s, leases, i + 1, env, k)
  {
    hide OpensLease;
    if OpensFrom(s, leases, i, env, k) {
      var j: nat :| i <= j && OpensLease(s, leases, j, env, k);
      if j != i { assert i + 1 <= j; }
    }
  }

  lemma NoneFrom(s: Sys, leases: seq<(LeaseId, Body)>, i: nat, env: Env, k: KeyId)
    requires i <= |leases| && (i == |leases| || Before(s, leases, i, env) == None)
    ensures !OpensFrom(s, leases, i, env, k)
  {
    forall j: nat | i <= j ensures !OpensLease(s, leases, j, env, k) {
      if j < |leases| { NotReachedAgain(s, leases, i, j, env); }
    }
  }

  /** When the loop ends alive, health has gained exactly the keys of the leases it opened. */
  lemma {:induction false} LoopHealth(s: Sys, leases: seq<(LeaseId, Body)>, i: nat, env: Env, k: KeyId)
    requires i <= |leases| && Before(s, leases, i, env).Some?
    ensures var (s1, toAck) := Before(s, leases, i, env).value;
      var (s', _, dead) := DrainFrom(s1, leases, i, toAck, env);
      !dead ==> (k in s'.health <==> k in s1.health || OpensFrom(s, leases, i, env, k))
    decreases |leases| - i
  {
    hide Handle, OpensFrom;
    var (s1, toAck) := Before(s, leases, i, env).value;
    LoopPasses(s, leases, i, env);
    if i == |leases| {
      NoneFrom(s, leases, i, env, k);
    } else {
      var (id, body) := leases[i];
      var (s2, verdict) := Handle(s1, id, body, env.available, MishapAt(env, i));
      HandleHealth(s1, id, body, env.available, MishapAt(env, i));
      OpensFromNext(s, leases, i, env, k);
      match verdict
      case Dead =>
      case Tripped =>
        NoneFrom(s, leases, i + 1, env, k);
      case _ =>
        if i + 1 !in env.deadBefore { LoopHealth(s, leases, i + 1, env, k); }
    }
  }

  lemma AckHealth(s: Sys, env: Env)
    ensures Dies(s, env) ==> Drain(s, env).health == {}
    ensures s.v.breakerOpen ==> Drain(s, env) == s
    ensures !Dies(s, env) && !s.v.breakerOpen ==>
      var (s', _, dead) := DrainFrom(Started(s, env), Taken(s, env), 0, [], env);
      !dead && Drain(s, env).health == s'.health
  {
    hide DrainFrom, AckAll, LeaseFirst, Leases;
  }

  /** A drain that does not kill the process adds to health exactly the keys it opened; one that does
      leaves none. */
  lemma DrainHealth(s: Sys, env: Env, k: KeyId)
    ensures k in Drain(s, env).health <==>
      && !Dies(s, env)
      && (k in s.health || (!s.v.breakerOpen && OpensFrom(Started(s, env), Taken(s, env), 0, env, k)))
  {
    AckHealth(s, env);
    hide Drain, OpensFrom, LeaseFirst, Leases;
    if !Dies(s, env) && !s.v.breakerOpen {
      var s0, leases := Started(s, env), Taken(s, env);
      assert 0 !in env.deadBefore;
      LoopHealth(s0, leases, 0, env, k);
    }
  }

  // ---------------------------------------------------------------- history

  /** Event `n` is a drain that handles its lease `i`. */
  predicate Reaches(es: seq<Event>, n: nat, i: nat)
    requires n < |es|
  {
    && es[n].DoDrain? && !At(es, n).v.breakerOpen
    && i < |Taken(At(es, n), es[n].env)|
    && Before(Started(At(es, n), es[n].env), Taken(At(es, n), es[n].env), i, es[n].env).Some?
  }

  function BodyAt(es: seq<Event>, n: nat, i: nat): Body
    requires n < |es| && Reaches(es, n, i)
  {
    Taken(At(es, n), es[n].env)[i].1
  }

  /** Drain `n` opened an envelope under key `k` as its lease `i`. */
  predicate Opens(es: seq<Event>, n: nat, i: nat, k: KeyId)
    requires n < |es|
  {
    Reaches(es, n, i) && BodyAt(es, n, i).Sealed? && BodyAt(es, n, i).key == k && k in es[n].env.available
  }

  /** The process dies in this drain: while it handles a lease, between two, or among the acknowledgements. */
  predicate Dies(s: Sys, env: Env)
  {
    !s.v.breakerOpen &&
    var (_, toAck, dead) := DrainFrom(Started(s, env), Taken(s, env), 0, [], env);
    dead || (env.acksSent.Some? && env.acksSent.value < |toAck|)
  }

  /** No drain from `m` up to `n` killed the process. */
  ghost predicate Alive(es: seq<Event>, m: nat, n: nat)
    requires n <= |es|
  {
    forall j :: m <= j < n && es[j].DoDrain? ==> !Dies(At(es, j), es[j].env)
  }

  /** Since the process running before event `n` started, an envelope was opened under `k`. */
  ghost predicate OpenedSince(es: seq<Event>, n: nat, k: KeyId)
    requires n <= |es|
  {
    exists m: nat, j: nat :: m < n && Opens(es, m, j, k) && Alive(es, m, n)
  }

  /** The same, up to lease `i` of drain `n`. */
  ghost predicate OpenedBy(es: seq<Event>, n: nat, i: nat, k: KeyId)
    requires n < |es|
  {
    OpenedSince(es, n, k) || exists j: nat :: j < i && Opens(es, n, j, k)
  }

  /** The drain opens `k` exactly when one of its leases does. */
  lemma OpensIs(es: seq<Event>, n: nat, i: nat, k: KeyId)
    requires n < |es| && es[n].DoDrain?
    ensures var s, env := At(es, n), es[n].env;
      Opens(es, n, i, k) <==> !s.v.breakerOpen && OpensLease(Started(s, env), Taken(s, env), i, env, k)
  {
    hide At, Before, LeaseFirst, Leases;
  }

  ghost predicate SomeLeaseOpens(es: seq<Event>, n: nat, k: KeyId)
    requires n < |es|
  {
    exists j: nat :: Opens(es, n, j, k)
  }

  lemma StepHealth(es: seq<Event>, n: nat, k: KeyId)
    requires n < |es|
    ensures k in At(es, n + 1).health <==>
      && !(es[n].DoDrain? && Dies(At(es, n), es[n].env))
      && (k in At(es, n).health || SomeLeaseOpens(es, n, k))
  {
    var s, e := At(es, n), es[n];
    if e.DoDrain? {
      assert At(es, n + 1) == Drain(s, e.env);
      DrainHealth(s, e.env, k);
      hide Opens, OpensLease, At, Drain, Dies;
      forall j: nat
        ensures Opens(es, n, j, k) <==>
          !s.v.breakerOpen && OpensLease(Started(s, e.env), Taken(s, e.env), j, e.env, k)
      {
        OpensIs(es, n, j, k);
      }
    } else {
      hide RebuildWindow, NackOne, Enqueue, Before, Dies;
    }
  }

  lemma OpenedNow(es: seq<Event>, n: nat, k: KeyId)
    requires n < |es|
    ensures OpenedSince(es, n + 1, k) <==>
      && !(es[n].DoDrain? && Dies(At(es, n), es[n].env))
      && (OpenedSince(es, n, k) || SomeLeaseOpens(es, n, k))
  {
    hide Opens, At, Dies;
    var ok := !(es[n].DoDrain? && Dies(At(es, n), es[n].env));
    assert Alive(es, n, n);
    AliveNext(es, n, n);
    if OpenedSince(es, n + 1, k) {
      var m: nat, j: nat :| m < n + 1 && Opens(es, m, j, k) && Alive(es, m, n + 1);
      AliveNext(es, m, n);
    }
    if ok && SomeLeaseOpens(es, n, k) {
      var j: nat :| Opens(es, n, j, k);
    }
    if ok && OpenedSince(es, n, k) {
      var m: nat, j: nat :| m < n && Opens(es, m, j, k) && Alive(es, m, n);
      AliveNext(es, m, n);
    }
  }

  lemma AliveNext(es: seq<Event>, m: nat, n: nat)
    requires m <= n < |es|
    ensures Alive(es, m, n + 1) <==> Alive(es, m, n) && !(es[n].DoDrain? && Dies(At(es, n), es[n].env))
  {
    hide At, Dies;
  }

  /** In every run, key health is exactly the history of the process: a key is healthy if and only if an
      envelope was opened under it since the process started. */
  lemma {:induction false} HealthIsHistory(es: seq<Event>, n: nat, k: KeyId)
    requires n <= |es|
    ensures k in At(es, n).health <==> OpenedSince(es, n, k)
  {
    if n > 0 {
      HealthIsHistory(es, n - 1, k);
      StepHealth(es, n - 1, k);
      OpenedNow(es, n - 1, k);
    }
  }

  lemma {:induction false} OpenedBelowIs(s: Sys, leases: seq<(LeaseId, Body)>, i: nat, env: Env, k: KeyId)
    requires i <= |leases| && Before(s, leases, i, env).Some?
    ensures k in OpenedBelow(leases, i, env.available) <==> exists j: nat :: j < i && OpensLease(s, leases, j, env, k)
  {
    forall j: nat | j < i ensures Before(s, leases, j, env).Some? {
      if Before(s, leases, j, env) == None { NotReachedAgain(s, leases, j, i, env); }
    }
    hide Before;
    if k in OpenedBelow(leases, i, env.available) {
      var j: nat :| j < i && leases[j].1.Sealed? && leases[j].1.key in env.available && leases[j].1.key == k;
      assert OpensLease(s, leases, j, env, k);
    }
  }

  /** What health says of a key when a lease is handled. */
  lemma HealthAtLease(es: seq<Event>, n: nat, i: nat, k: KeyId)
    requires n < |es| && Reaches(es, n, i)
    ensures var s, env := At(es, n), es[n].env;
      k in Before(Started(s, env), Taken(s, env), i, env).value.0.health <==> OpenedBy(es, n, i, k)
  {
    var s, env := At(es, n), es[n].env;
    var s0, leases := Started(s, env), Taken(s, env);
    HealthBefore(s0, leases, i, env);
    OpenedBelowIs(s0, leases, i, env, k);
    HealthIsHistory(es, n, k);
    forall j: nat ensures Opens(es, n, j, k) <==> OpensLease(s0, leases, j, env, k) { OpensIs(es, n, j, k); }
    hide Before, Opens, OpensLease, At, OpenedBelow, OpenedSince;
  }

  // ---------------------------------------------------------------- the queue inside a drain

  /** Nothing acknowledged, nothing newly leased. */
  ghost predicate Shrunk(q: Q<Body>, q': Q<Body>)
  {
    q'.acked == q.acked && forall l :: l in q'.leased ==> l in q.leased && q'.leased[l] == q.leased[l]
  }

  lemma HandleQueue(s: Sys, id: LeaseId, body: Body, available: set<KeyId>, m: Option<Mishap>)
    ensures var q' := Handle(s, id, body, available, m).0.q; q' == s.q || q' == NackOne(s.q, id)
  {
    hide Process;
  }

  lemma NackShrunk(q: Q<Body>, id: LeaseId)
    ensures Shrunk(q, NackOne(q, id))
    ensures forall l :: l in q.leased && l != id ==> l in NackOne(q, id).leased
  {
  }

  /** The leases from `i` on are still out, under their own ids, and the list holds earlier ones. */
  ghost predicate StillOut(q: Q<Body>, leases: seq<(LeaseId, Body)>, i: nat, toAck: seq<LeaseId>)
  {
    && (forall j :: i <= j < |leases| ==> leases[j].0 in q.leased && q.leased[leases[j].0] == leases[j].1)
    && (forall x :: x in toAck ==> exists j :: 0 <= j < i && j < |leases| && leases[j].0 == x)
  }

  ghost predicate IdsDiffer(leases: seq<(LeaseId, Body)>)
  {
    forall i, j :: 0 <= i < j < |leases| ==> leases[i].0 != leases[j].0
  }

  lemma StillOutNext(q: Q<Body>, q': Q<Body>, leases: seq<(LeaseId, Body)>, i: nat, toAck: seq<LeaseId>,
      toAck': seq<LeaseId>)
    requires StillOut(q, leases, i, toAck) && IdsDiffer(leases) && i < |leases|
    requires q' == q || q' == NackOne(q, leases[i].0)
    requires toAck' == toAck || toAck' == toAck + [leases[i].0]
    ensures StillOut(q', leases, i + 1, toAck')
  {
    forall x | x in toAck' ensures exists j :: 0 <= j < i + 1 && j < |leases| && leases[j].0 == x {
      if x in toAck {
        var j :| 0 <= j < i && j < |leases| && leases[j].0 == x;
      } else {
        assert leases[i].0 == x;
      }
    }
  }

  lemma {:induction false} LeasesStayOut(s: Sys, leases: seq<(LeaseId, Body)>, i: nat, env: Env)
    requires i <= |leases| && Before(s, leases, i, env).Some? && StillOut(s.q, leases, 0, []) && IdsDiffer(leases)
    ensures var (s1, toAck) := Before(s, leases, i, env).value; StillOut(s1.q, leases, i, toAck)
  {
    hide Handle, StillOut, IdsDiffer;
    if i > 0 {
      LeasesStayOut(s, leases, i - 1, env);
      var (s1, toAck) := Before(s, leases, i - 1, env).value;
      HandleQueue(s1, leases[i - 1].0, leases[i - 1].1, env.available, MishapAt(env, i - 1));
      var (s2, toAck2) := Before(s, leases, i, env).value;
      StillOutNext(s1.q, s2.q, leases, i - 1, toAck, toAck2);
    }
  }

  lemma TakenOut(s: Sys, env: Env)
    requires Numbered(s.q)
    ensures StillOut(Started(s, env).q, Taken(s, env), 0, []) && IdsDiffer(Taken(s, env))
    ensures Started(s, env).q.acked == s.q.acked
  {
    hide LeaseFirst;
    LeaseEntries(s.q, LeaseCount(s.q, env.max));
  }

  lemma {:induction false} AckLeaves(q: Q<Body>, ids: seq<LeaseId>, l: LeaseId)
    requires l in q.leased && l !in ids
    ensures l in AckAll(q, ids).leased && AckAll(q, ids).leased[l] == q.leased[l]
  {
    if ids != [] { AckLeaves(q, ids[..|ids| - 1], l); }
  }

  lemma NotListed(q: Q<Body>, leases: seq<(LeaseId, Body)>, i: nat, toAck: seq<LeaseId>)
    requires StillOut(q, leases, i, toAck) && IdsDiffer(leases) && i < |leases|
    ensures leases[i].0 !in toAck && leases[i].0 in q.leased && q.leased[leases[i].0] == leases[i].1
  {
  }

  /** A drain ends with its breaker open and lease `i` still out, if handling lease `i` trips it. */
  lemma TripEndsDrain(s: Sys, env: Env, i: nat)
    requires !s.v.breakerOpen && Numbered(s.q) && i < |Taken(s, env)|
    requires Before(Started(s, env), Taken(s, env), i, env).Some?
    requires var (s1, _) := Before(Started(s, env), Taken(s, env), i, env).value; var (id, body) := Taken(s, env)[i];
      Handle(s1, id, body, env.available, MishapAt(env, i)) == (s1.(v := s1.v.(breakerOpen := true)), Tripped)
    ensures var s', (id, body) := Drain(s, env), Taken(s, env)[i];
      s'.v.breakerOpen && id in s'.q.leased && s'.q.leased[id] == body
  {
    var s0, leases := Started(s, env), Taken(s, env);
    var (s1, toAck) := Before(s0, leases, i, env).value;
    LoopPasses(s0, leases, i, env);
    TakenOut(s, env);
    LeasesStayOut(s0, leases, i, env);
    NotListed(s1.q, leases, i, toAck);
    assert DrainFrom(s0, leases, 0, [], env) == (s1.(v := s1.v.(breakerOpen := true)), toAck, false);
    hide DrainFrom, Before, StillOut, IdsDiffer, Handle, AckAll;
    var id := leases[i].0;
    AckLeaves(s1.q, toAck, id);
    if env.acksSent.Some? && env.acksSent.value < |toAck| {
      AckLeaves(s1.q, toAck[..env.acksSent.value], id);
    }
  }

  lemma ForgedTrips(s: Sys, id: LeaseId, body: Body, available: set<KeyId>, m: Option<Mishap>)
    requires body.Forged? && body.key in available
    ensures body.key !in s.health ==> Handle(s, id, body, available, m) == (s.(v := s.v.(breakerOpen := true)), Tripped)
    ensures body.key in s.health ==> Handle(s, id, body, available, m).1 == ToAck
  {
  }

  lemma RunNumbered(es: seq<Event>, n: nat)
    requires n <= |es| && Run(es)
    ensures Numbered(At(es, n).q)
  {
    hide At, Run, VaultOk, WindowsOk, AckedOk, HealthOk, DlqOk, Copies;
    RunKeeps(es, n);
  }

  /** A body that fails authentication, under an available key that has opened nothing since the process
      started, opens the breaker: the drain that reaches it ends there, with the body still leased. */
  lemma UnprovenForgeryTrips(es: seq<Event>, n: nat, i: nat)
    requires n < |es| && Run(es) && Reaches(es, n, i)
    requires var b := BodyAt(es, n, i); b.Forged? && b.key in es[n].env.available && !OpenedBy(es, n, i, b.key)
    ensures var s', (id, b) := At(es, n + 1), Taken(At(es, n), es[n].env)[i];
      s'.v.breakerOpen && id in s'.q.leased && s'.q.leased[id] == b
  {
    var s, env := At(es, n), es[n].env;
    assert At(es, n + 1) == Drain(s, env);
    RunNumbered(es, n);
    var b := BodyAt(es, n, i);
    HealthAtLease(es, n, i, b.key);
    hide At, Run, OpenedBy, Drain, Handle, Before;
    var (s1, toAck) := Before(Started(s, env), Taken(s, env), i, env).value;
    ForgedTrips(s1, Taken(s, env)[i].0, b, env.available, MishapAt(env, i));
    TripEndsDrain(s, env, i);
  }

  // ---------------------------------------------------------------- acknowledged forgeries

  /** The loop handled a lease with this id and put it up for acknowledgement. */
  predicate PutUp(s: Sys, leases: seq<(LeaseId, Body)>, j: nat, env: Env, x: LeaseId)
  {
    && j < |leases| && Before(s, leases, j, env).Some? && leases[j].0 == x
    && Handle(Before(s, leases, j, env).value.0, x, leases[j].1, env.available, MishapAt(env, j)).1 == ToAck
  }

  ghost predicate AllPutUp(s: Sys, leases: seq<(LeaseId, Body)>, env: Env, toAck: seq<LeaseId>)
  {
    forall x :: x in toAck ==> exists j: nat :: PutUp(s, leases, j, env, x)
  }

  lemma PutUpMore(s: Sys, leases: seq<(LeaseId, Body)>, env: Env, toAck: seq<LeaseId>, j: nat, x: LeaseId)
    requires AllPutUp(s, leases, env, toAck) && PutUp(s, leases, j, env, x)
    ensures AllPutUp(s, leases, env, toAck + [x])
  {
    hide PutUp;
  }

  lemma ShrunkTwice(a: Q<Body>, b: Q<Body>, c: Q<Body>)
    requires Shrunk(a, b) && Shrunk(b, c)
    ensures Shrunk(a, c)
  {
  }

  /** What the loop leaves: leases only taken off, and a list of what it put up. */
  lemma {:induction false} LoopLists(s: Sys, leases: seq<(LeaseId, Body)>, i: nat, env: Env)
    requires i <= |leases| && Before(s, leases, i, env).Some?
    requires AllPutUp(s, leases, env, Before(s, leases, i, env).value.1)
    ensures var (s1, toAck) := Before(s, leases, i, env).value;
      var (s', toAck', _) := DrainFrom(s1, leases, i, toAck, env);
      Shrunk(s1.q, s'.q) && AllPutUp(s, leases, env, toAck')
    decreases |leases| - i
  {
    hide Handle, AllPutUp, PutUp, Shrunk;
    var (s1, toAck) := Before(s, leases, i, env).value;
    ShrunkSelf(s1.q);
    LoopPasses(s, leases, i, env);
    if i < |leases| {
      var (id, body) := leases[i];
      var (s2, verdict) := Handle(s1, id, body, env.available, MishapAt(env, i));
      HandleQueue(s1, id, body, env.available, MishapAt(env, i));
      NackShrunk(s1.q, id);
      if verdict == ToAck {
        IsPutUp(s, leases, i, env);
        PutUpMore(s, leases, env, toAck, i, id);
      }
      if verdict == ToAck || verdict == Returned {
        if i + 1 in env.deadBefore {
          assert DrainFrom(s2, leases, i + 1, if verdict == ToAck then toAck + [id] else toAck, env).0 == s2;
        } else {
          LoopLists(s, leases, i + 1, env);
          ShrunkTwice(s1.q, s2.q,
            DrainFrom(s2, leases, i + 1, if verdict == ToAck then toAck + [id] else toAck, env).0.q);
        }
      }
    }
  }

  lemma ShrunkSelf(q: Q<Body>)
    ensures Shrunk(q, q)
  {
  }

  lemma IsPutUp(s: Sys, leases: seq<(LeaseId, Body)>, j: nat, env: Env)
    requires j < |leases| && Before(s, leases, j, env).Some?
    requires var seen := Before(s, leases, j, env).value.0;
      Handle(seen, leases[j].0, leases[j].1, env.available, MishapAt(env, j)).1 == ToAck
    ensures PutUp(s, leases, j, env, leases[j].0)
  {
  }

  /** Acknowledging adds only bodies out under the given ids. */
  lemma {:induction false} AckedFrom(q: Q<Body>, ids: seq<LeaseId>, b: Body)
    requires b in AckAll(q, ids).acked
    ensures b in q.acked || exists l :: l in ids && l in q.leased && q.leased[l] == b
  {
    if ids != [] {
      var rest, last := ids[..|ids| - 1], ids[|ids| - 1];
      assert forall l :: l in rest ==> l in ids;
      var q1 := AckAll(q, rest);
      AckSubmap(q, rest);
      if b in q1.acked {
        AckedFrom(q, rest, b);
      } else {
        assert last in ids && last in q1.leased && q1.leased[last] == b;
      }
    }
  }

  lemma {:induction false} AckSubmap(q: Q<Body>, ids: seq<LeaseId>)
    ensures forall l :: l in AckAll(q, ids).leased ==> l in q.leased && AckAll(q, ids).leased[l] == q.leased[l]
  {
    if ids != [] { AckSubmap(q, ids[..|ids| - 1]); }
  }

  /** A drain acknowledges only bodies it put up. */
  lemma DrainAcks(s: Sys, env: Env, b: Body) returns (j: nat)
    requires !s.v.breakerOpen && Numbered(s.q) && b in Drain(s, env).q.acked && b !in s.q.acked
    ensures j < |Taken(s, env)| && Taken(s, env)[j].1 == b
    ensures PutUp(Started(s, env), Taken(s, env), j, env, Taken(s, env)[j].0)
  {
    var s0, leases := Started(s, env), Taken(s, env);
    TakenOut(s, env);
    var (s', toAck, dead) := DrainFrom(s0, leases, 0, [], env);
    assert 0 in env.deadBefore ==> s' == s0 && dead;
    hide DrainFrom, PutUp, AckAll;
    if 0 !in env.deadBefore {
      assert Before(s0, leases, 0, env) == Some((s0, []));
      LoopLists(s0, leases, 0, env);
    }
    hide Before;
    var ids := if env.acksSent.Some? && env.acksSent.value < |toAck| then toAck[..env.acksSent.value] else toAck;
    assert !dead && Drain(s, env).q == AckAll(s'.q, ids);
    AckedFrom(s'.q, ids, b);
    var l :| l in ids && l in s'.q.leased && s'.q.leased[l] == b;
    assert l in toAck;
    j :| PutUp(s0, leases, j, env, l);
    PutUpIs(s0, leases, j, env, l);
    assert s0.q.leased[leases[j].0] == leases[j].1;
  }

  lemma PutUpIs(s: Sys, leases: seq<(LeaseId, Body)>, j: nat, env: Env, x: LeaseId)
    requires PutUp(s, leases, j, env, x)
    ensures j < |leases| && leases[j].0 == x
  {
  }

  lemma OnlyDrainsAck(s: Sys, e: Event)
    requires !e.DoDrain?
    ensures Step(s, e).q.acked == s.q.acked
  {
  }

  lemma PutUpForgery(s: Sys, leases: seq<(LeaseId, Body)>, j: nat, env: Env, x: LeaseId)
    requires PutUp(s, leases, j, env, x) && leases[j].1.Forged?
    ensures leases[j].1.key in env.available && leases[j].1.key in Before(s, leases, j, env).value.0.health
  {
    hide Before;
  }

  /** A forgery is acknowledged only where its key had opened an envelope earlier in the same process. */
  lemma {:induction false} AckedForgeryWasProven(es: seq<Event>, n: nat, b: Body) returns (m: nat, i: nat)
    requires n <= |es| && Run(es) && b.Forged? && b in At(es, n).q.acked
    ensures m < n && Reaches(es, m, i) && BodyAt(es, m, i) == b
    ensures b.key in es[m].env.available && OpenedBy(es, m, i, b.key)
    decreases n
  {
    assert n != 0;
    var s, e := At(es, n - 1), es[n - 1];
    assert At(es, n) == Step(s, e);
    hide At, Run, OpenedBy, Drain, PutUp, Before;
    if b in s.q.acked {
      m, i := AckedForgeryWasProven(es, n - 1, b);
    } else {
      if !e.DoDrain? { OnlyDrainsAck(s, e); }
      DrainKeepsOpen(s, e);
      RunNumbered(es, n - 1);
      m := n - 1;
      i := DrainAcks(s, e.env, b);
      PutUpForgery(Started(s, e.env), Taken(s, e.env), i, e.env, Taken(s, e.env)[i].0);
      PutUpReached(Started(s, e.env), Taken(s, e.env), i, e.env, Taken(s, e.env)[i].0);
      HealthAtLease(es, m, i, b.key);
    }
  }

  lemma DrainKeepsOpen(s: Sys, e: Event)
    ensures e.DoDrain? && s.v.breakerOpen ==> Step(s, e) == s
  {
  }

  lemma PutUpReached(s: Sys, leases: seq<(LeaseId, Body)>, j: nat, env: Env, x: LeaseId)
    requires PutUp(s, leases, j, env, x)
    ensures Before(s, leases, j, env).Some?
  {
    hide Before;
  }
}
