/** What a drain gets done when nothing goes wrong (apps/ingest/consumer.py): every readable body it leases is
    processed to its end and acknowledged, in order, and nothing else leaves the queue. */
module Draining {
  import opened Prelude
  import opened Schema
  import opened Encoding
  import opened Queue
  import opened Ingest

  /** The event can be written: it has a readable time, and the columns its row must have. */
  predicate Writable(a: Atom)
  {
    match a
    case MessageAtom(_, phone, _, _, seconds, _, _) => phone.Some? && seconds.Some?
    case StatusAtom(_, wamid, status, seconds, _) => wamid.Some? && status.Some? && seconds.Some?
    case OtherAtom(_) => true
  }

  /** A genuine envelope whose key is there, and whose events can all be written. */
  predicate Readable(b: Body, available: set<KeyId>)
  {
    && b.Sealed? && b.key in available && b.payload.Some?
    && forall i :: 0 <= i < |b.payload.value| ==> Writable(b.payload.value[i])
  }

  lemma {:induction false} ProcessFinishes(v: Vault, w: Windows, atoms: seq<Atom>, i: nat)
    requires i <= |atoms| && forall j :: i <= j < |atoms| ==> Writable(atoms[j])
    ensures Process(v, w, atoms, i, None).2 == Finished
    decreases |atoms| - i
  {
    hide CommitAtom, Advance, Writable;
    if i < |atoms| {
      WritableCommits(v, atoms[i]);
      match CommitAtom(v, atoms[i])
      case Duplicate => ProcessFinishes(v, w, atoms, i + 1);
      case Written(v', window) =>
        ProcessFinishes(v', if window.Some? then Advance(w, window.value.0, window.value.1) else w, atoms, i + 1);
      case Failed =>
    }
  }

  lemma WritableCommits(v: Vault, a: Atom)
    requires Writable(a)
    ensures !CommitAtom(v, a).Failed?
  {
    CommitEnds(v, a);
    hide CommitAtom, KeyOf;
  }

  lemma ReadableIsAcked(s: Sys, id: LeaseId, body: Body, available: set<KeyId>)
    requires Readable(body, available)
    ensures var (s', verdict) := Handle(s, id, body, available, None);
      verdict == ToAck && s'.q == s.q && s'.v == Process(s.v, s.w, body.payload.value, 0, None).0
  {
    hide Process, Handle, Writable;
    ProcessFinishes(s.v, s.w, body.payload.value, 0);
    LeaseLeadsTo(s, id, body, available, None);
  }

  function Ids(leases: seq<(LeaseId, Body)>): (r: seq<LeaseId>)
    ensures |r| == |leases| && forall i :: 0 <= i < |r| ==> r[i] == leases[i].0
  {
    seq(|leases|, i requires 0 <= i < |leases| => leases[i].0)
  }

  /** Nothing strikes while the drain runs. */
  predicate Undisturbed(env: Env)
  {
    env.mishaps == map[] && env.deadBefore == {} && env.acksSent == None
  }

  ghost predicate AllReadable(leases: seq<(LeaseId, Body)>, available: set<KeyId>)
  {
    forall j :: 0 <= j < |leases| ==> Readable(leases[j].1, available)
  }

  lemma {:induction false} LoopAcks(s: Sys, leases: seq<(LeaseId, Body)>, i: nat, toAck: seq<LeaseId>, env: Env)
    requires i <= |leases| && Undisturbed(env) && AllReadable(leases, env.available)
    ensures var (s', list, dead) := DrainFrom(s, leases, i, toAck, env);
      s'.q == s.q && list == toAck + Ids(leases[i..]) && !dead
    decreases |leases| - i
  {
    hide Handle, Readable, Ids;
    IdsFrom(leases, i);
    if i < |leases| {
      var (id, body) := leases[i];
      ReadableIsAcked(s, id, body, env.available);
      var s' := Handle(s, id, body, env.available, None).0;
      LoopAcks(s', leases, i + 1, toAck + [id], env);
      assert toAck + [id] + Ids(leases[i + 1..]) == toAck + ([id] + Ids(leases[i + 1..]));
    }
  }

  lemma IdsFrom(leases: seq<(LeaseId, Body)>, i: nat)
    requires i <= |leases|
    ensures Ids(leases[i..]) == if i == |leases| then [] else [leases[i].0] + Ids(leases[i + 1..])
  {
  }

  lemma {:induction false} KnownBodies(leased: map<LeaseId, Body>, leases: seq<(LeaseId, Body)>, bodies: seq<Body>)
    requires |bodies| == |leases| && forall i :: 0 <= i < |leases| ==>
      leases[i].0 in leased && leased[leases[i].0] == leases[i].1 == bodies[i]
    ensures Known(leased, Ids(leases)) == bodies
  {
    if leases != [] {
      var n := |leases| - 1;
      KnownBodies(leased, leases[..n], bodies[..n]);
      assert Ids(leases)[..n] == Ids(leases[..n]);
      assert bodies == bodies[..n] + [bodies[n]];
    }
  }

  /** A drain that nothing disturbs, over bodies that can all be read, acknowledges exactly the first `max` pending
      bodies, in their order: they leave the queue's front for the end of the acknowledged ones. */
  lemma QuietDrainAcks(s: Sys, env: Env)
    requires !s.v.breakerOpen && Undisturbed(env) && Numbered(s.q)
    requires var n := if |s.q.pending| < env.max then |s.q.pending| else env.max;
      forall i :: 0 <= i < n ==> Readable(s.q.pending[i], env.available)
    ensures var n, q' := if |s.q.pending| < env.max then |s.q.pending| else env.max, Drain(s, env).q;
      && q'.pending == s.q.pending[n..] && q'.acked == s.q.acked + s.q.pending[..n] && q'.leased == s.q.leased
  {
    hide Drain, LeaseFirst, AckAll, Readable, Leases, Ids, Known;
    var n := LeaseCount(s.q, env.max);
    var leases, q := Leases(s.q, n), LeaseFirst(s.q, n);
    LeasesAre(s.q, n);
    DrainIsAcks(s, env, leases);
    LeaseEntries(s.q, n);
    AckAllMoves(q, Ids(leases));
    KnownBodies(q.leased, leases, s.q.pending[..n]);
    LeasesGone(s.q, q, Drain(s, env).q, n, leases);
  }

  lemma LeasesAre(q: Q<Body>, n: nat)
    requires n <= |q.pending|
    ensures |Leases(q, n)| == n && forall i :: 0 <= i < n ==> Leases(q, n)[i] == (q.counter + 1 + i, q.pending[i])
    ensures forall i, j :: 0 <= i < j < n ==> Ids(Leases(q, n))[i] != Ids(Leases(q, n))[j]
  {
  }

  lemma DrainIsAcks(s: Sys, env: Env, leases: seq<(LeaseId, Body)>)
    requires !s.v.breakerOpen && Undisturbed(env) && leases == Leases(s.q, LeaseCount(s.q, env.max))
    requires AllReadable(leases, env.available)
    ensures Drain(s, env).q == AckAll(LeaseFirst(s.q, LeaseCount(s.q, env.max)), Ids(leases))
  {
    hide DrainFrom, LeaseFirst, AckAll, AllReadable, Ids, Leases;
    LoopAcks(s.(q := LeaseFirst(s.q, LeaseCount(s.q, env.max))), leases, 0, [], env);
    assert leases[0..] == leases && [] + Ids(leases) == Ids(leases);
  }

  lemma LeasesGone(q0: Q<Body>, q: Q<Body>, q': Q<Body>, n: nat, leases: seq<(LeaseId, Body)>)
    requires Numbered(q0) && |leases| == n && forall i :: 0 <= i < n ==> leases[i].0 == q0.counter + 1 + i
    requires forall l :: l in q.leased <==> l in q0.leased || q0.counter < l <= q0.counter + n
    requires forall l :: l in q0.leased ==> q.leased[l] == q0.leased[l]
    requires forall l :: l in q'.leased <==> l in q.leased && l !in Ids(leases)
    requires forall l :: l in q'.leased ==> q'.leased[l] == q.leased[l]
    ensures q'.leased == q0.leased
  {
    forall l ensures l in q'.leased <==> l in q0.leased {
      if l in q.leased && l !in q0.leased {
        assert Ids(leases)[l - q0.counter - 1] == l;
      }
      if l in q0.leased { assert l !in Ids(leases); }
    }
  }
}
