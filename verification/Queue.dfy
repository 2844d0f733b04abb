/** The pull queue (apps/ingest/queue_client.py): bodies move from pending to leased to acked, and
    back to pending when a lease is returned. */
module Queue {

  type LeaseId = nat

  datatype Q<Body> = Q(pending: seq<Body>, leased: map<LeaseId, Body>, acked: seq<Body>, counter: nat)

  function EmptyQueue<Body>(): Q<Body>
  {
    Q([], map[], [], 0)
  }

  function Enqueue<Body>(q: Q<Body>, body: Body): Q<Body>
  {
    q.(pending := q.pending + [body])
  }

  function LeaseOne<Body>(q: Q<Body>): Q<Body>
    requires q.pending != []
  {
    Q(q.pending[1..], q.leased[q.counter + 1 := q.pending[0]], q.acked, q.counter + 1)
  }

  /** The first `n` pending bodies are leased under fresh lease ids. */
  function LeaseFirst<Body>(q: Q<Body>, n: nat): Q<Body>
    requires n <= |q.pending|
    decreases n
  {
    if n == 0 then q else LeaseFirst(LeaseOne(q), n - 1)
  }

  lemma LeaseUnfolds<Body>(q: Q<Body>, n: nat)
    requires n <= |q.pending|
    ensures LeaseFirst(q, 0) == q
    ensures n > 0 ==> LeaseFirst(q, n) == LeaseFirst(LeaseOne(q), n - 1)
  {
  }

  function AckOne<Body>(q: Q<Body>, id: LeaseId): Q<Body>
  {
    if id in q.leased then q.(leased := q.leased - {id}, acked := q.acked + [q.leased[id]]) else q
  }

  function NackOne<Body>(q: Q<Body>, id: LeaseId): Q<Body>
  {
    if id in q.leased then q.(leased := q.leased - {id}, pending := q.pending + [q.leased[id]]) else q
  }

  function AckAll<Body>(q: Q<Body>, ids: seq<LeaseId>): Q<Body>
  {
    if ids == [] then q else AckOne(AckAll(q, ids[..|ids| - 1]), ids[|ids| - 1])
  }

  function NackAll<Body>(q: Q<Body>, ids: seq<LeaseId>): Q<Body>
  {
    if ids == [] then q else NackOne(NackAll(q, ids[..|ids| - 1]), ids[|ids| - 1])
  }

  // ---------------------------------------------------------------- conservation

  function LeasesOf<Body(==)>(leased: map<LeaseId, Body>, b: Body): set<LeaseId>
  {
    set l | l in leased && leased[l] == b
  }

  /** How many copies of `b` the queue holds in any of its three places. */
  function Copies<Body(==)>(q: Q<Body>, b: Body): nat
  {
    multiset(q.pending)[b] + |LeasesOf(q.leased, b)| + multiset(q.acked)[b]
  }

  /** Lease ids in use have been handed out. */
  ghost predicate Numbered<Body>(q: Q<Body>)
  {
    forall l :: l in q.leased ==> l <= q.counter
  }

  lemma AddCounts<Body>(q: Q<Body>, body: Body, b: Body)
    ensures Copies(Enqueue(q, body), b) == Copies(q, b) + if b == body then 1 else 0
  {
  }

  lemma LeaseOneConserves<Body>(q: Q<Body>, b: Body)
    requires q.pending != [] && Numbered(q)
    ensures Numbered(LeaseOne(q)) && Copies(LeaseOne(q), b) == Copies(q, b)
  {
    assert q.pending == [q.pending[0]] + q.pending[1..];
    assert multiset(q.pending) == multiset{q.pending[0]} + multiset(q.pending[1..]);
    var l := q.counter + 1;
    assert l !in q.leased;
    LeasesGrow(q.leased, l, q.pending[0], b);
    hide LeasesOf;
  }

  lemma LeasesGrow<Body>(leased: map<LeaseId, Body>, l: LeaseId, body: Body, b: Body)
    requires l !in leased
    ensures |LeasesOf(leased[l := body], b)| == |LeasesOf(leased, b)| + if body == b then 1 else 0
  {
    assert LeasesOf(leased[l := body], b) == LeasesOf(leased, b) + if body == b then {l} else {};
  }

  lemma {:induction false} LeaseConserves<Body>(q: Q<Body>, n: nat, b: Body)
    requires n <= |q.pending| && Numbered(q)
    ensures Numbered(LeaseFirst(q, n)) && Copies(LeaseFirst(q, n), b) == Copies(q, b)
    decreases n
  {
    if n > 0 {
      hide Copies, Numbered;
      LeaseOneConserves(q, b);
      LeaseConserves(LeaseOne(q), n - 1, b);
    }
  }

  /** The leases just handed out name the bodies they were handed out for. */
  lemma {:induction false} LeaseEntries<Body>(q: Q<Body>, n: nat)
    requires n <= |q.pending| && Numbered(q)
    ensures var q' := LeaseFirst(q, n);
      && q'.pending == q.pending[n..] && q'.acked == q.acked && q'.counter == q.counter + n
      && (forall l :: l in q'.leased <==> l in q.leased || q.counter < l <= q.counter + n)
      && (forall l :: l in q.leased ==> q'.leased[l] == q.leased[l])
      && (forall i :: 0 <= i < n ==> q'.leased[q.counter + 1 + i] == q.pending[i])
    decreases n
  {
    if n > 0 {
      var q1 := LeaseOne(q);
      LeaseEntries(q1, n - 1);
      var q' := LeaseFirst(q, n);
      forall i | 0 <= i < n ensures q'.leased[q.counter + 1 + i] == q.pending[i] {
        if i > 0 { assert q'.leased[q1.counter + 1 + (i - 1)] == q1.pending[i - 1]; }
      }
    }
  }

  lemma ReturnConserves<Body>(q: Q<Body>, id: LeaseId, b: Body)
    requires Numbered(q)
    ensures Numbered(AckOne(q, id)) && Copies(AckOne(q, id), b) == Copies(q, b)
    ensures Numbered(NackOne(q, id)) && Copies(NackOne(q, id), b) == Copies(q, b)
  {
    if id in q.leased {
      assert LeasesOf(q.leased - {id}, b) == LeasesOf(q.leased, b) - {id};
    }
  }

  /** A lease that is acknowledged, or returned, is gone; its body is then the last acknowledged, or the last
      pending one. An unknown lease changes nothing. */
  lemma ReturnMoves<Body>(q: Q<Body>, id: LeaseId)
    ensures var q' := AckOne(q, id);
      if id in q.leased then q'.acked == q.acked + [q.leased[id]] && q'.pending == q.pending else q' == q
    ensures var q' := NackOne(q, id);
      if id in q.leased then q'.pending == q.pending + [q.leased[id]] && q'.acked == q.acked else q' == q
    ensures forall q' :: q' == AckOne(q, id) || q' == NackOne(q, id) ==>
      q'.counter == q.counter && q'.leased == q.leased - {id}
  {
  }

  /** Acknowledging a list of distinct leases moves exactly the known ones, in the list's order. */
  lemma {:induction false} AckAllMoves<Body>(q: Q<Body>, ids: seq<LeaseId>)
    requires forall i, j :: 0 <= i < j < |ids| ==> ids[i] != ids[j]
    ensures var q' := AckAll(q, ids);
      && q'.pending == q.pending && q'.counter == q.counter
      && (forall l :: l in q'.leased <==> l in q.leased && l !in ids)
      && (forall l :: l in q'.leased ==> q'.leased[l] == q.leased[l])
      && q'.acked == q.acked + Known(q.leased, ids)
  {
    if ids != [] {
      var rest, id := ids[..|ids| - 1], ids[|ids| - 1];
      AckAllMoves(q, rest);
      assert forall l :: l in ids <==> l in rest || l == id;
    }
  }

  /** The bodies of the known leases of a list. */
  function Known<Body>(leased: map<LeaseId, Body>, ids: seq<LeaseId>): seq<Body>
  {
    if ids == [] then []
    else
      var id := ids[|ids| - 1];
      Known(leased, ids[..|ids| - 1]) + if id in leased then [leased[id]] else []
  }

  // ---------------------------------------------------------------- the code

  class FakeQueue<Body(==)> {
    var pending: seq<Body>
    var leased: map<LeaseId, Body>
    var acked: seq<Body>
    var counter: nat

    function View(): Q<Body>
      reads this
    {
      Q(pending, leased, acked, counter)
    }

    constructor ()
      ensures View() == EmptyQueue()
    {
      pending, leased, acked, counter := [], map[], [], 0;
    }

    method Add(body: Body)
      modifies this
      ensures View() == Enqueue(old(View()), body)
    {
      pending := pending + [body];
    }

    method Lease(max: nat) returns (out: seq<(LeaseId, Body)>)
      modifies this
      ensures var n := if |old(pending)| < max then |old(pending)| else max;
        && View() == LeaseFirst(old(View()), n)
        && |out| == n
        && (forall i :: 0 <= i < n ==> out[i] == (old(counter) + 1 + i, old(pending)[i]))
    {
      hide LeaseFirst;
      ghost var n := if |pending| < max then |pending| else max;
      out := [];
      while pending != [] && |out| < max
        invariant |out| <= n && pending == old(pending)[|out|..] && counter == old(counter) + |out|
        invariant LeaseFirst(View(), n - |out|) == LeaseFirst(old(View()), n)
        invariant forall i :: 0 <= i < |out| ==> out[i] == (old(counter) + 1 + i, old(pending)[i])
        decreases |pending|
      {
        LeaseUnfolds(View(), n - |out|);
        counter := counter + 1;
        var body := pending[0];
        pending := pending[1..];
        leased := leased[counter := body];
        out := out + [(counter, body)];
      }
      LeaseUnfolds(View(), 0);
    }

    method Ack(ids: seq<LeaseId>)
      modifies this
      ensures View() == AckAll(old(View()), ids)
    {
      for i := 0 to |ids|
        invariant View() == AckAll(old(View()), ids[..i])
      {
        assert ids[..i + 1][..i] == ids[..i];
        if ids[i] in leased {
          var body := leased[ids[i]];
          leased := leased - {ids[i]};
          acked := acked + [body];
        }
      }
      assert ids[..|ids|] == ids;
    }

    method Nack(ids: seq<LeaseId>)
      modifies this
      ensures View() == NackAll(old(View()), ids)
    {
      for i := 0 to |ids|
        invariant View() == NackAll(old(View()), ids[..i])
      {
        assert ids[..i + 1][..i] == ids[..i];
        if ids[i] in leased {
          var body := leased[ids[i]];
          leased := leased - {ids[i]};
          pending := pending + [body];
        }
      }
      assert ids[..|ids|] == ids;
    }
  }
}
