/** The 24-hour window end to end: from a stored inbound message, through the projection in the control
    database, to the provider call. Ingest, imports and the sender work on the same two databases, so
    they run here as one machine. */
module Window {
  import opened Prelude
  import opened Schema
  import opened Queue
  import Ingest
  import ImportVault
  import Send
  import WindowLag
  import Filing
  import opened Policy

  lemma ImportedNeverEligible(messages: map<MsgId, Message>, fpIndex: map<Fingerprint, MsgId>)
    requires ImportVault.IndexOk(messages, fpIndex)
    ensures forall m :: m in messages && messages[m].fp.Some? ==> !messages[m].content.eligible
  {
    forall m | m in messages && messages[m].fp.Some? ensures !messages[m].content.eligible {
      assert ImportVault.IsRowOf(messages[fpIndex[messages[m].fp.value]], messages[m].fp.value);
    }
  }

  lemma StepSupply(t: ImportVault.Tables, live: ImportVault.LiveBatches, e: ImportVault.Event)
    requires ImportVault.Inv(t, live)
    ensures t.next <= ImportVault.Step(t, e).next
    ensures exists live' :: ImportVault.Inv(ImportVault.Step(t, e), live')
  {
    hide ImportVault.Inv, ImportVault.Undo;
    match e
    case DoImport(req) =>
      ImportVault.ImportKeeps(t, live, req);
      if ImportVault.Gate(req) == None {
        hide ImportVault.Gate, ImportVault.AddMessages, ImportVault.AddParticipants, ImportVault.Extends,
          ImportVault.OnlyBatchParticipates;
        var bs, t0 := ImportVault.Buckets(req), ImportVault.OpenBatch(t, req);
        BelowOf(t, live);
        ImportVault.AddParticipantsExtends(t0, t.next, bs, |bs|);
        var (t1, ids) := ImportVault.AddParticipants(t0, t.next, bs, |bs|);
        ImportVault.AddMessagesExtends(t1, ImportVault.SettingsOf(req), t.next, ids, bs, |bs|);
      }
    case DoUndo(bat, now) =>
      ImportVault.UndoKeeps(t, live, bat, now);
      UndoSupply(t, bat, now);
  }

  lemma UndoSupply(t: ImportVault.Tables, bat: ImportVault.BatchId, now: int)
    ensures ImportVault.Undo(t, bat, now).next == t.next
  {
    hide ImportVault.Orphans;
  }

  lemma BelowOf(t: ImportVault.Tables, live: ImportVault.LiveBatches)
    requires ImportVault.Inv(t, live)
    ensures ImportVault.Below(t.messages.Keys, t.next + 1) && ImportVault.Below(t.participants.Keys, t.next + 1)
  {
    hide ImportVault.IndexOk, ImportVault.JoinOk, ImportVault.ObservationsSound, ImportVault.ObservationsComplete;
    hide ImportVault.ParticipantsOk, ImportVault.BatchesOk, ImportVault.StagedOk;
  }

  /** Import and undo are steps ingest tolerates: they change neither the evidence nor the window. */
  lemma ImportAndUndoAreMaintenance(v: Ingest.Vault, t: ImportVault.Tables, live: ImportVault.LiveBatches,
      e: ImportVault.Event)
    requires ImportVault.Inv(t, live) && t.messages == v.messages && t.next == v.next
    ensures Ingest.Maintains(v, ImportVault.Step(t, e).messages, ImportVault.Step(t, e).next)
  {
    hide ImportVault.Step, ImportVault.JoinOk, ImportVault.ObservationsSound, ImportVault.ObservationsComplete;
    hide ImportVault.ParticipantsOk, ImportVault.BatchesOk, ImportVault.StagedOk, ImportVault.IndexOk;
    ImportVault.ProviderRowsUntouched(t, live, e);
    StepSupply(t, live, e);
    var live' :| ImportVault.Inv(ImportVault.Step(t, e), live');
    ImportedNeverEligible(ImportVault.Step(t, e).messages, ImportVault.Step(t, e).fpIndex);
  }

  // ---------------------------------------------------------------- ingest keeps the imports' invariant

  /** Rows are kept, and every row added is a live one with a fresh id. */
  ghost predicate AddsLive(messages: map<MsgId, Message>, next: nat, messages': map<MsgId, Message>, next': nat)
  {
    && next <= next'
    && (forall m :: m in messages ==> m in messages' && messages'[m] == messages[m])
    && (forall m :: m in messages' && m !in messages ==> messages'[m].fp == None && m < next')
  }

  lemma AddsTwice(a: map<MsgId, Message>, i: nat, b: map<MsgId, Message>, j: nat, c: map<MsgId, Message>, k: nat)
    requires AddsLive(a, i, b, j) && AddsLive(b, j, c, k)
    ensures AddsLive(a, i, c, k)
  {
  }

  lemma AddsNothing(messages: map<MsgId, Message>, next: nat)
    ensures AddsLive(messages, next, messages, next)
  {
  }

  lemma CommitAddsLive(v: Ingest.Vault, a: Ingest.Atom, delivered: multiset<Ingest.Body>)
    requires Ingest.VaultOk(v, delivered) && Ingest.CommitAtom(v, a).Written?
    ensures var v' := Ingest.CommitAtom(v, a).vault; AddsLive(v.messages, v.next, v'.messages, v'.next)
  {
    WindowLag.VaultBasics(v, delivered);
    hide Ingest.VaultOk;
    if a.MessageAtom? {
      Ingest.MessageCommit(v, a);
      hide Ingest.CommitAtom, Ingest.AccountsOk, Ingest.IsEvidence, Ingest.IsMessageOf, Ingest.KeyOf, AddsLive;
      var v' := Ingest.CommitAtom(v, a).vault;
      var id := v'.next - 1;
      Ingest.MessageIsLive(v'.messages[id], Ingest.KeyOf(a), v'.accounts);
      AddsOne(v.messages, v.next, id, v'.messages[id]);
    } else {
      OtherCommit(v, a);
      AddsNothing(v.messages, v.next);
    }
  }

  lemma AddsOne(messages: map<MsgId, Message>, next: nat, id: MsgId, row: Message)
    requires (forall m :: m in messages ==> m < next) && next <= id && row.fp == None
    ensures AddsLive(messages, next, messages[id := row], id + 1)
  {
  }

  lemma OtherCommit(v: Ingest.Vault, a: Ingest.Atom)
    requires !a.MessageAtom? && Ingest.CommitAtom(v, a).Written?
    ensures var v' := Ingest.CommitAtom(v, a).vault; v'.messages == v.messages && v.next <= v'.next
  {
  }

  lemma {:induction false} ProcessAddsLive(v: Ingest.Vault, w: Ingest.Windows, b: Ingest.Body, i: nat,
      m: Option<Ingest.Mishap>, delivered: multiset<Ingest.Body>)
    requires Ingest.VaultOk(v, delivered) && b in delivered && b.Sealed? && b.payload.Some? && i <= |b.payload.value|
    ensures var v' := Ingest.Process(v, w, b.payload.value, i, m).0; AddsLive(v.messages, v.next, v'.messages, v'.next)
    decreases |b.payload.value| - i
  {
    hide Ingest.VaultOk, Ingest.CommitAtom, Ingest.Advance, AddsLive;
    var atoms := b.payload.value;
    AddsNothing(v.messages, v.next);
    if i < |atoms| && !Ingest.Strikes(m, i, Ingest.BeforeCommit) {
      match Ingest.CommitAtom(v, atoms[i])
      case Failed =>
      case Duplicate => ProcessAddsLive(v, w, b, i + 1, m, delivered);
      case Written(v', window) =>
        CommitAddsLive(v, atoms[i], delivered);
        if !Ingest.Strikes(m, i, Ingest.AfterCommit) && !Ingest.Strikes(m, i, Ingest.AfterWindow) {
          Ingest.CommitKeeps(v, atoms[i], delivered, b);
          var w' := if window.Some? then Ingest.Advance(w, window.value.0, window.value.1) else w;
          ProcessAddsLive(v', w', b, i + 1, m, delivered);
          var v2 := Ingest.Process(v', w', atoms, i + 1, m).0;
          AddsTwice(v.messages, v.next, v'.messages, v'.next, v2.messages, v2.next);
        }
    }
  }

  lemma HandleAddsLive(s: Ingest.Sys, id: LeaseId, body: Ingest.Body, available: set<Ingest.KeyId>,
      m: Option<Ingest.Mishap>, delivered: multiset<Ingest.Body>)
    requires Ingest.VaultOk(s.v, delivered) && body in delivered
    ensures var v' := Ingest.Handle(s, id, body, available, m).0.v;
      AddsLive(s.v.messages, s.v.next, v'.messages, v'.next)
  {
    hide Ingest.VaultOk, Ingest.Process, AddsLive, Ingest.Handle;
    AddsNothing(s.v.messages, s.v.next);
    if WindowLag.HasPayload(body, available) {
      WindowLag.HandlePayload(s, id, body, available, m);
      ProcessAddsLive(s.v, s.w, body, 0, m, delivered);
    } else {
      WindowLag.HandleOther(s, id, body, available, m);
    }
  }

  lemma {:induction false} LoopAddsLive(s: Ingest.Sys, leases: seq<(LeaseId, Ingest.Body)>, i: nat,
      toAck: seq<LeaseId>, env: Ingest.Env, delivered: multiset<Ingest.Body>)
    requires i <= |leases| && Ingest.Inv(s, delivered) && WindowLag.AllDelivered(leases, delivered)
    ensures var v' := Ingest.DrainFrom(s, leases, i, toAck, env).0.v;
      AddsLive(s.v.messages, s.v.next, v'.messages, v'.next)
    decreases |leases| - i
  {
    hide Ingest.Inv, Ingest.Handle, Ingest.VaultOk, WindowLag.AllDelivered, Ingest.MishapAt, AddsLive;
    AddsNothing(s.v.messages, s.v.next);
    if i !in env.deadBefore && i < |leases| {
      var (id, body) := leases[i];
      WindowLag.DeliveredAt(leases, delivered, i);
      WindowLag.InvParts(s, delivered);
      var m := Ingest.MishapAt(env, i);
      var (s', verdict) := Ingest.Handle(s, id, body, env.available, m);
      Ingest.HandleKeeps(s, id, body, env.available, m, delivered);
      HandleAddsLive(s, id, body, env.available, m, delivered);
      if verdict == Ingest.ToAck || verdict == Ingest.Returned {
        var list := if verdict == Ingest.ToAck then toAck + [id] else toAck;
        LoopAddsLive(s', leases, i + 1, list, env, delivered);
        var v2 := Ingest.DrainFrom(s', leases, i + 1, list, env).0.v;
        AddsTwice(s.v.messages, s.v.next, s'.v.messages, s'.v.next, v2.messages, v2.next);
      }
    }
  }

  lemma DrainAddsLive(s: Ingest.Sys, env: Ingest.Env, delivered: multiset<Ingest.Body>)
    requires Ingest.Inv(s, delivered)
    ensures var v' := Ingest.Drain(s, env).v; AddsLive(s.v.messages, s.v.next, v'.messages, v'.next)
  {
    hide Ingest.Inv, Ingest.Drain, Ingest.DrainFrom, LeaseFirst, Ingest.Leases, Ingest.QueueOk, AddsLive;
    WindowLag.DrainIs(s, env);
    AddsNothing(s.v.messages, s.v.next);
    if !s.v.breakerOpen {
      var n := Ingest.LeaseCount(s.q, env.max);
      WindowLag.InvParts(s, delivered);
      WindowLag.LeasesDelivered(s.q, n, delivered);
      WindowLag.LeasedInv(s, n, delivered);
      LoopAddsLive(s.(q := LeaseFirst(s.q, n)), Ingest.Leases(s.q, n), 0, [], env, delivered);
    }
  }

  /** Every step of ingest proper adds live rows and touches no other. */
  lemma IngestAddsLive(s: Ingest.Sys, e: Ingest.Event, delivered: multiset<Ingest.Body>)
    requires Ingest.Inv(s, delivered) && !e.Maintain?
    ensures var v' := Ingest.Step(s, e).v; AddsLive(s.v.messages, s.v.next, v'.messages, v'.next)
  {
    hide Ingest.Inv, Ingest.Drain, AddsLive, Ingest.RebuildWindow;
    AddsNothing(s.v.messages, s.v.next);
    if e.DoDrain? { DrainAddsLive(s, e.env, delivered); }
  }

  lemma IndexStays(messages: map<MsgId, Message>, next: nat, messages': map<MsgId, Message>, next': nat,
      fpIndex: map<Fingerprint, MsgId>)
    requires AddsLive(messages, next, messages', next') && ImportVault.IndexOk(messages, fpIndex)
    ensures ImportVault.IndexOk(messages', fpIndex)
  {
    hide ImportVault.IsRowOf;
  }

  lemma SoundStays(messages: map<MsgId, Message>, next: nat, messages': map<MsgId, Message>, next': nat,
      t: ImportVault.Tables, live: ImportVault.LiveBatches)
    requires AddsLive(messages, next, messages', next')
    requires ImportVault.ObservationsSound(messages, t.observations, t.participants, live)
    ensures ImportVault.ObservationsSound(messages', t.observations, t.participants, live)
  {
    hide ImportVault.Linked;
  }

  lemma IdsStay(t: ImportVault.Tables, messages': map<MsgId, Message>, next': nat)
    requires AddsLive(t.messages, t.next, messages', next') && ImportVault.IdsBelowNext(t)
    ensures ImportVault.IdsBelowNext(t.(messages := messages', next := next'))
  {
  }

  /** So ingest keeps the invariant of the imports. */
  lemma IngestKeepsImports(t: ImportVault.Tables, live: ImportVault.LiveBatches, messages': map<MsgId, Message>,
      next': nat)
    requires ImportVault.Inv(t, live) && AddsLive(t.messages, t.next, messages', next')
    ensures ImportVault.Inv(t.(messages := messages', next := next'), live)
  {
    hide ImportVault.JoinOk, ImportVault.ObservationsSound, ImportVault.ObservationsComplete, ImportVault.IdsBelowNext;
    hide ImportVault.ParticipantsOk, ImportVault.BatchesOk, ImportVault.StagedOk, ImportVault.IndexOk, AddsLive;
    IndexStays(t.messages, t.next, messages', next', t.fpIndex);
    SoundStays(t.messages, t.next, messages', next', t, live);
    IdsStay(t, messages', next');
  }

  // ---------------------------------------------------------------- one machine

  datatype Event = OnIngest(ingest: Ingest.Event) | OnImport(imports: ImportVault.Event) | OnSend(send: Send.Event)

  datatype Joint = Joint(sys: Ingest.Sys, imp: ImportVault.Tables, snd: Send.State)

  const START := Joint(Ingest.START, ImportVault.EMPTY, Send.EMPTY)

  /** What an event is to ingest: its own step, the maintenance of an import, or nothing. */
  function IngestOf(j: Joint, e: Event): Ingest.Event
  {
    match e
    case OnIngest(x) => x
    case OnImport(x) => Ingest.Maintain(ImportVault.Step(j.imp, x).messages, ImportVault.Step(j.imp, x).next)
    case OnSend(_) => Ingest.Maintain(j.sys.v.messages, j.sys.v.next)
  }

  /** What it is to the sender: its own step, or the windows it now reads. */
  function SendOf(j: Joint, e: Event): Send.Event
  {
    match e
    case OnSend(x) => x
    case _ => Send.DoWindows(Ingest.Step(j.sys, IngestOf(j, e)).w)
  }

  /** Messages and ids are shared with the imports, and windows with the sender. */
  function Step(h: Send.Hash, j: Joint, e: Event): Joint
  {
    var sys := Ingest.Step(j.sys, IngestOf(j, e));
    Joint(sys,
          if e.OnImport? then ImportVault.Step(j.imp, e.imports)
          else j.imp.(messages := sys.v.messages, next := sys.v.next),
          Send.Step(h, j.snd, SendOf(j, e)).0)
  }

  function At(h: Send.Hash, js: seq<Event>, n: nat): Joint
    requires n <= |js|
  {
    if n == 0 then START else Step(h, At(h, js, n - 1), js[n - 1])
  }

  /** Rebuilds store what they computed; maintenance comes from imports alone and windows from ingest alone. */
  ghost predicate Enabled(j: Joint, e: Event)
  {
    match e
    case OnIngest(x) => !x.Maintain? && Ingest.Enabled(j.sys, x)
    case OnImport(_) => true
    case OnSend(x) => !x.DoWindows?
  }

  ghost predicate Runs(h: Send.Hash, js: seq<Event>)
  {
    forall i :: 0 <= i < |js| ==> Enabled(At(h, js, i), js[i])
  }

  function IngestRun(h: Send.Hash, js: seq<Event>): (r: seq<Ingest.Event>)
    ensures |r| == |js| && forall i :: 0 <= i < |js| ==> r[i] == IngestOf(At(h, js, i), js[i])
  {
    seq(|js|, i requires 0 <= i < |js| => IngestOf(At(h, js, i), js[i]))
  }

  function SendRun(h: Send.Hash, js: seq<Event>): (r: seq<Send.Event>)
    ensures |r| == |js| && forall i :: 0 <= i < |js| ==> r[i] == SendOf(At(h, js, i), js[i])
  {
    seq(|js|, i requires 0 <= i < |js| => SendOf(At(h, js, i), js[i]))
  }

  lemma {:induction false} Projects(h: Send.Hash, js: seq<Event>, n: nat)
    requires n <= |js|
    ensures Ingest.At(IngestRun(h, js), n) == At(h, js, n).sys
    ensures Send.At(h, SendRun(h, js), n) == At(h, js, n).snd
  {
    hide Ingest.Step, Send.Step, IngestOf, SendOf, ImportVault.Step, IngestRun, SendRun;
    if n > 0 { Projects(h, js, n - 1); }
  }

  /** The tables the parts share agree, and the imports' invariant holds. */
  ghost predicate Coupled(j: Joint)
  {
    && j.imp.messages == j.sys.v.messages && j.imp.next == j.sys.v.next && j.snd.windows == j.sys.w
    && exists live :: ImportVault.Inv(j.imp, live)
  }

  lemma StartCoupled()
    ensures Coupled(START)
  {
    assert ImportVault.Inv(ImportVault.EMPTY, map[]);
  }

  /** In a coupled state every enabled event is one ingest tolerates. */
  lemma CoupledEnables(j: Joint, e: Event)
    requires Coupled(j) && Enabled(j, e)
    ensures Ingest.Enabled(j.sys, IngestOf(j, e))
  {
    var live :| ImportVault.Inv(j.imp, live);
    hide ImportVault.Step, ImportVault.JoinOk, ImportVault.ObservationsSound, ImportVault.ObservationsComplete;
    hide ImportVault.ParticipantsOk, ImportVault.BatchesOk, ImportVault.StagedOk, ImportVault.IndexOk, ProviderRows;
    match e
    case OnIngest(x) =>
    case OnImport(x) => ImportAndUndoAreMaintenance(j.sys.v, j.imp, live, x);
    case OnSend(x) => ImportedNeverEligible(j.imp.messages, j.imp.fpIndex);
  }

  lemma StepCoupled(h: Send.Hash, j: Joint, e: Event, delivered: multiset<Ingest.Body>)
    requires Coupled(j) && Enabled(j, e) && Ingest.Inv(j.sys, delivered)
    ensures Coupled(Step(h, j, e))
  {
    hide ImportVault.Inv, Ingest.Inv, ImportVault.Step, Send.Step, Ingest.Step, AddsLive, Ingest.Enabled;
    var live :| ImportVault.Inv(j.imp, live);
    var j' := Step(h, j, e);
    WindowsFollow(h, j, e);
    match e
    case OnIngest(x) =>
      IngestAddsLive(j.sys, x, delivered);
      IngestKeepsImports(j.imp, live, j'.sys.v.messages, j'.sys.v.next);
    case OnImport(x) =>
      StepSupply(j.imp, live, x);
      MaintainIs(j.sys, ImportVault.Step(j.imp, x).messages, ImportVault.Step(j.imp, x).next);
    case OnSend(x) =>
      MaintainIs(j.sys, j.sys.v.messages, j.sys.v.next);
      assert j'.imp == j.imp;
  }

  lemma MaintainIs(s: Ingest.Sys, messages: map<MsgId, Message>, next: nat)
    ensures Ingest.Step(s, Ingest.Maintain(messages, next)) == s.(v := s.v.(messages := messages, next := next))
  {
  }

  lemma WindowsFollow(h: Send.Hash, j: Joint, e: Event)
    requires Enabled(j, e) && j.snd.windows == j.sys.w
    ensures Step(h, j, e).snd.windows == Step(h, j, e).sys.w
  {
    hide ImportVault.Step, Ingest.Drain, Ingest.Enabled;
    if e.OnSend? {
      WindowsKept(h, j.snd, e.send);
    }
  }

  lemma WindowsKept(h: Send.Hash, s: Send.State, e: Send.Event)
    requires !e.DoWindows?
    ensures Send.Step(h, s, e).0.windows == s.windows
  {
    hide Send.Check, Trusted, Send.KnownWamid;
  }

  /** Every joint run is an ingest run, and stays coupled. */
  lemma {:induction false} JointRun(h: Send.Hash, js: seq<Event>, n: nat)
    requires n <= |js| && Runs(h, js)
    ensures Coupled(At(h, js, n))
    ensures Ingest.Inv(At(h, js, n).sys, Ingest.Delivered(IngestRun(h, js), n))
    decreases n
  {
    hide Coupled, Ingest.Inv, Step, Enabled, IngestRun;
    if n == 0 {
      StartCoupled();
      Ingest.StartOk();
    } else {
      JointRun(h, js, n - 1);
      var j, e, delivered := At(h, js, n - 1), js[n - 1], Ingest.Delivered(IngestRun(h, js), n - 1);
      StepCoupled(h, j, e, delivered);
      CoupledEnables(j, e);
      StepInv(h, j, e, delivered);
    }
  }

  lemma StepInv(h: Send.Hash, j: Joint, e: Event, delivered: multiset<Ingest.Body>)
    requires Ingest.Inv(j.sys, delivered) && Ingest.Enabled(j.sys, IngestOf(j, e))
    ensures var x := IngestOf(j, e);
      Ingest.Inv(Step(h, j, e).sys, delivered + if x.Deliver? then multiset{x.body} else multiset{})
  {
    hide Ingest.Inv, Ingest.Step, Ingest.Enabled, IngestOf, SendOf, Send.Step, ImportVault.Step;
    Ingest.StepKeeps(j.sys, IngestOf(j, e), delivered);
  }

  lemma JointIsIngestRun(h: Send.Hash, js: seq<Event>)
    requires Runs(h, js)
    ensures Ingest.Run(IngestRun(h, js))
  {
    hide Coupled, Enabled, Ingest.Enabled, Step, IngestOf, Ingest.Inv, Ingest.At, At;
    forall i | 0 <= i < |js| ensures Ingest.Enabled(Ingest.At(IngestRun(h, js), i), IngestRun(h, js)[i]) {
      JointRun(h, js, i);
      Projects(h, js, i);
      CoupledEnables(At(h, js, i), js[i]);
    }
  }

  /** Every provider call, after any history of ingest, faults, imports, undos, rebuilds and sends, goes
      back to one authorisation; if its draft is a text, the clock then read less than 24 hours after the
      timestamp of a window-eligible inbound message of its conversation, stored at that moment. */
  lemma TextSendHasEvidence(h: Send.Hash, js: seq<Event>, n: nat, i: nat) returns (k: nat)
    requires n <= |js| && Runs(h, js) && i < |At(h, js, n).snd.calls|
    ensures k < n && js[k].OnSend? && js[k].send.DoAuthorise?
    ensures var s, e := At(h, js, k).snd, js[k].send;
      && Send.Step(h, s, e).1 == Send.Started(At(h, js, n).snd.calls[i].attempt) && e.env.draftId in s.drafts
      && (s.drafts[e.env.draftId].terms.kind == "text" ==>
            TimelyEvidence(At(h, js, k).sys.v.messages, s.drafts[e.env.draftId].conv, e.reading))
  {
    hide At, Step, Send.Step, Ingest.Run, Enabled, Coupled;
    Projects(h, js, n);
    k := Send.CallFrom(h, SendRun(h, js), n, i);
    Projects(h, js, k);
    var j := At(h, js, k);
    assert SendRun(h, js)[k] == SendOf(j, js[k]);
    var s, e := j.snd, js[k].send;
    SentOut(h, SendRun(h, js), k);
    JointRun(h, js, k);
    JointIsIngestRun(h, js);
    if s.drafts[e.env.draftId].terms.kind == "text" {
      CoupledWindows(j);
      OpenWindowHasEvidence(h, js, k);
    }
  }

  ghost predicate TimelyEvidence(messages: map<MsgId, Message>, conv: ConvId, reading: int)
  {
    exists m :: m in messages && Ingest.IsEvidence(messages[m], conv) && messages[m].content.lower > 0
             && reading < messages[m].content.lower + 24 * 3600 * 1000
  }

  /** So behind every call of a text there is an event that was delivered, a message that came in less than 24 hours
      before the clock was read, filed under the draft's conversation; and every other live message filed there has
      the same number and sender. */
  lemma TextSendHasWriter(h: Send.Hash, js: seq<Event>, n: nat, i: nat)
      returns (k: nat, writes: map<MsgId, Ingest.Atom>, m: MsgId)
    requires n <= |js| && Runs(h, js) && i < |At(h, js, n).snd.calls|
    ensures k < n && js[k].OnSend? && js[k].send.DoAuthorise?
    ensures var s, e := At(h, js, k).snd, js[k].send;
      Send.Step(h, s, e).1 == Send.Started(At(h, js, n).snd.calls[i].attempt) && e.env.draftId in s.drafts
    ensures var d, messages := At(h, js, k).snd.drafts[js[k].send.env.draftId], At(h, js, k).sys.v.messages;
      d.terms.kind == "text" ==>
        && m in writes && Filing.Told(writes, messages) && messages[m].content.conv == d.conv
        && Filing.Came(writes[m], Ingest.Delivered(IngestRun(h, js), k)) && !writes[m].echo
        && js[k].send.reading < writes[m].seconds.value * 1000 + 24 * 3600 * 1000
        && (forall j :: j in writes && j != m ==>
              (messages[j].content.conv == d.conv <==>
                 writes[m].from.Some? && writes[j].from == writes[m].from && writes[j].phone == writes[m].phone))
  {
    hide At, Step, Send.Step, Ingest.Run, Runs, Ingest.At, Ingest.Delivered, IngestRun;
    k := TextSendHasEvidence(h, js, n, i);
    JointIsIngestRun(h, js);
    writes := Filing.RowsAreFiled(IngestRun(h, js), k);
    Projects(h, js, k);
    hide Filing.Came;
    m := 0;
    var d, v := At(h, js, k).snd.drafts[js[k].send.env.draftId], At(h, js, k).sys.v;
    if d.terms.kind == "text" {
      m :| m in v.messages && Ingest.IsEvidence(v.messages[m], d.conv) && v.messages[m].content.lower > 0
        && js[k].send.reading < v.messages[m].content.lower + 24 * 3600 * 1000;
      EvidenceIsLive(h, js, k, m);
    }
  }

  lemma EvidenceIsLive(h: Send.Hash, js: seq<Event>, k: nat, m: MsgId)
    requires k <= |js| && Runs(h, js) && m in At(h, js, k).sys.v.messages
    requires At(h, js, k).sys.v.messages[m].content.eligible
    ensures At(h, js, k).sys.v.messages[m].fp == None
  {
    hide At, Runs, Coupled, IngestRun, Ingest.Delivered;
    JointRun(h, js, k);
    WindowLag.InvParts(At(h, js, k).sys, Ingest.Delivered(IngestRun(h, js), k));
  }

  lemma SentOut(h: Send.Hash, es: seq<Send.Event>, k: nat)
    requires k < |es|
    ensures Send.Out(h, es, k) == Send.Step(h, Send.At(h, es, k), es[k]).1
  {
    hide Send.Step, Send.At;
  }

  lemma CoupledWindows(j: Joint)
    requires Coupled(j)
    ensures j.snd.windows == j.sys.w
  {
    hide ImportVault.Inv;
  }

  lemma OpenWindowHasEvidence(h: Send.Hash, js: seq<Event>, k: nat)
    requires k < |js| && Runs(h, js) && Ingest.Run(IngestRun(h, js)) && js[k].OnSend? && js[k].send.DoAuthorise?
    requires var s, e := At(h, js, k).snd, js[k].send;
      && s.windows == At(h, js, k).sys.w && Send.Step(h, s, e).1.Started?
      && e.env.draftId in s.drafts && s.drafts[e.env.draftId].terms.kind == "text"
    ensures var s, e := At(h, js, k).snd, js[k].send;
      TimelyEvidence(At(h, js, k).sys.v.messages, s.drafts[e.env.draftId].conv, e.reading)
  {
    hide At, Runs, Ingest.Run, Ingest.At, Send.Authorise, IngestRun;
    var s, e := At(h, js, k).snd, js[k].send;
    assert Send.Authorise(h, s, e.sender, e.env, e.reading).1.Started?;
    Send.TextNeedsOpenWindow(h, s, e.sender, e.env, e.reading);
    var conv := s.drafts[e.env.draftId].conv;
    Projects(h, js, k);
    Ingest.WindowHasEvidence(IngestRun(h, js), k, conv);
    var messages := At(h, js, k).sys.v.messages;
    var m :| m in messages && Ingest.IsEvidence(messages[m], conv) && messages[m].content.lower == s.windows[conv];
  }
}
