/** Import and undo of chat exports (importers/whatsapp_export.py).

    An import files each transcript message under a fingerprint made of its bucket and the number of
    earlier messages of that bucket in the same transcript, and records one observation per message.
    Undo removes a batch's observations and every imported message nobody observes any more. The
    result proved here is that the stored messages are, after any history, the join of the batches
    that have not been undone. */
module ImportVault {
  import opened Prelude
  import opened Schema

  type BatchId = nat
  type PartId = nat

  datatype Dst = Unambiguous | Fold | Nonexistent

  /** A parsed transcript message. `minute0` and `minute1` are the epoch of its local minute read with
      fold 0 and with fold 1. */
  datatype Rec = Rec(ordinal: int, sender: string, body: string, media: bool, dst: Dst, minute0: int, minute1: int)

  /** One call of `import_batch`. `families` is what `suggest_families` says of the text, and
      `resolutions` tells, per source ordinal, whether the later reading was chosen. */
  datatype Request = Request(
    conv: ConvId, account: AccountId, selfLabel: string, dateFormat: string, tz: string,
    families: set<string>, recs: seq<Rec>, resolutions: map<int, bool>)

  datatype Refusal = MissingSelf | MissingFormat | MissingTz | FormatMismatch | DstUnresolved

  datatype Settings = Settings(account: AccountId, selfLabel: string, tz: string)

  datatype Batch = Batch(settings: Settings, messageCount: nat, undoneAt: Option<int>)
  datatype Participant = Participant(batch: BatchId, name: string)
  datatype Source = Source(conv: ConvId, account: AccountId)

  /** The tables an import touches. `fpIndex` is the unique index on `import_fingerprint`, `staged`
      the search documents written by `stage_message`, and `next` the supply of ids, none of which
      is ever used twice. */
  datatype Tables = Tables(
    messages: map<MsgId, Message>,
    fpIndex: map<Fingerprint, MsgId>,
    observations: map<(BatchId, MsgId), PartId>,
    participants: map<PartId, Participant>,
    sources: map<BatchId, Source>,
    batches: map<BatchId, Batch>,
    staged: map<MsgId, string>,
    next: nat)

  // ---------------------------------------------------------------- the import

  function Gate(req: Request): Option<Refusal>
  {
    if req.selfLabel == "" then Some(MissingSelf)
    else if req.dateFormat == "" then Some(MissingFormat)
    else if req.tz == "" then Some(MissingTz)
    else if req.dateFormat !in req.families then Some(FormatMismatch)
    else if exists r :: r in req.recs && r.dst != Unambiguous && r.ordinal !in req.resolutions
    then Some(DstUnresolved)
    else None
  }

  function MinuteOf(req: Request, r: Rec): int
  {
    if r.dst != Unambiguous && r.ordinal in req.resolutions && req.resolutions[r.ordinal]
    then r.minute1 else r.minute0
  }

  function BucketOf(req: Request, r: Rec): Bucket
  {
    Bucket(req.conv, MinuteOf(req, r), r.sender, if r.media then "media" else "text", r.body)
  }

  function Buckets(req: Request): (bs: seq<Bucket>)
    ensures |bs| == |req.recs|
    ensures forall i :: 0 <= i < |bs| ==> bs[i] == BucketOf(req, req.recs[i])
  {
    seq(|req.recs|, i requires 0 <= i < |req.recs| => BucketOf(req, req.recs[i]))
  }

  function SettingsOf(req: Request): Settings
  {
    Settings(req.account, req.selfLabel, req.tz)
  }

  function DirectionOf(sender: string, selfLabel: string): Direction
  {
    if Strip(sender) == Strip(selfLabel) then Out else In
  }

  function StampOf(st: Settings, sender: string): Stamp
  {
    Stamp(st.account, DirectionOf(sender, st.selfLabel), Some(st.tz))
  }

  function ContentOf(b: Bucket): Content
  {
    Content(b.conv, None, b.minute, b.minute + 60_000, b.kind, Some(b.body), ManualExport, false)
  }

  /** The row an import with settings `st` writes for fingerprint `f`. */
  function Row(st: Settings, f: Fingerprint): Message
  {
    Message(StampOf(st, f.bucket.sender), ContentOf(f.bucket), None, Some(f))
  }

  function AddParticipant(t: Tables, ids: map<string, PartId>, bat: BatchId,
      name: string): (Tables, map<string, PartId>)
  {
    if name in ids then (t, ids)
    else
      (t.(participants := t.participants[t.next := Participant(bat, name)], next := t.next + 1),
       ids[name := t.next])
  }

  function AddParticipants(t: Tables, bat: BatchId, bs: seq<Bucket>, n: nat): (r: (Tables, map<string, PartId>))
    requires n <= |bs|
    ensures forall i :: 0 <= i < n ==> bs[i].sender in r.1
  {
    if n == 0 then (t, map[])
    else
      var (t', ids) := AddParticipants(t, bat, bs, n - 1);
      AddParticipant(t', ids, bat, bs[n - 1].sender)
  }

  function InsertRow(t: Tables, st: Settings, f: Fingerprint): (r: Tables)
    ensures f in r.fpIndex
  {
    if f in t.fpIndex then t
    else t.(messages := t.messages[t.next := Row(st, f)],
            fpIndex := t.fpIndex[f := t.next],
            staged := t.staged[t.next := f.bucket.body],
            next := t.next + 1)
  }

  function AddMessage(t: Tables, st: Settings, bat: BatchId, part: PartId, f: Fingerprint): Tables
  {
    var t1 := InsertRow(t, st, f);
    t1.(observations := t1.observations[(bat, t1.fpIndex[f]) := part])
  }

  /** The occurrence counter holds what has been seen of each bucket. */
  ghost predicate Counts(occ: map<Bucket, nat>, seen: seq<Bucket>)
  {
    forall b :: (if b in occ then occ[b] else 0) == multiset(seen)[b]
  }

  lemma CountsNext(occ: map<Bucket, nat>, bs: seq<Bucket>, i: nat)
    requires i < |bs| && Counts(occ, bs[..i])
    ensures var n := if bs[i] in occ then occ[bs[i]] else 0;
      n == multiset(bs[..i])[bs[i]] && Counts(occ[bs[i] := n + 1], bs[..i + 1])
  {
    assert bs[..i + 1] == bs[..i] + [bs[i]];
  }

  /** The loop over the messages has taken the first `i`, and its dictionary counts them. */
  ghost predicate Progress(t: Tables, start: Tables, req: Request, bat: BatchId, ids: map<string, PartId>,
      occ: map<Bucket, nat>, i: nat)
    requires KnownSenders(Buckets(req), ids)
  {
    i <= |req.recs| && t == AddMessages(start, SettingsOf(req), bat, ids, Buckets(req), i) &&
      Counts(occ, Buckets(req)[..i])
  }

  lemma ProgressStarts(t: Tables, req: Request, bat: BatchId, ids: map<string, PartId>)
    requires KnownSenders(Buckets(req), ids)
    ensures Progress(t, t, req, bat, ids, map[], 0)
  {
    hide Buckets;
  }

  lemma ProgressNext(t: Tables, start: Tables, req: Request, bat: BatchId, ids: map<string, PartId>,
      occ: map<Bucket, nat>, i: nat)
    requires KnownSenders(Buckets(req), ids)
    requires Progress(t, start, req, bat, ids, occ, i) && i < |req.recs|
    ensures var b := BucketOf(req, req.recs[i]);
      var idx := if b in occ then occ[b] else 0;
      b.sender in ids &&
        Progress(AddMessage(t, SettingsOf(req), bat, ids[b.sender], Fingerprint(b, idx)), start, req, bat, ids,
          occ[b := idx + 1], i + 1)
  {
    hide AddMessages, AddMessage, Counts, Buckets, SettingsOf, BucketOf;
    BucketAt(req, i);
    CountsNext(occ, Buckets(req), i);
    AddMessagesNext(start, SettingsOf(req), bat, ids, Buckets(req), i);
  }

  lemma ProgressDone(t: Tables, start: Tables, req: Request, bat: BatchId, ids: map<string, PartId>,
      occ: map<Bucket, nat>)
    requires KnownSenders(Buckets(req), ids)
    requires Progress(t, start, req, bat, ids, occ, |req.recs|)
    ensures t == AddMessages(start, SettingsOf(req), bat, ids, Buckets(req), |Buckets(req)|)
  {
    hide AddMessages, Counts;
  }

  lemma SendersKnown(req: Request, ids: map<string, PartId>)
    requires forall rec :: rec in req.recs ==> rec.sender in ids
    ensures KnownSenders(Buckets(req), ids)
  {
    assert forall i :: 0 <= i < |req.recs| ==> req.recs[i] in req.recs;
  }

  lemma BucketAt(req: Request, i: nat)
    requires i < |req.recs|
    ensures |Buckets(req)| == |req.recs| && Buckets(req)[i] == BucketOf(req, req.recs[i])
  {
  }

  predicate KnownSenders(bs: seq<Bucket>, ids: map<string, PartId>)
  {
    forall i :: 0 <= i < |bs| ==> bs[i].sender in ids
  }

  /** The first `n` messages. The occurrence index of message `n - 1` is the number of earlier
      messages of its bucket. */
  function AddMessages(t: Tables, st: Settings, bat: BatchId, ids: map<string, PartId>, bs: seq<Bucket>, n: nat): Tables
    requires n <= |bs|
    requires KnownSenders(bs, ids)
  {
    if n == 0 then t
    else
      var b := bs[n - 1];
      AddMessage(AddMessages(t, st, bat, ids, bs, n - 1), st, bat, ids[b.sender],
                 Fingerprint(b, multiset(bs[..n - 1])[b]))
  }

  lemma AddNoMessages(t: Tables, st: Settings, bat: BatchId, ids: map<string, PartId>, bs: seq<Bucket>)
    requires KnownSenders(bs, ids)
    ensures AddMessages(t, st, bat, ids, bs, 0) == t
  {
  }

  lemma AddMessagesNext(t: Tables, st: Settings, bat: BatchId, ids: map<string, PartId>, bs: seq<Bucket>, i: nat)
    requires i < |bs| && KnownSenders(bs, ids)
    ensures AddMessages(t, st, bat, ids, bs, i + 1)
      == AddMessage(AddMessages(t, st, bat, ids, bs, i), st, bat, ids[bs[i].sender],
         Fingerprint(bs[i], multiset(bs[..i])[bs[i]]))
  {
  }

  function OpenBatch(t: Tables, req: Request): Tables
  {
    t.(batches := t.batches[t.next := Batch(SettingsOf(req), |req.recs|, None)], next := t.next + 1)
  }

  function Import(t: Tables, req: Request): Tables
  {
    if Gate(req).Some? then t
    else
      var bat, bs := t.next, Buckets(req);
      var (t1, ids) := AddParticipants(OpenBatch(t, req), bat, bs, |bs|);
      var t2 := AddMessages(t1, SettingsOf(req), bat, ids, bs, |bs|);
      t2.(sources := t2.sources[bat := Source(req.conv, req.account)])
  }

  // ---------------------------------------------------------------- undo

  function Observed(observations: map<(BatchId, MsgId), PartId>, m: MsgId): bool
  {
    exists k :: k in observations && k.1 == m
  }

  function ObservationsBut(t: Tables, bat: BatchId): map<(BatchId, MsgId), PartId>
  {
    map k | k in t.observations && k.0 != bat :: t.observations[k]
  }

  /** The messages an undo deletes: seen by `bat`, by nobody else, and without provider provenance. */
  function Orphans(t: Tables, bat: BatchId): set<MsgId>
  {
    set k | k in t.observations && k.0 == bat && k.1 in t.messages && t.messages[k.1].wamid == None
         && !Observed(ObservationsBut(t, bat), k.1) :: k.1
  }

  function DropMessages(t: Tables, gone: set<MsgId>): Tables
  {
    t.(messages := t.messages - gone,
       fpIndex := map f | f in t.fpIndex && t.fpIndex[f] !in gone :: t.fpIndex[f])
  }

  function Undo(t: Tables, bat: BatchId, now: int): Tables
  {
    DropMessages(t, Orphans(t, bat)).(
      observations := ObservationsBut(t, bat),
      participants := map p | p in t.participants && t.participants[p].batch != bat :: t.participants[p],
      sources := t.sources - {bat},
      batches := if bat in t.batches then t.batches[bat := t.batches[bat].(undoneAt := Some(now))] else t.batches)
  }

  // ---------------------------------------------------------------- runs

  datatype Event = DoImport(req: Request) | DoUndo(bat: BatchId, now: int)

  const EMPTY := Tables(map[], map[], map[], map[], map[], map[], map[], 0)

  function Step(t: Tables, e: Event): Tables
  {
    match e
    case DoImport(req) => Import(t, req)
    case DoUndo(bat, now) => Undo(t, bat, now)
  }

  function Run(es: seq<Event>): Tables
  {
    if es == [] then EMPTY else Step(Run(es[..|es| - 1]), es[|es| - 1])
  }

  type LiveBatches = map<BatchId, multiset<Bucket>>

  /** The reference: the batches imported and not undone, each as the multiset of its buckets.
      It is computed from the history alone, never from the tables of messages. */
  function LiveStep(live: LiveBatches, e: Event, bat: BatchId): LiveBatches
  {
    match e
    case DoImport(req) => if Gate(req).Some? then live else live[bat := multiset(Buckets(req))]
    case DoUndo(b, _) => live - {b}
  }

  function Live(es: seq<Event>): LiveBatches
  {
    if es == [] then map[]
    else LiveStep(Live(es[..|es| - 1]), es[|es| - 1], Run(es[..|es| - 1]).next)
  }

  /** Some live batch has more than `f.occ` messages of `f.bucket`. */
  ghost predicate Supported(live: LiveBatches, f: Fingerprint)
  {
    exists b :: b in live && f.occ < live[b][f.bucket]
  }

  ghost function Pick<T>(s: set<T>): (x: T)
    requires s != {}
    ensures x in s
  {
    var x :| x in s; x
  }

  /** The largest number of messages of bucket `b` in any live batch. */
  ghost function Peak(live: LiveBatches, b: Bucket): (n: nat)
    ensures forall k :: k in live ==> live[k][b] <= n
    ensures n > 0 ==> exists k :: k in live && live[k][b] == n
  {
    if live == map[] then 0
    else
      var k := Pick(live.Keys);
      var rest := Peak(live - {k}, b);
      assert forall j :: j in live ==> j == k || j in live - {k};
      if live[k][b] >= rest then live[k][b] else rest
  }

  // ---------------------------------------------------------------- the invariant

  ghost predicate Below(ids: set<nat>, next: nat)
  {
    forall i :: i in ids ==> i < next
  }

  ghost predicate IdsBelowNext(t: Tables)
  {
    && Below(t.messages.Keys, t.next)
    && Below(t.participants.Keys, t.next)
    && Below(t.batches.Keys, t.next)
    && Below(t.sources.Keys, t.next)
  }

  /** `m` is the row of `f` up to its stamp. */
  predicate IsRowOf(m: Message, f: Fingerprint)
  {
    m.fp == Some(f) && m.content == ContentOf(f.bucket) && m.wamid == None
  }

  /** Every index entry leads to the row of its fingerprint, and every imported row is indexed. */
  ghost predicate IndexOk(messages: map<MsgId, Message>, fpIndex: map<Fingerprint, MsgId>)
  {
    && (forall f :: f in fpIndex ==> fpIndex[f] in messages && IsRowOf(messages[fpIndex[f]], f))
    && (forall m :: m in messages && messages[m].fp.Some? ==>
          messages[m].fp.value in fpIndex && fpIndex[messages[m].fp.value] == m)
  }

  /** Every imported message is staged for search under its own text. */
  ghost predicate StagedOk(fpIndex: map<Fingerprint, MsgId>, staged: map<MsgId, string>)
  {
    forall f :: f in fpIndex ==> fpIndex[f] in staged && staged[fpIndex[f]] == f.bucket.body
  }

  /** The indexed fingerprints are the supported ones. */
  ghost predicate JoinOk(fpIndex: map<Fingerprint, MsgId>, live: LiveBatches)
  {
    forall f :: f in fpIndex <==> Supported(live, f)
  }

  /** Every observation is of a message the observing batch holds, by a participant with its
      sender's name. */
  ghost predicate Linked(
      k: (BatchId, MsgId), p: PartId, f: Fingerprint, participants: map<PartId, Participant>, live: LiveBatches)
  {
    && k.0 in live && f.occ < live[k.0][f.bucket]
    && p in participants && participants[p] == Participant(k.0, f.bucket.sender)
  }

  ghost predicate ObservationsSound(
      messages: map<MsgId, Message>, observations: map<(BatchId, MsgId), PartId>,
      participants: map<PartId, Participant>, live: LiveBatches)
  {
    forall k :: k in observations ==>
      k.1 in messages && messages[k.1].fp.Some?
      && Linked(k, observations[k], messages[k.1].fp.value, participants, live)
  }

  /** A live batch observes every message its transcript holds. */
  ghost predicate ObservationsComplete(
      fpIndex: map<Fingerprint, MsgId>, observations: map<(BatchId, MsgId), PartId>, live: LiveBatches)
  {
    forall b, f: Fingerprint :: b in live && f in fpIndex && f.occ < live[b][f.bucket] ==>
      (b, fpIndex[f]) in observations
  }

  ghost predicate ParticipantsOk(participants: map<PartId, Participant>, live: LiveBatches)
  {
    && (forall p :: p in participants ==> participants[p].batch in live)
    && (forall p, q :: p in participants && q in participants && participants[p] == participants[q] ==> p == q)
  }

  ghost predicate BatchesOk(batches: map<BatchId, Batch>, live: LiveBatches)
  {
    forall b :: b in live <==> b in batches && batches[b].undoneAt == None
  }

  ghost predicate Inv(t: Tables, live: LiveBatches)
  {
    && IdsBelowNext(t)
    && IndexOk(t.messages, t.fpIndex)
    && StagedOk(t.fpIndex, t.staged)
    && JoinOk(t.fpIndex, live)
    && ObservationsSound(t.messages, t.observations, t.participants, live)
    && ObservationsComplete(t.fpIndex, t.observations, live)
    && ParticipantsOk(t.participants, live)
    && BatchesOk(t.batches, live)
  }

  /** The participant dictionary of the batch being imported is exactly its participant rows. */
  ghost predicate DictOk(participants: map<PartId, Participant>, bat: BatchId, ids: map<string, PartId>)
  {
    && (forall s :: s in ids ==> ids[s] in participants && participants[ids[s]] == Participant(bat, s))
    && (forall p :: p in participants && participants[p].batch == bat ==>
          participants[p].name in ids && ids[participants[p].name] == p)
  }

  // ---------------------------------------------------------------- an import keeps the invariant

  /** An empty batch supports nothing. */
  lemma JoinUnchanged(fpIndex: map<Fingerprint, MsgId>, live: LiveBatches, bat: BatchId)
    requires bat !in live && JoinOk(fpIndex, live)
    ensures JoinOk(fpIndex, live[bat := multiset{}])
  {
    var live' := live[bat := multiset{}];
    forall f ensures Supported(live', f) <==> Supported(live, f)
    {
      if Supported(live, f) {
        var b :| b in live && f.occ < live[b][f.bucket];
        assert b in live' && f.occ < live'[b][f.bucket];
      }
    }
  }

  lemma SoundGrows(
      messages: map<MsgId, Message>, observations: map<(BatchId, MsgId), PartId>,
      participants: map<PartId, Participant>, live: LiveBatches,
      messages': map<MsgId, Message>, participants': map<PartId, Participant>, live': LiveBatches)
    requires ObservationsSound(messages, observations, participants, live)
    requires forall m :: m in messages ==> m in messages' && messages'[m] == messages[m]
    requires forall p :: p in participants ==> p in participants' && participants'[p] == participants[p]
    requires forall b :: b in live ==> b in live'
    requires forall b, x :: b in live ==> live[b][x] <= live'[b][x]
    ensures ObservationsSound(messages', observations, participants', live')
  {
    forall k | k in observations
      ensures k.1 in messages' && messages'[k.1].fp.Some?
           && Linked(k, observations[k], messages'[k.1].fp.value, participants', live')
    {
      var m := k.1;
      assert m in messages;
      var f := messages[m].fp.value;
      assert Linked(k, observations[k], f, participants, live);
      assert live[k.0][f.bucket] <= live'[k.0][f.bucket];
    }
  }

  lemma ParticipantInsert(participants: map<PartId, Participant>, live: LiveBatches, ids: map<string, PartId>,
                          id: PartId, bat: BatchId, name: string)
    requires ParticipantsOk(participants, live) && DictOk(participants, bat, ids)
    requires bat in live && id !in participants && name !in ids
    ensures ParticipantsOk(participants[id := Participant(bat, name)], live)
    ensures DictOk(participants[id := Participant(bat, name)], bat, ids[name := id])
  {
  }

  lemma OpenBatchKeeps(t: Tables, live: LiveBatches, req: Request)
    requires Inv(t, live)
    ensures t.next !in live
    ensures Inv(OpenBatch(t, req), live[t.next := multiset{}])
    ensures DictOk(t.participants, t.next, map[])
  {
    hide IndexOk, StagedOk, JoinOk, ObservationsSound, ObservationsComplete, ParticipantsOk, BatchesOk, DictOk;
    var live' := live[t.next := multiset{}];
    BatchIsNew(t.batches, t.participants, live, t.next, Batch(SettingsOf(req), |req.recs|, None));
    JoinUnchanged(t.fpIndex, live, t.next);
    CompleteUnchanged(t.fpIndex, t.observations, live, t.next);
    SoundGrows(t.messages, t.observations, t.participants, live, t.messages, t.participants, live');
    IdsBelowMore(t, req);
  }

  lemma BatchIsNew(batches: map<BatchId, Batch>, participants: map<PartId, Participant>, live: LiveBatches,
      bat: BatchId, row: Batch)
    requires BatchesOk(batches, live) && ParticipantsOk(participants, live) && Below(batches.Keys, bat)
    requires row.undoneAt == None
    ensures bat !in live && BatchesOk(batches[bat := row], live[bat := multiset{}])
    ensures ParticipantsOk(participants, live[bat := multiset{}]) && DictOk(participants, bat, map[])
  {
  }

  lemma CompleteUnchanged(fpIndex: map<Fingerprint, MsgId>, observations: map<(BatchId, MsgId), PartId>,
      live: LiveBatches, bat: BatchId)
    requires ObservationsComplete(fpIndex, observations, live) && bat !in live
    ensures ObservationsComplete(fpIndex, observations, live[bat := multiset{}])
  {
  }

  lemma IdsBelowMore(t: Tables, req: Request)
    requires IdsBelowNext(t)
    ensures IdsBelowNext(OpenBatch(t, req))
  {
    hide SettingsOf;
  }

  lemma AddParticipantKeeps(t: Tables, live: LiveBatches, ids: map<string, PartId>, bat: BatchId, name: string)
    requires Inv(t, live) && bat in live && DictOk(t.participants, bat, ids)
    ensures var (t', ids') := AddParticipant(t, ids, bat, name);
      Inv(t', live) && DictOk(t'.participants, bat, ids')
  {
    if name !in ids {
      var (t', ids') := AddParticipant(t, ids, bat, name);
      ParticipantInsert(t.participants, live, ids, t.next, bat, name);
      SoundGrows(t.messages, t.observations, t.participants, live, t.messages, t'.participants, live);
    }
  }

  lemma {:induction false} AddParticipantsKeeps(t: Tables, live: LiveBatches, bat: BatchId, bs: seq<Bucket>, n: nat)
    requires Inv(t, live) && bat in live && DictOk(t.participants, bat, map[]) && n <= |bs|
    ensures var (t', ids) := AddParticipants(t, bat, bs, n);
      Inv(t', live) && DictOk(t'.participants, bat, ids)
  {
    if n > 0 {
      AddParticipantsKeeps(t, live, bat, bs, n - 1);
      var (t', ids) := AddParticipants(t, bat, bs, n - 1);
      AddParticipantKeeps(t', live, ids, bat, bs[n - 1].sender);
    }
  }

  /** Adding one more `b` to batch `bat` adds exactly one supported fingerprint. */
  lemma SupportGrows(live: LiveBatches, bat: BatchId, b: Bucket, f: Fingerprint)
    requires bat in live
    ensures Supported(live[bat := live[bat] + multiset{b}], f)
       <==> Supported(live, f) || f == Fingerprint(b, live[bat][b])
  {
    var live' := live[bat := live[bat] + multiset{b}];
    if Supported(live, f) {
      var k :| k in live && f.occ < live[k][f.bucket];
      assert k in live' && f.occ < live'[k][f.bucket];
    }
    if f == Fingerprint(b, live[bat][b]) {
      assert f.occ < live'[bat][f.bucket];
    }
    if Supported(live', f) && !Supported(live, f) {
      var k :| k in live' && f.occ < live'[k][f.bucket];
      assert k == bat;
    }
  }

  lemma IndexInsert(messages: map<MsgId, Message>, fpIndex: map<Fingerprint, MsgId>, id: MsgId, f: Fingerprint,
      row: Message)
    requires IndexOk(messages, fpIndex) && id !in messages && f !in fpIndex && IsRowOf(row, f)
    ensures IndexOk(messages[id := row], fpIndex[f := id])
  {
  }

  lemma StagedInsert(fpIndex: map<Fingerprint, MsgId>, staged: map<MsgId, string>, id: MsgId, f: Fingerprint)
    requires StagedOk(fpIndex, staged) && forall g :: g in fpIndex ==> fpIndex[g] != id
    ensures StagedOk(fpIndex[f := id], staged[id := f.bucket.body])
  {
  }

  lemma InsertRowKeeps(t: Tables, st: Settings, f: Fingerprint)
    requires IndexOk(t.messages, t.fpIndex) && Below(t.messages.Keys, t.next) && StagedOk(t.fpIndex, t.staged)
    ensures var t1 := InsertRow(t, st, f);
      IndexOk(t1.messages, t1.fpIndex) && Below(t1.messages.Keys, t1.next) && StagedOk(t1.fpIndex, t1.staged)
  {
    if f !in t.fpIndex {
      IndexInsert(t.messages, t.fpIndex, t.next, f, Row(st, f));
      StagedInsert(t.fpIndex, t.staged, t.next, f);
    }
  }

  lemma InsertRowIs(t: Tables, st: Settings, f: Fingerprint)
    requires IdsBelowNext(t)
    ensures var t1 := InsertRow(t, st, f);
      && t1 == t.(messages := t1.messages, fpIndex := t1.fpIndex, staged := t1.staged, next := t1.next)
      && t1.fpIndex == (if f in t.fpIndex then t.fpIndex else t.fpIndex[f := t1.fpIndex[f]])
      && (forall m :: m in t.messages ==> m in t1.messages && t1.messages[m] == t.messages[m])
  {
    hide Row;
  }

  lemma InsertRowIds(t: Tables, st: Settings, f: Fingerprint, observations: map<(BatchId, MsgId), PartId>)
    requires IdsBelowNext(t)
    ensures IdsBelowNext(InsertRow(t, st, f).(observations := observations))
  {
    hide Row;
  }

  lemma MessagesBelow(t: Tables)
    requires IdsBelowNext(t)
    ensures Below(t.messages.Keys, t.next)
  {
    hide Below;
  }

  lemma ObserveSound(
      messages: map<MsgId, Message>, observations: map<(BatchId, MsgId), PartId>,
      participants: map<PartId, Participant>,
      live: LiveBatches, k: (BatchId, MsgId), part: PartId)
    requires ObservationsSound(messages, observations, participants, live)
    requires k.1 in messages && messages[k.1].fp.Some?
    requires Linked(k, part, messages[k.1].fp.value, participants, live)
    ensures ObservationsSound(messages, observations[k := part], participants, live)
  {
  }

  /** The batch had observed every earlier message of the bucket, so one more observation completes it. */
  lemma ObserveComplete(
      fpIndex: map<Fingerprint, MsgId>, fpIndex': map<Fingerprint, MsgId>, observations: map<(BatchId, MsgId), PartId>,
      live: LiveBatches, bat: BatchId, b: Bucket, part: PartId)
    requires bat in live && JoinOk(fpIndex, live) && ObservationsComplete(fpIndex, observations, live)
    requires var f := Fingerprint(b, live[bat][b]);
      f in fpIndex' && fpIndex' == if f in fpIndex then fpIndex else fpIndex[f := fpIndex'[f]]
    ensures var f := Fingerprint(b, live[bat][b]);
      ObservationsComplete(fpIndex', observations[(bat, fpIndex'[f]) := part], live[bat := live[bat] + multiset{b}])
  {
    var f := Fingerprint(b, live[bat][b]);
    var live' := live[bat := live[bat] + multiset{b}];
    forall k, g: Fingerprint | k in live' && g in fpIndex' && g.occ < live'[k][g.bucket]
      ensures (k, fpIndex'[g]) in observations[(bat, fpIndex'[f]) := part]
    {
      if k != bat || g != f {
        assert k in live && g.occ < live[k][g.bucket];
        assert Supported(live, g);
        assert g in fpIndex && fpIndex'[g] == fpIndex[g];
        assert (k, fpIndex[g]) in observations;
      }
    }
  }

  /** The occurrence index makes every insert legal: the new fingerprint is not one the batch has
      already observed, so the primary key of the observations cannot clash. */
  lemma NotYetObserved(t: Tables, live: LiveBatches, bat: BatchId, b: Bucket)
    requires IndexOk(t.messages, t.fpIndex) && ObservationsSound(t.messages, t.observations, t.participants, live)
    requires bat in live && Below(t.messages.Keys, t.next)
    ensures var f := Fingerprint(b, live[bat][b]);
      (bat, if f in t.fpIndex then t.fpIndex[f] else t.next) !in t.observations
  {
    var f := Fingerprint(b, live[bat][b]);
    forall k | k in t.observations && k.0 == bat
      ensures k.1 in t.messages && t.messages[k.1].fp != Some(f)
    {
      assert Linked(k, t.observations[k], t.messages[k.1].fp.value, t.participants, live);
    }
  }

  lemma JoinGrows(fpIndex: map<Fingerprint, MsgId>, fpIndex': map<Fingerprint, MsgId>, live: LiveBatches,
      bat: BatchId, b: Bucket)
    requires bat in live && JoinOk(fpIndex, live)
    requires fpIndex'.Keys == fpIndex.Keys + {Fingerprint(b, live[bat][b])}
    ensures JoinOk(fpIndex', live[bat := live[bat] + multiset{b}])
  {
    forall g
      ensures Supported(live[bat := live[bat] + multiset{b}], g) <==> g in fpIndex'
    {
      SupportGrows(live, bat, b, g);
    }
  }

  lemma LiveGrows(participants: map<PartId, Participant>, batches: map<BatchId, Batch>, live: LiveBatches,
      bat: BatchId, b: Bucket)
    requires bat in live && ParticipantsOk(participants, live) && BatchesOk(batches, live)
    ensures var live' := live[bat := live[bat] + multiset{b}];
      ParticipantsOk(participants, live') && BatchesOk(batches, live')
  {
  }

  lemma IndexedRow(messages: map<MsgId, Message>, fpIndex: map<Fingerprint, MsgId>, f: Fingerprint)
    requires IndexOk(messages, fpIndex) && f in fpIndex
    ensures fpIndex[f] in messages && messages[fpIndex[f]].fp == Some(f)
  {
  }

  /** One turn of the import loop. */
  lemma AddMessageKeeps(t: Tables, live: LiveBatches, st: Settings, bat: BatchId, part: PartId, b: Bucket)
    requires Inv(t, live) && bat in live
    requires part in t.participants && t.participants[part] == Participant(bat, b.sender)
    ensures Inv(AddMessage(t, st, bat, part, Fingerprint(b, live[bat][b])), live[bat := live[bat] + multiset{b}])
  {
    hide IndexOk, StagedOk, JoinOk, ObservationsSound, ObservationsComplete, ParticipantsOk, BatchesOk, InsertRow,
      IdsBelowNext;
    var f := Fingerprint(b, live[bat][b]);
    InsertRowIs(t, st, f);
    var t1 := InsertRow(t, st, f);
    var live' := live[bat := live[bat] + multiset{b}];
    assert Below(t.messages.Keys, t.next) by { MessagesBelow(t); }
    InsertRowKeeps(t, st, f);
    JoinGrows(t.fpIndex, t1.fpIndex, live, bat, b);
    LiveGrows(t.participants, t.batches, live, bat, b);
    IndexedRow(t1.messages, t1.fpIndex, f);
    SoundGrows(t.messages, t.observations, t.participants, live, t1.messages, t1.participants, live');
    ObserveSound(t1.messages, t1.observations, t1.participants, live', (bat, t1.fpIndex[f]), part);
    ObserveComplete(t.fpIndex, t1.fpIndex, t.observations, live, bat, b, part);
    InsertRowIds(t, st, f, t1.observations[(bat, t1.fpIndex[f]) := part]);
  }

  lemma {:induction false} AddMessagesKeeps(
      t: Tables, live: LiveBatches, st: Settings, bat: BatchId, ids: map<string, PartId>, bs: seq<Bucket>, n: nat)
    requires Inv(t, live) && bat in live && live[bat] == multiset{} && DictOk(t.participants, bat, ids)
    requires n <= |bs| && KnownSenders(bs, ids)
    ensures var t' := AddMessages(t, st, bat, ids, bs, n);
      Inv(t', live[bat := multiset(bs[..n])]) && t'.participants == t.participants
  {
    hide Inv, Row, AddMessages, AddMessage;
    if n == 0 {
      AddNoMessages(t, st, bat, ids, bs);
      assert live[bat := multiset(bs[..0])] == live;
    } else {
      AddMessagesKeeps(t, live, st, bat, ids, bs, n - 1);
      AddMessagesNext(t, st, bat, ids, bs, n - 1);
      var t', live', b := AddMessages(t, st, bat, ids, bs, n - 1), live[bat := multiset(bs[..n - 1])], bs[n - 1];
      AddMessageKeeps(t', live', st, bat, ids[b.sender], b);
      AddKeepsParticipants(t', st, bat, ids[b.sender], Fingerprint(b, live'[bat][b]));
      assert bs[..n] == bs[..n - 1] + [b];
      assert live'[bat := live'[bat] + multiset{b}] == live[bat := multiset(bs[..n])];
    }
  }

  lemma AddKeepsParticipants(t: Tables, st: Settings, bat: BatchId, part: PartId, f: Fingerprint)
    ensures AddMessage(t, st, bat, part, f).participants == t.participants
  {
    hide Row;
  }

  lemma BelowInsert(ids: set<nat>, next: nat, next': nat)
    requires Below(ids, next) && next < next'
    ensures Below(ids + {next}, next')
  {
  }

  lemma ImportKeeps(t: Tables, live: LiveBatches, req: Request)
    requires Inv(t, live)
    ensures Inv(Import(t, req), LiveStep(live, DoImport(req), t.next))
  {
    hide IndexOk, StagedOk, JoinOk, ObservationsSound, ObservationsComplete, ParticipantsOk, BatchesOk, DictOk, Extends;
    hide Gate, AddParticipants, AddMessages, OnlyBatchParticipates, Below;
    if Gate(req) == None {
      var bat, bs, t0 := t.next, Buckets(req), OpenBatch(t, req);
      var live0 := live[bat := multiset{}];
      OpenBatchKeeps(t, live, req);
      AddParticipantsKeeps(t0, live0, bat, bs, |bs|);
      AddParticipantsExtends(t0, bat, bs, |bs|);
      var (t1, ids) := AddParticipants(t0, bat, bs, |bs|);
      AddMessagesKeeps(t1, live0, SettingsOf(req), bat, ids, bs, |bs|);
      AddMessagesExtends(t1, SettingsOf(req), bat, ids, bs, |bs|);
      BelowInsert(t.sources.Keys, bat, Import(t, req).next);
      assert t.sources[bat := Source(req.conv, req.account)].Keys == t.sources.Keys + {bat};
      assert bs[..|bs|] == bs;
      assert live0[bat := multiset(bs)] == live[bat := multiset(bs)];
    }
  }

  // ---------------------------------------------------------------- an undo keeps the invariant

  lemma SupportedSplit(live: LiveBatches, bat: BatchId, f: Fingerprint)
    ensures Supported(live, f) <==> Supported(live - {bat}, f) || (bat in live && f.occ < live[bat][f.bucket])
  {
    var live' := live - {bat};
    if Supported(live, f) {
      var b :| b in live && f.occ < live[b][f.bucket];
      assert b != bat ==> b in live' && f.occ < live'[b][f.bucket];
    }
    if Supported(live', f) {
      var b :| b in live' && f.occ < live'[b][f.bucket];
      assert b in live && f.occ < live[b][f.bucket];
    }
  }

  /** Once `bat` is gone, a message is orphaned exactly when no other live batch supports it. */
  lemma OrphanIffUnsupported(t: Tables, live: LiveBatches, bat: BatchId, f: Fingerprint)
    requires IndexOk(t.messages, t.fpIndex) && JoinOk(t.fpIndex, live) && f in t.fpIndex
    requires ObservationsSound(t.messages, t.observations, t.participants, live)
    requires ObservationsComplete(t.fpIndex, t.observations, live)
    ensures t.fpIndex[f] in Orphans(t, bat) <==> !Supported(live - {bat}, f)
  {
    var m := t.fpIndex[f];
    assert m in t.messages && t.messages[m].fp == Some(f) && t.messages[m].wamid == None;
    assert Supported(live, f);
    hide IndexOk, JoinOk, Supported;
    SupportedSplit(live, bat, f);
    ObservedIffSupported(t, live, bat, f);
    if !Supported(live - {bat}, f) {
      assert (bat, m) in t.observations;
    }
  }

  /** Without `bat`, a message is observed exactly when some other live batch supports it. */
  lemma ObservedIffSupported(t: Tables, live: LiveBatches, bat: BatchId, f: Fingerprint)
    requires f in t.fpIndex && t.fpIndex[f] in t.messages && t.messages[t.fpIndex[f]].fp == Some(f)
    requires ObservationsSound(t.messages, t.observations, t.participants, live)
    requires ObservationsComplete(t.fpIndex, t.observations, live)
    ensures Observed(ObservationsBut(t, bat), t.fpIndex[f]) <==> Supported(live - {bat}, f)
  {
    hide ObservationsSound, ObservationsComplete;
    if Supported(live - {bat}, f) { SupportedIsObserved(t, live, bat, f); }
    if Observed(ObservationsBut(t, bat), t.fpIndex[f]) { ObservedIsSupported(t, live, bat, f); }
  }

  lemma SupportedIsObserved(t: Tables, live: LiveBatches, bat: BatchId, f: Fingerprint)
    requires f in t.fpIndex && ObservationsComplete(t.fpIndex, t.observations, live) && Supported(live - {bat}, f)
    ensures Observed(ObservationsBut(t, bat), t.fpIndex[f])
  {
    var live' := live - {bat};
    var b :| b in live' && f.occ < live'[b][f.bucket];
    assert (b, t.fpIndex[f]) in ObservationsBut(t, bat);
  }

  lemma ObservedIsSupported(t: Tables, live: LiveBatches, bat: BatchId, f: Fingerprint)
    requires f in t.fpIndex && t.fpIndex[f] in t.messages && t.messages[t.fpIndex[f]].fp == Some(f)
    requires ObservationsSound(t.messages, t.observations, t.participants, live)
    requires Observed(ObservationsBut(t, bat), t.fpIndex[f])
    ensures Supported(live - {bat}, f)
  {
    var rest, live' := ObservationsBut(t, bat), live - {bat};
    var k :| k in rest && k.1 == t.fpIndex[f];
    assert Linked(k, t.observations[k], t.messages[k.1].fp.value, t.participants, live);
    assert k.0 in live' && f.occ < live'[k.0][f.bucket];
  }

  lemma DropKeepsIndex(t: Tables, gone: set<MsgId>)
    requires IndexOk(t.messages, t.fpIndex)
    ensures var t' := DropMessages(t, gone); IndexOk(t'.messages, t'.fpIndex)
  {
  }

  lemma UndoJoin(t: Tables, live: LiveBatches, bat: BatchId)
    requires IndexOk(t.messages, t.fpIndex) && JoinOk(t.fpIndex, live)
    requires ObservationsSound(t.messages, t.observations, t.participants, live)
    requires ObservationsComplete(t.fpIndex, t.observations, live)
    ensures JoinOk(DropMessages(t, Orphans(t, bat)).fpIndex, live - {bat})
  {
    hide IndexOk, ObservationsSound, ObservationsComplete, Orphans;
    var live' := live - {bat};
    forall f ensures f in DropMessages(t, Orphans(t, bat)).fpIndex <==> Supported(live', f)
    {
      if f in t.fpIndex { OrphanIffUnsupported(t, live, bat, f); }
      SupportedSplit(live, bat, f);
    }
  }

  lemma UndoSound(t: Tables, live: LiveBatches, bat: BatchId, now: int)
    requires ObservationsSound(t.messages, t.observations, t.participants, live)
    ensures var t' := Undo(t, bat, now); ObservationsSound(t'.messages, t'.observations, t'.participants, live - {bat})
  {
    var t', rest := Undo(t, bat, now), ObservationsBut(t, bat);
    forall k | k in rest
      ensures k.1 in t'.messages && t'.messages[k.1].fp.Some?
           && Linked(k, rest[k], t'.messages[k.1].fp.value, t'.participants, live - {bat})
    {
      assert k in t.observations && Linked(k, t.observations[k], t.messages[k.1].fp.value, t.participants, live);
      assert Observed(rest, k.1);
      assert k.1 !in Orphans(t, bat);
    }
  }

  lemma UndoComplete(t: Tables, live: LiveBatches, bat: BatchId)
    requires ObservationsComplete(t.fpIndex, t.observations, live)
    ensures ObservationsComplete(DropMessages(t, Orphans(t, bat)).fpIndex, ObservationsBut(t, bat), live - {bat})
  {
  }

  lemma UndoKeeps(t: Tables, live: LiveBatches, bat: BatchId, now: int)
    requires Inv(t, live)
    ensures Inv(Undo(t, bat, now), live - {bat})
  {
    hide IndexOk, JoinOk, ObservationsSound, ObservationsComplete, Orphans, Observed;
    DropKeepsIndex(t, Orphans(t, bat));
    UndoJoin(t, live, bat);
    UndoSound(t, live, bat, now);
    UndoComplete(t, live, bat);
  }

  // ---------------------------------------------------------------- what holds after every history

  lemma {:induction false} RunKeeps(es: seq<Event>)
    ensures Inv(Run(es), Live(es))
  {
    if es != [] {
      hide Inv, Import, Undo;
      var pre, e := es[..|es| - 1], es[|es| - 1];
      RunKeeps(pre);
      match e
      case DoImport(req) => ImportKeeps(Run(pre), Live(pre), req);
      case DoUndo(bat, now) => UndoKeeps(Run(pre), Live(pre), bat, now);
    }
  }

  lemma SupportedIffBelowPeak(live: LiveBatches, f: Fingerprint)
    ensures Supported(live, f) <==> f.occ < Peak(live, f.bucket)
  {
    if f.occ < Peak(live, f.bucket) {
      var k :| k in live && live[k][f.bucket] == Peak(live, f.bucket);
      assert f.occ < live[k][f.bucket];
    }
  }

  ghost predicate HasRow(t: Tables, f: Fingerprint)
  {
    exists m :: m in t.messages && t.messages[m].fp == Some(f)
  }

  lemma RowsOfFingerprint(t: Tables, live: LiveBatches, f: Fingerprint)
    requires IndexOk(t.messages, t.fpIndex) && JoinOk(t.fpIndex, live)
    ensures HasRow(t, f) <==> Supported(live, f)
    ensures forall m :: m in t.messages && t.messages[m].fp == Some(f) ==> IsRowOf(t.messages[m], f)
    ensures forall m, n ::
      m in t.messages && n in t.messages && t.messages[m].fp == Some(f) == t.messages[n].fp ==> m == n
  {
    hide ContentOf;
    if Supported(live, f) {
      var m := t.fpIndex[f];
      assert m in t.messages && t.messages[m].fp == Some(f);
    }
    if HasRow(t, f) {
      var m :| m in t.messages && t.messages[m].fp == Some(f);
      assert t.messages[m].fp.value in t.fpIndex;
    }
  }

  /** The stored imported messages are the join of the live batches: of each bucket exactly the
      occurrence indices below the largest count in any live batch, one row each, and that row's
      content is the bucket's. */
  lemma ImportIsJoin(es: seq<Event>, f: Fingerprint)
    ensures HasRow(Run(es), f) <==> f.occ < Peak(Live(es), f.bucket)
    ensures var t := Run(es);
      && (forall m :: m in t.messages && t.messages[m].fp == Some(f) ==> IsRowOf(t.messages[m], f))
      && (forall m, n ::
         m in t.messages && n in t.messages && t.messages[m].fp == Some(f) == t.messages[n].fp ==> m == n)
  {
    hide Run, Live, IndexOk, JoinOk, ObservationsSound, ObservationsComplete, ParticipantsOk, BatchesOk, StagedOk;
    hide Supported, Peak, HasRow, IsRowOf;
    RunKeeps(es);
    RowsOfFingerprint(Run(es), Live(es), f);
    SupportedIffBelowPeak(Live(es), f);
  }

  /** What a message row says, without its id and its stamp. */
  ghost function Stored(t: Tables): set<(Content, Option<string>, Option<Fingerprint>)>
  {
    set m | m in t.messages && t.messages[m].fp.Some? ::
      (t.messages[m].content, t.messages[m].wamid, t.messages[m].fp)
  }

  lemma StoredIsSupported(t: Tables, live: LiveBatches, f: Fingerprint)
    requires Inv(t, live)
    ensures (ContentOf(f.bucket), None, Some(f)) in Stored(t) <==> Supported(live, f)
    ensures forall x :: x in Stored(t) ==> x.2.Some? && x == (ContentOf(x.2.value.bucket), None, x.2)
  {
    hide ObservationsSound, ObservationsComplete, ParticipantsOk, BatchesOk, ContentOf;
    if Supported(live, f) {
      var m := t.fpIndex[f];
      assert m in t.messages && IsRowOf(t.messages[m], f);
    }
  }

  ghost function KeyOf<K, V>(m: map<K, V>, v: V): (k: K)
    requires v in m.Values
    ensures k in m && m[k] == v
  {
    var k :| k in m && m[k] == v; k
  }

  lemma SupportFromValues(live1: LiveBatches, live2: LiveBatches, f: Fingerprint)
    requires live1.Values == live2.Values && Supported(live1, f)
    ensures Supported(live2, f)
  {
    var b :| b in live1 && f.occ < live1[b][f.bucket];
    var c := KeyOf(live2, live1[b]);
    assert f.occ < live2[c][f.bucket];
  }

  /** Any two histories with the same live transcripts store the same messages: neither order, nor
      repetition, nor batches that came and went leave a trace. */
  lemma OrderIrrelevant(es1: seq<Event>, es2: seq<Event>)
    requires Live(es1).Values == Live(es2).Values
    ensures Stored(Run(es1)) == Stored(Run(es2))
  {
    hide Run, Live, Inv, Stored, Supported, ContentOf;
    RunKeeps(es1);
    RunKeeps(es2);
    var dummy := Fingerprint(Bucket(0, 0, "", "", ""), 0);
    StoredIsSupported(Run(es1), Live(es1), dummy);
    StoredIsSupported(Run(es2), Live(es2), dummy);
    forall x ensures x in Stored(Run(es1)) <==> x in Stored(Run(es2)) {
      if x in Stored(Run(es1)) || x in Stored(Run(es2)) {
        var f := x.2.value;
        StoredIsSupported(Run(es1), Live(es1), f);
        StoredIsSupported(Run(es2), Live(es2), f);
        if Supported(Live(es1), f) {
          SupportFromValues(Live(es1), Live(es2), f);
        } else if Supported(Live(es2), f) {
          SupportFromValues(Live(es2), Live(es1), f);
        }
      }
    }
  }

  /** So undoing a batch, at any later time, leaves the messages of any vault that never had it. */
  lemma UndoLeavesNoTrace(es: seq<Event>, bat: BatchId, now: int, without: seq<Event>)
    requires Live(without).Values == (Live(es) - {bat}).Values
    ensures Stored(Run(es + [DoUndo(bat, now)])) == Stored(Run(without))
  {
    var undone := es + [DoUndo(bat, now)];
    assert undone[..|undone| - 1] == es;
    hide Stored, Run;
    OrderIrrelevant(undone, without);
  }

  // ---------------------------------------------------------------- what one import leaves alone

  /** Old rows are kept and every new one is the row these settings give its fingerprint. */
  ghost predicate RowsAdded(messages: map<MsgId, Message>, messages': map<MsgId, Message>, st: Settings)
  {
    && (forall m :: m in messages ==> m in messages' && messages'[m] == messages[m])
    && (forall m :: m in messages' && m !in messages ==>
          messages'[m].fp.Some? && messages'[m] == Row(st, messages'[m].fp.value))
  }

  ghost predicate IndexAdded(fpIndex: map<Fingerprint, MsgId>, fpIndex': map<Fingerprint, MsgId>)
  {
    forall f :: f in fpIndex ==> f in fpIndex' && fpIndex'[f] == fpIndex[f]
  }

  ghost predicate OnlyBatchObserves(
      observations: map<(BatchId, MsgId), PartId>, observations': map<(BatchId, MsgId), PartId>, bat: BatchId)
  {
    forall k: (BatchId, MsgId) :: k.0 != bat ==>
      (k in observations <==> k in observations') && (k in observations ==> observations'[k] == observations[k])
  }

  ghost predicate OnlyBatchParticipates(
      participants: map<PartId, Participant>, participants': map<PartId, Participant>, bat: BatchId)
  {
    && (forall p :: p in participants ==> p in participants' && participants'[p] == participants[p])
    && (forall p :: p in participants' && p !in participants ==> participants'[p].batch == bat)
  }

  ghost predicate Extends(t: Tables, t': Tables, st: Settings, bat: BatchId)
  {
    && RowsAdded(t.messages, t'.messages, st)
    && IndexAdded(t.fpIndex, t'.fpIndex)
    && OnlyBatchObserves(t.observations, t'.observations, bat)
    && OnlyBatchParticipates(t.participants, t'.participants, bat)
  }

  lemma NothingAdded(t: Tables, st: Settings, bat: BatchId)
    ensures Extends(t, t, st, bat)
  {
  }

  lemma ObserveOnly(observations: map<(BatchId, MsgId), PartId>, observations': map<(BatchId, MsgId), PartId>,
                    bat: BatchId, m: MsgId, part: PartId)
    requires OnlyBatchObserves(observations, observations', bat)
    ensures OnlyBatchObserves(observations, observations'[(bat, m) := part], bat)
  {
  }

  lemma InsertRowAdds(t: Tables, t1: Tables, st: Settings, f: Fingerprint)
    requires RowsAdded(t.messages, t1.messages, st) && IndexAdded(t.fpIndex, t1.fpIndex)
    requires Below(t1.messages.Keys, t1.next)
    ensures var t2 := InsertRow(t1, st, f);
      RowsAdded(t.messages, t2.messages, st) && IndexAdded(t.fpIndex, t2.fpIndex) && Below(t2.messages.Keys, t2.next)
  {
    hide StampOf, ContentOf;
  }

  lemma {:induction false} AddMessagesExtends(
      t: Tables, st: Settings, bat: BatchId, ids: map<string, PartId>, bs: seq<Bucket>, n: nat)
    requires n <= |bs| && KnownSenders(bs, ids) && Below(t.messages.Keys, t.next)
    ensures var t' := AddMessages(t, st, bat, ids, bs, n);
      && Extends(t, t', st, bat) && Below(t'.messages.Keys, t'.next)
      && t'.sources == t.sources && t'.participants == t.participants && t'.batches == t.batches && t.next <= t'.next
  {
    hide RowsAdded, IndexAdded, Below, Row, OnlyBatchObserves, OnlyBatchParticipates;
    if n == 0 {
      NothingAdded(t, st, bat);
    } else {
      AddMessagesExtends(t, st, bat, ids, bs, n - 1);
      var b := bs[n - 1];
      var f := Fingerprint(b, multiset(bs[..n - 1])[b]);
      var t1 := AddMessages(t, st, bat, ids, bs, n - 1);
      InsertRowAdds(t, t1, st, f);
      ObserveOnly(t.observations, t1.observations, bat, InsertRow(t1, st, f).fpIndex[f], ids[b.sender]);
    }
  }

  lemma NoneParticipates(participants: map<PartId, Participant>, bat: BatchId)
    ensures OnlyBatchParticipates(participants, participants, bat)
  {
  }

  lemma OneParticipates(participants: map<PartId, Participant>, participants1: map<PartId, Participant>,
                        next: nat, bat: BatchId, name: string)
    requires OnlyBatchParticipates(participants, participants1, bat) && Below(participants1.Keys, next)
    ensures var participants2 := participants1[next := Participant(bat, name)];
      OnlyBatchParticipates(participants, participants2, bat) && Below(participants2.Keys, next + 1)
  {
  }

  lemma {:induction false} AddParticipantsExtends(t: Tables, bat: BatchId, bs: seq<Bucket>, n: nat)
    requires n <= |bs| && Below(t.participants.Keys, t.next)
    ensures var t' := AddParticipants(t, bat, bs, n).0;
      && OnlyBatchParticipates(t.participants, t'.participants, bat) && Below(t'.participants.Keys, t'.next)
      && t.next <= t'.next && t' == t.(participants := t'.participants, next := t'.next)
  {
    hide OnlyBatchParticipates, Below;
    if n == 0 {
      NoneParticipates(t.participants, bat);
    } else {
      AddParticipantsExtends(t, bat, bs, n - 1);
      var t1 := AddParticipants(t, bat, bs, n - 1).0;
      OneParticipates(t.participants, t1.participants, t1.next, bat, bs[n - 1].sender);
    }
  }

  lemma ImportExtends(t: Tables, req: Request)
    requires IdsBelowNext(t) && Gate(req) == None
    ensures var t' := Import(t, req);
      && Extends(t, t', SettingsOf(req), t.next) && t.next < t'.next
      && t'.sources == t.sources[t.next := Source(req.conv, req.account)]
      && t'.batches == t.batches[t.next := Batch(SettingsOf(req), |req.recs|, None)]
  {
    hide RowsAdded, IndexAdded, OnlyBatchObserves, OnlyBatchParticipates, AddMessages, AddParticipants, Gate;
    var bs, t0 := Buckets(req), OpenBatch(t, req);
    AddParticipantsExtends(t0, t.next, bs, |bs|);
    var (t1, ids) := AddParticipants(t0, t.next, bs, |bs|);
    AddMessagesExtends(t1, SettingsOf(req), t.next, ids, bs, |bs|);
  }

  /** Neither import nor undo touches a message that came from the provider, and no row they add can
      open a messaging window. */
  lemma ProviderRowsUntouched(t: Tables, live: LiveBatches, e: Event)
    requires Inv(t, live)
    ensures ProviderRows(Step(t, e).messages) == ProviderRows(t.messages)
    ensures forall m :: m in Step(t, e).messages && m !in t.messages ==> !Step(t, e).messages[m].content.eligible
  {
    hide IndexOk, JoinOk, ObservationsComplete, ParticipantsOk, BatchesOk, Import, Gate, Row, Orphans;
    match e
    case DoImport(req) =>
      if Gate(req) == None {
        hide ObservationsSound;
        ImportExtends(t, req);
        NewRowsNeverEligible(t.messages, Import(t, req).messages, SettingsOf(req));
      } else {
        assert Import(t, req) == t by { GatedImport(t, req); }
      }
    case DoUndo(bat, now) =>
      OrphansImported(t, live, bat);
      var kept := ProviderRows(Step(t, e).messages);
      assert forall m :: m in kept <==> m in ProviderRows(t.messages);
  }

  lemma GatedImport(t: Tables, req: Request)
    requires Gate(req) != None
    ensures Import(t, req) == t
  {
  }

  lemma NewRowsNeverEligible(messages: map<MsgId, Message>, messages': map<MsgId, Message>, st: Settings)
    requires RowsAdded(messages, messages', st)
    ensures ProviderRows(messages') == ProviderRows(messages)
    ensures forall m :: m in messages' && m !in messages ==> !messages'[m].content.eligible
  {
    hide StampOf;
    var old', new' := ProviderRows(messages), ProviderRows(messages');
    SameMap(new', old');
  }

  lemma OrphansImported(t: Tables, live: LiveBatches, bat: BatchId)
    requires ObservationsSound(t.messages, t.observations, t.participants, live)
    ensures forall m :: m in Orphans(t, bat) ==> m in t.messages && t.messages[m].fp.Some?
  {
  }

  // ---------------------------------------------------------------- re-import and undo as inverse

  lemma {:induction false} AddMessagesNoNew(
      t: Tables, st: Settings, bat: BatchId, ids: map<string, PartId>, bs: seq<Bucket>, n: nat)
    requires n <= |bs| && KnownSenders(bs, ids)
    requires forall f: Fingerprint :: f.occ < multiset(bs)[f.bucket] ==> f in t.fpIndex
    ensures var t' := AddMessages(t, st, bat, ids, bs, n); t'.messages == t.messages && t'.fpIndex == t.fpIndex
  {
    hide Row, AddMessages, AddMessage;
    if n == 0 {
      AddNoMessages(t, st, bat, ids, bs);
    } else {
      AddMessagesNoNew(t, st, bat, ids, bs, n - 1);
      AddMessagesNext(t, st, bat, ids, bs, n - 1);
      var b := bs[n - 1];
      EarlierFewer(bs, n - 1);
      var f := Fingerprint(b, multiset(bs[..n - 1])[b]);
      assert f in t.fpIndex;
      AddKnown(AddMessages(t, st, bat, ids, bs, n - 1), st, bat, ids[b.sender], f);
    }
  }

  lemma EarlierFewer(bs: seq<Bucket>, i: nat)
    requires i < |bs|
    ensures multiset(bs[..i])[bs[i]] < multiset(bs)[bs[i]]
  {
    assert bs == bs[..i] + [bs[i]] + bs[i + 1..];
  }

  lemma AddKnown(t: Tables, st: Settings, bat: BatchId, part: PartId, f: Fingerprint)
    requires f in t.fpIndex
    ensures AddMessage(t, st, bat, part, f).messages == t.messages
    ensures AddMessage(t, st, bat, part, f).fpIndex == t.fpIndex
  {
    hide Row;
  }

  /** Importing a transcript that some live batch already covers leaves the messages as they are. */
  lemma ReimportAddsNothing(t: Tables, live: LiveBatches, req: Request, covered: BatchId)
    requires Inv(t, live) && Gate(req) == None
    requires covered in live && multiset(Buckets(req)) <= live[covered]
    ensures Import(t, req).messages == t.messages
    ensures Import(t, req).fpIndex == t.fpIndex
  {
    hide IndexOk, ObservationsSound, ObservationsComplete, ParticipantsOk, BatchesOk, Gate, AddParticipants,
      AddMessages;
    var bs, t0 := Buckets(req), OpenBatch(t, req);
    AddParticipantsExtends(t0, t.next, bs, |bs|);
    var (t1, ids) := AddParticipants(t0, t.next, bs, |bs|);
    forall f: Fingerprint | f.occ < multiset(bs)[f.bucket] ensures f in t1.fpIndex {
      assert f.occ < live[covered][f.bucket];
      assert Supported(live, f);
    }
    AddMessagesNoNew(t1, SettingsOf(req), t.next, ids, bs, |bs|);
  }

  /** Undoing a batch straight after importing it restores every table but the batch log, the staged
      search documents and the id supply. */
  lemma UndoInvertsImport(t: Tables, live: LiveBatches, req: Request, now: int)
    requires Inv(t, live) && Gate(req) == None
    ensures var u := Undo(Import(t, req), t.next, now);
      && u.messages == t.messages && u.fpIndex == t.fpIndex && u.observations == t.observations
      && u.participants == t.participants && u.sources == t.sources
  {
    hide Import, Gate, Orphans, IndexOk, StagedOk, JoinOk, ObservationsSound, ObservationsComplete, ParticipantsOk;
    hide RowsAdded, IndexAdded, OnlyBatchObserves, OnlyBatchParticipates;
    ImportKeeps(t, live, req);
    ImportExtends(t, req);
    var t', bat := Import(t, req), t.next;
    var live' := live[bat := multiset(Buckets(req))];
    assert bat !in live by { assert bat !in t.batches; }
    assert live' - {bat} == live;
    UndoneRows(t, t', live, live', bat, SettingsOf(req));
    UndoneLinks(t, t', live, bat);
  }

  lemma UndoneLinks(t: Tables, t': Tables, live: LiveBatches, bat: BatchId)
    requires bat !in live
    requires ObservationsSound(t.messages, t.observations, t.participants, live) && ParticipantsOk(t.participants, live)
    requires OnlyBatchObserves(t.observations, t'.observations, bat)
    requires OnlyBatchParticipates(t.participants, t'.participants, bat)
    ensures ObservationsBut(t', bat) == t.observations
    ensures (map p | p in t'.participants && t'.participants[p].batch != bat :: t'.participants[p]) == t.participants
  {
    assert forall k :: k in t.observations ==> k.0 != bat;
    assert forall p :: p in t.participants ==> t.participants[p].batch != bat;
    hide ObservationsSound, ParticipantsOk, OnlyBatchObserves, OnlyBatchParticipates;
    UndoneObservations(t, t', bat);
    UndoneParticipants(t.participants, t'.participants, bat);
  }

  lemma UndoneObservations(t: Tables, t': Tables, bat: BatchId)
    requires OnlyBatchObserves(t.observations, t'.observations, bat) && forall k :: k in t.observations ==> k.0 != bat
    ensures ObservationsBut(t', bat) == t.observations
  {
    assert ObservationsBut(t', bat).Keys == t.observations.Keys;
  }

  lemma UndoneParticipants(participants: map<PartId, Participant>, participants': map<PartId, Participant>,
      bat: BatchId)
    requires OnlyBatchParticipates(participants, participants', bat)
    requires forall p :: p in participants ==> participants[p].batch != bat
    ensures (map p | p in participants' && participants'[p].batch != bat :: participants'[p]) == participants
  {
    SameMap(map p | p in participants' && participants'[p].batch != bat :: participants'[p], participants);
  }

  lemma UndoneRows(t: Tables, t': Tables, live: LiveBatches, live': LiveBatches, bat: BatchId, st: Settings)
    requires live' - {bat} == live
    requires IndexOk(t.messages, t.fpIndex) && JoinOk(t.fpIndex, live)
    requires IndexOk(t'.messages, t'.fpIndex) && JoinOk(t'.fpIndex, live')
    requires ObservationsSound(t'.messages, t'.observations, t'.participants, live')
    requires ObservationsComplete(t'.fpIndex, t'.observations, live')
    requires RowsAdded(t.messages, t'.messages, st) && IndexAdded(t.fpIndex, t'.fpIndex)
    ensures var u := DropMessages(t', Orphans(t', bat)); u.messages == t.messages && u.fpIndex == t.fpIndex
  {
    hide Orphans, Row, ObservationsSound, ObservationsComplete, IndexOk, RowsAdded, IndexAdded, Supported;
    var gone := Orphans(t', bat);
    forall f | f in t'.fpIndex ensures t'.fpIndex[f] in gone <==> f !in t.fpIndex {
      OrphanIffUnsupported(t', live', bat, f);
    }
    OrphansImported(t', live', bat);
    hide JoinOk;
    SurvivorsAreOld(t.messages, t'.messages, t.fpIndex, t'.fpIndex, gone, st);
  }

  lemma SurvivorsAreOld(
      messages: map<MsgId, Message>, messages': map<MsgId, Message>,
      fpIndex: map<Fingerprint, MsgId>, fpIndex': map<Fingerprint, MsgId>, gone: set<MsgId>, st: Settings)
    requires IndexOk(messages, fpIndex) && IndexOk(messages', fpIndex')
    requires RowsAdded(messages, messages', st) && IndexAdded(fpIndex, fpIndex')
    requires forall f :: f in fpIndex' ==> (fpIndex'[f] in gone <==> f !in fpIndex)
    requires forall m :: m in gone ==> m in messages' && messages'[m].fp.Some?
    ensures messages' - gone == messages
    ensures (map f | f in fpIndex' && fpIndex'[f] !in gone :: fpIndex'[f]) == fpIndex
  {
    hide Row, IsRowOf;
    forall m ensures m in messages' && m !in gone <==> m in messages {
      if m in messages' && messages'[m].fp.Some? {
        var f := messages'[m].fp.value;
        assert f in fpIndex' && fpIndex'[f] == m;
      }
    }
    assert forall m :: m in messages' - gone ==> (messages' - gone)[m] == messages[m];
    var kept := map f | f in fpIndex' && fpIndex'[f] !in gone :: fpIndex'[f];
    assert kept.Keys == fpIndex.Keys;
  }

  // ---------------------------------------------------------------- where undo is not an inverse

  /** A vault holding a single batch. */
  lemma ImportAlone(req: Request)
    requires Gate(req) == None
    ensures Inv(Import(EMPTY, req), map[0 := multiset(Buckets(req))])
    ensures RowsAdded(map[], Import(EMPTY, req).messages, SettingsOf(req))
  {
    hide Import, Gate;
    ImportKeeps(EMPTY, map[], req);
    ImportExtends(EMPTY, req);
    assert LiveStep(map[], DoImport(req), 0) == map[0 := multiset(Buckets(req))];
  }

  /** The second import of the same transcript stores nothing new, and undoing the first removes
      nothing, so the rows are still the ones the undone batch wrote. */
  lemma FirstWriterStays(req1: Request, req2: Request, now: int)
    requires Gate(req1) == None && Gate(req2) == None && Buckets(req1) == Buckets(req2)
    ensures Undo(Import(Import(EMPTY, req1), req2), 0, now).messages == Import(EMPTY, req1).messages
  {
    hide Import, Gate, IndexOk, StagedOk, ObservationsSound, ObservationsComplete, ParticipantsOk, Orphans, Buckets;
    hide RowsAdded;
    var bs := multiset(Buckets(req1));
    var t1 := Import(EMPTY, req1);
    ImportAlone(req1);
    var live1: LiveBatches := map[0 := bs];
    ReimportAddsNothing(t1, live1, req2, 0);
    ImportKeeps(t1, live1, req2);
    var t2, live2 := Import(t1, req2), live1[t1.next := bs];
    assert 0 in t1.batches;
    assert t1.next != 0;
    NothingOrphaned(t2, live2, 0, t1.next);
  }

  lemma NothingOrphaned(t: Tables, live: LiveBatches, bat: BatchId, other: BatchId)
    requires Inv(t, live) && bat in live && other in live && other != bat && live[bat] <= live[other]
    ensures Orphans(t, bat) == {}
  {
    hide StagedOk, ParticipantsOk, BatchesOk;
    forall k | k in t.observations && k.0 == bat ensures k.1 !in Orphans(t, bat) {
      assert Linked(k, t.observations[k], t.messages[k.1].fp.value, t.participants, live);
      var f := t.messages[k.1].fp.value;
      StillSupported(live, bat, other, f);
      OrphanIffUnsupported(t, live, bat, f);
    }
  }

  lemma StillSupported(live: LiveBatches, bat: BatchId, other: BatchId, f: Fingerprint)
    requires bat in live && other in live && other != bat && live[bat] <= live[other] && f.occ < live[bat][f.bucket]
    ensures Supported(live - {bat}, f)
  {
    assert f.occ < (live - {bat})[other][f.bucket];
  }

  /** Undo is blind to the stamp. Import a transcript twice with different settings and undo the
      first import: the vault has the rows of one that only ever saw the second import exactly when
      the two settings give every sender the same account, direction and time zone. */
  lemma TwoImportsIff(req1: Request, req2: Request, now: int)
    requires Gate(req1) == None && Gate(req2) == None && Buckets(req1) == Buckets(req2)
    ensures
      var both, only := Undo(Import(Import(EMPTY, req1), req2), 0, now), Import(EMPTY, req2);
      (forall m, n :: m in both.messages && n in only.messages && both.messages[m].fp == only.messages[n].fp ==>
         both.messages[m] == only.messages[n])
      <==>
      (forall b :: b in Buckets(req2) ==>
         StampOf(SettingsOf(req1), b.sender) == StampOf(SettingsOf(req2), b.sender))
  {
    hide Import, Gate, StagedOk, ObservationsSound, ObservationsComplete, ParticipantsOk, BatchesOk, Undo, StampOf,
      Buckets;
    FirstWriterStays(req1, req2, now);
    ImportAlone(req1);
    ImportAlone(req2);
    var bs := Buckets(req2);
    var one, two := Import(EMPTY, req1), Import(EMPTY, req2);
    var live: LiveBatches := map[0 := multiset(bs)];
    forall b | b in bs
      ensures exists m, n ::
        && m in one.messages && one.messages[m] == Row(SettingsOf(req1), Fingerprint(b, 0))
        && n in two.messages && two.messages[n] == Row(SettingsOf(req2), Fingerprint(b, 0))
    {
      var f := Fingerprint(b, 0);
      assert f.occ < live[0][f.bucket];
      assert Supported(live, f);
      var m, n := one.fpIndex[f], two.fpIndex[f];
      assert m in one.messages && one.messages[m].fp == Some(f);
      assert n in two.messages && two.messages[n].fp == Some(f);
    }
    forall m | m in one.messages ensures one.messages[m].fp.Some? && one.messages[m].fp.value.bucket in bs {
      var f := one.messages[m].fp.value;
      assert f in one.fpIndex && Supported(live, f);
    }
  }

  // ---------------------------------------------------------------- the code

  datatype Report = Report(batch: BatchId, added: nat, observations: nat, participants: nat)

  class ImportStore {
    var messages: map<MsgId, Message>
    var fpIndex: map<Fingerprint, MsgId>
    var observations: map<(BatchId, MsgId), PartId>
    var participants: map<PartId, Participant>
    var sources: map<BatchId, Source>
    var batches: map<BatchId, Batch>
    var staged: map<MsgId, string>
    var next: nat

    function View(): Tables
      reads this
    {
      Tables(messages, fpIndex, observations, participants, sources, batches, staged, next)
    }

    constructor ()
      ensures View() == EMPTY
    {
      messages, fpIndex, observations, participants := map[], map[], map[], map[];
      sources, batches, staged, next := map[], map[], map[], 0;
    }

    /** The refusals of `import_batch`, all before any write. */
    static method CheckGate(req: Request) returns (r: Option<Refusal>)
      ensures r == Gate(req)
    {
      if req.selfLabel == "" { return Some(MissingSelf); }
      if req.dateFormat == "" { return Some(MissingFormat); }
      if req.tz == "" { return Some(MissingTz); }
      if req.dateFormat !in req.families { return Some(FormatMismatch); }
      for i := 0 to |req.recs|
        invariant forall r :: r in req.recs[..i] ==> r.dst == Unambiguous || r.ordinal in req.resolutions
      {
        if req.recs[i].dst != Unambiguous && req.recs[i].ordinal !in req.resolutions {
          assert req.recs[i] in req.recs;
          return Some(DstUnresolved);
        }
      }
      return None;
    }

    /** `import_batch`: the gates, then one transaction. */
    method ImportBatch(req: Request) returns (r: Result<Report, Refusal>)
      requires Below(messages.Keys, next)
      modifies this
      ensures View() == Import(old(View()), req)
      ensures Gate(req).Some? ==> r == Err(Gate(req).value)
      ensures Gate(req) == None ==>
        && r.Ok? && r.value.batch == old(next)
        && |messages| == |old(messages)| + r.value.added
        && r.value.observations == |req.recs|
        && r.value.participants == |set rec | rec in req.recs :: rec.sender|
    {
      hide Gate, Below, AddMessages, AddParticipants, Buckets, SettingsOf, View, OpenBatch;
      var why := CheckGate(req);
      if why.Some? { return Err(why.value); }
      var bat := WriteBatch(req);
      var ids := AddSenders(req, bat);
      var added := AddRecords(req, bat, ids);
      WriteSource(bat, Source(req.conv, req.account));
      return Ok(Report(bat, added, |req.recs|, |set rec | rec in req.recs :: rec.sender|));
    }

    method WriteBatch(req: Request) returns (bat: BatchId)
      requires Below(messages.Keys, next)
      modifies this`batches, this`next
      ensures bat == old(next) == old(View()).next && View() == OpenBatch(old(View()), req)
      ensures Below(messages.Keys, next)
    {
      hide SettingsOf;
      bat := next;
      batches := batches[bat := Batch(SettingsOf(req), |req.recs|, None)];
      next := next + 1;
      assert Below(messages.Keys, next) by { BelowLater(messages.Keys, bat, next); }
    }

    method WriteSource(bat: BatchId, source: Source)
      modifies this`sources
      ensures View() == old(View()).(sources := old(View()).sources[bat := source])
    {
      sources := sources[bat := source];
    }

    /** One provisional participant per distinct sender. */
    method AddSenders(req: Request, bat: BatchId) returns (participantId: map<string, PartId>)
      requires Below(messages.Keys, next)
      modifies this`participants, this`next
      ensures (View(), participantId) == AddParticipants(old(View()), bat, Buckets(req), |Buckets(req)|)
      ensures Below(messages.Keys, next)
      ensures forall rec :: rec in req.recs ==> rec.sender in participantId
    {
      ghost var bs := Buckets(req);
      BucketSenders(req);
      participantId := map[];
      NoParticipants(View(), bat, bs);
      hide BucketOf, Buckets, View, AddParticipants, AddParticipant, Below;
      for i := 0 to |req.recs|
        invariant (View(), participantId) == AddParticipants(old(View()), bat, bs, i)
        invariant Below(messages.Keys, next)
      {
        NextParticipant(old(View()), bat, bs, i);
        participantId := AddSender(bat, req.recs[i].sender, participantId);
      }
      SendersAdded(old(View()), bat, req, participantId);
    }

    method AddSender(bat: BatchId, name: string, ids: map<string, PartId>) returns (ids': map<string, PartId>)
      requires Below(messages.Keys, next)
      modifies this`participants, this`next
      ensures (View(), ids') == AddParticipant(old(View()), ids, bat, name)
      ensures Below(messages.Keys, next)
    {
      ids' := ids;
      if name !in ids {
        participants := participants[next := Participant(bat, name)];
        ids' := ids[name := next];
        next := next + 1;
        assert Below(messages.Keys, next) by { BelowLater(messages.Keys, old(next), next); }
      }
    }

    /** The loop over the messages, with its occurrence counter. */
    method AddRecords(req: Request, bat: BatchId, ids: map<string, PartId>) returns (added: nat)
      requires forall rec :: rec in req.recs ==> rec.sender in ids
      requires Below(messages.Keys, next)
      modifies this
      ensures KnownSenders(Buckets(req), ids)
      ensures View() == AddMessages(old(View()), SettingsOf(req), bat, ids, Buckets(req), |Buckets(req)|)
      ensures |messages| == |old(messages)| + added
    {
      hide Progress, AddMessages, AddMessage, Below, Buckets, SettingsOf, BucketOf, View, KnownSenders;
      SendersKnown(req, ids);
      var occ: map<Bucket, nat> := map[];
      added := 0;
      ProgressStarts(View(), req, bat, ids);
      for i := 0 to |req.recs|
        invariant Progress(View(), old(View()), req, bat, ids, occ, i)
        invariant Below(messages.Keys, next) && |messages| == |old(messages)| + added
      {
        ProgressNext(View(), old(View()), req, bat, ids, occ, i);
        var b := BucketOf(req, req.recs[i]);
        var idx: nat := if b in occ then occ[b] else 0;
        occ := occ[b := idx + 1];
        var isNew := AddRecord(SettingsOf(req), bat, ids[b.sender], Fingerprint(b, idx));
        if isNew { added := added + 1; }
      }
      ProgressDone(View(), old(View()), req, bat, ids, occ);
    }

    /** One turn of that loop: find or write the message, then observe it. */
    method AddRecord(st: Settings, bat: BatchId, part: PartId, f: Fingerprint) returns (isNew: bool)
      requires Below(messages.Keys, next)
      modifies this
      ensures View() == AddMessage(old(View()), st, bat, part, f)
      ensures Below(messages.Keys, next) && |messages| == |old(messages)| + if isNew then 1 else 0
    {
      hide Row, Below;
      isNew := f !in fpIndex;
      if isNew { WriteMessage(st, f); }
      observations := observations[(bat, fpIndex[f]) := part];
    }

    method WriteMessage(st: Settings, f: Fingerprint)
      requires f !in fpIndex && Below(messages.Keys, next)
      modifies this`messages, this`fpIndex, this`staged, this`next
      ensures View() == InsertRow(old(View()), st, f) && f in fpIndex
      ensures Below(messages.Keys, next) && |messages| == |old(messages)| + 1
    {
      hide Row;
      var msgId := next;
      next := next + 1;
      messages := messages[msgId := Row(st, f)];
      fpIndex := fpIndex[f := msgId];
      staged := staged[msgId := f.bucket.body];
    }

    /** `undo_batch`: observations first, then each message they leave unobserved. */
    method UndoBatch(bat: BatchId, now: int) returns (observationsDeleted: nat, messagesDeleted: nat)
      modifies this
      ensures View() == Undo(old(View()), bat, now)
      ensures observationsDeleted == |set k | k in old(observations) && k.0 == bat :: k.1|
      ensures |old(messages)| == |messages| + messagesDeleted
    {
      hide DropMessages, Orphans;
      var msgIds := set k | k in observations && k.0 == bat :: k.1;
      observationsDeleted := |msgIds|;
      observations := map k | k in observations && k.0 != bat :: observations[k];
      messagesDeleted := DropUnobserved(msgIds);
      assert DropMessages(old(View()).(observations := observations), Unobserved(old(messages), observations, msgIds))
          == DropMessages(old(View()), Orphans(old(View()), bat)).(observations := observations)
      by { UnobservedAreOrphans(old(View()), bat, msgIds); }
      CloseBatch(bat, now);
    }

    method CloseBatch(bat: BatchId, now: int)
      modifies this`participants, this`sources, this`batches
      ensures participants ==
        map p | p in old(participants) && old(participants)[p].batch != bat :: old(participants)[p]
      ensures sources == old(sources) - {bat}
      ensures batches ==
        if bat in old(batches) then old(batches)[bat := old(batches)[bat].(undoneAt := Some(now))] else old(batches)
    {
      participants := map p | p in participants && participants[p].batch != bat :: participants[p];
      sources := sources - {bat};
      if bat in batches {
        batches := batches[bat := batches[bat].(undoneAt := Some(now))];
      }
    }

    method DropUnobserved(msgIds: set<MsgId>) returns (deleted: nat)
      modifies this`messages, this`fpIndex
      ensures View() == DropMessages(old(View()), Unobserved(old(messages), observations, msgIds))
      ensures |old(messages)| == |messages| + deleted
    {
      hide Observed, DropMessages, Unobserved;
      var todo := msgIds;
      ghost var done: set<MsgId> := {};
      deleted := 0;
      DropNothing(View());
      while todo != {}
        invariant done + todo == msgIds && done !! todo
        invariant View() == DropMessages(old(View()), Unobserved(old(messages), observations, done))
        invariant |old(messages)| == |messages| + deleted
        decreases todo
      {
        var mid :| mid in todo;
        todo := todo - {mid};
        DropOneMore(old(View()), done, mid);
        if mid in messages && messages[mid].wamid == None && !Observed(observations, mid) {
          DropMessage(mid);
          deleted := deleted + 1;
        }
        done := done + {mid};
      }
      assert done == msgIds;
    }

    method DropMessage(mid: MsgId)
      requires mid in messages
      modifies this`messages, this`fpIndex
      ensures View() == DropMessages(old(View()), {mid})
      ensures |old(messages)| == |messages| + 1
    {
      messages := messages - {mid};
      fpIndex := map f | f in fpIndex && fpIndex[f] != mid :: fpIndex[f];
      assert |old(messages)| == |messages| + 1 by { SmallerByOne(old(messages), mid); }
    }
  }

  lemma SmallerByOne<K, V>(m: map<K, V>, k: K)
    requires k in m
    ensures |m| == |m - {k}| + 1
  {
    assert (m - {k}).Keys == m.Keys - {k};
  }

  lemma DropNothing(t: Tables)
    ensures DropMessages(t, Unobserved(t.messages, t.observations, {})) == t
  {
    assert Unobserved(t.messages, t.observations, {}) == {};
  }

  lemma DropOneMore(t: Tables, done: set<MsgId>, mid: MsgId)
    requires mid !in done
    ensures var t1 := DropMessages(t, Unobserved(t.messages, t.observations, done));
      DropMessages(t, Unobserved(t.messages, t.observations, done + {mid})) ==
        if mid in t1.messages && t1.messages[mid].wamid == None && !Observed(t.observations, mid)
        then DropMessages(t1, {mid}) else t1
  {
    hide Observed;
    var gone := Unobserved(t.messages, t.observations, done);
    if mid in t.messages && t.messages[mid].wamid == None && !Observed(t.observations, mid) {
      assert Unobserved(t.messages, t.observations, done + {mid}) == gone + {mid};
      hide Unobserved;
      assert t.messages - (gone + {mid}) == t.messages - gone - {mid};
      SameMap(DropMessages(t, gone + {mid}).fpIndex, DropMessages(DropMessages(t, gone), {mid}).fpIndex);
    } else {
      assert Unobserved(t.messages, t.observations, done + {mid}) == gone;
    }
  }

  lemma NoParticipants(t: Tables, bat: BatchId, bs: seq<Bucket>)
    ensures AddParticipants(t, bat, bs, 0) == (t, map[])
  {
  }

  lemma NextParticipant(t: Tables, bat: BatchId, bs: seq<Bucket>, i: nat)
    requires i < |bs|
    ensures AddParticipants(t, bat, bs, i + 1)
      == AddParticipant(AddParticipants(t, bat, bs, i).0, AddParticipants(t, bat, bs, i).1, bat, bs[i].sender)
  {
  }

  lemma SendersAdded(t: Tables, bat: BatchId, req: Request, ids: map<string, PartId>)
    requires ids == AddParticipants(t, bat, Buckets(req), |Buckets(req)|).1
    ensures forall rec :: rec in req.recs ==> rec.sender in ids
  {
    forall rec | rec in req.recs ensures rec.sender in ids {
      var i :| 0 <= i < |req.recs| && req.recs[i] == rec;
      assert Buckets(req)[i].sender == rec.sender;
    }
  }

  lemma BucketSenders(req: Request)
    ensures forall i :: 0 <= i < |req.recs| ==> Buckets(req)[i].sender == req.recs[i].sender
  {
  }

  lemma BelowLater(ids: set<nat>, next: nat, next': nat)
    requires Below(ids, next) && next <= next'
    ensures Below(ids, next')
  {
  }

  function Unobserved(messages: map<MsgId, Message>, observations: map<(BatchId, MsgId), PartId>,
      ids: set<MsgId>): set<MsgId>
  {
    set m | m in ids && m in messages && messages[m].wamid == None && !Observed(observations, m)
  }

  lemma UnobservedAreOrphans(t: Tables, bat: BatchId, ids: set<MsgId>)
    requires ids == set k | k in t.observations && k.0 == bat :: k.1
    ensures var rest := ObservationsBut(t, bat);
      DropMessages(t.(observations := rest), Unobserved(t.messages, rest, ids))
      == DropMessages(t, Orphans(t, bat)).(observations := rest)
  {
    hide Observed;
    assert Unobserved(t.messages, ObservationsBut(t, bat), ids) == Orphans(t, bat);
  }
}
