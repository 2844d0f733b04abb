/** What an import stores, column by column (importers/whatsapp_export.py). Nothing here is stated through the
    functions that build the rows: the rows of every history are compared with the transcripts themselves. */
module Imported {
  import opened Prelude
  import opened Schema
  import opened ImportVault
  import Writers

  // ---------------------------------------------------------------- what is accepted

  predicate Resolved(req: Request, r: Rec)
  {
    r.dst == Unambiguous || r.ordinal in req.resolutions
  }

  /** A request is refused for the first thing that is missing, and accepted if and only if nothing is. */
  lemma AcceptedIff(req: Request)
    ensures Gate(req) == None <==>
      && req.selfLabel != "" && req.dateFormat != "" && req.tz != "" && req.dateFormat in req.families
      && forall r :: r in req.recs ==> Resolved(req, r)
    ensures Gate(req) == Some(MissingSelf) <==> req.selfLabel == ""
    ensures Gate(req) == Some(MissingFormat) <==> req.selfLabel != "" && req.dateFormat == ""
    ensures Gate(req) == Some(MissingTz) <==> req.selfLabel != "" && req.dateFormat != "" && req.tz == ""
    ensures Gate(req) == Some(FormatMismatch) <==>
      req.selfLabel != "" && req.dateFormat != "" && req.tz != "" && req.dateFormat !in req.families
  {
  }

  // ---------------------------------------------------------------- what a row says

  /** The record's minute: the later reading where one was needed and chosen. */
  function Minute(req: Request, r: Rec): int
  {
    match r.dst
    case Unambiguous => r.minute0
    case _ => if r.ordinal in req.resolutions && req.resolutions[r.ordinal] then r.minute1 else r.minute0
  }

  /** The content is that of record `r` in the conversation of `req`. */
  predicate Tells(c: Content, req: Request, r: Rec)
  {
    && c.conv == req.conv && c.sender == None
    && c.text == Some(r.body) && c.kind == (if r.media then "media" else "text")
    && c.lower == Minute(req, r) && c.upper == Minute(req, r) + 60_000
    && c.origin == ManualExport && !c.eligible
  }

  /** The stamp is that of an import of `r` under the settings of `req`. */
  predicate StampedBy(s: Stamp, req: Request, r: Rec)
  {
    && s.account == req.account && s.tz == Some(req.tz)
    && (s.direction == Out <==> Strip(r.sender) == Strip(req.selfLabel))
  }

  lemma RowTells(req: Request, r: Rec, occ: nat)
    ensures var m := Row(SettingsOf(req), Fingerprint(BucketOf(req, r), occ));
      Tells(m.content, req, r) && StampedBy(m.stamp, req, r) && m.wamid == None
  {
    hide Strip;
  }

  /** Event `i` is an accepted import. */
  predicate Imports(es: seq<Event>, i: nat)
  {
    i < |es| && es[i].DoImport? && Gate(es[i].req) == None
  }

  /** The row is there, as it is, after every event from `i` on. */
  ghost predicate KeptSince(es: seq<Event>, i: nat, m: MsgId, row: Message)
  {
    forall k :: i < k <= |es| ==> m in Run(es[..k]).messages && Run(es[..k]).messages[m] == row
  }

  lemma KeptOn(es: seq<Event>, i: nat, m: MsgId, row: Message)
    requires es != [] && i <= |es| - 1 && KeptSince(es[..|es| - 1], i, m, row)
    requires m in Run(es).messages && Run(es).messages[m] == row
    ensures KeptSince(es, i, m, row)
  {
    hide Run;
    forall k | i < k <= |es| ensures m in Run(es[..k]).messages && Run(es[..k]).messages[m] == row {
      if k == |es| {
        assert es[..k] == es;
      } else {
        assert es[..|es| - 1][..k] == es[..k];
      }
    }
  }

  lemma NothingStored()
    ensures Run([]).messages == map[] && Live([]) == map[]
  {
  }

  lemma JustWritten(es: seq<Event>, m: MsgId)
    requires es != [] && m in Run(es).messages
    ensures KeptSince(es, |es| - 1, m, Run(es).messages[m])
  {
    hide Run;
    assert es[..|es|] == es;
  }

  /** A row that an import adds is of a fingerprint its own transcript supports. */
  lemma NewRowHasRecord(es: seq<Event>, m: MsgId) returns (j: nat)
    requires es != [] && es[|es| - 1].DoImport? && Gate(es[|es| - 1].req) == None
    requires m in Run(es).messages && m !in Run(es[..|es| - 1]).messages
    ensures var req, row := es[|es| - 1].req, Run(es).messages[m];
      && j < |req.recs| && row.fp.Some? && row.fp.value.bucket == BucketOf(req, req.recs[j])
      && row == Row(SettingsOf(req), row.fp.value)
  {
    var pre, req := es[..|es| - 1], es[|es| - 1].req;
    Writers.LastEvent(es);
    Writers.JoinOf(pre);
    Writers.JoinOf(es);
    ImportExtends(Run(pre), req);
    var f := Run(es).messages[m].fp.value;
    hide Run, Live, Import, Gate, Row, Supported, IdsBelowNext, Buckets;
    NotIndexedBefore(Run(pre), Run(es), m, f);
    hide IndexOk, RowsAdded;
    NewSupport(Live(pre), Run(pre).next, multiset(Buckets(req)), f);
    j := InTranscript(req, f.bucket);
  }

  lemma NotIndexedBefore(t: Tables, t': Tables, m: MsgId, f: Fingerprint)
    requires IndexOk(t.messages, t.fpIndex) && IndexOk(t'.messages, t'.fpIndex) && IndexAdded(t.fpIndex, t'.fpIndex)
    requires m in t'.messages && m !in t.messages && t'.messages[m].fp == Some(f)
    ensures f in t'.fpIndex && f !in t.fpIndex
  {
    hide IsRowOf;
  }

  lemma NewSupport(live: LiveBatches, bat: BatchId, bs: multiset<Bucket>, f: Fingerprint)
    requires Supported(live[bat := bs], f) && !Supported(live, f)
    ensures f.bucket in bs
  {
    var b :| b in live[bat := bs] && f.occ < live[bat := bs][b][f.bucket];
    assert b == bat;
  }

  lemma InTranscript(req: Request, b: Bucket) returns (j: nat)
    requires b in multiset(Buckets(req))
    ensures j < |req.recs| && b == BucketOf(req, req.recs[j])
  {
    var bs := Buckets(req);
    assert b in bs;
    j :| j < |bs| && bs[j] == b;
  }

  lemma StepRows(es: seq<Event>, m: MsgId)
    requires es != [] && m in Run(es).messages && m in Run(es[..|es| - 1]).messages
    ensures Run(es).messages[m] == Run(es[..|es| - 1]).messages[m]
  {
    var pre, e := es[..|es| - 1], es[|es| - 1];
    Writers.LastEvent(es);
    Writers.JoinOf(pre);
    hide Run, IndexOk, JoinOk, Row, Orphans;
    match e
    case DoImport(req) => if Gate(req) == None { hide Import, Gate; ImportExtends(Run(pre), req); }
    case DoUndo(_, _) =>
  }

  lemma OnlyImportsAdd(es: seq<Event>, m: MsgId)
    requires es != [] && m in Run(es).messages && m !in Run(es[..|es| - 1]).messages
    ensures Imports(es, |es| - 1)
  {
    hide Orphans, AddMessages, AddParticipants;
  }

  /** Every stored row was written by one import, from a record of its transcript, and has stayed as it is
      ever since: its text, kind, conversation and minute are the record's, and its account, direction and
      time zone are the importer's. */
  lemma {:induction false} RowFrom(es: seq<Event>, m: MsgId) returns (i: nat, j: nat)
    requires m in Run(es).messages
    ensures Imports(es, i) && j < |es[i].req.recs| && m !in Run(es[..i]).messages
    ensures KeptSince(es, i, m, Run(es).messages[m])
    ensures var req, row := es[i].req, Run(es).messages[m];
      Tells(row.content, req, req.recs[j]) && StampedBy(row.stamp, req, req.recs[j]) && row.wamid == None
    decreases |es|
  {
    hide Run, Tells, StampedBy, Row, Gate, KeptSince;
    NothingStored();
    var pre, row := es[..|es| - 1], Run(es).messages[m];
    if m in Run(pre).messages {
      StepRows(es, m);
      i, j := RowFrom(pre, m);
      KeptOn(es, i, m, row);
      assert pre[..i] == es[..i];
    } else {
      i := |es| - 1;
      OnlyImportsAdd(es, m);
      j := NewRowHasRecord(es, m);
      RowTells(es[i].req, es[i].req.recs[j], row.fp.value.occ);
      JustWritten(es, m);
    }
  }

  // ---------------------------------------------------------------- live transcripts

  /** The batch that event `i` opened. */
  function BatchOf(es: seq<Event>, i: nat): BatchId
    requires i < |es|
  {
    Run(es[..i]).next
  }

  /** Event `i` is an accepted import that has not been undone. */
  ghost predicate Stands(es: seq<Event>, i: nat)
  {
    Imports(es, i) && forall k :: i < k < |es| && es[k].DoUndo? ==> es[k].bat != BatchOf(es, i)
  }

  lemma LiveBelow(es: seq<Event>, b: BatchId)
    requires b in Live(es)
    ensures b < Run(es).next
  {
    RunKeeps(es);
    hide Run, Live, IndexOk, StagedOk, JoinOk, ObservationsSound, ObservationsComplete, ParticipantsOk;
    assert b in Run(es).batches;
  }

  lemma LiveStepIs(live: LiveBatches, e: Event, bat: BatchId, b: BatchId)
    ensures b in LiveStep(live, e, bat) <==>
      if e.DoImport? && Gate(e.req) == None then b == bat || b in live else b in live && !(e.DoUndo? && e.bat == b)
    ensures b in LiveStep(live, e, bat) ==>
      LiveStep(live, e, bat)[b] ==
        if e.DoImport? && Gate(e.req) == None && b == bat then multiset(Buckets(e.req)) else live[b]
  {
    hide Gate, Buckets;
  }

  /** An import that stands is a live batch with its transcript. */
  lemma {:induction false} StandingIsLive(es: seq<Event>, i: nat)
    requires Stands(es, i)
    ensures BatchOf(es, i) in Live(es) && Live(es)[BatchOf(es, i)] == multiset(Buckets(es[i].req))
    decreases |es|
  {
    hide Run, Live, Gate, Buckets, LiveStep;
    var pre, e := es[..|es| - 1], es[|es| - 1];
    Writers.LastEvent(es);
    LiveStepIs(Live(pre), e, Run(pre).next, BatchOf(es, i));
    if i < |es| - 1 {
      assert pre[..i] == es[..i];
      StandingIsLive(pre, i);
      LiveBelow(pre, BatchOf(es, i));
    }
  }

  /** And every live batch is an import that stands. */
  lemma {:induction false} LiveStands(es: seq<Event>, b: BatchId) returns (i: nat)
    requires b in Live(es)
    ensures Stands(es, i) && BatchOf(es, i) == b
    decreases |es|
  {
    hide Run, Live, Gate, Buckets, LiveStep;
    NothingStored();
    var pre, e := es[..|es| - 1], es[|es| - 1];
    Writers.LastEvent(es);
    LiveStepIs(Live(pre), e, Run(pre).next, b);
    hide Stands;
    if e.DoImport? && Gate(e.req) == None && b == Run(pre).next {
      i := |es| - 1;
      JustStands(es);
    } else {
      i := LiveStands(pre, b);
      StillStands(es, i);
    }
  }

  lemma JustStands(es: seq<Event>)
    requires es != [] && Imports(es, |es| - 1)
    ensures Stands(es, |es| - 1)
  {
    hide Gate, Run;
  }

  lemma StillStands(es: seq<Event>, i: nat)
    requires es != [] && i < |es| - 1 && Imports(es, i)
    ensures es[..|es| - 1][..i] == es[..i] && BatchOf(es[..|es| - 1], i) == BatchOf(es, i)
    ensures var e := es[|es| - 1];
      Stands(es, i) <==> Stands(es[..|es| - 1], i) && !(e.DoUndo? && e.bat == BatchOf(es, i))
  {
    hide Gate, Run;
    assert es[..|es| - 1][..i] == es[..i];
  }

  // ---------------------------------------------------------------- records and their rows

  /** The two records are of one bucket: nothing an export shows tells them apart. */
  predicate Same(req: Request, r: Rec, req': Request, r': Rec)
  {
    && req.conv == req'.conv && Minute(req, r) == Minute(req', r')
    && r.sender == r'.sender && r.media == r'.media && r.body == r'.body
  }

  lemma SameBucket(req: Request, r: Rec, req': Request, r': Rec)
    ensures BucketOf(req, r) == BucketOf(req', r') <==> Same(req, r, req', r')
  {
  }

  ghost function Twins(req: Request, n: nat, r: Rec): set<nat>
    requires n <= |req.recs|
  {
    set k: nat | k < n && Same(req, req.recs[k], req, r)
  }

  /** How many earlier messages of the transcript are the same as message `j`. */
  ghost function Rank(req: Request, j: nat): nat
    requires j < |req.recs|
  {
    |Twins(req, j, req.recs[j])|
  }

  lemma {:induction false} CountTwins(req: Request, n: nat, r: Rec)
    requires n <= |req.recs|
    ensures |Twins(req, n, r)| == multiset(Buckets(req)[..n])[BucketOf(req, r)]
  {
    hide BucketOf, Same;
    if n == 0 {
      assert Twins(req, 0, r) == {};
    } else {
      CountTwins(req, n - 1, r);
      SameBucket(req, req.recs[n - 1], req, r);
      BucketAt(req, n - 1);
      hide Buckets;
      assert Buckets(req)[..n] == Buckets(req)[..n - 1] + [Buckets(req)[n - 1]];
      OneMoreTwin(req, n, r);
      hide Twins;
    }
  }

  lemma OneMoreTwin(req: Request, n: nat, r: Rec)
    requires 0 < n <= |req.recs|
    ensures |Twins(req, n, r)| == |Twins(req, n - 1, r)| + if Same(req, req.recs[n - 1], req, r) then 1 else 0
  {
    hide Same;
    assert Twins(req, n, r) ==
      Twins(req, n - 1, r) + if Same(req, req.recs[n - 1], req, r) then {n - 1} else {};
  }

  ghost function FingerprintOf(req: Request, j: nat): Fingerprint
    requires j < |req.recs|
  {
    Fingerprint(BucketOf(req, req.recs[j]), Rank(req, j))
  }

  lemma FingerprintsDiffer(req: Request, j: nat, k: nat)
    requires j < k < |req.recs|
    ensures FingerprintOf(req, j) != FingerprintOf(req, k)
  {
    var r, r' := req.recs[j], req.recs[k];
    SameBucket(req, r, req, r');
    if Same(req, r, req, r') {
      assert Twins(req, j, r) + {j} <= Twins(req, k, r');
      SubsetSize(Twins(req, j, r) + {j}, Twins(req, k, r'));
    }
  }

  /** The row that the standing import `i` observes for its record `j`. */
  ghost function RowOf(es: seq<Event>, i: nat, j: nat): MsgId
    requires Imports(es, i) && j < |es[i].req.recs|
  {
    var f := FingerprintOf(es[i].req, j);
    if f in Run(es).fpIndex then Run(es).fpIndex[f] else 0
  }

  lemma RecordSupported(es: seq<Event>, i: nat, j: nat)
    requires Stands(es, i) && j < |es[i].req.recs|
    ensures var f, live := FingerprintOf(es[i].req, j), Live(es);
      BatchOf(es, i) in live && f.occ < live[BatchOf(es, i)][f.bucket] && Supported(live, f)
  {
    var req := es[i].req;
    StandingIsLive(es, i);
    CountTwins(req, j, req.recs[j]);
    EarlierFewer(Buckets(req), j);
    hide Run, Live, Twins, BucketOf;
    var f, b := FingerprintOf(req, j), BatchOf(es, i);
    assert b in Live(es) && f.occ < Live(es)[b][f.bucket];
  }

  /** Every record of a transcript that stands is stored: its row tells what the record says, and is observed
      for the batch by a participant with the record's sender as its name. */
  lemma RecordIsStored(es: seq<Event>, i: nat, j: nat)
    requires Stands(es, i) && j < |es[i].req.recs|
    ensures var t, m, k := Run(es), RowOf(es, i, j), (BatchOf(es, i), RowOf(es, i, j));
      && m in t.messages && Tells(t.messages[m].content, es[i].req, es[i].req.recs[j])
      && k in t.observations && t.observations[k] in t.participants
      && t.participants[t.observations[k]] == Participant(BatchOf(es, i), es[i].req.recs[j].sender)
      && m in t.staged && t.staged[m] == es[i].req.recs[j].body
  {
    RecordSupported(es, i, j);
    RunKeeps(es);
    var t, req, f := Run(es), es[i].req, FingerprintOf(es[i].req, j);
    hide Run, Live, FingerprintOf, Gate, Supported, ParticipantsOk, BatchesOk;
    assert f in t.fpIndex;
    var m := t.fpIndex[f];
    assert IsRowOf(t.messages[m], f);
    assert (BatchOf(es, i), m) in t.observations;
    BucketTells(req, j, t.messages[m]);
  }

  lemma BucketTells(req: Request, j: nat, row: Message)
    requires j < |req.recs| && IsRowOf(row, FingerprintOf(req, j))
    ensures Tells(row.content, req, req.recs[j]) && FingerprintOf(req, j).bucket.sender == req.recs[j].sender
    ensures FingerprintOf(req, j).bucket.body == req.recs[j].body
  {
    hide Rank;
  }

  /** Two records, of one transcript or of two, share a row if and only if they are the same and stand at the
      same rank among their like: so no message of one transcript is ever merged with another of it. */
  lemma RowsShared(es: seq<Event>, i: nat, j: nat, i': nat, j': nat)
    requires Stands(es, i) && j < |es[i].req.recs| && Stands(es, i') && j' < |es[i'].req.recs|
    ensures var req, req' := es[i].req, es[i'].req;
      RowOf(es, i, j) == RowOf(es, i', j') <==>
        Same(req, req.recs[j], req', req'.recs[j']) && Rank(req, j) == Rank(req', j')
    ensures i == i' && j != j' ==> RowOf(es, i, j) != RowOf(es, i', j')
  {
    var req, req' := es[i].req, es[i'].req;
    RecordSupported(es, i, j);
    RecordSupported(es, i', j');
    SameBucket(req, req.recs[j], req', req'.recs[j']);
    Writers.JoinOf(es);
    if i == i' && j != j' { FingerprintsDiffer(req, if j < j' then j else j', if j < j' then j' else j); }
    hide Run, Live, Rank, Same, Supported, BucketOf, Stands, IdsBelowNext;
    SameRow(Run(es), FingerprintOf(req, j), FingerprintOf(req', j'));
  }

  lemma SameRow(t: Tables, f: Fingerprint, g: Fingerprint)
    requires IndexOk(t.messages, t.fpIndex) && f in t.fpIndex && g in t.fpIndex
    ensures t.fpIndex[f] == t.fpIndex[g] <==> f == g
  {
    hide IsRowOf;
    assert t.messages[t.fpIndex[f]].fp == Some(f) && t.messages[t.fpIndex[g]].fp == Some(g)
      by { IndexedRow(t.messages, t.fpIndex, f); IndexedRow(t.messages, t.fpIndex, g); }
  }

  lemma {:induction false} NthTwin(req: Request, n: nat, r: Rec, occ: nat) returns (j: nat)
    requires n <= |req.recs| && occ < |Twins(req, n, r)|
    ensures j < n && Same(req, req.recs[j], req, r) && |Twins(req, j, r)| == occ
  {
    if occ < |Twins(req, n - 1, r)| {
      j := NthTwin(req, n - 1, r, occ);
    } else {
      j := n - 1;
      OneMoreTwin(req, n, r);
    }
  }

  /** And nothing else is stored: every row is that of a record of some transcript that stands. */
  lemma RowIsRecords(es: seq<Event>, m: MsgId) returns (i: nat, j: nat)
    requires m in Run(es).messages && Run(es).messages[m].fp.Some?
    ensures Stands(es, i) && j < |es[i].req.recs| && RowOf(es, i, j) == m
  {
    var t, f := Run(es), Run(es).messages[m].fp.value;
    Writers.JoinOf(es);
    assert f in t.fpIndex && t.fpIndex[f] == m by { hide IsRowOf; }
    assert Supported(Live(es), f);
    var b :| b in Live(es) && f.occ < Live(es)[b][f.bucket];
    i := LiveStands(es, b);
    StandingIsLive(es, i);
    hide Run, Live, Stands, JoinOk, IndexOk, IdsBelowNext;
    var req := es[i].req;
    j := RecordOf(req, f);
  }

  lemma RecordOf(req: Request, f: Fingerprint) returns (j: nat)
    requires f.occ < multiset(Buckets(req))[f.bucket]
    ensures j < |req.recs| && FingerprintOf(req, j) == f
  {
    var k := InTranscript(req, f.bucket);
    hide BucketOf;
    CountTwins(req, |req.recs|, req.recs[k]);
    assert Buckets(req)[..|req.recs|] == Buckets(req);
    j := NthTwin(req, |req.recs|, req.recs[k], f.occ);
    SameBucket(req, req.recs[j], req, req.recs[k]);
    assert Twins(req, j, req.recs[j]) == Twins(req, j, req.recs[k]);
  }

  // ---------------------------------------------------------------- the batch log

  /** The log and source rows of every import: who it was for, how long its transcript was, and when it was
      undone. */
  lemma {:induction false} BatchIsLogged(es: seq<Event>, i: nat)
    requires Imports(es, i)
    ensures var t, b, req := Run(es), BatchOf(es, i), es[i].req;
      && b in t.batches && t.batches[b].messageCount == |req.recs|
      && t.batches[b].settings == Settings(req.account, req.selfLabel, req.tz)
      && (t.batches[b].undoneAt == None <==> Stands(es, i))
      && (es[|es| - 1].DoUndo? && es[|es| - 1].bat == b ==> t.batches[b].undoneAt == Some(es[|es| - 1].now))
      && (b in t.sources <==> Stands(es, i)) && (b in t.sources ==> t.sources[b] == Source(req.conv, req.account))
    decreases |es|
  {
    hide Run, Live, Gate;
    var pre, e := es[..|es| - 1], es[|es| - 1];
    Writers.LastEvent(es);
    Writers.JoinOf(pre);
    hide IndexOk, JoinOk;
    hide Stands;
    if i < |es| - 1 {
      StillStands(es, i);
      BatchIsLogged(pre, i);
    } else {
      JustStands(es);
    }
    match e
    case DoImport(req) =>
      if Gate(req) == None {
        hide Import;
        ImportExtends(Run(pre), req);
        hide Extends;
      }
    case DoUndo(bat, now) => hide Orphans;
  }
}
