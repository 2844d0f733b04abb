/** Who stamped a stored message (importers/whatsapp_export.py). A message that several imports hold is
    written once, by the first of them, and keeps that import's account, direction and time zone for as
    long as any live batch supports it, even after its writer is undone. */
module Writers {
  import opened Prelude
  import opened Schema
  import opened ImportVault

  /** The settings of the import that wrote the row of `f`: the one that made it supported after it last
      was not. It is read off the history alone. */
  ghost function WriterOf(es: seq<Event>, f: Fingerprint): Option<Settings>
  {
    if es == [] || !Supported(Live(es), f) then None
    else
      var pre, e := es[..|es| - 1], es[|es| - 1];
      if Supported(Live(pre), f) then WriterOf(pre, f)
      else if e.DoImport? then Some(SettingsOf(e.req))
      else None
  }

  /** Every indexed fingerprint leads to the row its writer gave it. */
  ghost predicate WrittenBy(t: Tables, es: seq<Event>)
  {
    forall f :: f in t.fpIndex ==>
      && WriterOf(es, f).Some? && t.fpIndex[f] in t.messages &&
         t.messages[t.fpIndex[f]] == Row(WriterOf(es, f).value, f)
  }

  lemma LastEvent(es: seq<Event>)
    requires es != []
    ensures var pre, e := es[..|es| - 1], es[|es| - 1];
      Run(es) == Step(Run(pre), e) && Live(es) == LiveStep(Live(pre), e, Run(pre).next)
  {
    hide Step, LiveStep;
  }

  lemma JoinOf(es: seq<Event>)
    ensures IdsBelowNext(Run(es)) && IndexOk(Run(es).messages, Run(es).fpIndex) && JoinOk(Run(es).fpIndex, Live(es))
  {
    hide Run, Live, IndexOk, JoinOk, ObservationsSound, ObservationsComplete, ParticipantsOk, BatchesOk, StagedOk,
      IdsBelowNext;
    RunKeeps(es);
  }

  /** An import keeps the indexed rows and writes the rest itself. */
  lemma ImportWrites(t: Tables, t': Tables, st: Settings, f: Fingerprint)
    requires IndexOk(t.messages, t.fpIndex) && IndexOk(t'.messages, t'.fpIndex) && f in t'.fpIndex
    requires RowsAdded(t.messages, t'.messages, st) && IndexAdded(t.fpIndex, t'.fpIndex)
    ensures var m := t'.fpIndex[f];
      m in t'.messages && t'.messages[m] == if f in t.fpIndex then t.messages[t.fpIndex[f]] else Row(st, f)
    ensures f in t.fpIndex ==> t.fpIndex[f] in t.messages
  {
    hide Row, ContentOf;
    var m := t'.fpIndex[f];
    assert IsRowOf(t'.messages[m], f);
    assert m in t.messages ==> t'.messages[m] == t.messages[m];
  }

  lemma StepWrites(es: seq<Event>, f: Fingerprint)
    requires es != [] && WrittenBy(Run(es[..|es| - 1]), es[..|es| - 1]) && f in Run(es).fpIndex
    ensures var t := Run(es);
      WriterOf(es, f).Some? && t.fpIndex[f] in t.messages && t.messages[t.fpIndex[f]] == Row(WriterOf(es, f).value, f)
  {
    var pre, e := es[..|es| - 1], es[|es| - 1];
    var t, t' := Run(pre), Run(es);
    LastEvent(es);
    JoinOf(pre);
    JoinOf(es);
    assert Supported(Live(es), f);
    assert f in t.fpIndex <==> Supported(Live(pre), f);
    hide Run, Live, IndexOk, JoinOk, Row, Supported, IdsBelowNext;
    match e
    case DoImport(req) =>
      if Gate(req) == None {
        hide Gate, RowsAdded, IndexAdded, OnlyBatchObserves, OnlyBatchParticipates, Import;
        ImportExtends(t, req);
        ImportWrites(t, t', SettingsOf(req), f);
      }
    case DoUndo(bat, now) =>
      SupportedSplit(Live(pre), bat, f);
      UndoKeepsRow(t, bat, now, f);
  }

  lemma UndoKeepsRow(t: Tables, bat: BatchId, now: int, f: Fingerprint)
    requires f in Undo(t, bat, now).fpIndex
    ensures f in t.fpIndex && Undo(t, bat, now).fpIndex[f] == t.fpIndex[f]
    ensures t.fpIndex[f] in t.messages ==>
      t.fpIndex[f] in Undo(t, bat, now).messages && Undo(t, bat, now).messages[t.fpIndex[f]] == t.messages[t.fpIndex[f]]
  {
    hide Orphans, ObservationsBut;
  }

  /** After every history each stored imported message is exactly the row its writer's settings give it. */
  lemma {:induction false} RowIsItsWriters(es: seq<Event>)
    ensures WrittenBy(Run(es), es)
  {
    if es != [] {
      RowIsItsWriters(es[..|es| - 1]);
      forall f | f in Run(es).fpIndex
        ensures WriterOf(es, f).Some? && Run(es).fpIndex[f] in Run(es).messages
             && Run(es).messages[Run(es).fpIndex[f]] == Row(WriterOf(es, f).value, f)
      {
        StepWrites(es, f);
      }
    }
  }

  // ---------------------------------------------------------------- rows with their stamps

  /** The imported rows, stamps included, without their ids. */
  ghost function StampedRows(t: Tables): set<Message>
  {
    set m | m in t.messages && t.messages[m].fp.Some? :: t.messages[m]
  }

  lemma RowsAreWritten(es: seq<Event>, x: Message)
    ensures x in StampedRows(Run(es)) <==>
      x.fp.Some? && Supported(Live(es), x.fp.value) && WriterOf(es, x.fp.value).Some? &&
        x == Row(WriterOf(es, x.fp.value).value, x.fp.value)
  {
    var t := Run(es);
    RowIsItsWriters(es);
    JoinOf(es);
    hide Run, Live, Supported, ContentOf, StampOf, WriterOf;
    if x in StampedRows(t) {
      var m :| m in t.messages && t.messages[m].fp.Some? && t.messages[m] == x;
      assert x.fp.value in t.fpIndex && t.fpIndex[x.fp.value] == m;
    }
    if x.fp.Some? && Supported(Live(es), x.fp.value) {
      assert x.fp.value in t.fpIndex;
      assert t.fpIndex[x.fp.value] in t.messages;
    }
  }

  /** The writers of `f` in the two histories stamp its sender alike. */
  ghost predicate StampsAgree(es1: seq<Event>, es2: seq<Event>, f: Fingerprint)
  {
    && WriterOf(es1, f).Some? && WriterOf(es2, f).Some?
    && StampOf(WriterOf(es1, f).value, f.bucket.sender) == StampOf(WriterOf(es2, f).value, f.bucket.sender)
  }

  lemma SupportedAlike(live1: LiveBatches, live2: LiveBatches, f: Fingerprint)
    requires live1.Values == live2.Values
    ensures Supported(live1, f) <==> Supported(live2, f)
  {
    hide Supported;
    if Supported(live1, f) { SupportFromValues(live1, live2, f); }
    if Supported(live2, f) { SupportFromValues(live2, live1, f); }
  }

  lemma WriterExists(es: seq<Event>, f: Fingerprint)
    requires Supported(Live(es), f)
    ensures WriterOf(es, f).Some? && Row(WriterOf(es, f).value, f) in StampedRows(Run(es))
  {
    RowIsItsWriters(es);
    JoinOf(es);
    hide Run, Live, Supported, ContentOf, StampOf, WriterOf;
    var m := Run(es).fpIndex[f];
    assert Run(es).messages[m].fp == Some(f);
  }

  lemma RowsEqualIff(st1: Settings, st2: Settings, f: Fingerprint)
    ensures Row(st1, f) == Row(st2, f) <==> StampOf(st1, f.bucket.sender) == StampOf(st2, f.bucket.sender)
    ensures Row(st1, f).fp == Some(f)
  {
    hide StampOf, ContentOf;
  }

  /** Two histories with the same live transcripts hold the same rows, stamps included, if and only if the
      writers of every stored fingerprint stamp it alike. */
  lemma SameRowsIff(es1: seq<Event>, es2: seq<Event>)
    requires Live(es1).Values == Live(es2).Values
    ensures StampedRows(Run(es1)) == StampedRows(Run(es2)) <==>
      forall f :: Supported(Live(es1), f) ==> StampsAgree(es1, es2, f)
  {
    hide Run, Live, Supported, StampedRows, WriterOf, Row, StampOf;
    if StampedRows(Run(es1)) == StampedRows(Run(es2)) {
      forall f | Supported(Live(es1), f) ensures StampsAgree(es1, es2, f) {
        SupportedAlike(Live(es1), Live(es2), f);
        WriterExists(es1, f);
        WriterExists(es2, f);
        var st1, st2 := WriterOf(es1, f).value, WriterOf(es2, f).value;
        RowsEqualIff(st1, st2, f);
        RowsAreWritten(es2, Row(st1, f));
      }
    }
    if forall f :: Supported(Live(es1), f) ==> StampsAgree(es1, es2, f) {
      forall x ensures x in StampedRows(Run(es1)) <==> x in StampedRows(Run(es2)) {
        RowsAreWritten(es1, x);
        RowsAreWritten(es2, x);
        if x.fp.Some? {
          var f := x.fp.value;
          SupportedAlike(Live(es1), Live(es2), f);
          if Supported(Live(es1), f) {
            assert StampsAgree(es1, es2, f);
            RowsEqualIff(WriterOf(es1, f).value, WriterOf(es2, f).value, f);
          }
        }
      }
    }
  }

  lemma UndoKeepsWriter(es: seq<Event>, bat: BatchId, now: int, f: Fingerprint)
    requires Supported(Live(es) - {bat}, f)
    ensures WriterOf(es + [DoUndo(bat, now)], f) == WriterOf(es, f)
  {
    var undone := es + [DoUndo(bat, now)];
    assert undone[..|undone| - 1] == es;
    SupportedSplit(Live(es), bat, f);
    hide Supported;
  }

  /** Undoing a batch, after any history, gives the rows of a history without it, stamps included, if and only
      if every message that some other live batch supports was written under the same stamp in both: that is,
      unless the undone batch, or one undone before, stamped a message that stays. */
  lemma UndoExactIffStampsAgree(es: seq<Event>, bat: BatchId, now: int, without: seq<Event>)
    requires Live(without).Values == (Live(es) - {bat}).Values
    ensures StampedRows(Run(es + [DoUndo(bat, now)])) == StampedRows(Run(without)) <==>
      forall f :: Supported(Live(es) - {bat}, f) ==> StampsAgree(es, without, f)
  {
    var undone := es + [DoUndo(bat, now)];
    assert undone[..|undone| - 1] == es;
    assert Live(undone) == Live(es) - {bat};
    hide Run, Live, Supported, StampedRows, WriterOf, StampOf;
    SameRowsIff(undone, without);
    forall f | Supported(Live(es) - {bat}, f) ensures StampsAgree(undone, without, f) <==> StampsAgree(es, without, f) {
      UndoKeepsWriter(es, bat, now, f);
    }
  }
}
