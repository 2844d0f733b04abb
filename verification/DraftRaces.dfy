/** Calls of `prepare` that interleave (approval/drafts.py). The SELECT and the INSERT are two statements with
    nothing between them that would keep another call out. What is proved is when there is still one draft
    for the same words. */
module DraftRaces {
  import opened Prelude
  import opened Encoding
  import opened Policy
  import opened Send
  import opened Drafts

  type CallerId = nat

  /** The sender's state, and for every call of `prepare` whose SELECT found nothing the draft it will insert. */
  datatype Sys = Sys(s: State, looked: map<CallerId, Draft>)

  datatype Move =
    | Look(c: CallerId, ask: Ask, windowOpen: bool, now: int, nonce: Bytes)
    | Insert(c: CallerId, id: Bytes)
    | Whole(send: Send.Event)
    | Die(c: CallerId)

  predicate Held(drafts: map<Bytes, Draft>, conv: ConvId, sha: Bytes)
  {
    exists id :: id in drafts && Holds(drafts[id], conv, sha)
  }

  /** The SELECT finds nothing for an ask the policy lets through. */
  predicate FindsNothing(h: Hash, drafts: map<Bytes, Draft>, e: Move)
    requires e.Look?
  {
    Creates(DoAsk(e.ask, e.windowOpen, e.now, "", e.nonce, None)) && !Held(drafts, e.ask.conv, h(e.ask.body))
  }

  /** A template's draft is a step of its own, and holds no words. */
  predicate Allowed(x: Send.Event)
  {
    x.DoPrepare? ==> x.draft.terms.bodySha == None && x.draft.terms.recipient == None
  }

  function Step(h: Hash, y: Sys, e: Move): Sys
  {
    match e
    case Look(c, ask, _, now, nonce) =>
      if c !in y.looked && FindsNothing(h, y.s.drafts, e) then y.(looked := y.looked[c := DraftFor(h, ask, nonce, now)])
      else y
    case Insert(c, id) =>
      if c in y.looked && id !in y.s.drafts
      then Sys(y.s.(drafts := y.s.drafts[id := y.looked[c]]), y.looked - {c})
      else y
    case Whole(x) => if Allowed(x) then y.(s := Send.Step(h, y.s, x).0) else y
    case Die(c) => y.(looked := y.looked - {c})
  }

  const START := Sys(EMPTY, map[])

  function At(h: Hash, es: seq<Move>, n: nat): Sys
    requires n <= |es|
  {
    if n == 0 then START else Step(h, At(h, es, n - 1), es[n - 1])
  }

  /** A SELECT followed at once by its INSERT is the whole ask. */
  lemma UninterruptedIsAsk(h: Hash, y: Sys, e: Move, id: Bytes, found: Option<Bytes>)
    requires e.Look? && e.c !in y.looked && id !in y.s.drafts && Selected(h, y.s.drafts, e.ask, found)
    ensures Step(h, Step(h, y, e), Insert(e.c, id))
      == y.(s := Drafts.Step(h, y.s, DoAsk(e.ask, e.windowOpen, e.now, id, e.nonce, found)))
  {
    hide Failed, DraftFor;
    SelectedIff(h, y.s.drafts, e.ask, found);
    hide Selected, Held;
    var y1 := Step(h, y, e);
    if e.c in y1.looked { assert y1.looked - {e.c} == y.looked; }
  }

  lemma SelectedIff(h: Hash, drafts: map<Bytes, Draft>, a: Ask, found: Option<Bytes>)
    requires Selected(h, drafts, a, found)
    ensures found == None <==> !Held(drafts, a.conv, h(a.body))
  {
  }

  lemma {:induction false} AtPrefix(h: Hash, es: seq<Move>, more: seq<Move>, n: nat)
    requires n <= |es|
    ensures At(h, es + more, n) == At(h, es, n)
  {
    hide Step;
    if n > 0 { AtPrefix(h, es, more, n - 1); }
  }

  lemma LookIs(h: Hash, y: Sys, e: Move)
    requires e.Look? && e.c !in y.looked && FindsNothing(h, y.s.drafts, e)
    ensures Step(h, y, e).s == y.s && e.c in Step(h, y, e).looked
    ensures var d := Step(h, y, e).looked[e.c];
      Step(h, y, e).looked == y.looked[e.c := d] && Holds(d, e.ask.conv, h(e.ask.body))
  {
    DraftForIs(h, e.ask, e.nonce, e.now);
    hide DraftFor, Held, Creates;
  }

  // ---------------------------------------------------------------- one draft, still

  ghost predicate NobodyAbout(y: Sys, conv: ConvId, sha: Bytes)
  {
    forall c :: c in y.looked ==> !Holds(y.looked[c], conv, sha)
  }

  /** Drafts stored and about to be stored all hold different words. */
  ghost predicate Settled(y: Sys)
  {
    && OneEach(y.s.drafts)
    && (forall c, i :: c in y.looked && i in y.s.drafts ==> !SameWords(y.looked[c], y.s.drafts[i]))
    && (forall c, d :: c in y.looked && d in y.looked && SameWords(y.looked[c], y.looked[d]) ==> c == d)
  }

  lemma OneMoreLooked(y: Sys, c: CallerId, d: Draft, conv: ConvId, sha: Bytes)
    requires Settled(y) && NobodyAbout(y, conv, sha) && !Held(y.s.drafts, conv, sha) && Holds(d, conv, sha)
    ensures Settled(y.(looked := y.looked[c := d]))
  {
    hide OneEach;
    forall i | i in y.s.drafts ensures !SameWords(d, y.s.drafts[i]) {
      assert !Holds(y.s.drafts[i], conv, sha);
    }
  }

  lemma LookSettled(h: Hash, y: Sys, e: Move)
    requires Settled(y) && e.Look? && NobodyAbout(y, e.ask.conv, h(e.ask.body))
    ensures Settled(Step(h, y, e))
  {
    hide Settled, NobodyAbout, Held, Creates, DraftFor;
    if e.c !in y.looked && FindsNothing(h, y.s.drafts, e) {
      LookIs(h, y, e);
      OneMoreLooked(y, e.c, Step(h, y, e).looked[e.c], e.ask.conv, h(e.ask.body));
    }
  }

  lemma InsertSettled(h: Hash, y: Sys, c: CallerId, id: Bytes)
    requires Settled(y)
    ensures Settled(Step(h, y, Insert(c, id)))
  {
  }

  lemma WholeSettled(h: Hash, y: Sys, x: Send.Event)
    requires Settled(y)
    ensures Settled(Step(h, y, Whole(x)))
  {
    SendDrafts(h, y.s, x);
    hide Send.Step;
  }

  lemma StepSettled(h: Hash, y: Sys, e: Move)
    requires Settled(y) && (e.Look? ==> NobodyAbout(y, e.ask.conv, h(e.ask.body)))
    ensures Settled(Step(h, y, e))
  {
    match e
    case Look(_, _, _, _, _) => LookSettled(h, y, e);
    case Insert(c, id) => InsertSettled(h, y, c, id);
    case Whole(x) => WholeSettled(h, y, x);
    case Die(c) => hide OneEach, SameWords;
  }

  /** No call selects while another that found nothing for the same words is still to insert. */
  ghost predicate Serial(h: Hash, es: seq<Move>)
  {
    forall i :: 0 <= i < |es| && es[i].Look? ==> NobodyAbout(At(h, es, i), es[i].ask.conv, h(es[i].ask.body))
  }

  /** If calls for the same words do not overlap, there is at most one draft for them in every run. */
  lemma {:induction false} OneDraftIfSerial(h: Hash, es: seq<Move>, n: nat)
    requires n <= |es| && Serial(h, es)
    ensures Settled(At(h, es, n))
  {
    hide Step, NobodyAbout;
    if n > 0 {
      hide Settled;
      OneDraftIfSerial(h, es, n - 1);
      StepSettled(h, At(h, es, n - 1), es[n - 1]);
    }
  }

  ghost predicate NoLook(more: seq<Move>)
  {
    forall i :: 0 <= i < |more| ==> !more[i].Look?
  }

  lemma {:induction false} RunSettled(h: Hash, es: seq<Move>, more: seq<Move>, n: nat)
    requires |es| <= n <= |es + more| && NoLook(more) && Settled(At(h, es, |es|))
    ensures Settled(At(h, es + more, n))
  {
    hide Step, Settled;
    AtPrefix(h, es, more, |es|);
    if n > |es| {
      RunSettled(h, es, more, n - 1);
      assert (es + more)[n - 1] == more[n - 1 - |es|];
      StepSettled(h, At(h, es + more, n - 1), (es + more)[n - 1]);
    }
  }

  // ---------------------------------------------------------------- and exactly when

  lemma {:induction false} Longer(keys: set<Bytes>) returns (n: nat)
    ensures forall k :: k in keys ==> |k| < n
  {
    n := 0;
    if keys != {} {
      var k :| k in keys;
      n := Longer(keys - {k});
      if n <= |k| { n := |k| + 1; }
    }
  }

  /** The supply of ids does not run out. */
  lemma TwoNewIds(keys: set<Bytes>) returns (i: Bytes, j: Bytes)
    ensures i !in keys && j !in keys && i != j
  {
    var n := Longer(keys);
    i, j := seq(n, k => 'i'), seq(n + 1, k => 'i');
    assert |i| != |j|;
  }

  lemma AtOne(h: Hash, es: seq<Move>, e: Move)
    ensures At(h, es + [e], |es + [e]|) == Step(h, At(h, es, |es|), e)
  {
    hide Step;
    AtPrefix(h, es, [e], |es|);
  }

  lemma AtTwo(h: Hash, es: seq<Move>, e: Move, f: Move)
    ensures At(h, es + [e, f], |es + [e, f]|) == Step(h, Step(h, At(h, es, |es|), e), f)
  {
    hide At, Step;
    AtOne(h, es, e);
    AtOne(h, es + [e], f);
    assert es + [e] + [f] == es + [e, f];
  }

  lemma InsertTwo(h: Hash, y: Sys, c: CallerId, d: CallerId, i: Bytes, j: Bytes)
    requires c in y.looked && d in y.looked && c != d && i !in y.s.drafts && j !in y.s.drafts && i != j
    ensures Step(h, Step(h, y, Insert(c, i)), Insert(d, j)).s.drafts == y.s.drafts[i := y.looked[c]][j := y.looked[d]]
  {
  }

  lemma TwoAlike(drafts: map<Bytes, Draft>, i: Bytes, j: Bytes)
    requires i in drafts && j in drafts && i != j && SameWords(drafts[i], drafts[j])
    ensures !OneEach(drafts)
  {
  }

  /** A state that is not settled has a schedule of the inserts still to come that makes two drafts. */
  lemma UnsettledBreaks(h: Hash, es: seq<Move>) returns (more: seq<Move>)
    requires var y := At(h, es, |es|); OneEach(y.s.drafts) && !Settled(y)
    ensures NoLook(more) && !OneEach(At(h, es + more, |es + more|).s.drafts)
  {
    hide At, OneEach, SameWords;
    var y := At(h, es, |es|);
    var i, j := TwoNewIds(y.s.drafts.Keys);
    if c, k :| c in y.looked && k in y.s.drafts && SameWords(y.looked[c], y.s.drafts[k]) {
      more := [Insert(c, i)];
      AtOne(h, es, Insert(c, i));
      TwoAlike(y.s.drafts[i := y.looked[c]], i, k);
    } else {
      var c, d :| c in y.looked && d in y.looked && SameWords(y.looked[c], y.looked[d]) && c != d;
      more := [Insert(c, i), Insert(d, j)];
      AtTwo(h, es, Insert(c, i), Insert(d, j));
      InsertTwo(h, y, c, d, i, j);
      TwoAlike(y.s.drafts[i := y.looked[c]][j := y.looked[d]], i, j);
    }
  }

  ghost predicate OneEachAfter(h: Hash, es: seq<Move>, more: seq<Move>)
  {
    NoLook(more) ==> OneEach(At(h, es + more, |es + more|).s.drafts)
  }

  /** Where there is one draft for the same words, it stays so however the calls that have selected go on, if
      and only if none of them has the words of a stored draft or of another call. */
  lemma StaysOneIff(h: Hash, es: seq<Move>)
    requires OneEach(At(h, es, |es|).s.drafts)
    ensures Settled(At(h, es, |es|)) <==> forall more :: OneEachAfter(h, es, more)
  {
    hide At, OneEach, NoLook, SameWords;
    if Settled(At(h, es, |es|)) {
      forall more ensures OneEachAfter(h, es, more) {
        if NoLook(more) { RunSettled(h, es, more, |es + more|); }
      }
    } else {
      hide Settled;
      var more := UnsettledBreaks(h, es);
      assert !OneEachAfter(h, es, more);
    }
  }

  /** Two calls for the same words that both select before either inserts leave two drafts. */
  lemma TwoDrafts(h: Hash, y: Sys, e: Move, f: Move, i: Bytes, j: Bytes)
    requires e.Look? && f.Look? && e.c != f.c && e.c !in y.looked && f.c !in y.looked
    requires FindsNothing(h, y.s.drafts, e) && FindsNothing(h, y.s.drafts, f) && SameAskWords(h, e.ask, f.ask)
    requires i !in y.s.drafts && j !in y.s.drafts && i != j
    ensures var y2 := Step(h, Step(h, y, e), f);
      !OneEach(Step(h, Step(h, y2, Insert(e.c, i)), Insert(f.c, j)).s.drafts)
  {
    hide FindsNothing, OneEach, Step;
    var y1 := Step(h, y, e);
    LookIs(h, y, e);
    LookIs(h, y1, f);
    var y2 := Step(h, y1, f);
    InsertTwo(h, y2, e.c, f.c, i, j);
    TwoAlike(y.s.drafts[i := y2.looked[e.c]][j := y2.looked[f.c]], i, j);
  }

  // ---------------------------------------------------------------- once the words are held

  lemma HeldStays(h: Hash, y: Sys, e: Move, conv: ConvId, sha: Bytes)
    requires Held(y.s.drafts, conv, sha)
    ensures Held(Step(h, y, e).s.drafts, conv, sha)
  {
    var id :| id in y.s.drafts && Holds(y.s.drafts[id], conv, sha);
    if e.Whole? { SendDrafts(h, y.s, e.send); }
    hide Send.Step, FindsNothing, Holds, DraftFor;
    assert id in Step(h, y, e).s.drafts && Step(h, y, e).s.drafts[id] == y.s.drafts[id];
  }

  lemma StaysQuiet(h: Hash, y: Sys, e: Move, conv: ConvId, sha: Bytes)
    requires Held(y.s.drafts, conv, sha) && NobodyAbout(y, conv, sha)
    ensures NobodyAbout(Step(h, y, e), conv, sha)
  {
    hide Send.Step, Held, Creates;
    if e.Look? && e.c !in y.looked && FindsNothing(h, y.s.drafts, e) {
      LookIs(h, y, e);
      assert !Held(y.s.drafts, e.ask.conv, h(e.ask.body));
    }
  }

  lemma {:induction false} RunQuiet(h: Hash, es: seq<Move>, more: seq<Move>, n: nat, conv: ConvId, sha: Bytes)
    requires var y := At(h, es, |es|); Held(y.s.drafts, conv, sha) && NobodyAbout(y, conv, sha)
    requires |es| <= n <= |es + more|
    ensures var y := At(h, es + more, n); Held(y.s.drafts, conv, sha) && NobodyAbout(y, conv, sha)
  {
    hide Step, Held, NobodyAbout;
    AtPrefix(h, es, more, |es|);
    if n > |es| {
      RunQuiet(h, es, more, n - 1, conv, sha);
      HeldStays(h, At(h, es + more, n - 1), (es + more)[n - 1], conv, sha);
      StaysQuiet(h, At(h, es + more, n - 1), (es + more)[n - 1], conv, sha);
    }
  }

  /** Move `n` inserts a draft with these words. */
  predicate InsertsAt(h: Hash, es: seq<Move>, n: nat, conv: ConvId, sha: Bytes)
    requires n < |es|
  {
    var y := At(h, es, n);
    es[n].Insert? && es[n].c in y.looked && es[n].id !in y.s.drafts && Holds(y.looked[es[n].c], conv, sha)
  }

  ghost predicate NoDraftAfter(h: Hash, es: seq<Move>, more: seq<Move>, conv: ConvId, sha: Bytes)
  {
    forall i: nat :: |es| <= i < |es + more| ==> !InsertsAt(h, es + more, i, conv, sha)
  }

  /** Once a draft holds some words no other is ever inserted for them, whatever follows, if and only if no
      call that selected before is still to insert one. */
  lemma NoSecondDraftIff(h: Hash, es: seq<Move>, conv: ConvId, sha: Bytes)
    requires Held(At(h, es, |es|).s.drafts, conv, sha)
    ensures NobodyAbout(At(h, es, |es|), conv, sha) <==> forall more :: NoDraftAfter(h, es, more, conv, sha)
  {
    hide At, Held, Holds;
    var y := At(h, es, |es|);
    if NobodyAbout(y, conv, sha) {
      forall more ensures NoDraftAfter(h, es, more, conv, sha) {
        forall i: nat | |es| <= i < |es + more| ensures !InsertsAt(h, es + more, i, conv, sha) {
          RunQuiet(h, es, more, i, conv, sha);
        }
      }
    } else {
      var c :| c in y.looked && Holds(y.looked[c], conv, sha);
      var id, _ := TwoNewIds(y.s.drafts.Keys);
      var more := [Insert(c, id)];
      AtPrefix(h, es, more, |es|);
      var i: nat := |es|;
      assert (es + more)[i] == Insert(c, id);
      assert InsertsAt(h, es + more, i, conv, sha);
      assert !NoDraftAfter(h, es, more, conv, sha);
    }
  }
}
