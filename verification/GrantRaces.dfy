/** Capability callers in the middle of runs (approval/capabilities.py, and `mark_read` in
    approval/sender.py): whose account's grant can pay, and what a revocation cannot stop. */
module GrantRaces {
  import opened Prelude
  import Encoding
  import opened Devices
  import opened Capabilities

  type Bytes = Encoding.Bytes

  /** The row can pay at `now` if the keys and signatures turn out right: it is not expired or used up, and its
      signature is over its own terms. */
  predicate Payable(id: Bytes, row: Grant, now: int)
  {
    && (row.terms.expires.Some? ==> now < row.terms.expires.value)
    && (row.terms.max.Some? ==> row.used < row.terms.max.value)
    && Encodable(id, row.terms) && row.signature.over == Encoding.GrantBytes(Slots(id, row.terms))
  }

  /** The MARK_READ grant can pay for a message of the conversation. */
  predicate MayPay(s: State, id: Bytes, conv: Bytes, now: int)
  {
    id in s.grants && Matches(s.grants[id], MARK_READ, conv) && Payable(id, s.grants[id], now)
  }

  ghost predicate AllName(s: State, conv: Bytes, now: int, account: Bytes)
  {
    forall id :: MayPay(s, id, conv, now) ==> s.grants[id].terms.account == Some(account)
  }

  lemma UsableIsPayable(s: State, id: Bytes, row: Grant, now: int)
    requires Usable(s, id, row, now)
    ensures Payable(id, row, now)
  {
    hide Encoding.GrantBytes, Slots;
  }

  predicate Asks(e: Event, c: CallerId)
  {
    (e.DoSelect? || e.DoAskToMark?) && e.caller == c
  }

  ghost predicate NoNewAsk(more: seq<Event>, c: CallerId)
  {
    forall i :: 0 <= i < |more| ==> !Asks(more[i], c)
  }

  /** What the caller that selected `rows` from `s` can have come to. */
  predicate CameTo(s: State, rows: seq<(Bytes, Grant)>, now: int, x: Caller)
  {
    match x
    case Lost => true
    case Won(g, _) => exists i :: 0 <= i < |rows| && rows[i].0 == g && Payable(g, rows[i].1, now)
    case Trying(_, _, n, rs, at, passed, _) =>
      rs == rows && n == now && (passed ==> at < |rows| && Payable(rows[at].0, rows[at].1, now))
  }

  lemma StepCame(s0: State, rows: seq<(Bytes, Grant)>, now: int, s: State, e: Event, c: CallerId)
    requires !Asks(e, c) && (c in s.callers ==> CameTo(s0, rows, now, s.callers[c]))
    ensures c in Step(s, e).callers ==> CameTo(s0, rows, now, Step(s, e).callers[c])
  {
    if e == DoCheck(c) {
      CheckCame(s0, rows, now, s, c);
    } else if e == DoUpdate(c) {
      UpdateCame(s0, rows, now, s, c);
    } else {
      OthersStay(s, e, c);
    }
  }

  lemma CheckCame(s0: State, rows: seq<(Bytes, Grant)>, now: int, s: State, c: CallerId)
    requires c in s.callers ==> CameTo(s0, rows, now, s.callers[c])
    ensures c in Check(s, c).callers ==> CameTo(s0, rows, now, Check(s, c).callers[c])
  {
    hide Payable, Usable;
    if c in s.callers && s.callers[c].Trying? && s.callers[c].at < |s.callers[c].rows| {
      var t := s.callers[c];
      if Usable(s, t.rows[t.at].0, t.rows[t.at].1, t.now) {
        UsableIsPayable(s, t.rows[t.at].0, t.rows[t.at].1, t.now);
      }
    }
  }

  lemma UpdateCame(s0: State, rows: seq<(Bytes, Grant)>, now: int, s: State, c: CallerId)
    requires c in s.callers ==> CameTo(s0, rows, now, s.callers[c])
    ensures c in Update(s, c).callers ==> CameTo(s0, rows, now, Update(s, c).callers[c])
  {
    hide Payable, Unmoved;
  }

  lemma OthersStay(s: State, e: Event, c: CallerId)
    requires !Asks(e, c) && e != DoCheck(c) && e != DoUpdate(c)
    ensures c in Step(s, e).callers ==> c in s.callers && Step(s, e).callers[c] == s.callers[c]
  {
    hide Vouched, IsSelection, Usable, Bound, Unmoved;
  }

  lemma StepTerms(s: State, e: Event, g: Bytes)
    requires g in s.grants
    ensures g in Step(s, e).grants && Step(s, e).grants[g].terms == s.grants[g].terms
  {
    hide Vouched, IsSelection, Usable, Bound, Unmoved;
  }

  lemma {:induction false} TermsStay(es: seq<Event>, m: nat, n: nat, g: Bytes)
    requires m <= n <= |es| && g in At(es, m).grants
    ensures g in At(es, n).grants && At(es, n).grants[g].terms == At(es, m).grants[g].terms
  {
    hide Step;
    if m < n {
      TermsStay(es, m, n - 1, g);
      StepTerms(At(es, n - 1), es[n - 1], g);
    }
  }

  /** The run in which `c` asks to mark `target` with these rows, followed by `more`. */
  function After(es: seq<Event>, c: CallerId, target: Target, conv: Bytes, now: int, rows: seq<(Bytes, Grant)>,
      more: seq<Event>): seq<Event>
  {
    es + [DoAskToMark(c, target, conv, now, rows)] + more
  }

  lemma AskIs(s: State, c: CallerId, target: Target, conv: Bytes, now: int, rows: seq<(Bytes, Grant)>)
    requires c !in s.callers && Bound(s.messages, target, conv) && IsSelection(s, MARK_READ, conv, rows)
    ensures Step(s, DoAskToMark(c, target, conv, now, rows))
      == Become(s, c, Trying(MARK_READ, conv, now, rows, 0, false, Some(target)))
  {
    hide Bound, IsSelection;
  }

  lemma AskStarts(es: seq<Event>, c: CallerId, target: Target, conv: Bytes, now: int, rows: seq<(Bytes, Grant)>,
      more: seq<Event>)
    requires var s := At(es, |es|);
      c !in s.callers && Bound(s.messages, target, conv) && IsSelection(s, MARK_READ, conv, rows)
    ensures At(After(es, c, target, conv, now, rows, more), |es| + 1)
      == Become(At(es, |es|), c, Trying(MARK_READ, conv, now, rows, 0, false, Some(target)))
    ensures At(After(es, c, target, conv, now, rows, more), |es|) == At(es, |es|)
  {
    hide At, Step, Bound, IsSelection;
    var e := DoAskToMark(c, target, conv, now, rows);
    AskIs(At(es, |es|), c, target, conv, now, rows);
    AtMore(es, e);
    AtPrefix(es + [e], more, |es| + 1);
    AtPrefix(es, [e] + more, |es|);
    assert es + [e] + more == es + ([e] + more);
  }

  lemma {:induction false} RunCame(es: seq<Event>, c: CallerId, target: Target, conv: Bytes, now: int,
      rows: seq<(Bytes, Grant)>, more: seq<Event>, n: nat)
    requires var s := At(es, |es|);
      c !in s.callers && Bound(s.messages, target, conv) && IsSelection(s, MARK_READ, conv, rows)
    requires NoNewAsk(more, c) && |es| + 1 <= n <= |es| + 1 + |more|
    ensures var s' := At(After(es, c, target, conv, now, rows, more), n);
      c in s'.callers ==> CameTo(At(es, |es|), rows, now, s'.callers[c])
  {
    var all := After(es, c, target, conv, now, rows, more);
    AskStarts(es, c, target, conv, now, rows, more);
    hide Step, Bound, IsSelection;
    if n > |es| + 1 {
      RunCame(es, c, target, conv, now, rows, more, n - 1);
      hide CameTo;
      assert all[n - 1] == more[n - 1 - |es| - 1];
      StepCame(At(es, |es|), rows, now, At(all, n - 1), all[n - 1], c);
    }
  }

  /** In the run that follows, if `c` wins at all it wins a grant of account `account`. */
  ghost predicate WinsOwn(es: seq<Event>, c: CallerId, account: Bytes)
  {
    var s := At(es, |es|);
    c in s.callers && s.callers[c].Won? ==>
      s.callers[c].grant in s.grants && s.grants[s.callers[c].grant].terms.account == Some(account)
  }

  lemma OwnGrantsPay(es: seq<Event>, c: CallerId, target: Target, conv: Bytes, now: int, rows: seq<(Bytes, Grant)>,
      more: seq<Event>)
    requires var s := At(es, |es|);
      c !in s.callers && Bound(s.messages, target, conv) && IsSelection(s, MARK_READ, conv, rows)
    requires NoNewAsk(more, c)
    requires AllName(At(es, |es|), conv, now, target.0)
    ensures WinsOwn(After(es, c, target, conv, now, rows, more), c, target.0)
  {
    hide At, Matches, Payable, Bound;
    var all := After(es, c, target, conv, now, rows, more);
    RunCame(es, c, target, conv, now, rows, more, |all|);
    AskStarts(es, c, target, conv, now, rows, more);
    var s, s' := At(es, |es|), At(all, |all|);
    if c in s'.callers && s'.callers[c].Won? {
      var g := s'.callers[c].grant;
      var i :| 0 <= i < |rows| && rows[i].0 == g && Payable(g, rows[i].1, now);
      assert g in s.grants && s.grants[g] == rows[i].1;
      assert MayPay(s, g, conv, now);
      TermsStay(all, |es|, |all|, g);
    }
  }

  /** Enrolling the signer's device and signing makes a payable row usable. */
  lemma BecomesUsable(s: State, id: Bytes, row: Grant, now: int)
    requires Payable(id, row, now)
    ensures var s' := Step(Step(s, DoDevice(row.terms.device, Device(row.signature.key, true))), DoSign(row.signature));
      Usable(s', id, row, now) && s'.grants == s.grants && s'.callers == s.callers
  {
    hide Encoding.GrantBytes, Slots;
  }

  lemma PassedConsumes(s: State, c: CallerId, id: Bytes, row: Grant)
    requires c in s.callers && s.callers[c].Trying? && !s.callers[c].passed
    requires var t := s.callers[c]; t.at < |t.rows| && t.rows[t.at] == (id, row) && Usable(s, id, row, t.now)
    requires id in s.grants && s.grants[id].used == row.used
    ensures var s' := Step(Step(s, DoCheck(c)), DoUpdate(c));
      c in s'.callers && s'.callers[c] == Won(id, s.callers[c].target)
    ensures Step(Step(s, DoCheck(c)), DoUpdate(c)).grants ==
      s.grants[id := s.grants[id].(used := s.grants[id].used + 1)]
  {
    hide Usable;
  }

  lemma ForeignGrantWins(es: seq<Event>, c: CallerId, target: Target, conv: Bytes, now: int, id: Bytes)
    returns (rows: seq<(Bytes, Grant)>, more: seq<Event>)
    requires var s := At(es, |es|); c !in s.callers && Bound(s.messages, target, conv)
    requires MayPay(At(es, |es|), id, conv, now)
    requires At(es, |es|).grants[id].terms.account != Some(target.0)
    ensures IsSelection(At(es, |es|), MARK_READ, conv, rows) && NoNewAsk(more, c)
    ensures !WinsOwn(After(es, c, target, conv, now, rows, more), c, target.0)
  {
    hide At, Matches, Payable, Bound, Step, Usable;
    var s := At(es, |es|);
    rows := SelectionWithFirst(s, MARK_READ, conv, id);
    hide IsSelection;
    var row := s.grants[id];
    more := [DoDevice(row.terms.device, Device(row.signature.key, true)), DoSign(row.signature), DoCheck(c),
      DoUpdate(c)];
    AskStarts(es, c, target, conv, now, rows, []);
    var start := es + [DoAskToMark(c, target, conv, now, rows)];
    assert After(es, c, target, conv, now, rows, []) == start;
    var s1 := At(start, |start|);
    BecomesUsable(s1, id, row, now);
    AtFourMore(start, more[0], more[1], more[2], more[3]);
    PassedConsumes(Step(Step(s1, more[0]), more[1]), c, id, row);
    assert After(es, c, target, conv, now, rows, more) == start + more;
  }

  /** The lift to runs with any interleaving. Whatever rows the SELECT of an ask made now returns, and whatever
      everybody does afterwards, the ask can only win a grant of the message's account if and only if every
      MARK_READ grant for the conversation that is neither expired, nor used up, nor wrongly signed names
      that account. */
  lemma AccountKeptInRunsIff(es: seq<Event>, c: CallerId, target: Target, conv: Bytes, now: int)
    requires var s := At(es, |es|); c !in s.callers && Bound(s.messages, target, conv)
    ensures
      (forall rows: seq<(Bytes, Grant)>, more: seq<Event> ::
        IsSelection(At(es, |es|), MARK_READ, conv, rows) && NoNewAsk(more, c) ==>
        WinsOwn(After(es, c, target, conv, now, rows, more), c, target.0))
      <==>
      AllName(At(es, |es|), conv, now, target.0)
  {
    hide At, Matches, Payable, Bound, IsSelection, NoNewAsk, WinsOwn, After;
    var s := At(es, |es|);
    if AllName(s, conv, now, target.0) {
      forall rows: seq<(Bytes, Grant)>, more: seq<Event> | IsSelection(s, MARK_READ, conv, rows) && NoNewAsk(more, c)
        ensures WinsOwn(After(es, c, target, conv, now, rows, more), c, target.0)
      {
        OwnGrantsPay(es, c, target, conv, now, rows, more);
      }
    } else {
      var id :| MayPay(s, id, conv, now) && s.grants[id].terms.account != Some(target.0);
      var rows, more := ForeignGrantWins(es, c, target, conv, now, id);
    }
  }

  // ---------------------------------------------------------------- a revocation that comes too late

  /** From empty tables: any grant that can be encoded is consumed after the device that signed it was
      revoked, if the revocation lands between the caller's check and its update. */
  lemma RevokedGrantIsConsumed(id: Bytes, terms: Terms, key: Bytes, target: Target) returns (es: seq<Event>)
    requires Encodable(id, terms) && terms.action == MARK_READ && terms.expires == None && terms.max == Some(1)
    ensures |es| > 0
    ensures var s, s' := At(es, |es| - 1), At(es, |es|);
      && s'.consumed == s.consumed + [id] && ActiveKey(s.devices, terms.device) == None
      && id in s.grants && s.grants[id].terms == terms && !Vouched(s, id, s.grants[id])
  {
    var sig := Signature(key, Encoding.GrantBytes(Slots(id, terms)));
    var setup := [DoDevice(terms.device, Device(key, true)), DoSign(sig), DoStore(id, terms, sig),
                  DoMessage(target, MessageRow(terms.conv, true))];
    SetupReached(id, terms, key, target);
    var s := At(setup, 4);
    ReadyGrant(s, id, key, 0);
    hide Encoding.GrantBytes, Encodable, Slots, At, Usable, Vouched;
    var rows := SelectionWithFirst(s, MARK_READ, terms.conv, id);
    var e1, e2, e3, e4 := DoAskToMark(0, target, terms.conv, 0, rows), DoCheck(0),
      DoDevice(terms.device, Device("", false)), DoUpdate(0);
    hide Step, IsSelection, ActiveKey;
    CheckPasses(s, 0, target, terms.conv, 0, id, rows);
    var passed := Step(Step(s, e1), e2);
    RevocationTooLate(passed, 0);
    RevokedKey(passed, terms.device);
    LastOfFour(setup, e1, e2, e3, e4);
    es := setup + [e1, e2, e3, e4];
  }

  lemma LastOfFour(es: seq<Event>, e1: Event, e2: Event, e3: Event, e4: Event)
    ensures var all := es + [e1, e2, e3, e4];
      && At(all, |all| - 1) == Step(Step(Step(At(es, |es|), e1), e2), e3)
      && At(all, |all|) == Step(At(all, |all| - 1), e4)
  {
    hide At, Step;
    AtMore(es, e1);
    AtMore(es + [e1], e2);
    var three := es + [e1] + [e2] + [e3];
    AtMore(es + [e1] + [e2], e3);
    AtMore(three, e4);
    AtPrefix(three, [e4], |three|);
    assert es + [e1, e2, e3, e4] == three + [e4];
  }

  lemma RevokedKey(s: State, device: Bytes)
    ensures ActiveKey(Step(s, DoDevice(device, Device("", false))).devices, device) == None
    ensures Step(s, DoDevice(device, Device("", false))).grants == s.grants
    ensures Step(s, DoDevice(device, Device("", false))).consumed == s.consumed
  {
  }

  lemma CheckPasses(s: State, c: CallerId, target: Target, conv: Bytes, now: int, id: Bytes, rows: seq<(Bytes, Grant)>)
    requires c !in s.callers && Bound(s.messages, target, conv) && IsSelection(s, MARK_READ, conv, rows)
    requires rows != [] && rows[0].0 == id && id in s.grants && Usable(s, id, s.grants[id], now)
    ensures var s' := Step(Step(s, DoAskToMark(c, target, conv, now, rows)), DoCheck(c));
      && s'.grants == s.grants && s'.consumed == s.consumed
      && c in s'.callers && s'.callers[c] == Trying(MARK_READ, conv, now, rows, 0, true, Some(target))
  {
    hide Vouched, Matches;
    assert rows[0].1 == s.grants[id];
    var s1 := Step(s, DoAskToMark(c, target, conv, now, rows));
    assert s1 == Become(s, c, Trying(MARK_READ, conv, now, rows, 0, false, Some(target)));
    assert Usable(s1, id, s.grants[id], now) by { SameUsable(s, s1, id, s.grants[id], now); }
    hide Usable, IsSelection;
  }
}
