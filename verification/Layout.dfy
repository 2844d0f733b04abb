/** The byte layout of everything that is signed or hashed, as a reader on the other side finds it: the phone that
    signs a decision reproduces these bytes (approval/canonical.py, approval/capabilities.py, approval/devices.py,
    ingest/dedupe.py, importers/fingerprint.py). */
module Layout {
  import opened Prelude
  import opened Encoding

  /** The parts that follow the tag, if the bytes start with it. */
  function ReadTagged(tag: Bytes, s: Bytes): Option<seq<Bytes>>
  {
    if |tag| <= |s| && s[..|tag|] == tag then ReadLp(s[|tag|..]) else None
  }

  /** The number that eight bytes stand for, the most significant first. */
  function FromU64(s: Bytes): int
    requires |s| == 8
  {
    FromU32(s[..4]) * 0x1_0000_0000 + FromU32(s[4..])
  }

  lemma TaggedReads(tag: Bytes, parts: seq<Bytes>)
    requires Fits(parts)
    ensures ReadTagged(tag, Tagged(tag, parts)) == Some(parts)
  {
    hide Lp, ReadLp;
    LpRoundTrip(parts);
    assert Tagged(tag, parts)[..|tag|] == tag && Tagged(tag, parts)[|tag|..] == Lp(parts);
  }

  lemma U64Reads(n: nat)
    requires n < TWO64
    ensures FromU64(U64(n)) == n
  {
    U32RoundTrip(n / TWO32);
    U32RoundTrip(n % TWO32);
    hide U32, FromU32;
    assert U64(n)[..4] == U32(n / TWO32) && U64(n)[4..] == U32(n % TWO32);
  }

  /** An absent text is an empty slot, and an absent time too; a time is eight bytes. */
  predicate TextSlot(s: Bytes, v: Option<Bytes>)
  {
    match v
    case None => s == ""
    case Some(t) => s == t
  }

  predicate TimeSlot(s: Bytes, v: Option<int>)
  {
    match v
    case None => s == ""
    case Some(n) => |s| == 8 && FromU64(s) == n
  }

  lemma TimeSlotIs(v: Option<int>)
    requires IsU64(v)
    ensures TimeSlot(U64Slot(v), v)
  {
    hide U64, FromU64;
    if v.Some? { U64Reads(v.value); }
  }

  /** A decision: its domain, version 1 in two bytes, and sixteen slots in this order. */
  lemma DecisionLayout(d: Decision) returns (p: seq<Bytes>)
    requires Encodable(d)
    ensures ReadTagged("WHATSVAULT-DRAFT-DECISION-V1\n" + [0 as char, 1 as char], DecisionBytes(d)) == Some(p)
    ensures |p| == 16
    ensures p[0] == d.verdict && p[1] == d.draftId && p[2] == d.terms.account && p[3] == d.terms.phone
    ensures TextSlot(p[4], d.terms.recipient) && TextSlot(p[5], d.terms.bodySha) && p[6] == d.terms.kind
    ensures TextSlot(p[7], d.terms.templateId) && TextSlot(p[8], d.terms.templateParamsSha)
    ensures TextSlot(p[9], d.terms.replyTo) && TextSlot(p[10], d.terms.target) && TextSlot(p[11], d.terms.attachments)
    ensures TextSlot(p[12], d.terms.nonce) && TimeSlot(p[13], d.terms.createdAt) && TimeSlot(p[14], d.terms.expiresAt)
    ensures p[15] == d.deviceId
  {
    hide ReadTagged, Tagged, TimeSlot, U64Slot;
    p := Slots(d);
    TaggedReads(DECISION_TAG + VERSION_1, p);
    TimeSlotIs(d.terms.createdAt);
    TimeSlotIs(d.terms.expiresAt);
  }

  /** A grant, over the slots it is given, and an enrolment: domain and parts. */
  lemma GrantLayout(slots: seq<Bytes>)
    requires Fits(slots)
    ensures ReadTagged("WHATSVAULT-CAPABILITY-V1\n" + [0 as char, 1 as char], GrantBytes(slots)) == Some(slots)
    ensures ReadTagged("WHATSVAULT-ENROL-V1\n", EnrolBytes(slots)) == Some(slots)
  {
    hide ReadTagged, Tagged;
    TaggedReads(GRANT_TAG + VERSION_1, slots);
    TaggedReads(ENROL_TAG, slots);
  }

  /** A dedupe key, by family: the provider, the number, the id; for a status also the status, the time in decimal
      digits and the recipient; and for anything else the whole event as text. */
  lemma KeyLayout(k: Key)
    requires Hashable(k)
    ensures k.MessageKey? ==>
      ReadTagged("WHATSVAULT-DEDUPE-MESSAGE-V1", KeyBytes(k)) == Some(["meta", k.phone, k.wamid])
    ensures k.StatusKey? ==>
      ReadTagged("WHATSVAULT-DEDUPE-STATUS-V1", KeyBytes(k))
        == Some(["meta", k.phone, k.wamid, k.status, Decimal(k.at), k.recipient])
    ensures k.OtherKey? ==> KeyBytes(k) == "WHATSVAULT-DEDUPE-OTHER-V1" + k.raw
  {
    hide ReadTagged, Tagged, Decimal;
    if !k.OtherKey? { TaggedReads(if k.MessageKey? then MESSAGE_TAG else STATUS_TAG, KeyParts(k)); }
  }

  lemma {:induction false} DecimalReads(n: nat)
    ensures Value(Decimal(n)) == n
    ensures forall i :: 0 <= i < |Decimal(n)| ==> '0' <= Decimal(n)[i] <= '9'
  {
    DigitsRoundTrip(n);
    hide Digits, Value;
  }

  lemma NegativeReads(n: int)
    requires n > 0
    ensures Decimal(-n) == "-" + Decimal(n)
  {
    hide Digits;
  }

  /** An import fingerprint: version, conversation, minute as a signed number, sender, kind, content and occurrence. */
  lemma FingerprintLayout(o: Occurrence) returns (p: seq<Bytes>)
    requires Fingerprintable(o)
    ensures ReadTagged("WHATSVAULT-IMPORT-FP-V1\n", FingerprintBytes(o)) == Some(p) && |p| == 7
    ensures |p[0]| == 4 && FromU32(p[0]) == o.version && p[1] == o.conv
    ensures |p[2]| == 8 && FromU64(p[2]) == (if o.minute < 0 then o.minute + TWO64 else o.minute)
    ensures p[3] == o.sender && p[4] == o.kind && p[5] == o.content && |p[6]| == 4 && FromU32(p[6]) == o.index
  {
    hide ReadTagged, Tagged, U32, U64, FromU32, FromU64;
    FingerprintPartsFit(o);
    p := FingerprintParts(o);
    TaggedReads(IMPORT_TAG, p);
    U32RoundTrip(o.version);
    U32RoundTrip(o.index);
    U64Reads(if o.minute < 0 then o.minute + TWO64 else o.minute);
  }

  lemma ContentLayout(kind: Bytes, body: Bytes)
    requires Fits([kind, body])
    ensures ReadTagged("WHATSVAULT-CONTENT-V1\n", ContentBytes(kind, body)) == Some([kind, body])
  {
    hide ReadTagged, Tagged;
    TaggedReads(CONTENT_TAG, [kind, body]);
  }

  /** Attachments: for each its position, hash, type and size, four parts, in order. */
  lemma {:induction false} AttachmentLayout(items: seq<Attachment>, i: nat)
    requires i < |items|
    ensures var p := AttachmentParts(items);
      && |p| == 4 * |items| && p[4 * i] == Decimal(i) && p[4 * i + 1] == items[i].sha
      && p[4 * i + 2] == items[i].mime && p[4 * i + 3] == Decimal(items[i].size)
  {
    hide Decimal;
    var n := |items| - 1;
    if i < n { AttachmentLayout(items[..n], i); }
  }
}
