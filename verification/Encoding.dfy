/** The length-prefixed encodings that are signed or hashed: approval decisions, capability grants,
    enrolment bindings, dedupe keys and import fingerprints. A byte string is a string whose
    characters are the bytes; text fields are given as their UTF-8 bytes. Every digest is
    represented by its pre-image, so what has to hold is that the pre-images are injective and that
    no two purposes share one. */
module Encoding {
  import opened Prelude

  type Bytes = string

  const TWO32: nat := 0x1_0000_0000
  const TWO64: nat := 0x1_0000_0000_0000_0000

  // ---------------------------------------------------------------- integers

  function Byte(n: nat): char
    requires n < 256
  {
    n as char
  }

  /** `n.to_bytes(4, "big")` */
  function U32(n: nat): (r: Bytes)
    requires n < TWO32
    ensures |r| == 4
  {
    [Byte(n / 0x100_0000), Byte(n / 0x1_0000 % 256), Byte(n / 256 % 256), Byte(n % 256)]
  }

  function FromU32(s: Bytes): int
    requires |s| == 4
  {
    s[0] as int * 0x100_0000 + s[1] as int * 0x1_0000 + s[2] as int * 256 + s[3] as int
  }

  lemma U32RoundTrip(n: nat)
    requires n < TWO32
    ensures FromU32(U32(n)) == n
  {
    var a := n / 256;
    var b := a / 256;
    assert n / 0x1_0000 == b && n / 0x100_0000 == b / 256;
  }

  /** `n.to_bytes(8, "big")` */
  function U64(n: nat): (r: Bytes)
    requires n < TWO64
    ensures |r| == 8
  {
    U32(n / TWO32) + U32(n % TWO32)
  }

  lemma U64Injective(m: nat, n: nat)
    requires m < TWO64 && n < TWO64 && U64(m) == U64(n)
    ensures m == n
  {
    assert U32(m / TWO32) == U64(m)[..4] && U32(n / TWO32) == U64(n)[..4];
    assert U32(m % TWO32) == U64(m)[4..] && U32(n % TWO32) == U64(n)[4..];
    hide U32;
    U32RoundTrip(m / TWO32);
    U32RoundTrip(n / TWO32);
    U32RoundTrip(m % TWO32);
    U32RoundTrip(n % TWO32);
  }

  /** `n.to_bytes(8, "big", signed=True)` */
  function I64(n: int): (r: Bytes)
    requires -(TWO64 / 2) <= n < TWO64 / 2
    ensures |r| == 8
  {
    U64(if n < 0 then n + TWO64 else n)
  }

  function Digits(n: nat): (r: string)
    ensures r != "" && forall i :: 0 <= i < |r| ==> '0' <= r[i] <= '9'
  {
    if n < 10 then [('0' as int + n) as char] else Digits(n / 10) + [('0' as int + n % 10) as char]
  }

  function Value(s: string): int
  {
    if s == "" then 0 else Value(s[..|s| - 1]) * 10 + (s[|s| - 1] as int - '0' as int)
  }

  lemma {:induction false} DigitsRoundTrip(n: nat)
    ensures Value(Digits(n)) == n
  {
    if n >= 10 {
      DigitsRoundTrip(n / 10);
      assert Digits(n)[..|Digits(n)| - 1] == Digits(n / 10);
    }
  }

  /** `str(n)` */
  function Decimal(n: int): string
  {
    if n < 0 then "-" + Digits(-n) else Digits(n)
  }

  lemma DecimalInjective(m: int, n: int)
    requires Decimal(m) == Decimal(n)
    ensures m == n
  {
    hide Digits;
    assert Digits(if m < 0 then -m else m)[0] != '-' && Digits(if n < 0 then -n else n)[0] != '-';
    if m < 0 {
      assert Decimal(m)[1..] == Digits(-m);
      assert Decimal(n)[1..] == Digits(-n);
      DigitsRoundTrip(-m);
      DigitsRoundTrip(-n);
    } else {
      DigitsRoundTrip(m);
      DigitsRoundTrip(n);
    }
  }

  // ---------------------------------------------------------------- length-prefixed parts

  /** Every part's length fits its four-byte prefix; the source raises OverflowError otherwise. */
  predicate Fits(parts: seq<Bytes>)
  {
    forall i :: 0 <= i < |parts| ==> |parts[i]| < TWO32
  }

  function Lp(parts: seq<Bytes>): Bytes
    requires Fits(parts)
  {
    if parts == [] then "" else U32(|parts[0]|) + parts[0] + Lp(parts[1..])
  }

  /** A reader for `Lp`, written independently of it. */
  function ReadLp(s: Bytes): Option<seq<Bytes>>
    decreases |s|
  {
    if s == "" then Some([])
    else if |s| < 4 then None
    else
      var n := FromU32(s[..4]);
      if !(0 <= n <= |s| - 4) then None
      else
        match ReadLp(s[4 + n..])
        case None => None
        case Some(rest) => Some([s[4..4 + n]] + rest)
  }

  lemma ReadFirst(p: Bytes, rest: Bytes, parts: seq<Bytes>)
    requires |p| < TWO32 && ReadLp(rest) == Some(parts)
    ensures ReadLp(U32(|p|) + p + rest) == Some([p] + parts)
  {
    var s := U32(|p|) + p + rest;
    U32RoundTrip(|p|);
    hide U32, FromU32;
    assert s[..4] == U32(|p|);
    assert s[4..4 + |p|] == p;
    assert s[4 + |p|..] == rest;
  }

  lemma {:induction false} LpRoundTrip(parts: seq<Bytes>)
    requires Fits(parts)
    ensures ReadLp(Lp(parts)) == Some(parts)
  {
    if parts != [] {
      hide U32, ReadLp;
      LpRoundTrip(parts[1..]);
      ReadFirst(parts[0], Lp(parts[1..]), parts[1..]);
      assert [parts[0]] + parts[1..] == parts;
    } else {
      assert ReadLp("") == Some([]);
    }
  }

  lemma LpInjective(a: seq<Bytes>, b: seq<Bytes>)
    requires Fits(a) && Fits(b) && Lp(a) == Lp(b)
    ensures a == b
  {
    LpRoundTrip(a);
    LpRoundTrip(b);
  }

  lemma {:induction false} LpAppend(a: seq<Bytes>, p: Bytes)
    requires Fits(a) && |p| < TWO32
    ensures Lp(a + [p]) == Lp(a) + (U32(|p|) + p)
  {
    hide U32;
    if a == [] {
      assert a + [p] == [p];
    } else {
      LpAppend(a[1..], p);
      assert (a + [p])[1..] == a[1..] + [p];
    }
  }

  /** A domain-separated message: the tag, then the parts. */
  function Tagged(tag: Bytes, parts: seq<Bytes>): Bytes
    requires Fits(parts)
  {
    tag + Lp(parts)
  }

  lemma TaggedInjective(tag: Bytes, a: seq<Bytes>, b: seq<Bytes>)
    requires Fits(a) && Fits(b) && Tagged(tag, a) == Tagged(tag, b)
    ensures a == b
  {
    hide Lp;
    assert Tagged(tag, a)[|tag|..] == Lp(a);
    assert Tagged(tag, b)[|tag|..] == Lp(b);
    LpInjective(a, b);
  }

  /** The loop every encoder runs: a buffer that starts with the tag and grows part by part. */
  method Encode(tag: Bytes, parts: seq<Bytes>) returns (out: Option<Bytes>)
    ensures out == if Fits(parts) then Some(Tagged(tag, parts)) else None
  {
    var buf := tag;
    for i := 0 to |parts|
      invariant Fits(parts[..i]) && buf == Tagged(tag, parts[..i])
    {
      if |parts[i]| >= TWO32 {
        return None;
      }
      LpAppend(parts[..i], parts[i]);
      assert parts[..i + 1] == parts[..i] + [parts[i]];
      buf := buf + U32(|parts[i]|) + parts[i];
    }
    assert parts[..|parts|] == parts;
    out := Some(buf);
  }

  // ---------------------------------------------------------------- approval decisions

  const DECISION_TAG: Bytes := "WHATSVAULT-DRAFT-DECISION-V1\n"
  const GRANT_TAG: Bytes := "WHATSVAULT-CAPABILITY-V1\n"
  const ENROL_TAG: Bytes := "WHATSVAULT-ENROL-V1\n"
  const VERSION_1: Bytes := [0 as char, 1 as char]

  /** What a draft contributes to the decision about it. */
  datatype Terms = Terms(
    account: Bytes, phone: Bytes, recipient: Option<Bytes>, bodySha: Option<Bytes>, kind: Bytes,
    templateId: Option<Bytes>, templateParamsSha: Option<Bytes>, replyTo: Option<Bytes>, target: Option<Bytes>,
    attachments: Option<Bytes>, nonce: Option<Bytes>, createdAt: Option<int>, expiresAt: Option<int>)

  /** The sixteen fields of a decision: the verdict, the draft, its terms and the device. */
  datatype Decision = Decision(verdict: Bytes, draftId: Bytes, terms: Terms, deviceId: Bytes)

  /** An absent field is an empty slot. */
  function Slot(v: Option<Bytes>): Bytes
  {
    match v
    case None => ""
    case Some(b) => b
  }

  predicate IsU64(v: Option<int>)
  {
    v.Some? ==> 0 <= v.value < TWO64
  }

  function U64Slot(v: Option<int>): Bytes
    requires IsU64(v)
  {
    match v
    case None => ""
    case Some(n) => U64(n)
  }

  /** The slots in their fixed order. */
  function Slots(d: Decision): (r: seq<Bytes>)
    requires IsU64(d.terms.createdAt) && IsU64(d.terms.expiresAt)
    ensures |r| == 16
  {
    var t := d.terms;
    [d.verdict, d.draftId, t.account, t.phone, Slot(t.recipient), Slot(t.bodySha), t.kind, Slot(t.templateId),
     Slot(t.templateParamsSha), Slot(t.replyTo), Slot(t.target), Slot(t.attachments), Slot(t.nonce),
     U64Slot(t.createdAt), U64Slot(t.expiresAt), d.deviceId]
  }

  predicate Encodable(d: Decision)
  {
    IsU64(d.terms.createdAt) && IsU64(d.terms.expiresAt) && Fits(Slots(d))
  }

  /** `canonical.encode` */
  function DecisionBytes(d: Decision): Bytes
    requires Encodable(d)
  {
    Tagged(DECISION_TAG + VERSION_1, Slots(d))
  }

  /** Equal bytes mean equal slots: the recipient, the phone number, the body hash and all the
      rest, up to the one ambiguity that an absent field and an empty one are the same slot. */
  lemma DecisionInjective(d: Decision, e: Decision)
    requires Encodable(d) && Encodable(e) && DecisionBytes(d) == DecisionBytes(e)
    ensures d.verdict == e.verdict && d.draftId == e.draftId && d.deviceId == e.deviceId
    ensures var t, u := d.terms, e.terms;
      && t.account == u.account && t.phone == u.phone && t.kind == u.kind
      && Slot(t.recipient) == Slot(u.recipient) && Slot(t.bodySha) == Slot(u.bodySha)
      && Slot(t.templateId) == Slot(u.templateId) && Slot(t.templateParamsSha) == Slot(u.templateParamsSha)
      && Slot(t.replyTo) == Slot(u.replyTo) && Slot(t.target) == Slot(u.target)
      && Slot(t.attachments) == Slot(u.attachments) && Slot(t.nonce) == Slot(u.nonce)
      && t.createdAt == u.createdAt && t.expiresAt == u.expiresAt
  {
    TaggedInjective(DECISION_TAG + VERSION_1, Slots(d), Slots(e));
    hide Tagged, Lp, Slot, U64Slot;
    var x, y := Slots(d), Slots(e);
    assert x[0] == y[0] && x[1] == y[1] && x[2] == y[2] && x[3] == y[3] && x[4] == y[4] && x[5] == y[5];
    assert x[6] == y[6] && x[7] == y[7] && x[8] == y[8] && x[9] == y[9] && x[10] == y[10] && x[11] == y[11];
    assert x[12] == y[12] && x[13] == y[13] && x[14] == y[14] && x[15] == y[15];
    hide Slots;
    U64SlotInjective(d.terms.createdAt, e.terms.createdAt);
    U64SlotInjective(d.terms.expiresAt, e.terms.expiresAt);
  }

  lemma U64SlotInjective(a: Option<int>, b: Option<int>)
    requires IsU64(a) && IsU64(b) && U64Slot(a) == U64Slot(b)
    ensures a == b
  {
    hide U64;
    if a.Some? && b.Some? {
      U64Injective(a.value, b.value);
    }
  }

  /** `capabilities.encode_grant` over its nine slots. */
  function GrantBytes(slots: seq<Bytes>): Bytes
    requires Fits(slots)
  {
    Tagged(GRANT_TAG + VERSION_1, slots)
  }

  /** `devices._binding` over its four parts. */
  function EnrolBytes(parts: seq<Bytes>): Bytes
    requires Fits(parts)
  {
    Tagged(ENROL_TAG, parts)
  }

  lemma GrantInjective(a: seq<Bytes>, b: seq<Bytes>)
    requires Fits(a) && Fits(b) && GrantBytes(a) == GrantBytes(b)
    ensures a == b
  {
    TaggedInjective(GRANT_TAG + VERSION_1, a, b);
  }

  /** A signature given for one purpose is never a signature for another. */
  lemma PurposesDisjoint(d: Decision, grant: seq<Bytes>, enrol: seq<Bytes>)
    requires Encodable(d) && Fits(grant) && Fits(enrol)
    ensures DecisionBytes(d) != GrantBytes(grant)
    ensures DecisionBytes(d) != EnrolBytes(enrol)
    ensures GrantBytes(grant) != EnrolBytes(enrol)
  {
    hide Lp, Slots;
    assert DecisionBytes(d)[11] == 'D' && GrantBytes(grant)[11] == 'C' && EnrolBytes(enrol)[11] == 'E';
  }

  // ---------------------------------------------------------------- dedupe keys

  const MESSAGE_TAG: Bytes := "WHATSVAULT-DEDUPE-MESSAGE-V1"
  const STATUS_TAG: Bytes := "WHATSVAULT-DEDUPE-STATUS-V1"
  const OTHER_TAG: Bytes := "WHATSVAULT-DEDUPE-OTHER-V1"

  /** What `semantic_key` hashes, by family; `recipient` is the slot, with its sentinel for an absent one. */
  datatype Key =
    | MessageKey(phone: Bytes, wamid: Bytes)
    | StatusKey(phone: Bytes, wamid: Bytes, status: Bytes, at: int, recipient: Bytes)
    | OtherKey(raw: Bytes)

  function KeyParts(k: Key): seq<Bytes>
    requires !k.OtherKey?
  {
    match k
    case MessageKey(p, w) => ["meta", p, w]
    case StatusKey(p, w, st, at, r) => ["meta", p, w, st, Decimal(at), r]
  }

  predicate Hashable(k: Key)
  {
    k.OtherKey? || Fits(KeyParts(k))
  }

  function KeyBytes(k: Key): Bytes
    requires Hashable(k)
  {
    match k
    case MessageKey(_, _) => Tagged(MESSAGE_TAG, KeyParts(k))
    case StatusKey(_, _, _, _, _) => Tagged(STATUS_TAG, KeyParts(k))
    case OtherKey(raw) => OTHER_TAG + raw
  }

  /** Two events are deduplicated exactly when their keys agree in family and in every part. */
  lemma KeyBytesInjective(a: Key, b: Key)
    requires Hashable(a) && Hashable(b)
    ensures KeyBytes(a) == KeyBytes(b) <==> a == b
  {
    if KeyBytes(a) == KeyBytes(b) {
      FamiliesDisjoint(a, b);
      if a.OtherKey? {
        assert KeyBytes(a)[|OTHER_TAG|..] == a.raw && KeyBytes(b)[|OTHER_TAG|..] == b.raw;
      } else {
        TaggedInjective(if a.MessageKey? then MESSAGE_TAG else STATUS_TAG, KeyParts(a), KeyParts(b));
        KeyPartsInjective(a, b);
      }
    }
  }

  lemma FamiliesDisjoint(a: Key, b: Key)
    requires Hashable(a) && Hashable(b) && KeyBytes(a) == KeyBytes(b)
    ensures a.MessageKey? == b.MessageKey? && a.StatusKey? == b.StatusKey?
  {
    hide Lp, KeyParts, Fits;
    assert forall k :: k == a || k == b ==>
      KeyBytes(k)[18] == if k.MessageKey? then 'M' else if k.StatusKey? then 'S' else 'O';
  }

  lemma KeyPartsInjective(a: Key, b: Key)
    requires !a.OtherKey? && !b.OtherKey? && a.MessageKey? == b.MessageKey? && KeyParts(a) == KeyParts(b)
    ensures a == b
  {
    var x, y := KeyParts(a), KeyParts(b);
    assert x[1] == y[1] && x[2] == y[2];
    if a.StatusKey? {
      assert x[3] == y[3] && x[4] == y[4] && x[5] == y[5];
      DecimalInjective(a.at, b.at);
    }
  }

  // ---------------------------------------------------------------- import fingerprints

  const CONTENT_TAG: Bytes := "WHATSVAULT-CONTENT-V1\n"
  const IMPORT_TAG: Bytes := "WHATSVAULT-IMPORT-FP-V1\n"

  datatype Occurrence = Occurrence(
    version: nat, conv: Bytes, minute: int, sender: Bytes, kind: Bytes, content: Bytes, index: nat)

  predicate Fingerprintable(o: Occurrence)
  {
    && o.version < TWO32 && o.index < TWO32 && -(TWO64 / 2) <= o.minute < TWO64 / 2
    && Fits([o.conv, o.sender, o.kind, o.content])
  }

  function FingerprintParts(o: Occurrence): seq<Bytes>
    requires Fingerprintable(o)
  {
    [U32(o.version), o.conv, I64(o.minute), o.sender, o.kind, o.content, U32(o.index)]
  }

  lemma FingerprintPartsFit(o: Occurrence)
    requires Fingerprintable(o)
    ensures Fits(FingerprintParts(o))
  {
    var four := [o.conv, o.sender, o.kind, o.content];
    assert |four[0]| < TWO32 && |four[1]| < TWO32 && |four[2]| < TWO32 && |four[3]| < TWO32;
  }

  function FingerprintBytes(o: Occurrence): Bytes
    requires Fingerprintable(o)
  {
    FingerprintPartsFit(o);
    Tagged(IMPORT_TAG, FingerprintParts(o))
  }

  /** An import fingerprint names one conversation, minute, sender, type, content and occurrence. */
  lemma FingerprintInjective(a: Occurrence, b: Occurrence)
    requires Fingerprintable(a) && Fingerprintable(b) && FingerprintBytes(a) == FingerprintBytes(b)
    ensures a == b
  {
    hide Tagged, U32, U64, Lp, FromU32;
    FingerprintPartsFit(a);
    FingerprintPartsFit(b);
    TaggedInjective(IMPORT_TAG, FingerprintParts(a), FingerprintParts(b));
    var x, y := FingerprintParts(a), FingerprintParts(b);
    assert x[0] == y[0] && x[1] == y[1] && x[2] == y[2] && x[3] == y[3] && x[4] == y[4] && x[5] == y[5] && x[6] == y[6];
    U32RoundTrip(a.version);
    U32RoundTrip(b.version);
    U32RoundTrip(a.index);
    U32RoundTrip(b.index);
    U64Injective(if a.minute < 0 then a.minute + TWO64 else a.minute,
      if b.minute < 0 then b.minute + TWO64 else b.minute);
  }

  function ContentBytes(kind: Bytes, body: Bytes): Bytes
    requires Fits([kind, body])
  {
    Tagged(CONTENT_TAG, [kind, body])
  }

  lemma ContentInjective(k1: Bytes, b1: Bytes, k2: Bytes, b2: Bytes)
    requires Fits([k1, b1]) && Fits([k2, b2]) && ContentBytes(k1, b1) == ContentBytes(k2, b2)
    ensures k1 == k2 && b1 == b2
  {
    TaggedInjective(CONTENT_TAG, [k1, b1], [k2, b2]);
    assert [k1, b1][0] == [k2, b2][0] && [k1, b1][1] == [k2, b2][1];
  }

  // ---------------------------------------------------------------- attachments

  const ATTACH_TAG: Bytes := "WHATSVAULT-ATTACHMENTS-V1\n"

  datatype Attachment = Attachment(sha: Bytes, mime: Bytes, size: int)

  /** Four parts an item, the first its position. */
  function AttachmentParts(items: seq<Attachment>): (r: seq<Bytes>)
    ensures |r| == 4 * |items|
  {
    if items == [] then []
    else
      var n := |items| - 1;
      AttachmentParts(items[..n]) + [Decimal(n), items[n].sha, items[n].mime, Decimal(items[n].size)]
  }

  lemma {:induction false} AttachmentPartsInjective(a: seq<Attachment>, b: seq<Attachment>)
    requires AttachmentParts(a) == AttachmentParts(b)
    ensures a == b
  {
    hide Decimal;
    var p, q := AttachmentParts(a), AttachmentParts(b);
    assert |p| == 4 * |a| && |q| == 4 * |b|;
    if a != [] {
      var n := |a| - 1;
      assert p[..4 * n] == AttachmentParts(a[..n]) && q[..4 * n] == AttachmentParts(b[..n]);
      AttachmentPartsInjective(a[..n], b[..n]);
      assert p[4 * n + 1] == a[n].sha && q[4 * n + 1] == b[n].sha;
      assert p[4 * n + 2] == a[n].mime && q[4 * n + 2] == b[n].mime;
      assert p[4 * n + 3] == Decimal(a[n].size) && q[4 * n + 3] == Decimal(b[n].size);
      DecimalInjective(a[n].size, b[n].size);
      assert a == a[..n] + [a[n]] && b == b[..n] + [b[n]];
    }
  }

  /** What is hashed for the attachments slot determines the list, its order included. */
  lemma AttachmentsInjective(a: seq<Attachment>, b: seq<Attachment>)
    requires Fits(AttachmentParts(a)) && Fits(AttachmentParts(b))
    requires Tagged(ATTACH_TAG, AttachmentParts(a)) == Tagged(ATTACH_TAG, AttachmentParts(b))
    ensures a == b
  {
    hide Tagged, AttachmentParts;
    TaggedInjective(ATTACH_TAG, AttachmentParts(a), AttachmentParts(b));
    AttachmentPartsInjective(a, b);
  }
}
