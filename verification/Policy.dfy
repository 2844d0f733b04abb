/** The send policy P1 to P7 (approval/policy.py) and the clock guard (approval/clockguard.py). */
module Policy {
  import opened Prelude
  import opened Encoding

  datatype Reason = RecipientUnbound | WindowClosed | AccountBinding | Expired | DeviceInactive | RateLimit
    | GroupRecipient

  datatype Context = Context(
    recipient: Option<Bytes>, kind: Bytes, windowOpen: bool, accountOk: bool, now: Option<int>, expires: Option<int>,
    deviceActive: bool, rateOk: bool, isGroup: bool)

  predicate IsExpired(c: Context)
  {
    c.now.Some? && c.expires.Some? && c.now.value >= c.expires.value
  }

  /** Which checks fail, in the order they are made. */
  predicate Fails(c: Context, r: Reason)
  {
    match r
    case RecipientUnbound => c.recipient == None || c.recipient.value == ""
    case WindowClosed => c.kind == "text" && !c.windowOpen
    case AccountBinding => !c.accountOk
    case Expired => IsExpired(c)
    case DeviceInactive => !c.deviceActive
    case RateLimit => !c.rateOk
    case GroupRecipient => c.isGroup
  }

  /** What a check appends to the list. */
  function If(b: bool, r: Reason): seq<Reason>
  {
    if b then [r] else []
  }

  function Failed(c: Context): seq<Reason>
  {
    If(Fails(c, RecipientUnbound), RecipientUnbound) + If(Fails(c, WindowClosed), WindowClosed)
    + If(Fails(c, AccountBinding), AccountBinding) + If(Fails(c, Expired), Expired)
    + If(Fails(c, DeviceInactive), DeviceInactive) + If(Fails(c, RateLimit), RateLimit)
    + If(Fails(c, GroupRecipient), GroupRecipient)
  }

  /** The list is empty exactly when no check fails, and names exactly the failing ones. */
  lemma FailedExact(c: Context, r: Reason)
    ensures r in Failed(c) <==> Fails(c, r)
    ensures Failed(c) == [] <==> forall q :: !Fails(c, q)
  {
    forall q ensures q in Failed(c) <==> Fails(c, q) {
      match q
      case RecipientUnbound =>
      case WindowClosed =>
      case AccountBinding =>
      case Expired =>
      case DeviceInactive =>
      case RateLimit =>
      case GroupRecipient =>
    }
    if Failed(c) != [] {
      assert Failed(c)[0] in Failed(c);
    }
  }

  /** `evaluate`: the list grows check by check. */
  method Evaluate(c: Context) returns (failed: seq<Reason>)
    ensures failed == Failed(c)
  {
    hide If, Fails;
    FailsIs(c);
    failed := If(c.recipient == None || c.recipient.value == "", RecipientUnbound);
    failed := failed + If(c.kind == "text" && !c.windowOpen, WindowClosed);
    failed := failed + If(!c.accountOk, AccountBinding);
    failed := failed + If(c.now.Some? && c.expires.Some? && c.now.value >= c.expires.value, Expired);
    failed := failed + If(!c.deviceActive, DeviceInactive);
    failed := failed + If(!c.rateOk, RateLimit);
    failed := failed + If(c.isGroup, GroupRecipient);
  }

  lemma FailsIs(c: Context)
    ensures Fails(c, RecipientUnbound) == (c.recipient == None || c.recipient.value == "")
    ensures Fails(c, WindowClosed) == (c.kind == "text" && !c.windowOpen)
    ensures Fails(c, AccountBinding) == !c.accountOk
    ensures Fails(c, Expired) == (c.now.Some? && c.expires.Some? && c.now.value >= c.expires.value)
    ensures Fails(c, DeviceInactive) == !c.deviceActive
    ensures Fails(c, RateLimit) == !c.rateOk
    ensures Fails(c, GroupRecipient) == c.isGroup
  {
  }

  // ---------------------------------------------------------------- the clock

  /** The clock goes forward or is not trusted. */
  predicate Trusted(last: Option<int>, reading: int)
  {
    last.Some? ==> last.value <= reading
  }

  class ClockGuard {
    var last: Option<int>

    constructor ()
      ensures last == None
    {
      last := None;
    }

    method TrustedNow(reading: int) returns (now: Option<int>)
      modifies this
      ensures Trusted(old(last), reading) ==> now == Some(reading) && last == now
      ensures !Trusted(old(last), reading) ==> now == None && last == old(last)
    {
      if last.Some? && reading < last.value {
        return None;
      }
      last := Some(reading);
      return Some(reading);
    }
  }
}
