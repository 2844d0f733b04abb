/** Rows of the vault database that more than one component reads or writes. */
module Schema {
  import opened Prelude

  type MsgId = nat
  type ConvId = nat
  type AccountId = nat
  type ContactId = nat

  datatype Direction = In | Out

  datatype Origin = CloudApi | BusinessAppEcho | ManualExport

  /** What an import fingerprint identifies before the occurrence index is added. The content
      fingerprint is kept as its pre-image, the pair of message type and body. */
  datatype Bucket = Bucket(conv: ConvId, minute: int, sender: string, kind: string, body: string)

  /** The pre-image of `import_fingerprint`; Encoding.FingerprintInjective justifies using it
      in place of the digest. */
  datatype Fingerprint = Fingerprint(bucket: Bucket, occ: nat)

  /** The columns that name the account side of a message. For an import they record who imported
      it: the account, the direction read off the declared self label, and the declared time zone. */
  datatype Stamp = Stamp(account: AccountId, direction: Direction, tz: Option<string>)

  /** What was said, where and when. */
  datatype Content = Content(
    conv: ConvId, sender: Option<ContactId>, lower: int, upper: int, kind: string, text: Option<string>,
    origin: Origin, eligible: bool)

  /** A row of `messages`, its columns grouped. */
  datatype Message = Message(stamp: Stamp, content: Content, wamid: Option<string>, fp: Option<Fingerprint>)

  /** The rows that did not come from an import: live ingest leaves `import_fingerprint` null. */
  function ProviderRows(messages: map<MsgId, Message>): (r: map<MsgId, Message>)
    ensures forall m :: m in r <==> m in messages && messages[m].fp == None
    ensures forall m :: m in r ==> r[m] == messages[m]
  {
    map m | m in messages && messages[m].fp == None :: messages[m]
  }
}
