/** Enrolled devices and their signatures (approval/devices.py). */
module Devices {
  import opened Prelude
  import opened Encoding

  datatype Device = Device(key: Bytes, active: bool)

  /** A signature is ideal: it names its key and the bytes it covers. */
  datatype Signature = Signature(key: Bytes, over: Bytes)

  /** `active_signing_key` */
  function ActiveKey(devices: map<Bytes, Device>, id: Bytes): Option<Bytes>
  {
    if id in devices && devices[id].active then Some(devices[id].key) else None
  }
}
