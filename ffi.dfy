/** The C side of the connect options: the fixed-layout record handed to the
    native connect call, and the collaborators whose records it points at.
    Address fields are nullable references; everything else is a scalar. */
module Ffi {
  import opened Owned

  const INT32_MIN: int := -0x8000_0000
  const INT32_MAX: int := 0x7fff_ffff

  /** A C `int`. */
  type int32 = x: int | INT32_MIN <= x <= INT32_MAX

  /** Rust's `n as i32` for an unsigned count: the low 32 bits of `n`, read
      as two's complement. */
  function AsInt32(n: nat): (r: int32)
    ensures n <= INT32_MAX ==> r == n
    ensures (n - r) % 0x1_0000_0000 == 0
  {
    var low := n % 0x1_0000_0000;
    if low <= INT32_MAX then low else low - 0x1_0000_0000
  }

  /** The last-will options (another module of the library), opaque here:
      the value of the C record `copts.will` is made to point at. */
  datatype WillOptions = WillOptions(record: seq<int>)

  /** The SSL options (another module of the library), opaque here: the value
      of the C record `copts.ssl` is made to point at. */
  datatype SslOptions = SslOptions(record: seq<int>)

  /** `MQTTAsync_connectOptions`, restricted to the fields the connect
      options read or write. */
  datatype ConnectOptionsRecord = ConnectOptionsRecord(
    structId: string,
    structVersion: int32,
    keepAliveInterval: int32,
    cleansession: int32,
    maxInflight: int32,
    will: Box?<WillOptions>,
    username: CString?,
    password: CString?,
    connectTimeout: int32,
    retryInterval: int32,
    ssl: Box?<SslOptions>,
    automaticReconnect: int32,
    minRetryInterval: int32,
    maxRetryInterval: int32)

  /** The record with every address field cleared: what is left to compare
      when two records are said to hold the same scalars. */
  function Scalars(c: ConnectOptionsRecord): ConnectOptionsRecord
  {
    c.(will := null, username := null, password := null, ssl := null)
  }

  /** What `MQTTAsync_connectOptions::default()` is known to give: the
      struct id "MQTC" and version 5. */
  predicate IsDefault(c: ConnectOptionsRecord)
  {
    c.structId == "MQTC" && c.structVersion == 5
  }
}
