# MQTT connect options: builder and self-referential snapshot

This project models the connect options of the Eclipse Paho MQTT Rust client
(`src/connect_options.rs`). A `ConnectOptionsBuilder` accumulates settings: the
session flag, keep-alive, in-flight limit, timeouts, the reconnect policy,
credentials, and the last-will and SSL sub-options. `finalize` turns these into a
`ConnectOptions` value. That value owns boxed copies of the sub-options, C-string
copies of the credentials, and `copts`, the C record
`MQTTAsync_connectOptions` that goes to the native connect call. Four fields of
`copts` are addresses: `will`, `ssl`, `username` and `password`. `fixup` must point
each of them at storage owned by the same `ConnectOptions` instance, or set it to
null. It runs after
`default`, `finalize` and `clone`.

Modules:

- `Wrappers` (`wrappers.dfy`): `Option` and `Result`.
- `Owned` (`owned.dfy`): `Box<T>` and `CString`, modelled as immutable heap
  objects. `CStrText` is what a C reader finds behind a `CString` address. The
  lemmas show that a NUL-free text reads back unchanged, and that an interior
  NUL would cut it short.
- `Ffi` (`ffi.dfy`): the C `int` type, Rust's `as i32` cast from an unsigned
  count, and the C record. Its address fields are nullable references
  (`Box?<WillOptions>`, `Box?<SslOptions>`, `CString?`). `WillOptions` and
  `SslOptions` are opaque values.
- `Connect` (`connect_options.dfy`): the record updates behind each setter; the
  fixup rule as a function on records; the class `ConnectOptions` (fixup,
  default, new, clone, the clean-session accessors); the class
  `ConnectOptionsBuilder` (every setter and `finalize`); and the file's two unit
  tests, written as client methods.

Behaviour kept as the code has it:

- `retry_interval` writes the connect-timeout field. The retry-interval field is
  never written.
- After fixup, `username` is non-null exactly when the user name is empty.
  `password` always points at the password buffer. So default options have null
  `will` and `ssl` addresses, while their `username` and `password` point at their
  own empty buffers. The commented-out assertions in `test_new`
  (src/connect_options.rs:303-305) leave open whether they should be null; the
  model follows the code.
- `secs as i32` is stated explicitly (`Ffi.AsInt32`). Durations of 2^31 seconds
  or more therefore wrap around. The "at least 1" guarantee of the duration
  setters holds for durations up to `INT32_MAX` seconds.
- `automatic_reconnect` clamps its two bounds separately. It accepts a minimum
  larger than the maximum.

The address rules are stated as reference equalities. "Points into own storage"
is `Addresses() <= Storage()`. "A clone never reuses the source's addresses" is
`c.Addresses() !! Storage()`, and the clone's storage is `fresh`.

## Model

| member | source | states |
|---|---|---|
| `Ffi.AsInt32` | src/connect_options.rs:152 | `as i32` keeps any count up to INT32_MAX unchanged and in general agrees with the count modulo 2^32 |
| `Connect.ClampSecs` | src/connect_options.rs:151-152 | zero seconds store 1; a positive count up to INT32_MAX is stored verbatim; in that range the stored value is at least 1 |
| `Connect.WithKeepAliveInterval` | src/connect_options.rs:150-154 | keepAliveInterval receives the clamped seconds and no other field of the record changes |
| `Connect.WithCleanSession` | src/connect_options.rs:89-95 | 1 for true and 0 for false; reading the flag back gives the value set (round trip); nothing else changes |
| `Connect.WithMaxInflight` | src/connect_options.rs:174-177 | the in-flight limit is stored verbatim and nothing else changes |
| `Connect.WithConnectTimeout` | src/connect_options.rs:227-231 | connectTimeout receives the clamped seconds and nothing else changes |
| `Connect.WithRetryInterval` | src/connect_options.rs:238-242 | the clamped seconds go to connectTimeout; retryInterval and every other field keep their values |
| `Connect.RetryIntervalAliasesConnectTimeout` | src/connect_options.rs:227-242 | retry_interval acts exactly like connect_timeout: whichever runs last decides connectTimeout, and retryInterval is never touched |
| `Connect.WithAutomaticReconnect` | src/connect_options.rs:252-264 | the flag becomes 1; min and max are clamped independently; nothing else changes |
| `Connect.AutomaticReconnectKeepsBounds` | src/connect_options.rs:252-264 | bounds in range are stored verbatim and in the order given, also when min exceeds max |
| `Connect.BoxAddress` | src/connect_options.rs:49-61 | an optional box yields its own address, or null exactly when absent |
| `Connect.FixupRecord` | src/connect_options.rs:48-73 | will/ssl null exactly when the option is absent, otherwise the owner's box; username non-null exactly when the user name is empty, and then the owner's buffer; password always the owner's buffer; scalars kept |
| `Connect.FixupIdempotent` | src/connect_options.rs:48-73 | fixup twice equals fixup once, and its result does not depend on the addresses the record held before |
| `Connect.ConnectOptions.Assemble` | src/connect_options.rs:268-282 | the struct literal stores every field as given, before fixup |
| `Connect.ConnectOptions.FixedPointsIntoOwnStorage` | src/connect_options.rs:48-73 | after fixup every non-null address refers to storage owned by the same instance, and password is its own buffer |
| `Connect.ConnectOptions.Fixup` | src/connect_options.rs:48-73 | re-derives the four addresses from the instance's own storage and keeps the scalars; it is a no-op on fixed-up options |
| `Connect.ConnectOptions.Default` | src/connect_options.rs:98-108 | fresh storage, C defaults, no will/ssl, empty credentials; null will and ssl addresses; username and password at the own empty buffers |
| `Connect.ConnectOptions.New` | src/connect_options.rs:43-45 | the same options as `default()` |
| `Connect.ConnectOptions.Clone` | src/connect_options.rs:111-122 | fresh deep copies of boxes and buffers with equal contents, equal scalars, fixed up, and no address into the source's storage |
| `Connect.ConnectOptions.SetCleanSession` | src/connect_options.rs:89-91 | writes only the clean-session flag, `GetCleanSession` returns the value set, and fixed-up options stay fixed up |
| `Connect.ConnectOptions.GetCleanSession` | src/connect_options.rs:93-95 | any non-zero flag reads as true |
| `Connect.ConnectOptionsBuilder.constructor` | src/connect_options.rs:133-141 | C defaults, no will, no ssl, empty user name and password |
| `Connect.ConnectOptionsBuilder.KeepAliveInterval` | src/connect_options.rs:150-154 | only copts changes, as `WithKeepAliveInterval` says |
| `Connect.ConnectOptionsBuilder.CleanSession` | src/connect_options.rs:162-165 | only copts changes, as `WithCleanSession` says |
| `Connect.ConnectOptionsBuilder.MaxInflight` | src/connect_options.rs:174-177 | only copts changes, as `WithMaxInflight` says |
| `Connect.ConnectOptionsBuilder.WillOptions` | src/connect_options.rs:184-187 | only the will option changes, to the value given |
| `Connect.ConnectOptionsBuilder.SslOptions` | src/connect_options.rs:194-197 | only the ssl option changes, to the value given |
| `Connect.ConnectOptionsBuilder.UserName` | src/connect_options.rs:205-208 | only the user name changes, to the text given |
| `Connect.ConnectOptionsBuilder.Password` | src/connect_options.rs:216-219 | only the password changes, to the text given |
| `Connect.ConnectOptionsBuilder.ConnectTimeout` | src/connect_options.rs:227-231 | only copts changes, as `WithConnectTimeout` says |
| `Connect.ConnectOptionsBuilder.RetryInterval` | src/connect_options.rs:238-242 | only copts changes, as `WithRetryInterval` says (the connect-timeout field) |
| `Connect.ConnectOptionsBuilder.AutomaticReconnect` | src/connect_options.rs:252-264 | only copts changes, as `WithAutomaticReconnect` says |
| `Connect.ConnectOptionsBuilder.Finalize` | src/connect_options.rs:267-284 | builder unchanged; fails exactly when the user name or password holds a NUL; otherwise fresh, fixed-up options with the builder's scalars, will/ssl boxed exactly when present, and credentials that read back as the builder's text |
| `Connect.TestNew` | src/connect_options.rs:296-307 | new options have null will and ssl addresses, derived from `default()` and fixup; the struct id "MQTC" and version 5 are only the C defaults passed through |
| `Connect.TestSsl` | src/connect_options.rs:309-334 | options finalized with SSL options have a non-null ssl address equal to their own box, and the box holds those SSL options |
| `Owned.CString.AsBytes` | src/connect_options.rs:63 | `as_bytes()` holds no NUL, and with the terminator appended it is the buffer the address exposes |
| `Owned.CString.New` | src/connect_options.rs:280-281 | `CString::new` fails exactly on an interior NUL; otherwise a fresh buffer that reads back as the text |
| `Owned.CStrTextRoundTrip` | src/connect_options.rs:280-281 | a NUL-free text, once NUL-terminated, reads back unchanged |
| `Owned.CStrTextStopsAtNul` | src/connect_options.rs:326 | a C reader never reads past the first NUL |
| `Owned.CStrTextIsNulFreePrefix` | src/connect_options.rs:326 | what a C reader takes from a buffer is a NUL-free prefix of it |
| `Owned.CStrTextTruncatesAtNul` | src/connect_options.rs:280-281 | a text with an interior NUL would read back shorter, which is why the conversion must fail |

## Left out

- The C record keeps only the fields this file reads or writes. Its callbacks, server URIs, MQTT version and the rest are not modelled. Addresses are object references, not numeric pointers.
- `ffi::MQTTAsync_connectOptions::default()` is not part of this model. Its value is a parameter of `ConnectOptions.Default`, `ConnectOptions.New` and the builder's constructor. It is constrained only by what `test_new` observes (src/connect_options.rs:300-301): struct id "MQTC" and version 5. Its address fields are left unconstrained, since every path that builds options runs fixup, which overwrites all four.
- `WillOptions` and `SslOptions` live in other modules and are opaque values here. Their cloning, their own inner pointers, and the trust-store file behind the SSL test are not modelled. `TestSsl` takes any SSL options.
- The `println!` diagnostics in `finalize` are left out. So is the commented-out `to_c_struct`.
- Sub-second parts of a `Duration` are left out: a duration is its whole seconds.
- The setters' `&mut Self` return value, used for chaining, is not modelled.
- `fixup` takes the options by value and returns them. The model runs it in place on the freshly assembled object, which is the same thing, since nothing else refers to that object yet.
- Freeing storage is not modelled because Dafny never deallocates. Clone's `fresh` storage and its disjointness from the source's storage state what makes the clone independent of the source's lifetime.
- `Owned.CString.New`: the position of the NUL that `NulError` reports is not modelled. `finalize` panics there anyway, and the model returns `Err` instead of panicking.
- The native connect call and its threading are left out.
