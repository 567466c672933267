/** The connect options of the MQTT client: a builder that accumulates
    settings, and the finished options that own their sub-options and
    credential buffers and keep a C record whose address fields point
    into that owned storage. */
module Connect {
  import opened Wrappers
  import opened Owned
  import opened Ffi

  /** A `Duration` seen as its whole seconds, as `as_secs()` gives it. */
  type Seconds = nat

  /** The value a duration setter stores: zero seconds become one second,
      any other duration its seconds as a C int. */
  function ClampSecs(secs: Seconds): (r: int32)
    ensures secs == 0 ==> r == 1
    ensures 0 < secs <= INT32_MAX ==> r == secs
    ensures secs <= INT32_MAX ==> 1 <= r
  {
    if secs == 0 then 1 else AsInt32(secs)
  }

  // ---------------------------------------------------------------------
  // The record updates behind the setters. Each changes one group of
  // scalar fields and leaves every other field, addresses included, alone.

  /** `keep_alive_interval`: the clamped seconds go to keepAliveInterval. */
  function WithKeepAliveInterval(c: ConnectOptionsRecord, secs: Seconds): (r: ConnectOptionsRecord)
    ensures r.keepAliveInterval == ClampSecs(secs)
    ensures r.(keepAliveInterval := c.keepAliveInterval) == c
  {
    c.(keepAliveInterval := ClampSecs(secs))
  }

  /** What `get_clean_session` reads: any non-zero flag means true. */
  function CleanSessionOf(c: ConnectOptionsRecord): bool
  {
    c.cleansession != 0
  }

  /** `clean_session` and `set_clean_session`: 1 for true, 0 for false. */
  function WithCleanSession(c: ConnectOptionsRecord, clean: bool): (r: ConnectOptionsRecord)
    ensures r.cleansession == 0 || r.cleansession == 1
    ensures CleanSessionOf(r) == clean
    ensures r.(cleansession := c.cleansession) == c
  {
    c.(cleansession := if clean then 1 else 0)
  }

  /** `max_inflight`: the count is stored as given. */
  function WithMaxInflight(c: ConnectOptionsRecord, count: int32): (r: ConnectOptionsRecord)
    ensures r.maxInflight == count
    ensures r.(maxInflight := c.maxInflight) == c
  {
    c.(maxInflight := count)
  }

  /** `connect_timeout`: the clamped seconds go to connectTimeout. */
  function WithConnectTimeout(c: ConnectOptionsRecord, secs: Seconds): (r: ConnectOptionsRecord)
    ensures r.connectTimeout == ClampSecs(secs)
    ensures r.(connectTimeout := c.connectTimeout) == c
  {
    c.(connectTimeout := ClampSecs(secs))
  }

  /** `retry_interval`: as written, the clamped seconds go to connectTimeout
      too, and the retryInterval field is never written. */
  function WithRetryInterval(c: ConnectOptionsRecord, secs: Seconds): (r: ConnectOptionsRecord)
    ensures r.connectTimeout == ClampSecs(secs)
    ensures r.retryInterval == c.retryInterval
    ensures r.(connectTimeout := c.connectTimeout) == c
  {
    c.(connectTimeout := ClampSecs(secs))
  }

  /** `automatic_reconnect`: the flag is set to 1 and each bound is clamped
      on its own; a minimum above the maximum is kept as it is. */
  function WithAutomaticReconnect(c: ConnectOptionsRecord, minSecs: Seconds, maxSecs: Seconds): (r: ConnectOptionsRecord)
    ensures r.automaticReconnect == 1
    ensures r.minRetryInterval == ClampSecs(minSecs)
    ensures r.maxRetryInterval == ClampSecs(maxSecs)
    ensures r.(automaticReconnect := c.automaticReconnect,
               minRetryInterval := c.minRetryInterval,
               maxRetryInterval := c.maxRetryInterval) == c
  {
    c.(automaticReconnect := 1,
       minRetryInterval := ClampSecs(minSecs),
       maxRetryInterval := ClampSecs(maxSecs))
  }

  /** The two timeout setters write the same field, so whichever runs last
      decides connectTimeout, and retryInterval keeps its value. */
  lemma RetryIntervalAliasesConnectTimeout(c: ConnectOptionsRecord, timeout: Seconds, retry: Seconds)
    ensures WithRetryInterval(c, retry) == WithConnectTimeout(c, retry)
    ensures WithRetryInterval(WithConnectTimeout(c, timeout), retry) == WithConnectTimeout(c, retry)
    ensures WithConnectTimeout(WithRetryInterval(c, retry), timeout) == WithConnectTimeout(c, timeout)
    ensures WithRetryInterval(WithConnectTimeout(c, timeout), retry).retryInterval == c.retryInterval
  {
  }

  /** `automatic_reconnect(5s, 2s)` keeps 5 and 2: bounds in the C int
      range are stored verbatim, in the order given. */
  lemma AutomaticReconnectKeepsBounds(c: ConnectOptionsRecord, minSecs: Seconds, maxSecs: Seconds)
    requires 0 < minSecs <= INT32_MAX && 0 < maxSecs <= INT32_MAX
    ensures WithAutomaticReconnect(c, minSecs, maxSecs).minRetryInterval == minSecs
    ensures WithAutomaticReconnect(c, minSecs, maxSecs).maxRetryInterval == maxSecs
  {
  }

  // ---------------------------------------------------------------------
  // The address rule that fixup establishes.

  /** The address of a boxed sub-option, or null when there is none. */
  function BoxAddress<T>(b: Option<Box<T>>): (p: Box?<T>)
    ensures p == null <==> b.None?
    ensures b.Some? ==> p == b.value
  {
    if b.Some? then b.value else null
  }

  /** The values behind optional boxes. */
  function Unboxed<T>(b: Option<Box<T>>): Option<T>
  {
    if b.Some? then Some(b.value.value) else None
  }

  /** The record after `fixup`: will and ssl point at the owner's boxes or are
      null without one; username points at the owner's buffer exactly when
      that user name is EMPTY (the rule as written); password always points
      at the owner's password buffer; the scalars are kept. */
  function FixupRecord(c: ConnectOptionsRecord, will: Option<Box<WillOptions>>, ssl: Option<Box<SslOptions>>,
                       userName: CString, password: CString): (r: ConnectOptionsRecord)
    ensures r.will == null <==> will.None?
    ensures will.Some? ==> r.will == will.value
    ensures r.ssl == null <==> ssl.None?
    ensures ssl.Some? ==> r.ssl == ssl.value
    ensures r.username != null <==> userName.AsBytes() == []
    ensures r.username != null ==> r.username == userName
    ensures r.password == password
    ensures Scalars(r) == Scalars(c)
  {
    c.(will := BoxAddress(will),
       ssl := BoxAddress(ssl),
       username := if |userName.AsBytes()| == 0 then userName else null,
       password := password)
  }

  /** Fixing up twice is fixing up once, and the result does not depend on
      the addresses the record held before: none are ever inherited. */
  lemma FixupIdempotent(c: ConnectOptionsRecord, d: ConnectOptionsRecord, will: Option<Box<WillOptions>>,
                        ssl: Option<Box<SslOptions>>, userName: CString, password: CString)
    requires Scalars(c) == Scalars(d)
    ensures FixupRecord(FixupRecord(c, will, ssl, userName, password), will, ssl, userName, password)
            == FixupRecord(c, will, ssl, userName, password)
    ensures FixupRecord(c, will, ssl, userName, password) == FixupRecord(d, will, ssl, userName, password)
  {
  }

  // ---------------------------------------------------------------------

  /** `ConnectOptions`: the finished options. It owns the boxed sub-options
      and the credential buffers, and `copts`, whose address fields must
      point into exactly that storage. */
  class ConnectOptions {
    var copts: ConnectOptionsRecord
    const will: Option<Box<WillOptions>>
    const ssl: Option<Box<SslOptions>>
    const userName: CString
    const password: CString

    /** The struct literal: every field as given, before any fixup. */
    constructor Assemble(copts: ConnectOptionsRecord, will: Option<Box<WillOptions>>, ssl: Option<Box<SslOptions>>,
                         userName: CString, password: CString)
      ensures this.copts == copts && this.will == will && this.ssl == ssl
      ensures this.userName == userName && this.password == password
    {
      this.copts := copts;
      this.will := will;
      this.ssl := ssl;
      this.userName := userName;
      this.password := password;
    }

    /** Everything this instance owns that an address may refer to. */
    ghost function Storage(): set<object?>
    {
      var boxes: set<object?> :=
        (if will.Some? then {will.value} else {}) + (if ssl.Some? then {ssl.value} else {});
      boxes + {userName, password}
    }

    /** The non-null addresses held in `copts`. */
    ghost function Addresses(): set<object?>
      reads this
    {
      var w: object?, s: object?, u: object?, p: object? := copts.will, copts.ssl, copts.username, copts.password;
      {w, s, u, p} - {null}
    }

    /** `copts` holds the addresses fixup derives from this instance's own
        storage. */
    predicate Fixed()
      reads this
    {
      copts == FixupRecord(copts, will, ssl, userName, password)
    }

    /** Once fixed up, every address in `copts` refers to storage this same
        instance owns. */
    lemma FixedPointsIntoOwnStorage()
      requires Fixed()
      ensures Addresses() <= Storage()
      ensures copts.password == password
    {
    }

    /** `fixup`: re-derive the four address fields, in the source's order,
        from this instance's storage; the scalars stay. On an instance that is
        already fixed up it changes nothing. */
    method Fixup()
      modifies this`copts
      ensures copts == FixupRecord(old(copts), will, ssl, userName, password)
      ensures Fixed()
      ensures old(Fixed()) ==> copts == old(copts)
    {
      copts := copts.(will := if will.Some? then will.value else null);
      copts := copts.(ssl := if ssl.Some? then ssl.value else null);
      copts := copts.(username := if |userName.AsBytes()| == 0 then userName else null);
      copts := copts.(password := password);
    }

    /** `ConnectOptions::default()`: the C defaults, no will, no SSL, empty
        user name and password, then fixup. Will and ssl are null; since both
        strings are empty, username and password point at the own buffers. */
    static method Default(ffiDefault: ConnectOptionsRecord) returns (o: ConnectOptions)
      requires IsDefault(ffiDefault)
      ensures fresh(o) && fresh(o.Storage())
      ensures o.Fixed()
      ensures Scalars(o.copts) == Scalars(ffiDefault)
      ensures o.will.None? && o.ssl.None?
      ensures o.userName.AsBytes() == [] && o.password.AsBytes() == []
      ensures o.copts.will == null && o.copts.ssl == null
      ensures o.copts.username == o.userName && o.copts.password == o.password
    {
      var userName := new CString("");
      var password := new CString("");
      o := new ConnectOptions.Assemble(ffiDefault, None, None, userName, password);
      o.Fixup();
    }

    /** `ConnectOptions::new()`: the same as `default()`. */
    static method New(ffiDefault: ConnectOptionsRecord) returns (o: ConnectOptions)
      requires IsDefault(ffiDefault)
      ensures fresh(o) && fresh(o.Storage())
      ensures o.Fixed()
      ensures Scalars(o.copts) == Scalars(ffiDefault)
      ensures o.will.None? && o.ssl.None?
      ensures o.userName.AsBytes() == [] && o.password.AsBytes() == []
      ensures o.copts.will == null && o.copts.ssl == null
    {
      o := Default(ffiDefault);
    }

    /** `clone`: deep copies of the boxes and buffers in fresh storage, the
        same scalars, then fixup, so that no address of the copy refers to
        anything this instance owns. */
    method Clone() returns (c: ConnectOptions)
      ensures fresh(c) && fresh(c.Storage())
      ensures c.Fixed()
      ensures Scalars(c.copts) == Scalars(copts)
      ensures Unboxed(c.will) == Unboxed(will) && Unboxed(c.ssl) == Unboxed(ssl)
      ensures c.userName.AsBytes() == userName.AsBytes() && c.password.AsBytes() == password.AsBytes()
      ensures c.Addresses() !! Storage()
    {
      var willCopy: Option<Box<WillOptions>> := None;
      if will.Some? {
        var b := new Box(will.value.value);
        willCopy := Some(b);
      }
      var sslCopy: Option<Box<SslOptions>> := None;
      if ssl.Some? {
        var b := new Box(ssl.value.value);
        sslCopy := Some(b);
      }
      var userNameCopy := new CString(userName.content);
      var passwordCopy := new CString(password.content);
      c := new ConnectOptions.Assemble(copts, willCopy, sslCopy, userNameCopy, passwordCopy);
      c.Fixup();
      c.FixedPointsIntoOwnStorage();
    }

    /** `set_clean_session`: a scalar write; no fixup is needed because the
        addresses are left as they are. */
    method SetCleanSession(clean: bool)
      modifies this`copts
      ensures copts == WithCleanSession(old(copts), clean)
      ensures GetCleanSession() == clean
      ensures old(Fixed()) ==> Fixed()
    {
      copts := copts.(cleansession := if clean then 1 else 0);
    }

    /** `get_clean_session`: any non-zero flag reads as true. */
    function GetCleanSession(): (clean: bool)
      reads this
      ensures clean <==> copts.cleansession != 0
    {
      CleanSessionOf(copts)
    }
  }

  // ---------------------------------------------------------------------

  /** `ConnectOptionsBuilder`: a mutable accumulator. Its `copts` only ever
      receives scalars; addresses are derived by `Finalize`. */
  class ConnectOptionsBuilder {
    var copts: ConnectOptionsRecord
    var will: Option<WillOptions>
    var ssl: Option<SslOptions>
    var userName: string
    var password: string

    /** `ConnectOptionsBuilder::new()`. */
    constructor (ffiDefault: ConnectOptionsRecord)
      requires IsDefault(ffiDefault)
      ensures copts == ffiDefault && will == None && ssl == None
      ensures userName == "" && password == ""
    {
      copts := ffiDefault;
      will := None;
      ssl := None;
      userName := "";
      password := "";
    }

    method KeepAliveInterval(secs: Seconds)
      modifies this`copts
      ensures copts == WithKeepAliveInterval(old(copts), secs)
    {
      copts := copts.(keepAliveInterval := if secs == 0 then 1 else AsInt32(secs));
    }

    method CleanSession(clean: bool)
      modifies this`copts
      ensures copts == WithCleanSession(old(copts), clean)
    {
      copts := copts.(cleansession := if clean then 1 else 0);
    }

    method MaxInflight(count: int32)
      modifies this`copts
      ensures copts == WithMaxInflight(old(copts), count)
    {
      copts := copts.(maxInflight := count);
    }

    method WillOptions(w: Ffi.WillOptions)
      modifies this`will
      ensures will == Some(w)
    {
      will := Some(w);
    }

    method SslOptions(s: Ffi.SslOptions)
      modifies this`ssl
      ensures ssl == Some(s)
    {
      ssl := Some(s);
    }

    method UserName(s: string)
      modifies this`userName
      ensures userName == s
    {
      userName := s;
    }

    method Password(s: string)
      modifies this`password
      ensures password == s
    {
      password := s;
    }

    method ConnectTimeout(secs: Seconds)
      modifies this`copts
      ensures copts == WithConnectTimeout(old(copts), secs)
    {
      copts := copts.(connectTimeout := if secs == 0 then 1 else AsInt32(secs));
    }

    /** As written, this writes the connect timeout, not the retry interval. */
    method RetryInterval(secs: Seconds)
      modifies this`copts
      ensures copts == WithRetryInterval(old(copts), secs)
    {
      copts := copts.(connectTimeout := if secs == 0 then 1 else AsInt32(secs));
    }

    method AutomaticReconnect(minSecs: Seconds, maxSecs: Seconds)
      modifies this`copts
      ensures copts == WithAutomaticReconnect(old(copts), minSecs, maxSecs)
    {
      copts := copts.(automaticReconnect := 1);
      var secs := minSecs;
      copts := copts.(minRetryInterval := if secs == 0 then 1 else AsInt32(secs));
      secs := maxSecs;
      copts := copts.(maxRetryInterval := if secs == 0 then 1 else AsInt32(secs));
    }

    /** `finalize`: leaves the builder as it is and builds fresh options: the
        same scalars, will and ssl boxed exactly when present, both strings
        turned into C strings, then fixup. Fails, as the `unwrap` does, when
        either string holds a NUL. */
    method Finalize() returns (r: Result<ConnectOptions, NulError>)
      ensures r.Ok? <==> NUL !in userName && NUL !in password
      ensures r.Ok? ==> fresh(r.value) && fresh(r.value.Storage())
      ensures r.Ok? ==> r.value.Fixed()
      ensures r.Ok? ==> Scalars(r.value.copts) == Scalars(copts)
      ensures r.Ok? ==> Unboxed(r.value.will) == will && Unboxed(r.value.ssl) == ssl
      ensures r.Ok? ==> r.value.userName.AsBytes() == userName && r.value.password.AsBytes() == password
      ensures r.Ok? ==> r.value.copts.password == r.value.password
      ensures r.Ok? ==> CStrText(r.value.password.WithNul()) == password
    {
      var willBox: Option<Box<Ffi.WillOptions>> := None;
      if will.Some? {
        var b := new Box(will.value);
        willBox := Some(b);
      }
      var sslBox: Option<Box<Ffi.SslOptions>> := None;
      if ssl.Some? {
        var b := new Box(ssl.value);
        sslBox := Some(b);
      }
      var u := CString.New(userName);
      if u.Err? {
        return Err(u.error);
      }
      var p := CString.New(password);
      if p.Err? {
        return Err(p.error);
      }
      var o := new ConnectOptions.Assemble(copts, willBox, sslBox, u.value, p.value);
      o.Fixup();
      r := Ok(o);
    }
  }

  // ---------------------------------------------------------------------
  // The two unit tests of the connect options, as clients of the model.

  /** `test_new`: default options carry the C struct id and version, and
      null will and ssl addresses. */
  method TestNew(ffiDefault: ConnectOptionsRecord) returns (opts: ConnectOptions)
    requires IsDefault(ffiDefault)
    ensures opts.copts.structId == "MQTC" && opts.copts.structVersion == 5
    ensures opts.copts.will == null && opts.copts.ssl == null
  {
    opts := ConnectOptions.New(ffiDefault);
  }

  /** `test_ssl`: options finalized with SSL options have a non-null ssl
      address equal to their own box, which holds those SSL options. */
  method TestSsl(ffiDefault: ConnectOptionsRecord, sslOpts: SslOptions) returns (opts: ConnectOptions)
    requires IsDefault(ffiDefault)
    ensures opts.copts.ssl != null && opts.ssl.Some?
    ensures opts.copts.ssl == opts.ssl.value && opts.copts.ssl.value == sslOpts
  {
    var builder := new ConnectOptionsBuilder(ffiDefault);
    builder.SslOptions(sslOpts);
    var r := builder.Finalize();
    assert r.Ok?;
    opts := r.value;
  }
}
