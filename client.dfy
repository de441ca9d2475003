/**
 * The client builder (`clientBuilder`) and the immutable client record
 * (`nuxeoClient`) it produces. The configured HTTP transport is described by
 * the settings `Build` hands to it; no request is ever sent from here.
 */
module Client {
  import opened Wire

  /** The server URL used when none has been set. */
  const DefaultURL: string := "http://localhost:8080/nuxeo"

  /** `time.Minute` in nanoseconds. */
  const NanosPerMinute: int := 60_000_000_000

  /** The largest number of minutes whose duration fits in an int64. */
  const MaxTimeoutMinutes: int := 153_722_867

  datatype Cookie = Cookie(name: string, value: string)

  /** The one authentication mode the transport is configured with. */
  datatype Auth = BasicAuth(username: string, password: string) | AuthToken(token: string)

  /** The configuration of the HTTP transport (a resty client) as `Build` sets it up. */
  datatype Transport = Transport(
    cookies: seq<Cookie>,
    headers: map<string, string>,
    debug: bool,
    timeout: int64,  // nanoseconds
    auth: Auth)

  /**
   * The client record. `transport` is the pointer to the HTTP transport;
   * its zero value (nil) is `None`.
   */
  datatype NuxeoClient = NuxeoClient(
    url: string,
    username: string,
    password: string,
    token: string,
    debug: bool,
    enableTrace: bool,
    timeout: int64,
    headers: map<string, string>,
    cookies: seq<Cookie>,
    repository: string,
    transport: Option<Transport>)

  /** The zero `nuxeoClient`, which a document holds until a back-reference is attached. */
  const ZeroClient: NuxeoClient :=
    NuxeoClient("", "", "", "", false, false, 0, map[], [], "", None)

  /** A client that can send requests: using one whose transport is nil would panic. */
  type ConnectedClient = c: NuxeoClient | c.transport.Some?
    witness NuxeoClient(DefaultURL, "", "", "", false, false, 0, map[], [], "",
                        Some(Transport([], map[], false, 0, BasicAuth("", ""))))

  /** The fields of a `clientBuilder`, as one value. */
  datatype Settings = Settings(
    url: string,
    username: string,
    password: string,
    token: string,
    debug: bool,
    enableTrace: bool,
    timeout: int64,
    headers: map<string, string>,
    cookies: seq<Cookie>,
    repository: string)

  const ZeroSettings: Settings :=
    Settings("", "", "", "", false, false, 0, map[], [], "")

  /** The URL `Build` settles on: the configured one, or `DefaultURL` when it is empty. */
  function ResolveUrl(url: string): (r: string)
    ensures r != ""
    ensures url != "" ==> r == url
    ensures url == "" ==> r == DefaultURL
  {
    if url == "" then DefaultURL else url
  }

  /** `time.Duration(minutes) * time.Minute`, which wraps around on overflow. */
  function TimeoutDuration(minutes: int64): (d: int64)
    ensures (minutes as int * NanosPerMinute - d as int) % TwoTo64 == 0
  {
    Wrap64(minutes as int * NanosPerMinute)
  }

  /** Up to `MaxTimeoutMinutes`, the transport timeout is exactly that many minutes. */
  lemma TimeoutIsMinutes(minutes: int64)
    requires 0 <= minutes as int <= MaxTimeoutMinutes
    ensures TimeoutDuration(minutes) as int == minutes as int * NanosPerMinute
  {
    assert minutes as int * NanosPerMinute <= MaxTimeoutMinutes * NanosPerMinute;
  }

  /** One minute more and the duration wraps around to a negative timeout. */
  lemma TimeoutWrapsAround()
    ensures TimeoutDuration((MaxTimeoutMinutes + 1) as int64) < 0
  {
    var x := (MaxTimeoutMinutes + 1) * NanosPerMinute;
    assert x == 9_223_372_080_000_000_000;
    assert (x + 0x8000_0000_0000_0000) % TwoTo64 == x + 0x8000_0000_0000_0000 - TwoTo64;
  }

  /**
   * The client `Build` returns for the given builder fields: the resolved URL,
   * exactly one authentication mode, the timeout in minutes, and a copy of the
   * other fields except `token` and `enableTrace`, which stay at zero.
   */
  function BuildClient(s: Settings): (c: ConnectedClient)
    ensures c.url == ResolveUrl(s.url) && c.url != ""
    ensures c.transport.value.auth.BasicAuth? <==> s.token == ""
    ensures c.transport.value.auth.BasicAuth? ==>
              c.transport.value.auth == BasicAuth(s.username, s.password)
    ensures c.transport.value.auth.AuthToken? ==> c.transport.value.auth.token == s.token
    ensures c.transport.value.timeout == TimeoutDuration(s.timeout)
    ensures c.transport.value.cookies == s.cookies && c.transport.value.headers == s.headers
    ensures c.transport.value.debug == s.debug
    ensures c.username == s.username && c.password == s.password && c.debug == s.debug
    ensures c.timeout == s.timeout && c.headers == s.headers && c.cookies == s.cookies
    ensures c.repository == s.repository
    ensures c.token == "" && !c.enableTrace
  {
    var auth := if s.token == "" then BasicAuth(s.username, s.password) else AuthToken(s.token);
    var transport := Transport(s.cookies, s.headers, s.debug, TimeoutDuration(s.timeout), auth);
    NuxeoClient(ResolveUrl(s.url), s.username, s.password, "", s.debug, false, s.timeout,
                s.headers, s.cookies, s.repository, Some(transport))
  }

  /**
   * Writing the resolved URL back into the builder changes nothing for a
   * later build: building again yields the same client.
   */
  lemma BuildAfterWriteBack(s: Settings)
    ensures BuildClient(s.(url := ResolveUrl(s.url))) == BuildClient(s)
  {
  }

  /**
   * The token is never copied: builders differing only in their token build
   * clients that differ only in their transport, whose auth is the token when
   * there is one and the username and password otherwise.
   */
  lemma TokenOnlyReachesTransport(s: Settings, t: string)
    ensures BuildClient(s.(token := t)).(transport := None) == BuildClient(s).(transport := None)
    ensures t != "" ==> BuildClient(s.(token := t)).transport.value.auth == AuthToken(t)
    ensures t == "" ==> BuildClient(s.(token := t)).transport.value.auth == BasicAuth(s.username, s.password)
  {
  }

  /** The mutable client builder. Every setter returns the builder itself. */
  class ClientBuilder {
    var url: string
    var username: string
    var password: string
    var token: string
    var debug: bool
    var enableTrace: bool
    var timeout: int64
    var headers: map<string, string>
    var cookies: seq<Cookie>
    var repository: string

    /** All fields, as one value. */
    function Current(): Settings
      reads this
    {
      Settings(url, username, password, token, debug, enableTrace, timeout,
               headers, cookies, repository)
    }

    /** `NuxeoClient()`: a builder with every field at its zero value. */
    constructor ()
      ensures Current() == ZeroSettings
    {
      url, username, password, token := "", "", "", "";
      debug, enableTrace, timeout := false, false, 0;
      headers, cookies, repository := map[], [], "";
    }

    method URL(url: string) returns (self: ClientBuilder)
      modifies this
      ensures self == this
      ensures Current() == old(Current()).(url := url)
    {
      this.url := url;
      self := this;
    }

    method Username(username: string) returns (self: ClientBuilder)
      modifies this
      ensures self == this
      ensures Current() == old(Current()).(username := username)
    {
      this.username := username;
      self := this;
    }

    method Password(password: string) returns (self: ClientBuilder)
      modifies this
      ensures self == this
      ensures Current() == old(Current()).(password := password)
    {
      this.password := password;
      self := this;
    }

    method Token(token: string) returns (self: ClientBuilder)
      modifies this
      ensures self == this
      ensures Current() == old(Current()).(token := token)
    {
      this.token := token;
      self := this;
    }

    method Repository(repository: string) returns (self: ClientBuilder)
      modifies this
      ensures self == this
      ensures Current() == old(Current()).(repository := repository)
    {
      this.repository := repository;
      self := this;
    }

    method Timeout(timeout: int64) returns (self: ClientBuilder)
      modifies this
      ensures self == this
      ensures Current() == old(Current()).(timeout := timeout)
    {
      this.timeout := timeout;
      self := this;
    }

    method Headers(headers: map<string, string>) returns (self: ClientBuilder)
      modifies this
      ensures self == this
      ensures Current() == old(Current()).(headers := headers)
    {
      this.headers := headers;
      self := this;
    }

    method Cookies(cookies: seq<Cookie>) returns (self: ClientBuilder)
      modifies this
      ensures self == this
      ensures Current() == old(Current()).(cookies := cookies)
    {
      this.cookies := cookies;
      self := this;
    }

    method Debug(debug: bool) returns (self: ClientBuilder)
      modifies this
      ensures self == this
      ensures Current() == old(Current()).(debug := debug)
    {
      this.debug := debug;
      self := this;
    }

    /**
     * Configures the transport, resolves the URL and writes it back into the
     * builder (the only field it changes), then returns a fresh client record.
     */
    method Build() returns (c: ConnectedClient)
      modifies this`url
      ensures Current() == old(Current()).(url := ResolveUrl(old(url)))
      ensures c == BuildClient(old(Current()))
    {
      var auth := if token == "" then BasicAuth(username, password) else AuthToken(token);
      var transport := Transport(cookies, headers, debug, TimeoutDuration(timeout), auth);
      var resolved := url;
      if resolved == "" {
        resolved := DefaultURL;
      }
      url := resolved;
      c := NuxeoClient(url, username, password, "", debug, false, timeout,
                       headers, cookies, repository, Some(transport));
    }
  }
}
