/**
 * The client's own endpoints: login, the two document fetches, and the
 * document-changing methods, which are stubs. Each fetch sends one request
 * through `exchange` (the network) and runs its own inline guard chain,
 * which never looks at the status code.
 */
module Endpoints {
  import opened Wire
  import opened Client
  import opened Entities
  import opened Http

  const LoginPath: string := "/api/v1/automation/login"
  const PathPrefix: string := "/api/v1/path"

  const LoginFailedMessage: string := "Client cannot be created"
  const FetchFailedMessage: string := "Error while fetching document"
  const UserUnmarshalMessage: string := "Unmarshalling issue with the current user response"
  const DocumentUnmarshalMessage: string := "Unmarshalling issue with the current document response"

  /** A request that was sent, the value returned for it and the error returned beside it. */
  datatype Call<T> = Call(request: Request, value: T, err: Option<Error>)

  /**
   * Sends `request`, then: a transport error, a body that is not JSON, or a
   * failed decode each yield `zero` and their own fixed message; otherwise
   * the decoded value and no error.
   */
  function InlineGuards<T>(request: Request, exchange: Request -> Outcome, decode: Bytes -> Unmarshalled<T>,
                           zero: T, transportMessage: string, invalidMessage: string, decodeMessage: string): (r: Call<T>)
    ensures r.request == request
    ensures var o := exchange(request);
      && (r.err.None? <==> o.Received? && o.validJson && decode(o.body).failure.None?)
      && (r.err.None? ==> r.value == decode(o.body).target)
      && (r.err.Some? ==> r.value == zero)
      && (o.TransportFailure? ==> r.err == Some(New(transportMessage)))
      && (o.Received? && !o.validJson ==> r.err == Some(New(invalidMessage)))
      && (o.Received? && o.validJson && decode(o.body).failure.Some? ==> r.err == Some(New(decodeMessage)))
  {
    var o := exchange(request);
    if o.TransportFailure? then Call(request, zero, Some(New(transportMessage)))
    else if !o.validJson then Call(request, zero, Some(New(invalidMessage)))
    else
      var u := decode(o.body);
      if u.failure.Some? then Call(request, zero, Some(New(decodeMessage)))
      else Call(request, u.target, None)
  }

  /** The status code never matters to the inline chain. */
  lemma InlineGuardsIgnoreStatus<T>(request: Request, exchange: Request -> Outcome, exchange': Request -> Outcome,
                                    decode: Bytes -> Unmarshalled<T>, zero: T, tm: string, im: string, dm: string, status: int)
    requires exchange(request).Received?
    requires exchange'(request) == exchange(request).(status := status)
    ensures InlineGuards(request, exchange, decode, zero, tm, im, dm) ==
            InlineGuards(request, exchange', decode, zero, tm, im, dm)
  {
  }

  /**
   * `Login`: POSTs to the login endpoint and returns the decoded user, or the
   * zero user and a fixed message.
   */
  function Login(c: ConnectedClient, exchange: Request -> Outcome, decode: Bytes -> Unmarshalled<User>): (r: Call<User>)
    ensures r.request == Request(POST, c.url + LoginPath, map[], NoBody)
    ensures var o := exchange(r.request);
      && (r.err.None? <==> o.Received? && o.validJson && decode(o.body).failure.None?)
      && (r.err.None? ==> r.value == decode(o.body).target)
      && (r.err.Some? ==> r.value == ZeroUser)
      && (o.TransportFailure? ==> r.err == Some(New(LoginFailedMessage)))
      && (o.Received? ==> r.err.None? || r.err == Some(New(UserUnmarshalMessage)))
  {
    InlineGuards(Request(POST, c.url + LoginPath, map[], NoBody), exchange, decode, ZeroUser,
                 LoginFailedMessage, UserUnmarshalMessage, UserUnmarshalMessage)
  }

  /** Attaches the client to a decoded document, or yields the zero document after a failure. */
  function Attached(g: Call<DocumentFields>, c: NuxeoClient): Call<Document> {
    Call(g.request, if g.err.None? then Document(g.value, c) else ZeroDocument, g.err)
  }

  /**
   * `FetchDocumentByPath(path)`: GETs the path endpoint followed by `path`; a
   * decoded document comes back with the client attached.
   */
  function FetchDocumentByPath(c: ConnectedClient, path: string, exchange: Request -> Outcome,
                               decode: Bytes -> Unmarshalled<DocumentFields>): (r: Call<Document>)
    ensures r.request == GetRequest(c.url + PathPrefix + path)
    ensures var o := exchange(r.request);
      && (r.err.None? <==> o.Received? && o.validJson && decode(o.body).failure.None?)
      && (r.err.None? ==> r.value == Document(decode(o.body).target, c))
      && (r.err.Some? ==> r.value == ZeroDocument)
      && (o.TransportFailure? ==> r.err == Some(New(FetchFailedMessage)))
      && (o.Received? && !o.validJson ==> r.err == Some(New(DocumentUnmarshalMessage)))
      && (o.Received? && o.validJson && decode(o.body).failure.Some? ==> r.err == Some(New(UserUnmarshalMessage)))
  {
    var g := InlineGuards(GetRequest(c.url + PathPrefix + path), exchange, decode, ZeroDocumentFields,
                          FetchFailedMessage, DocumentUnmarshalMessage, UserUnmarshalMessage);
    Attached(g, c)
  }

  /** `FetchDocumentRoot`: the same as fetching the path "//". */
  function FetchDocumentRoot(c: ConnectedClient, exchange: Request -> Outcome,
                             decode: Bytes -> Unmarshalled<DocumentFields>): (r: Call<Document>)
    ensures r.request == GetRequest(c.url + "/api/v1/path//")
    ensures var o := exchange(r.request);
      && (r.err.None? <==> o.Received? && o.validJson && decode(o.body).failure.None?)
      && (r.err.None? ==> r.value == Document(decode(o.body).target, c))
      && (r.err.Some? ==> r.value == ZeroDocument)
      && (o.TransportFailure? ==> r.err == Some(New(FetchFailedMessage)))
  {
    var g := InlineGuards(GetRequest(c.url + "/api/v1/path//"), exchange, decode, ZeroDocumentFields,
                          FetchFailedMessage, DocumentUnmarshalMessage, UserUnmarshalMessage);
    Attached(g, c)
  }

  /** The root fetch is exactly the fetch of the path "//". */
  lemma {:induction false} RootIsDoubleSlashPath(c: ConnectedClient, exchange: Request -> Outcome,
                                                 decode: Bytes -> Unmarshalled<DocumentFields>)
    ensures FetchDocumentRoot(c, exchange, decode) == FetchDocumentByPath(c, "//", exchange, decode)
  {
    assert c.url + "/api/v1/path//" == c.url + PathPrefix + "//";
  }

  /** Different paths are fetched from different URLs. */
  lemma {:induction false} DistinctPathsDistinctUrls(c: ConnectedClient, p: string, q: string,
                                                     exchange: Request -> Outcome, decode: Bytes -> Unmarshalled<DocumentFields>)
    requires p != q
    ensures FetchDocumentByPath(c, p, exchange, decode).request.url != FetchDocumentByPath(c, q, exchange, decode).request.url
  {
    SuffixAfterPrefix(c.url + PathPrefix, p);
    SuffixAfterPrefix(c.url + PathPrefix, q);
  }

  /** A 404 with a JSON body is decoded like any other answer. */
  lemma NotFoundIsDecoded(c: ConnectedClient, path: string, exchange: Request -> Outcome,
                          decode: Bytes -> Unmarshalled<DocumentFields>)
    requires exchange(GetRequest(c.url + PathPrefix + path)).Received?
    requires exchange(GetRequest(c.url + PathPrefix + path)).status == 404
    requires exchange(GetRequest(c.url + PathPrefix + path)).validJson
    requires decode(exchange(GetRequest(c.url + PathPrefix + path)).body).failure.None?
    ensures FetchDocumentByPath(c, path, exchange, decode).err.None?
  {
  }

  /** `CreateDocument`: does nothing and reports no error. */
  function CreateDocument(c: ConnectedClient, input: Document): (err: Option<Error>)
    ensures err.None?
  {
    None
  }

  /** `UpdateDocument`: does nothing and reports no error. */
  function UpdateDocument(c: ConnectedClient, input: Document): (err: Option<Error>)
    ensures err.None?
  {
    None
  }

  /** `DeleteDocument`: does nothing and reports no error. */
  function DeleteDocument(c: ConnectedClient, uid: string): (err: Option<Error>)
    ensures err.None?
  {
    None
  }
}
