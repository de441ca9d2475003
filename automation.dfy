/**
 * The automation operation builder: fluent setters that change the builder
 * in place, `Execute`, which validates it and describes the one request it
 * sends, and the three wrappers that send it and decode the answer.
 */
module Automation {
  import opened Wire
  import opened Client
  import opened Entities
  import opened Http
  import opened Responses
  import opened Documents
  import opened Urls

  const AutomationPath: string := "/site/automation/"
  const MissingOperationMessage: string := "You should set an operation name"
  const OperationBodyPart: string := "operation_body"
  const MultipartRelated: string := "multipart/related"

  /** The builder's fields other than the client, as one value; a nil map is `None`. */
  datatype OperationConfig = OperationConfig(
    operationName: string,
    parameters: Option<map<string, string>>,
    context: Option<map<string, string>>,
    input: string,
    blob: Bytes,
    blobName: string)

  const ZeroConfig: OperationConfig := OperationConfig("", None, None, "", [], "")

  /** The control document as `Execute` fills it: context and parameters only, so `input` stays empty. */
  function SentOpBody(context: map<string, string>, parameters: Option<map<string, string>>): (b: OpBody)
    ensures b.context == context && b.params == parameters
    ensures b.input == ""
  {
    OpBody(context, parameters, "")
  }

  /** The control document with the configured input filled in, as the builder's `Input` evidently intends. */
  function IntendedOpBody(context: map<string, string>, parameters: Option<map<string, string>>, input: string): (b: OpBody)
    ensures b.context == context && b.params == parameters
    ensures b.input == input
  {
    OpBody(context, parameters, input)
  }

  /** Whatever input is configured, the control document sent carries an empty one. */
  lemma ConfiguredInputIsDropped(cfg: OperationConfig)
    requires cfg.input != ""
    ensures SentOpBody(cfg.context.GetOr(map[]), cfg.parameters).input != cfg.input
    ensures IntendedOpBody(cfg.context.GetOr(map[]), cfg.parameters, cfg.input).input == cfg.input
  {
  }

  /** Escaping the extended path leaves the fixed automation path as it is and escapes only the name. */
  lemma {:induction false} AutomationPathIsKept(operationName: string)
    ensures EscapePath(AutomationPath + operationName) == AutomationPath + EscapePath(operationName)
  {
    assert forall i :: 0 <= i < |AutomationPath| ==> PathChar(AutomationPath[i]);
    EscapeKeepsPathChars(AutomationPath);
    EscapeAppend(AutomationPath, operationName);
  }

  /**
   * The request for operation `operationName` on the server at `baseUrl`:
   * always a POST to the automation path, extended as `url.URL` does it, so
   * the operation name is percent-encoded; a two-part "multipart/related" body
   * (the control document, then the raw attachment) exactly when an
   * attachment name is set, the plain control document otherwise.
   */
  function OperationRequest(baseUrl: string, operationName: string, body: OpBody, blobName: string, blob: Bytes): (r: Request)
    ensures r.verb == POST
    ensures r.url == baseUrl + AutomationPath + EscapePath(operationName)
    ensures r.body.Multipart? <==> blobName != ""
    ensures blobName != "" ==>
              && r.headers == map["Content-Type" := MultipartRelated]
              && |r.body.parts| == 2
              && r.body.parts[0] == Part(OperationBodyPart, OperationBodyPart, Control(OperationJson(body)))
              && r.body.parts[1] == Part(blobName, blobName, Raw(blob))
    ensures blobName == "" ==> r.headers == map[] && r.body == Json(OperationJson(body))
  {
    AutomationPathIsKept(operationName);
    var url := baseUrl + EscapePath(AutomationPath + operationName);
    if blobName != "" then
      Request(POST, url, map["Content-Type" := MultipartRelated],
              Multipart([Part(OperationBodyPart, OperationBodyPart, Control(OperationJson(body))),
                         Part(blobName, blobName, Raw(blob))]))
    else
      Request(POST, url, map[], Json(OperationJson(body)))
  }

  /** The operation a request addresses, read back from its URL. */
  function OperationNameOf(baseUrl: string, url: string): Option<string> {
    if HasPrefix(baseUrl + AutomationPath, url) then Some(url[|baseUrl + AutomationPath|..]) else None
  }

  /** The control document a request carries, in either encoding. */
  function ControlDocumentOf(r: Request): Option<OpBody> {
    match r.body
    case Json(OperationJson(b)) => Some(b)
    case Multipart(parts) =>
      if |parts| > 0 && parts[0].param == OperationBodyPart && parts[0].content.Control?
         && parts[0].content.payload.OperationJson?
      then Some(parts[0].content.payload.op)
      else None
    case _ => None
  }

  /** The named attachment a request carries, if any. */
  function AttachmentOf(r: Request): Option<(string, Bytes)> {
    if r.body.Multipart? && |r.body.parts| == 2 && r.body.parts[1].content.Raw?
    then Some((r.body.parts[1].param, r.body.parts[1].content.bytes))
    else None
  }

  /**
   * Nothing configured is lost on the way to the wire: the escaped operation
   * name (the name itself, once decoded, when it is ASCII), the control
   * document and the attachment can all be read back from the request.
   */
  lemma {:induction false} OperationRequestRoundTrip(baseUrl: string, operationName: string, body: OpBody,
                                                     blobName: string, blob: Bytes)
    ensures var r := OperationRequest(baseUrl, operationName, body, blobName, blob);
      && OperationNameOf(baseUrl, r.url) == Some(EscapePath(operationName))
      && ((forall i :: 0 <= i < |operationName| ==> operationName[i] as int < 0x80) ==>
            Unescape(OperationNameOf(baseUrl, r.url).value) == operationName)
      && ControlDocumentOf(r) == Some(body)
      && AttachmentOf(r) == (if blobName != "" then Some((blobName, blob)) else None)
  {
    SuffixAfterPrefix(baseUrl + AutomationPath, EscapePath(operationName));
    if forall i :: 0 <= i < |operationName| ==> operationName[i] as int < 0x80 {
      UnescapeInvertsEscape(operationName);
    }
  }

  /**
   * With the control document the builder evidently intends, the attachment
   * set by `Blob` is also named as the operation's input: both can be read
   * back from the request.
   */
  lemma {:induction false} IntendedInputNamesTheBlob(baseUrl: string, cfg: OperationConfig, name: string, blob: Bytes)
    requires name != ""
    ensures var after := cfg.(blobName := name, blob := blob, input := name);
      var r := OperationRequest(baseUrl, after.operationName,
                                IntendedOpBody(after.context.GetOr(map[]), after.parameters, after.input),
                                after.blobName, after.blob);
      && ControlDocumentOf(r).value.input == name
      && AttachmentOf(r) == Some((name, blob))
  {
    var after := cfg.(blobName := name, blob := blob, input := name);
    OperationRequestRoundTrip(baseUrl, after.operationName,
                              IntendedOpBody(after.context.GetOr(map[]), after.parameters, after.input), name, blob);
  }

  /**
   * A client built with no URL, or with a plain one, has a plain URL: the
   * default configuration meets what `Execute` asks of its base URL.
   */
  lemma BuiltUrlIsPlain(s: Settings)
    requires s.url == "" || PlainUrl(s.url)
    ensures PlainUrl(BuildClient(s).url)
  {
    DefaultUrlIsPlain();
  }

  /** `DefaultURL` is a plain base URL. */
  lemma DefaultUrlIsPlain()
    ensures PlainUrl(DefaultURL)
  {
    var scheme, host, port, path := "http", "localhost", "8080", "/nuxeo";
    assert PlainScheme(scheme);
    assert forall i :: 0 <= i < |host| ==> HostChar(host[i]);
    assert forall i :: 0 <= i < |port| ==> IsDigit(port[i]);
    assert PlainPath(path);
    assert DefaultURL == scheme + "://" + (host + (if port == "" then "" else ":" + port)) + path;
    AssembledUrlIsPlain(scheme, host, port, path, DefaultURL);
  }

  /** The automation builder. Every setter returns the builder itself. */
  class Automation {
    var operationName: string
    var parameters: Option<map<string, string>>
    var context: Option<map<string, string>>
    var input: string
    const nuxeoClient: ConnectedClient
    var blob: Bytes
    var blobName: string

    /** All fields but the client, as one value. */
    function Config(): OperationConfig
      reads this
    {
      OperationConfig(operationName, parameters, context, input, blob, blobName)
    }

    /** A builder bound to `client`, every other field at its zero value. */
    constructor (client: ConnectedClient)
      ensures nuxeoClient == client
      ensures Config() == ZeroConfig
    {
      nuxeoClient := client;
      operationName, parameters, context, input := "", None, None, "";
      blob, blobName := [], "";
    }

    method Operation(name: string) returns (self: Automation)
      modifies this
      ensures self == this
      ensures Config() == old(Config()).(operationName := name)
    {
      operationName := name;
      self := this;
    }

    /** Sets the attachment and, with it, the input to the attachment's name. */
    method Blob(name: string, blob: Bytes) returns (self: Automation)
      modifies this
      ensures self == this
      ensures Config() == old(Config()).(blobName := name, blob := blob, input := name)
    {
      blobName := name;
      this.blob := blob;
      input := name;
      self := this;
    }

    method Context(context: Option<map<string, string>>) returns (self: Automation)
      modifies this
      ensures self == this
      ensures Config() == old(Config()).(context := context)
    {
      this.context := context;
      self := this;
    }

    method Parameters(parameters: Option<map<string, string>>) returns (self: Automation)
      modifies this
      ensures self == this
      ensures Config() == old(Config()).(parameters := parameters)
    {
      this.parameters := parameters;
      self := this;
    }

    method Input(input: string) returns (self: Automation)
      modifies this
      ensures self == this
      ensures Config() == old(Config()).(input := input)
    {
      this.input := input;
      self := this;
    }

    /** The request `Execute` builds from the current fields, a nil context counting as empty. */
    function PendingRequest(): Request
      reads this
    {
      OperationRequest(nuxeoClient.url, operationName, SentOpBody(context.GetOr(map[]), parameters), blobName, blob)
    }

    /**
     * Refuses an empty operation name before touching anything; otherwise
     * replaces a nil context by an empty map, for good, and describes the
     * request to send. The base URL must parse when it is used.
     */
    method Execute() returns (r: Result<Request, Error>)
      requires operationName != "" ==> PlainUrl(nuxeoClient.url)
      modifies this`context
      ensures operationName == "" ==> r == Failure(New(MissingOperationMessage)) && context == old(context)
      ensures operationName != "" ==> context == Some(old(context).GetOr(map[]))
      ensures operationName != "" ==> r == Success(old(PendingRequest())) && PendingRequest() == old(PendingRequest())
    {
      if operationName == "" {
        return Failure(New(MissingOperationMessage));
      }
      if context.None? {
        context := Some(map[]);
      }
      var url := nuxeoClient.url + EscapePath(AutomationPath + operationName);
      var body := SentOpBody(context.value, parameters);
      if blobName != "" {
        var parts := [Part(OperationBodyPart, OperationBodyPart, Control(OperationJson(body))),
                      Part(blobName, blobName, Raw(blob))];
        r := Success(Request(POST, url, map["Content-Type" := MultipartRelated], Multipart(parts)));
      } else {
        r := Success(Request(POST, url, map[], Json(OperationJson(body))));
      }
    }

    /**
     * Executes, then decodes one document. An error from `Execute` or the
     * transport comes back as it is, with the zero document; otherwise the
     * verdict of `HandleResponse`, and the client is attached to whatever was
     * decoded, even after a failure.
     */
    method DocExecute(exchange: Request -> Outcome, decode: Bytes -> Unmarshalled<DocumentFields>)
      returns (doc: Document, err: Option<Error>)
      requires operationName != "" ==> PlainUrl(nuxeoClient.url)
      modifies this`context
      ensures context == if operationName == "" then old(context) else Some(old(context).GetOr(map[]))
      ensures operationName == "" ==> doc == ZeroDocument && err == Some(New(MissingOperationMessage))
      ensures operationName != "" ==>
                var o := exchange(old(PendingRequest()));
                && (o.TransportFailure? ==> doc == ZeroDocument && err == Some(o.failure))
                && (o.Received? ==>
                      var h := HandleResponse(o, ZeroDocumentFields, Into(decode));
                      doc == Document(h.target, nuxeoClient) && err == h.err)
    {
      var r := Execute();
      if r.Failure? {
        return ZeroDocument, Some(r.error);
      }
      var o := exchange(r.value);
      if o.TransportFailure? {
        return ZeroDocument, Some(o.failure);
      }
      var h := HandleResponse(o, ZeroDocumentFields, Into(decode));
      var currentDoc := Document(h.target, ZeroClient);
      currentDoc := currentDoc.(nuxeoClient := nuxeoClient);
      doc, err := currentDoc, h.err;
    }

    /**
     * Executes, then decodes a record set. Errors propagate as in
     * `DocExecute`; the documents come back exactly as decoded, without the
     * client, because the reattaching loop only changes copies.
     */
    method DocListExecute(exchange: Request -> Outcome, decode: Bytes -> Unmarshalled<RecordSetFields>)
      returns (records: RecordSet, err: Option<Error>)
      requires operationName != "" ==> PlainUrl(nuxeoClient.url)
      modifies this`context
      ensures context == if operationName == "" then old(context) else Some(old(context).GetOr(map[]))
      ensures operationName == "" ==> records == ZeroRecordSet && err == Some(New(MissingOperationMessage))
      ensures operationName != "" ==>
                var o := exchange(old(PendingRequest()));
                && (o.TransportFailure? ==> records == ZeroRecordSet && err == Some(o.failure))
                && (o.Received? ==>
                      var h := HandleResponse(o, ZeroRecordSetFields, Into(decode));
                      records == RecordSetOf(h.target) && err == h.err)
      ensures forall i :: 0 <= i < |records.documents| ==> records.documents[i].nuxeoClient == ZeroClient
    {
      var r := Execute();
      if r.Failure? {
        return ZeroRecordSet, Some(r.error);
      }
      var o := exchange(r.value);
      if o.TransportFailure? {
        return ZeroRecordSet, Some(o.failure);
      }
      var h := HandleResponse(o, ZeroRecordSetFields, Into(decode));
      records := RecordSetOf(h.target);
      var documents := RangeAttach(records.documents, nuxeoClient);
      records := records.(documents := documents);
      err := h.err;
    }

    /**
     * Executes and returns the raw body of the response: no status or JSON
     * check. Errors from `Execute` or the transport come back with no bytes.
     */
    method BlobExecute(exchange: Request -> Outcome) returns (bytes: Bytes, err: Option<Error>)
      requires operationName != "" ==> PlainUrl(nuxeoClient.url)
      modifies this`context
      ensures context == if operationName == "" then old(context) else Some(old(context).GetOr(map[]))
      ensures operationName == "" ==> bytes == [] && err == Some(New(MissingOperationMessage))
      ensures operationName != "" ==>
                var o := exchange(old(PendingRequest()));
                && (o.TransportFailure? ==> bytes == [] && err == Some(o.failure))
                && (o.Received? ==> bytes == o.body && err.None?)
    {
      var r := Execute();
      if r.Failure? {
        return [], Some(r.error);
      }
      var o := exchange(r.value);
      if o.TransportFailure? {
        return [], Some(o.failure);
      }
      bytes, err := o.body, None;
    }
  }
}
