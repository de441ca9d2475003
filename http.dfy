/**
 * Descriptions of the HTTP requests the client sends. A JSON body is
 * described by the value that is encoded, not by its text.
 */
module Http {
  import opened Wire
  import opened Entities

  datatype Method = GET | POST | DELETE

  /** The JSON control document of an automation call; `params` is null when never set. */
  datatype OpBody = OpBody(context: map<string, string>, params: Option<map<string, string>>, input: string)

  /** A value sent as its JSON encoding. */
  datatype Payload =
    | OperationJson(op: OpBody)
    | DirectoryJson(dir: Directory)
    | UserJson(user: User)

  datatype PartContent = Control(payload: Payload) | Raw(bytes: Bytes)

  /** One part of a multipart body: form parameter name, file name and content. */
  datatype Part = Part(param: string, fileName: string, content: PartContent)

  datatype Body = NoBody | Json(payload: Payload) | Multipart(parts: seq<Part>)

  datatype Request = Request(verb: Method, url: string, headers: map<string, string>, body: Body)

  /** A GET with no headers of its own and no body. */
  function GetRequest(url: string): Request {
    Request(GET, url, map[], NoBody)
  }

  /** `b` is `a` followed by something. */
  predicate HasPrefix(a: string, b: string) {
    |a| <= |b| && b[..|a|] == a
  }

  /** Appending to a fixed prefix loses nothing: the suffix can be read back. */
  lemma {:induction false} SuffixAfterPrefix(a: string, s: string)
    ensures HasPrefix(a, a + s)
    ensures (a + s)[|a|..] == s
  {
    assert (a + s)[..|a|] == a;
  }
}
