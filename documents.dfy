/**
 * Navigation from a fetched document: `FetchChildren`, and the loop that is
 * meant to reattach the client to each returned document.
 */
module Documents {
  import opened Wire
  import opened Client
  import opened Entities
  import opened Http
  import opened Responses
  import opened Endpoints

  const ChildrenSuffix: string := "/@children"

  /**
   * The loop `for key, entry := range documents { entry.nuxeoClient = c }`:
   * each pass assigns to a copy of the element, so the documents come out
   * exactly as they went in.
   */
  method RangeAttach(documents: seq<Document>, c: NuxeoClient) returns (after: seq<Document>)
    ensures after == documents
  {
    for key := 0 to |documents| {
      var entry := documents[key];
      entry := entry.(nuxeoClient := c);
    }
    after := documents;
  }

  /**
   * The loop as evidently intended: writing through the index so that every
   * document carries the client and is otherwise unchanged.
   */
  method AttachClient(documents: seq<Document>, c: NuxeoClient) returns (attached: seq<Document>)
    ensures |attached| == |documents|
    ensures forall i :: 0 <= i < |documents| ==> attached[i] == documents[i].(nuxeoClient := c)
  {
    attached := documents;
    for key := 0 to |documents|
      invariant |attached| == |documents|
      invariant forall i :: 0 <= i < key ==> attached[i] == documents[i].(nuxeoClient := c)
      invariant forall i :: key <= i < |documents| ==> attached[i] == documents[i]
    {
      attached := attached[key := attached[key].(nuxeoClient := c)];
    }
  }

  /** The request `FetchChildren` sends for `doc`. */
  function ChildrenRequest(doc: Document): Request {
    GetRequest(doc.nuxeoClient.url + PathPrefix + doc.fields.path + ChildrenSuffix)
  }

  /**
   * `FetchChildren`: GETs the children of `doc` through the document's own
   * client and discards the verdict of `HandleResponse`. The result is what
   * decoding left in the record set (the zero record set when decoding never
   * started); no child carries the client, so none can be navigated further.
   */
  method FetchChildren(doc: Document, exchange: Request -> Outcome, decode: Bytes -> Unmarshalled<RecordSetFields>)
    returns (children: RecordSet)
    requires doc.nuxeoClient.transport.Some?
    ensures var o := exchange(ChildrenRequest(doc));
      && (Classify(o, true) == Decoding ==> children == RecordSetOf(decode(o.body).target))
      && (Classify(o, true) != Decoding ==> children == ZeroRecordSet)
    ensures forall i :: 0 <= i < |children.documents| ==> children.documents[i].nuxeoClient == ZeroClient
  {
    var o := exchange(ChildrenRequest(doc));
    var recordSet := RecordSetOf(ZeroRecordSetFields);
    var handled := HandleResponse(o, ZeroRecordSetFields, Into(decode));
    recordSet := RecordSetOf(handled.target);
    var documents := RangeAttach(recordSet.documents, doc.nuxeoClient);
    recordSet := recordSet.(documents := documents);
    children := recordSet;
  }

  /** The children URL is the document's fetch URL followed by "/@children". */
  lemma ChildrenOfFetchedPath(c: ConnectedClient, fields: DocumentFields)
    ensures ChildrenRequest(Document(fields, c)).url ==
            GetRequest(c.url + PathPrefix + fields.path).url + ChildrenSuffix
  {
  }
}
