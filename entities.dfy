/**
 * The passive records the server's JSON is decoded into: documents and
 * record sets, directory entries and users, with their zero values.
 */
module Entities {
  import opened Wire
  import opened Client

  /** A JSON value held in a properties map, kept as its JSON text: nothing here looks inside it. */
  datatype JsonValue = JsonValue(text: string)

  type Properties = map<string, JsonValue>

  /** The exported fields of a `document`: all that `json.Unmarshal` can fill. */
  datatype DocumentFields = DocumentFields(
    entityType: string,
    uid: string,
    path: string,
    docType: string,
    name: string,
    properties: Properties)

  /**
   * A `document`: its JSON fields and the unexported back-reference to the
   * client, which decoding never touches.
   */
  datatype Document = Document(fields: DocumentFields, nuxeoClient: NuxeoClient)

  /** The exported fields of a `recordSet`, as decoded from a page of documents. */
  datatype RecordSetFields = RecordSetFields(
    entries: seq<DocumentFields>,
    totalSize: int64,
    currentPageIndex: int64,
    numberOfPages: int64)

  datatype RecordSet = RecordSet(
    documents: seq<Document>,
    totalSize: int64,
    currentPageIndex: int64,
    numberOfPages: int64)

  datatype Directory = Directory(
    entityType: string,
    directoryName: string,
    id: string,
    properties: Properties)

  datatype DirectorySet = DirectorySet(entries: seq<Directory>)

  /** A user as the user-management endpoints return it; `username` is the JSON field "id". */
  datatype User = User(
    username: string,
    entityType: string,
    isAdministrator: bool,
    properties: Properties,
    isAnonymous: bool)

  const ZeroDocumentFields: DocumentFields := DocumentFields("", "", "", "", "", map[])
  const ZeroDocument: Document := Document(ZeroDocumentFields, ZeroClient)
  const ZeroRecordSetFields: RecordSetFields := RecordSetFields([], 0, 0, 0)
  const ZeroRecordSet: RecordSet := RecordSet([], 0, 0, 0)
  const ZeroDirectory: Directory := Directory("", "", "", map[])
  const ZeroDirectorySet: DirectorySet := DirectorySet([])
  const ZeroUser: User := User("", "", false, map[], false)

  /**
   * The `recordSet` that decoding leaves in a zero-valued variable: the
   * decoded documents in order, each with the zero client, and the page data.
   */
  function RecordSetOf(w: RecordSetFields): (r: RecordSet)
    ensures |r.documents| == |w.entries|
    ensures forall i :: 0 <= i < |w.entries| ==> r.documents[i] == Document(w.entries[i], ZeroClient)
    ensures r.totalSize == w.totalSize && r.currentPageIndex == w.currentPageIndex
    ensures r.numberOfPages == w.numberOfPages
  {
    RecordSet(seq(|w.entries|, i requires 0 <= i < |w.entries| => Document(w.entries[i], ZeroClient)),
              w.totalSize, w.currentPageIndex, w.numberOfPages)
  }
}
