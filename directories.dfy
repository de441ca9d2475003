/**
 * The directory endpoints: each builds its URL, sends one request and hands
 * the outcome to `HandleResponse`, whose verdict is the error returned.
 */
module Directories {
  import opened Wire
  import opened Client
  import opened Entities
  import opened Http
  import opened Responses
  import opened Endpoints

  const DirectoryPrefix: string := "/api/v1/directory/"

  /** `GetDirectory(d)`: the entries of directory `d`, with exactly `HandleResponse`'s verdict. */
  function GetDirectory(c: ConnectedClient, directory: string, exchange: Request -> Outcome,
                        decode: Bytes -> Unmarshalled<DirectorySet>): (r: Call<DirectorySet>)
    ensures r.request == GetRequest(c.url + DirectoryPrefix + directory)
    ensures var h := HandleResponse(exchange(r.request), ZeroDirectorySet, Into(decode));
      r.value == h.target && r.err == h.err
    ensures Classify(exchange(r.request), true) != Decoding ==> r.value == ZeroDirectorySet
  {
    var request := GetRequest(c.url + DirectoryPrefix + directory);
    var h := HandleResponse(exchange(request), ZeroDirectorySet, Into(decode));
    Call(request, h.target, h.err)
  }

  /**
   * `CreateDirectory(name, dir)`: POSTs the JSON of `dir` and returns the
   * entry the server sent back, never `dir` itself.
   */
  function CreateDirectory(c: ConnectedClient, name: string, dir: Directory, exchange: Request -> Outcome,
                           decode: Bytes -> Unmarshalled<Directory>): (r: Call<Directory>)
    ensures r.request == Request(POST, c.url + DirectoryPrefix + name, map[], Json(DirectoryJson(dir)))
    ensures var h := HandleResponse(exchange(r.request), ZeroDirectory, Into(decode));
      r.value == h.target && r.err == h.err
    ensures Classify(exchange(r.request), true) != Decoding ==> r.value == ZeroDirectory
  {
    var request := Request(POST, c.url + DirectoryPrefix + name, map[], Json(DirectoryJson(dir)));
    var h := HandleResponse(exchange(request), ZeroDirectory, Into(decode));
    Call(request, h.target, h.err)
  }

  /**
   * What `CreateDirectory` returns depends on `dir` only through the request:
   * two entries the server answers alike yield the same result.
   */
  lemma CreatedEntryComesFromServer(c: ConnectedClient, name: string, dir: Directory, dir': Directory,
                                    exchange: Request -> Outcome, decode: Bytes -> Unmarshalled<Directory>)
    requires exchange(CreateDirectory(c, name, dir, exchange, decode).request) ==
             exchange(CreateDirectory(c, name, dir', exchange, decode).request)
    ensures CreateDirectory(c, name, dir, exchange, decode).value == CreateDirectory(c, name, dir', exchange, decode).value
    ensures CreateDirectory(c, name, dir, exchange, decode).err == CreateDirectory(c, name, dir', exchange, decode).err
  {
  }

  /** Reading a directory and creating an entry in it address the same URL, with different verbs. */
  lemma {:induction false} CreateTargetsTheDirectory(c: ConnectedClient, name: string, dir: Directory,
                                                     exchange: Request -> Outcome,
                                                     decodeSet: Bytes -> Unmarshalled<DirectorySet>,
                                                     decodeEntry: Bytes -> Unmarshalled<Directory>)
    ensures CreateDirectory(c, name, dir, exchange, decodeEntry).request.url ==
            GetDirectory(c, name, exchange, decodeSet).request.url
    ensures CreateDirectory(c, name, dir, exchange, decodeEntry).request.verb !=
            GetDirectory(c, name, exchange, decodeSet).request.verb
  {
  }
}
