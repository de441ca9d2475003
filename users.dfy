/**
 * The user endpoints. Reading and creating go through `HandleResponse`;
 * deleting returns the transport error alone.
 */
module Users {
  import opened Wire
  import opened Client
  import opened Entities
  import opened Http
  import opened Responses
  import opened Endpoints
  import opened Directories

  const UserPath: string := "/api/v1/user"

  /** `GetUser(u)`: the decoded user, with exactly `HandleResponse`'s verdict. */
  function GetUser(c: ConnectedClient, username: string, exchange: Request -> Outcome,
                   decode: Bytes -> Unmarshalled<User>): (r: Call<User>)
    ensures r.request == GetRequest(c.url + UserPath + "/" + username)
    ensures var h := HandleResponse(exchange(r.request), ZeroUser, Into(decode));
      r.value == h.target && r.err == h.err
  {
    var request := GetRequest(c.url + "/api/v1/user/" + username);
    var h := HandleResponse(exchange(request), ZeroUser, Into(decode));
    Call(request, h.target, h.err)
  }

  /** `CreateUser(u)`: POSTs the JSON of `u` and returns the decoded answer with `HandleResponse`'s verdict. */
  function CreateUser(c: ConnectedClient, newUser: User, exchange: Request -> Outcome,
                      decode: Bytes -> Unmarshalled<User>): (r: Call<User>)
    ensures r.request == Request(POST, c.url + UserPath, map[], Json(UserJson(newUser)))
    ensures var h := HandleResponse(exchange(r.request), ZeroUser, Into(decode));
      r.value == h.target && r.err == h.err
  {
    var request := Request(POST, c.url + UserPath, map[], Json(UserJson(newUser)));
    var h := HandleResponse(exchange(request), ZeroUser, Into(decode));
    Call(request, h.target, h.err)
  }

  /**
   * `DeleteUser(u)`: sends a DELETE and returns the transport error as it is;
   * the status and body of a response are ignored.
   */
  function DeleteUser(c: ConnectedClient, username: string, exchange: Request -> Outcome): (r: Call<()>)
    ensures r.request == Request(DELETE, c.url + UserPath + "/" + username, map[], NoBody)
    ensures exchange(r.request).TransportFailure? ==> r.err == Some(exchange(r.request).failure)
    ensures exchange(r.request).Received? ==> r.err.None?
  {
    var request := Request(DELETE, c.url + "/api/v1/user/" + username, map[], NoBody);
    var o := exchange(request);
    Call(request, (), if o.TransportFailure? then Some(o.failure) else None)
  }

  /** Deleting a user addresses the URL that reading it does. */
  lemma DeleteTargetsTheUser(c: ConnectedClient, username: string, exchange: Request -> Outcome,
                             decode: Bytes -> Unmarshalled<User>)
    ensures DeleteUser(c, username, exchange).request.url == GetUser(c, username, exchange, decode).request.url
  {
  }

  /** A user URL and a directory URL never coincide, whatever the names. */
  lemma {:induction false} UserAndDirectoryUrlsDiffer(c: ConnectedClient, username: string, directory: string,
                                                      exchange: Request -> Outcome,
                                                      decodeUser: Bytes -> Unmarshalled<User>,
                                                      decodeSet: Bytes -> Unmarshalled<DirectorySet>)
    ensures GetUser(c, username, exchange, decodeUser).request.url !=
            GetDirectory(c, directory, exchange, decodeSet).request.url
  {
    var u := c.url + UserPath + "/" + username;
    var d := c.url + DirectoryPrefix + directory;
    assert u[|c.url| + 8] == 'u';
    assert d[|c.url| + 8] == 'd';
  }
}
