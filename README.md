# A model of the Nuxeo Go client's request and response logic

This project models the decision logic and state of a thin HTTP client for
the Nuxeo content-repository server:

- the **automation operation builder** (`automation.go`), a class whose
  fluent setters change it in place. `Execute` validates it, makes a nil
  context an empty map, and describes the one POST it sends. The body is the
  JSON control document, or a two-part `multipart/related` body when an
  attachment is set. The base URL is extended the way Go's `net/url` does
  it, so the operation name is percent-encoded. Three wrappers send the
  request: two decode the answer, and `BlobExecute` returns the raw body;
- the **response classifier** `HandleResponse` (`utils.go`), an ordered chain
  of guards: transport error, then "not 204 and not valid JSON", then 404,
  then nil target, then decoding;
- the **endpoint wrappers** (`nuxeoclient.go`, `document.go`, `directory.go`,
  `usergroup.go`). Each builds a URL from the client's base URL and a fixed
  suffix, then either calls `HandleResponse` or runs its own inline guard
  chain;
- the **client builder** (`nuxeobuilder.go`). Its setters store values;
  `Build` resolves the default URL, picks exactly one authentication mode and
  copies a subset of the fields into the client record.

The network is a function parameter `exchange: Request -> Outcome`. An
`Outcome` is either a transport error or a response with a status code, a
body and a flag saying whether `json.Valid` accepts the body. Decoding
(`json.Unmarshal`) is a function parameter too. It returns the target as
filled and the error it reported. A JSON body that is sent is described by
the value being encoded. A Go `error` is a message plus an optional wrapped
cause, so `errors.Unwrap` returns that cause, and nil for `errors.New` errors.

Modules follow the source files: `Wire` (shared values), `Urls` (the part
of Go's `net/url` that `Execute` relies on), `Client`
(`nuxeobuilder.go`), `Entities` (the records of `document.go`,
`directory.go` and `usergroup.go`), `Http` (request descriptions),
`Responses` (`utils.go`), `Endpoints` (`nuxeoclient.go`), `Documents`,
`Directories`, `Users` and `Automation`.

The model follows the code as written, including where it does not do what
its own comments and setters suggest:
- a 404 whose body is not JSON reports "Json response is not valid", not
  "Cannot find resources", because the JSON check (utils.go:62) comes
  before the 404 check (utils.go:66);
- the control document's `input` is never filled, although `Input` and
  `Blob` store one (automation.go:65-88, 106-109);
- the client is never reattached to the documents of a record set, although
  the comment at document.go:57 says they should carry it.

The last two are also listed under Findings.

## Model

| member | source | states |
|---|---|---|
| `Client.ResolveUrl` | nuxeobuilder.go:116-120 | the resolved URL is never empty: the configured URL when set, `DefaultURL` ("http://localhost:8080/nuxeo") otherwise |
| `Client.TimeoutDuration` | nuxeobuilder.go:108 | the transport timeout is `minutes` times one minute in nanoseconds, modulo 2^64 (Go's int64 arithmetic) |
| `Client.TimeoutIsMinutes` | nuxeobuilder.go:108 | for 0 up to 153722867 minutes the timeout is exactly that many minutes |
| `Client.TimeoutWrapsAround` | nuxeobuilder.go:108 | at 153722868 minutes the duration overflows to a negative timeout |
| `Client.BuildClient` | nuxeobuilder.go:99-133 | the built client has the resolved URL and a transport. Basic auth with username and password is used iff the token is empty, the token otherwise. The timeout is given in minutes. url, username, password, debug, timeout, headers, cookies and repository are copied; token and enableTrace stay at zero |
| `Client.BuildAfterWriteBack` | nuxeobuilder.go:116-120 | writing the resolved URL back into the builder does not change what a later build returns |
| `Client.TokenOnlyReachesTransport` | nuxeobuilder.go:110-132 | any change of token changes only the transport's auth mode, never the client record's fields: the token when there is one, username and password otherwise |
| `Client.ClientBuilder.constructor` | nuxeobuilder.go:136-138 | `NuxeoClient()` gives a builder with every field at its zero value |
| `Client.ClientBuilder.URL` | nuxeobuilder.go:54-57 | stores the URL, returns the same builder, no other field changes |
| `Client.ClientBuilder.Username` | nuxeobuilder.go:59-62 | stores the username, returns the same builder, no other field changes |
| `Client.ClientBuilder.Password` | nuxeobuilder.go:64-67 | stores the password, returns the same builder, no other field changes |
| `Client.ClientBuilder.Token` | nuxeobuilder.go:69-72 | stores the token, returns the same builder, no other field changes |
| `Client.ClientBuilder.Repository` | nuxeobuilder.go:74-77 | stores the repository, returns the same builder, no other field changes |
| `Client.ClientBuilder.Timeout` | nuxeobuilder.go:79-82 | stores the timeout, returns the same builder, no other field changes |
| `Client.ClientBuilder.Headers` | nuxeobuilder.go:84-87 | stores the headers, returns the same builder, no other field changes |
| `Client.ClientBuilder.Cookies` | nuxeobuilder.go:89-92 | stores the cookies, returns the same builder, no other field changes |
| `Client.ClientBuilder.Debug` | nuxeobuilder.go:94-97 | stores the debug flag, returns the same builder, no other field changes |
| `Client.ClientBuilder.Build` | nuxeobuilder.go:99-133 | writes the resolved URL back into the builder, changes nothing else, and returns `BuildClient` of the old fields |
| `Entities.RecordSetOf` | document.go:38-43 | a decoded record set keeps its entries in order, each with the zero client, plus the page data |
| `Responses.Classify` | utils.go:31-72 | each verdict holds exactly under its own condition: transport error; status not 204 and body not JSON; status 404 with a JSON body; checks passed with or without a target |
| `Responses.HandleResponse` | utils.go:29-81 | a transport error gives `errors.Unwrap` of it. Invalid JSON and 404 give their fixed messages. A nil target gives nil. Otherwise the target is what decoding filled and the error is the unwrapped decode error. The target stays zero unless decoding ran |
| `Responses.InvalidJsonBeatsNotFound` | utils.go:62-68 | a 404 with a non-JSON body reports invalid JSON |
| `Responses.NoContentSkipsJsonCheck` | utils.go:62 | status 204 is decoded whatever its body |
| `Responses.StatusIgnoredForJsonBodies` | utils.go:62-74 | with a JSON body, every status but 404, 5xx included, is handled exactly like 200 |
| `Responses.TransportFailureShortCircuits` | utils.go:31-33 | a transport error yields its wrapped cause (possibly nil) and the zero target, whatever the target |
| `Responses.UnwrappedDecodeFailureIsSilent` | utils.go:74-80 | a decode error that wraps nothing is reported as no error, with the partly filled target |
| `Responses.ReportingHandleResponse` | utils.go:74-80 | corrected chain: the decode error is returned as it is. Once a response is received, the error is nil exactly when it is confirmed or decodes without error. The target, and the whole result on every verdict but decoding (the transport step included), are as in `HandleResponse` |
| `Endpoints.InlineGuards` | nuxeoclient.go:52-70 | sends the request. The error is nil iff a response came back with a JSON body that decodes, and then the value is the decoded one. Otherwise the value is zero and the message is the transport, invalid-JSON or decode message, in that order |
| `Endpoints.InlineGuardsIgnoreStatus` | nuxeoclient.go:57-70 | the status code never changes the inline chain's result |
| `Endpoints.Login` | nuxeoclient.go:46-75 | POSTs to url + "/api/v1/automation/login". A transport error gives "Client cannot be created". A non-JSON or undecodable body gives the user-unmarshalling message with the zero user. Otherwise it returns the decoded user |
| `Endpoints.FetchDocumentByPath` | nuxeoclient.go:108-137 | GETs url + "/api/v1/path" + path. A transport error gives "Error while fetching document". A non-JSON body gives the document-unmarshalling message. A decode failure gives the user-unmarshalling message. Success returns the decoded document with the client attached |
| `Endpoints.FetchDocumentRoot` | nuxeoclient.go:77-106 | GETs url + "/api/v1/path//" with the same guard chain, returning the attached document on success and the zero document otherwise |
| `Endpoints.RootIsDoubleSlashPath` | nuxeoclient.go:79-81 | fetching the root is exactly fetching the path "//" |
| `Endpoints.DistinctPathsDistinctUrls` | nuxeoclient.go:110 | different document paths are fetched from different URLs |
| `Endpoints.NotFoundIsDecoded` | nuxeoclient.go:119-136 | a 404 with a decodable JSON body is returned as a success |
| `Endpoints.CreateDocument` | nuxeoclient.go:139-141 | does nothing and returns nil |
| `Endpoints.UpdateDocument` | nuxeoclient.go:143-145 | does nothing and returns nil |
| `Endpoints.DeleteDocument` | nuxeoclient.go:147-149 | does nothing and returns nil |
| `Documents.RangeAttach` | document.go:52-55 | the range loop assigns to a copy: the documents come out unchanged |
| `Documents.AttachClient` | document.go:52-57 | corrected loop: every document carries the client and is otherwise unchanged |
| `Documents.FetchChildren` | document.go:45-60 | GETs url + "/api/v1/path" + doc path + "/@children" through the document's own client and ignores the verdict. It returns the decoded record set when decoding ran (even if it failed) and the zero record set otherwise. No child carries the client |
| `Documents.ChildrenOfFetchedPath` | document.go:46 | the children URL is the document's fetch URL followed by "/@children" |
| `Directories.GetDirectory` | directory.go:37-46 | GETs url + "/api/v1/directory/" + d. Returns what `HandleResponse` left in the directory set, with exactly its verdict |
| `Directories.CreateDirectory` | directory.go:48-60 | POSTs the JSON of `dir` to url + "/api/v1/directory/" + name. Returns the decoded server entry and `HandleResponse`'s verdict |
| `Directories.CreatedEntryComesFromServer` | directory.go:56-59 | the result depends on `dir` only through the server's answer: equal answers give equal results |
| `Directories.CreateTargetsTheDirectory` | directory.go:38-50 | creating an entry and reading the directory use the same URL with different verbs |
| `Users.GetUser` | usergroup.go:45-54 | GETs url + "/api/v1/user/" + u. Returns the decoded user with `HandleResponse`'s verdict |
| `Users.CreateUser` | usergroup.go:56-67 | POSTs the JSON of the user to url + "/api/v1/user". Returns the decoded user with `HandleResponse`'s verdict |
| `Users.DeleteUser` | usergroup.go:69-77 | sends a DELETE to the user URL. Returns the transport error itself, or nil whenever any response came back |
| `Users.DeleteTargetsTheUser` | usergroup.go:46-70 | deleting a user addresses the URL that reading it does |
| `Users.UserAndDirectoryUrlsDiffer` | usergroup.go:46 | a user URL never equals a directory URL |
| `Automation.SentOpBody` | automation.go:106-109 | the control document carries the context and parameters; its input is always empty |
| `Automation.IntendedOpBody` | automation.go:39-43 | corrected control document: carries the configured input |
| `Automation.ConfiguredInputIsDropped` | automation.go:106-109 | a configured non-empty input never reaches the wire |
| `Urls.EscapePath` | automation.go:104-124 | the path as `String()` writes it holds only path characters and `%` escapes, never a `?` or `#`, and is at least as long as the path |
| `Urls.EscapeAppend` | automation.go:104 | escaping distributes over concatenation, so extending a path and escaping commute |
| `Urls.EscapeKeepsPathChars` | automation.go:104-124 | a path of characters that are never escaped is written back unchanged |
| `Urls.UnescapeInvertsEscape` | automation.go:104-124 | for ASCII text, decoding the escapes gives back the original path |
| `Urls.AssembledUrlIsPlain` | automation.go:92 | a lower-case scheme, a host of letters, digits, dots and hyphens, an optional numeric port and a path of unescaped characters form a plain base URL |
| `Automation.DefaultUrlIsPlain` | nuxeoclient.go:28 | the default base URL "http://localhost:8080/nuxeo" is plain |
| `Automation.BuiltUrlIsPlain` | nuxeobuilder.go:116-120 | a client built with no URL, or with a plain one, has a plain base URL, so it meets what `Execute`, `DocExecute`, `DocListExecute` and `BlobExecute` ask of it |
| `Urls.PlainUrlHasOnlyPathChars` | automation.go:92 | every character of a plain base URL is one that is never escaped, so no query, fragment, escape, bracket or parenthesis occurs |
| `Urls.UpperCaseSchemeIsNotPlain` | automation.go:92 | a URL whose scheme `url.Parse` would lower-case is not plain |
| `Urls.NonNumericPortIsNotPlain` | automation.go:92 | an authority whose port `url.Parse` rejects is not plain |
| `Automation.AutomationPathIsKept` | automation.go:104 | escaping the extended path leaves "/site/automation/" as it is and escapes only the operation name |
| `Automation.OperationRequest` | automation.go:104-124 | always a POST to base URL + "/site/automation/" + the percent-encoded name. Multipart iff an attachment name is set: exactly two parts, "operation_body" (the control document) then the attachment's raw bytes under its own name, with `Content-Type: multipart/related`. Otherwise the control document is the plain body |
| `Automation.OperationRequestRoundTrip` | automation.go:104-122 | the escaped operation name (and, for an ASCII name, the name itself once decoded), the control document and the attachment can all be read back from the request |
| `Automation.IntendedInputNamesTheBlob` | automation.go:65-70 | with the intended control document, after `Blob(n, b)` the request's control document names `n` as input and carries `n`, `b` as its attachment |
| `Automation.Automation.constructor` | automation.go:29-37 | a builder bound to a client, every other field at its zero value |
| `Automation.Automation.Operation` | automation.go:59-62 | stores the name, returns the same builder, no other field changes |
| `Automation.Automation.Blob` | automation.go:65-70 | sets blobName, blob and input := name, returns the same builder, no other field changes |
| `Automation.Automation.Context` | automation.go:73-76 | stores the context, returns the same builder, no other field changes |
| `Automation.Automation.Parameters` | automation.go:79-82 | stores the parameters, returns the same builder, no other field changes |
| `Automation.Automation.Input` | automation.go:85-88 | stores the input, returns the same builder, no other field changes |
| `Automation.Automation.Execute` | automation.go:91-127 | an empty name gives "You should set an operation name" and leaves the context as it was. Otherwise (the base URL being plain) a nil context becomes an empty map for good, and the result is the request `OperationRequest` describes. Only the context can change |
| `Automation.Automation.DocExecute` | automation.go:130-143 | errors from `Execute` or the transport come back unchanged with the zero document, without decoding. Otherwise it returns `HandleResponse`'s verdict, with the client attached to whatever was decoded, even after a failure |
| `Automation.Automation.DocListExecute` | automation.go:146-162 | errors propagate as in `DocExecute`. Otherwise it returns the record set exactly as decoded and `HandleResponse`'s verdict. No document carries the client |
| `Automation.Automation.BlobExecute` | automation.go:165-173 | errors propagate with no bytes. Otherwise it returns the raw response body and nil, with no status or JSON check |

## Left out

- The HTTP transport itself: sending, cookies, headers, tracing and the
  resty client's behaviour. `Build` records the transport's configuration
  and `exchange` stands for the network.
- JSON encoding, decoding and `json.Valid`. They are parameters or flags,
  and a properties value is kept as its JSON text.
- Debug logging and trace dumps, including the log calls in `utils.go` and
  `nuxeoclient.go`.
- `Automation.Automation.Execute` (and `DocExecute`, `DocListExecute`,
  `BlobExecute`): requires a non-empty operation name to come with a plain
  base URL (`Urls.PlainUrl`): a lower-case scheme, a host of letters,
  digits, dots and hyphens, an optional numeric port, and a path of
  characters that are never escaped. On a URL that `url.Parse` rejects (a
  bad port, an unclosed IPv6 bracket) Go panics at automation.go:104. Go
  rewrites an upper-case scheme, existing escapes and path characters that
  `String()` escapes, so the concatenation would not be the URL sent. A
  query or fragment would end up after the appended path. User info and
  IPv6 literals, which Go keeps as written, are left out of the grammar only
  to keep it simple.
- `Automation.OperationRequestRoundTrip`: reads the operation name back
  through `Urls.Unescape`, which decodes single-byte escapes only, so the
  decoded name is promised for ASCII names; other names are read back in
  their escaped form.
- A nil transport or nil client pointer makes the methods that send a
  request panic. The model requires a client with a transport
  (`ConnectedClient`) for all of them, and `FetchChildren` requires a
  document whose client has one. The stubs `CreateDocument`,
  `UpdateDocument` and `DeleteDocument` never use their receiver; they take
  a `ConnectedClient` only for uniformity.
- Marshalling errors in `CreateDirectory` and `CreateUser` are not modelled.
  The encoded value is always representable here, and the source overwrites
  that error anyway.
- The asynchronous fetch helpers, `FetchBlob`, `Query` and the `Automation()`
  factory are not part of this model: none of automation.go, nuxeoclient.go,
  document.go, directory.go or usergroup.go defines them; only
  nuxeoclient_test.go calls them.
  The `Automation` constructor stands in for the factory.
- `user.go` and `structs.go` are not part of this model. The user record is
  the one in `usergroup.go`.
- The `Client` interface (nuxeoclient.go:32-43) is not modelled as a type.
  Only the concrete functions are.

## Findings

The model of each source operation keeps its behaviour as written. The
corrected member beside it is the evidently intended definition, with the
intended property proved.

| source | as written | input that shows it | evidently intended | confidence | as-written member | corrected member |
|---|---|---|---|---|---|---|
| document.go:52-57 | the loop `for key, entry := range ...` sets the client on a copy, so returned documents keep the zero client; the same loop is at automation.go:156-159 | any response whose record set has one entry: that child has the zero client and no transport, so calling `FetchChildren` on it panics | every returned document carries the client (the comment at document.go:57 says so) | high, not executed | `Documents.RangeAttach` | `Documents.AttachClient` |
| utils.go:74-80 | a decode failure is reported as `errors.Unwrap(jsonErr)`, which is nil for Go's JSON decoder errors because they wrap nothing | status 200 with the valid JSON body `{"entries": 5}` decoded into a record set: the type error has no cause, so the verdict is nil | the decode error is reported | medium, not executed | `Responses.UnwrappedDecodeFailureIsSilent` | `Responses.ReportingHandleResponse` |
| automation.go:106-109 | the control document is built without `Input`, so the configured input is never sent | `Input("doc:/")` then `Execute`: the sent control document's input is "" | the control document carries the configured input (which `Blob` sets to the attachment name) | medium, not executed | `Automation.ConfiguredInputIsDropped` | `Automation.IntendedOpBody` |
