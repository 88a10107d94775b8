# On-premise gateway and repository mirror, modelled in Dafny

`app.py` is a small Flask service for SAP Cloud Platform. It reaches an on-premise
system through a named destination, the connectivity proxy and the Cloud Connector
(`call_destination`). It also mirrors a remote directory tree into the local file
system through that gateway (`download_directory`). This project models three parts of
it and proves what they do:

- `Gateway` (gateway.dfy) models `call_destination`. It first runs the ordered input
  guard. Then come the five fail-fast stages: service credentials, destination token,
  destination lookup, connectivity token and proxied fetch. Along the way it builds
  the token URL, the destination URL, the proxy address and the request URL, and it
  makes the redacted diagnostic copy of the destination record. The network is a
  parameter (`Network.send`, the reply to each request it could issue). The result
  records the outcome, the requests actually issued in order, and the diagnostic copy.
- `DownloadPath` (download_path.dfy) models the relative path that is computed from a
  download URL. `PyStr` (pystr.dfy) supplies the Python string operations it uses:
  `str.strip` with a character set, `split`, `join` and `in`.
- `Mirror` (mirror.dfy) models `download_directory`. The remote tree is a recursive
  value. The walk is a recursive method of the class `Mirror.Walker`, which updates the
  working directory, the set of local directories and a log of effects (fetches,
  `mkdir`, file writes, background downloads). The method is proved equal to the
  specification function `WalkDir`. Lemmas about `WalkDir` state the cwd discipline,
  listing order, pre-order traversal, confinement to the subtree and exactly when a
  walk succeeds.

Python's exceptions are modelled explicitly:

- An exception inside a `try` becomes that stage's `(message, status)` result, whose
  message carries what `str(e)` gives: `'key'` for a `KeyError`. The four stage
  messages are the constants DestTokenMsg, LookupMsg, ConnTokenMsg and FetchMsg (the
  texts of app.py:62, 76, 90 and 120, such as "Something wrong getting JWT from xsuaa
  service for the destination service. Exception: ").
- A dictionary lookup outside any `try` lets its `KeyError` escape `call_destination`.
  Examples are `uaa["url"]`, `destination_credentials['uri']`, the proxy host and port,
  and `destination['URL']`. The model returns `Uncaught` for these.
- An unbound service makes cfenv's `get_service` return `None`, so `.credentials`
  raises an `AttributeError`. Its text becomes part of the 503 message.
- The code never looks at an HTTP status. A stage fails only when the call raises,
  when the body is not JSON, when a key is missing, or, where it matters, when a
  value has the wrong type. The model follows the code: a reply with an error
  status whose body parses is used like any other reply.

## Model

| member | source | states |
|---|---|---|
| Gateway.CallDestination | app.py:16-122 | An empty destination gives ("Destination not found", 400); otherwise a missing path gives ("Path not found", 400); otherwise a missing environment gives ("Environment object is not forwarded", 400); in each case no request is issued and there is no diagnostic copy. A 503 happens exactly when the guard passes and one of the uaa, connectivity and destination services is unbound; its message is the fixed services text plus the AttributeError text, and no request has been issued. Every error is a 400, 500 or 503; every 500 carries one stage's message prefix; at most four requests are issued, and each only after the previous one returned a usable reply. The first request is the client-credentials POST to the uaa url + "/oauth/token?grant_type=client_credentials", authenticated with the destination service's clientid and clientsecret. The third request goes to the same token URL, authenticated with the connectivity service's clientid and clientsecret. The second request is the GET of the destination service's uri + "/destination-configuration/v1/destinations/" + the destination name. The fourth request targets exactly the configuration's URL + path, through the proxy "http://" + host + ":" + port, with the configuration's real User and Password and the stream flag; the call succeeds exactly when that request is answered, with the buffered content when not streaming and the response itself when streaming. A diagnostic copy, when there is one, is the redaction of the record the second reply carried, and there is one whenever a third request was issued; the fetch authenticates with the unredacted record |
| Gateway.Str | app.py:50-121 | `str(e)` of a KeyError is its key between single quotes, from which the key can be read back; of any other exception it is the exception's text |
| Gateway.CallDestinationSteps | app.py:41-122 | After the guard and the service credentials: a missing uaa `url` escapes with no request issued; a failed destination token exchange is (DestTokenMsg + str(e), 500) with the exchange's requests; a missing `uri` then escapes after the first request; a failed lookup is (LookupMsg + str(e), 500) with the two stages' requests; a successful lookup makes the rest of the call Connect on the looked-up record, with the redacted record as the diagnostic copy |
| Gateway.CallDestinationAfterLookup | app.py:73-122 | Whenever the second reply carried a usable configuration, the call's outcome is Connect's on that record, its requests from the third on are Connect's, and the diagnostic copy is the record's redaction |
| Gateway.CallDestinationSucceeds | app.py:53-117 | When the services carry every key the call reads, both token replies carry a string access_token, the lookup reply a configuration with URL, CloudConnectorLocationId, User and Password, and the proxied GET is answered, the call issues exactly the token POST, the lookup GET, the second token POST and the proxied GET, in that order, and returns the fourth reply's content, or the response itself when streaming, with the redacted record as diagnostic copy |
| Gateway.CallDestinationSuccessNeeds | app.py:53-117 | Conversely, a call that returns content or a stream had all of the above |
| Gateway.DestinationStagesBeforeSend | app.py:55-78 | A destination service without clientid, or with clientid but without clientsecret, gives (DestTokenMsg + "'clientid'", 500) resp. (DestTokenMsg + "'clientsecret'", 500) with no request issued; a first token that is a JSON object gives the lookup stage's 500 with the TypeError of the string concatenation after one request; a usable second reply always leaves its redaction as the diagnostic copy |
| Gateway.ConnectivityStagesBeforeSend | app.py:83-122 | After a usable lookup, a connectivity service without clientid or clientsecret gives the connectivity-token 500 ending in that key after two requests; after a usable third reply and with the proxy and URL keys present, a JSON-object token gives the fetch 500 with the concatenation's TypeError, and a record missing CloudConnectorLocationId, then User, then Password gives the fetch 500 ending in the first missing key, each after three requests |
| Gateway.CallDestinationUncaught | app.py:41-98 | An escaping exception is a KeyError of `url`, `uri`, the proxy host, the proxy port or `URL`, and the last three escape only after exactly three requests |
| Gateway.CallDestinationUncaughtEarly | app.py:41-67 | `url` escapes exactly when the guard passes, the services are bound and the uaa record lacks it, and then before any request; `uri` escapes exactly when the first reply carried a token and the destination service lacks it, and then after one request |
| Gateway.CallDestinationUncaughtProxy | app.py:94-98 | After a usable third reply, the proxy host escapes exactly when it is missing, the port exactly when the host is present and it is missing, and `URL` exactly when both are present and the record lacks it |
| Gateway.CallDestinationStages | app.py:53-122 | A 500 with the destination-token prefix means at most one request was issued and there is no diagnostic copy; with the lookup prefix, one or two requests and no diagnostic copy; with the connectivity-token prefix, two or three requests; with the fetch prefix, three or four. Conversely a first or third reply without a usable token, a second reply without a usable configuration, and a fourth request that raises each end the call with that stage's 500 |
| Gateway.CallDestinationHeaders | app.py:69-117 | Whenever the lookup is issued its headers are exactly Accept: application/json and Authorization: "Bearer " + the string token the first reply carried; whenever the fetch is issued its headers are exactly Accept, Proxy-Authorization: "Bearer " + the string token the third reply carried, and SAP-Connectivity-SCC-Location_ID: the CloudConnectorLocationId of the configuration the second reply carried |
| Gateway.Bearer | app.py:71 | The header `'Bearer ' + jwt` exists exactly when the token is a string, and is then "Bearer " followed by the token |
| Gateway.ExchangeToken | app.py:55-64 | A missing clientid or clientsecret fails with that KeyError before anything is sent; otherwise exactly the token POST is sent, and the stage succeeds exactly when the reply carries an access_token, which is its value; a raising call fails with the library's exception, a body that is not JSON with the decoder's exception, and a JSON object without access_token with KeyError('access_token') |
| Gateway.LookupDestination | app.py:69-78 | A token that is not a string fails with the TypeError of the header concatenation before anything is sent; otherwise exactly the bearer-authorised GET is sent, and the stage succeeds exactly when the reply carries a destinationConfiguration object, which is its value; a raising call fails with the library's exception, a body that is not JSON with the decoder's exception, a body without destinationConfiguration with KeyError('destinationConfiguration'), and a string destinationConfiguration with the TypeError of the item assignment |
| Gateway.Redact | app.py:73-74 | The copy has the record's keys plus Password, Password is "--protected--", and every other key keeps its value |
| Gateway.Fetch | app.py:101-122 | A request is issued only when the connectivity token is a string and CloudConnectorLocationId, User and Password are present; it carries the Accept, Proxy-Authorization and location headers, basic authentication, the proxy and the stream flag; the stage succeeds exactly when the request is answered. The request is built in argument order: a token that is not a string fails with the concatenation's TypeError, then a missing CloudConnectorLocationId, User or Password with that KeyError, each before sending; with all of them present the request is sent, and a raising call fails with the library's exception |
| Gateway.Connect | app.py:81-122 | The last two stages alone: the connectivity token exchange, then the fetch, whose Proxy-Authorization header carries the token the exchange's reply returned and whose location header is the configuration's CloudConnectorLocationId; the 500 prefix names the failing stage and the call succeeds exactly when the fetch is answered |
| Gateway.ConnectSteps | app.py:81-122 | A failed connectivity token exchange is (ConnTokenMsg + str(e), 500); after it, a missing proxy host, proxy port or URL escapes in that order with only the exchange's request issued; otherwise the requests are the exchange's then the fetch's, and the outcome is (FetchMsg + str(e), 500) when the fetch fails, else the response's content or the response itself when streaming; only those three keys can escape |
| Gateway.ConnectBeforeSend | app.py:83-122 | A connectivity service without clientid or clientsecret gives that stage's 500 ending in "'clientid'" resp. "'clientsecret'" with nothing sent; after a usable token reply each missing proxy or URL key escapes exactly when it is the first missing, and with them present the fetch's pre-send failures (non-string token, missing location, user or password) are the fetch 500 carrying str(e), after one request |
| Gateway.Resolve | app.py:53-78 | The first two stages followed by Connect: the first request is the destination token POST and the second the lookup GET of the named destination, each issued only after the previous reply was usable; a 500 with the first or second stage's prefix means no later request was issued; Connect's requests and outcome are those of the call from the third request on, and the diagnostic copy is the redacted looked-up record |
| Gateway.ResolveSteps | app.py:53-78 | A failed destination token exchange is that stage's 500 carrying str(e); a missing `uri` then escapes; a failed lookup is the lookup 500 carrying str(e) with both stages' requests; a successful lookup gives Connect's outcome on the record, the requests of all three parts in order and the redacted record as diagnostic copy; only `uri` and Connect's three keys can escape |
| Gateway.ResolveHeaders | app.py:69-117 | The same two header facts for the stages from the destination token on |
| Gateway.PrefixesExclusive | app.py:62-120 | A message that starts with one stage's prefix starts with none of the later stages' prefixes |
| Gateway.StagePrefixesDistinct | app.py:62-120 | No message starts with two of the four stage prefixes, so a 500 names exactly one failing stage |
| PyStr.Strip | app.py:127 | The result is never longer than the input |
| PyStr.StripIsStripped | app.py:127 | The result of Strip is the slice of the input that neither starts nor ends with a character of the set, after only characters of the set were removed from both ends (Python's `str.strip(chars)`) |
| PyStr.StrippedOfUnique | app.py:127 | Any two strings that are both a stripping of the same input by the same set are equal, so Strip names the one result |
| PyStr.Split | app.py:127 | Splitting gives at least one part, and no part contains the separator |
| PyStr.Join | app.py:127 | Joining no parts gives the empty string |
| PyStr.JoinHead | app.py:127 | A join starts with its first part, and with two or more parts the separator follows it |
| PyStr.JoinSplit | app.py:127 | Joining the parts of a split with its separator gives back the string |
| PyStr.SplitJoin | app.py:127 | Splitting a join of one or more separator-free parts gives back the parts |
| PyStr.Contains | app.py:150 | Python's `t in s` holds exactly when t occurs in s at some index |
| DownloadPath.RelativePath | app.py:126-127 | The relative path always starts with "/" |
| DownloadPath.RelativePathDropsFirstSegment | app.py:142 | After stripping the characters h, t, p, s, ":" and "/" from both ends, a URL with no "/" left gives "/", and otherwise gives "/" followed by everything after the first "/" |
| DownloadPath.RelativePathOfUrl | app.py:126-127 | Padding of strip characters + a host with no "/" that does not start with a strip character + "/" + a path that does not end with one + padding of strip characters gives "/" + path, so e.g. "https://host/a/b" gives "/a/b" and "https://host/repo/branch" loses its final "h" |
| DownloadPath.HostUrlExample | app.py:126-127 | "https://host/a/b" gives "/a/b" |
| DownloadPath.BranchUrlExample | app.py:126-127 | "https://host/repo/branch" gives "/repo/branc": the final "h" is stripped as a strip character |
| DownloadPath.StripCharHostExample | app.py:126-127 | "https://ssh/a/b" gives "/b": a host made only of strip characters is stripped with the "/" after it, so the first path segment is dropped in its place |
| DownloadPath.StripOfPadded | app.py:127 | Stripping a string padded on both sides with strip characters, whose own ends are not strip characters, gives that string |
| DownloadPath.JoinAfterFirst | app.py:127 | Joining the split of a string minus its first part gives everything after the first separator, or "" when there is none |
| Mirror.LargeIffAtLeastMiB | app.py:140 | `size // 1024 >= 1024` holds exactly when size >= 1048576, for every integer size |
| Mirror.Classify | app.py:139-158 | An entry goes to the directory branch exactly when its type is "dir", to the large-file branch exactly when it is a "file" of at least 1048576 bytes, to the small-file branch exactly when it is a smaller "file", and is skipped otherwise |
| Mirror.WalkDir | app.py:134-137 | A walk only appends to the log, and its first effect is the fetch of the directory's own listing |
| Mirror.WalkEntries | app.py:138 | The loop only appends to the log, and once an exception was raised it does nothing more |
| Mirror.WalkEntry | app.py:139-163 | One iteration only appends to the log, and an entry whose type is neither "file" nor "dir" has no effect at all |
| Mirror.MadeDirs | app.py:159 | The directories a stretch of the log creates are exactly those of its mkdir effects |
| Mirror.Openable | app.py:144-159 | The names `os.mkdir` and `open(name, 'wb')` accept in a directory that does not hold them: every name except "", "." and ".."; the walk fails on a dir, large-file or inline entry with any of the three (DirEntryConfined, WalkDirSucceeds) |
| Mirror.Parent | app.py:163 | `chdir('..')` from a directory the walk has entered drops exactly its last component (the path is the parent plus that component); the walk applies it only there, after a successful recursion into cwd + name, never to the directory it started in |
| Mirror.ClearFilesAppend | app.py:144-157 | A log writes files only to names that are not directories, existing or made earlier, exactly when its first part does so and its second part does so with the first part's directories added |
| Mirror.FreshDirsAppend | app.py:159 | A log creates only directories that did not exist, and none twice, exactly when its first part does so and its second part does so with the first part's directories added |
| Mirror.WalkDirConfined | app.py:134-163 | A walk of a directory, whatever its outcome, only appends to the log; every fetch it makes lies below the listed remote directory and every local path it touches lies strictly below the working directory it started in; the directories it adds are exactly the ones it created, none of which existed beforehand or was created twice; when it succeeds it ends in the working directory it started in |
| Mirror.WalkEntriesConfined | app.py:138-163 | The same for the loop over a listing's entries |
| Mirror.DirEntryConfined | app.py:159-163 | For a dir entry whose name is "", "." or ".." or names a directory that exists, the walk stops with nothing done; otherwise the first effect is the mkdir of cwd + name, every later effect lies below that directory and the remote subdirectory, the whole entry is confined as above, and after a successful recursion chdir('..') restores the working directory |
| Mirror.FileEntryConfined | app.py:139-157 | Any entry other than a dir, whether or not the walk goes on after it, leaves the working directory and the known directories unchanged, adds no mkdir to the log and touches only paths below the working directory |
| Mirror.SmallFileConfined | app.py:147-157 | The same for a small file; moreover it adds one or two effects, the first being the metadata fetch of the remote directory + "/" + name, the second, if any, a background download or a file write |
| Mirror.WalkDirFollowsPlan | app.py:134-163 | A walk that succeeds has performed exactly the pre-order plan of the tree: the listing fetch, then for each entry in listing order its mkdir and subtree, its streamed download, or its metadata fetch followed by exactly one background download (URL containing "raw_lfs") or one file write |
| Mirror.WalkEntriesFollowPlan | app.py:138-163 | The same for the loop over a listing's entries |
| Mirror.WalkEntryFollowsPlan | app.py:139-163 | The same for one entry |
| Mirror.WalkDirSucceeds | app.py:134-163 | A walk succeeds exactly when every listing of the tree parses, every large file streams into a name other than "", "." and "..", every small file's metadata is usable and, unless it goes to a background download, names such a file, every subdirectory has such a name, no directory the plan creates exists beforehand or is created twice, and no file the plan writes (a streamed large file or an inline small file) is a directory that exists beforehand or was created earlier in the walk |
| Mirror.WalkEntriesSucceed | app.py:138-163 | The same for the loop over a listing's entries |
| Mirror.WalkEntrySucceeds | app.py:139-163 | The same for one entry |
| Mirror.WalkEntriesAppend | app.py:138 | Entries are handled in listing order: walking a + b is walking a, then b from the state a left |
| Mirror.ExampleTreeWalk | app.py:134-163 | Mirroring "/d" (an inline file "a", then a directory "s" holding a 2 MiB file "big" and a small file "lfs" whose URL contains "raw_lfs") into an empty directory logs, in order, the listing fetch, the metadata fetch of "a", the write of "a", the mkdir of "s", the listing fetch of "/d/s", the stream into "s/big", the metadata fetch of "/d/s/lfs" and one background download into "s/lfs"; it ends in the starting directory with "s" created and succeeds |
| Mirror.ExampleSubWalk | app.py:138-157 | The part of that walk inside "s" |
| Mirror.ExampleTopEntries | app.py:138-163 | The part of that walk after the top listing fetch: "a", then "s" |
| Mirror.ExampleWriteOverDir | app.py:154-157 | Mirroring an inline file "a" into a directory that already holds a directory "a" fails, because `open` raises on a directory |
| Mirror.Walker.constructor | app.py:134 | A walker starts in its base directory with an empty log and the given existing directories |
| Mirror.Walker.DownloadDirectory | app.py:134-163 | The recursive method that fetches the listing and handles each entry in turn, updating the working directory, the directories and the effect log in place; its final state and success flag are exactly those of WalkDir from its initial state |

## Left out

- HTTP, JSON decoding and cfenv are left out, because they are network and library I/O. The replies of `requests.post`/`requests.get` are the abstract `Network.send`, and a JSON body is either malformed or a map. Exception texts raised inside those libraries are kept as opaque strings.
- Only string and object JSON values are modelled. A token or configuration of another JSON type (number, list, null) raises TypeErrors whose texts are not modelled.
- A `destination` argument that is not a string is not modelled; the argument is a string.
- Base64 decoding, the bytes written to files and `iter_content` chunking are left out: a write is logged with the base64 text it would decode.
- The background thread of `download_large_file` is left out. Only its dispatch is logged, with the relative path it fetches and the file name it writes. The thread's own fetch and write, and its race with later `chdir` calls, are concurrency.
- Mirror.Walker.DownloadDirectory: `os.mkdir` is modelled as failing only on a directory the walk knows of, and `open(..., 'wb')` as failing on such a directory. A plain file of the same name, including one the walk itself wrote earlier, permissions and other OS errors are not modelled. The empty file that `open(..., 'wb')` leaves behind when the stream fails or when base64 decoding of the content raises (app.py:155-157) is not modelled either.
- Mirror.Entry: an entry missing its `type`, `size`, `name` or `download_url` key raises a KeyError in the source. The model takes those fields as always present.
- Mirror.WalkEntry: the metadata of a `raw_lfs` file that lacks `name` is modelled as a failed walk, but in the source only the background thread raises (app.py:129), and the walk goes on.
- The `print` calls of `download_directory` and `download_large_file` are output only and are left out.
- The default arguments `env=AppEnv()` and the default `requestContentType` are left out: the caller passes the environment (optional) and the Accept value.
- The Flask routes `process_file`, `down_dir` and `test`, and the startup code, are web plumbing and are not part of this model.
- Mirror.Walker.DownloadDirectory: an entry's name is taken as one path component. A name containing "/" (such as "../x" or "a/b") is resolved by `os.mkdir`, `os.chdir` and `open` in the source, and can reach outside the directory being mirrored; the model does not follow that. The names "", "." and ".." are modelled: `os.mkdir` and `open` raise on them.
- WalkDirConfined: its confinement to the subtree holds of names taken as single components; a name containing "/" can leave the tree in the source, as above.
- WalkEntriesConfined: the same restriction to single-component names as WalkDirConfined.
- DirEntryConfined: the same restriction; with a name such as "../x" the source's `chdir('..')` does not return to the starting directory either.
- FileEntryConfined: the same restriction; a file name such as "../x" is written outside the working directory in the source.
- Mirror.SmallFileConfined: the same restriction for the metadata's `name`; with "../x" the inline write or the background download lands outside the working directory in the source.
- Mirror.Walker.DownloadDirectory: the remote tree is a finite value, so the walk always terminates. A server whose listing of a directory lists that directory again makes the source recurse until Python's recursion limit or the path length limit raises; the model cannot express such a server.
- Gateway.Network: the network is a function of the request, so two identical requests get identical replies. When the destination and connectivity services share their client credentials, the first and third requests are the same and the model gives them the same reply, which a real token service need not do.
