# A model of the VSync front-end request handlers

The front end of this system is a Flask server (`Backend/vsync/flaskServer.py`) that sits in front of a
remote, partitioned key-value store reached through an XML-RPC proxy. This project models the
handlers that hold logic, and the in-process state they share:

- **Cache-aside key/value access** (`testput`, `testget`, `testCache`): a werkzeug `SimpleCache`
  used as a TTL map with a 120-second timeout in front of the remote store's `putDHT`/`getDHT`.
- **Service registration** (`postService`): validation of five form fields, then two ordered,
  non-atomic `putService` writes (type -> id, id -> record with availability 0).
- **Provider lookup** (`getServiceProvider`): one remote call, then shaping the answer into a
  `{status, data, error}` envelope.
- **Push-device registry and canned pushes** (`registerAndroidDeviceForGCMPush`, `sendTestPush`):
  an upsert into the user -> device-token map, and a counter-mod-5 rotation through five fixed
  messages sent to every stored token.
- **Stub user store** (`authUsers`, `createUser`): one user -> password map per user type
  (`sr`, `sp`), seeded with one test user each, and a three-way login result.

Layout, one module per component:

- `common.dfy` (`Common`): `Option`; `Field`, a request parameter that may be absent; `Outcome`, a value or a raised error.
- `ttl_cache.dfy` (`TtlCache`): the cache as `map<Field, Entry>` with explicit expiry times and an explicit `now`.
- `directory.dfy` (`Directory`): the service record, the five-field check, the reply envelopes and the lookup shaping.
- `remote.dfy` (`Remote`): class `Proxy`. The remote store is two abstract maps plus an ordered log of every call made.
  Whether a call raises, and what the remote side answers, is chosen by the caller.
- `push.dfy` (`Push`): the five canned messages, the rotation and its period.
- `users.dfy` (`Users`): the seeded stores and the login check.
- `server.dfy` (`FlaskServer`): class `Server`. It holds the module-level state of the Python file (`cache`, `device_token`,
  `counter`, `userDBSR`, `userDBSP`) as fields and has one method per handler.

Request parameters are `Option<string>`. Flask's `request.args.get`/`request.form.get` return `None`
for a missing parameter, and `testCache`, `createUser` and `registerAndroidDeviceForGCMPush` use
such a `None` as a key or value without checking it. An exception a handler does not catch becomes
an `Outcome.Raised` reply.

Behaviour on the failure paths, as the code has it:

- When `putDHT` raises in `testput`, the exception ends the handler before `cache.set`, so the cache
  is not updated (`flaskServer.py:290-293`).
- An error raised by `getDHT` in `testget` propagates (`flaskServer.py:320`). It is not turned into
  "not found".
- A failed `postService` replies without a `serviceID` (`flaskServer.py:102-105`). If the first
  `putService` raises, the second is never attempted, and no per-call result is returned.

## Model

| member | source | states |
|---|---|---|
| `TtlCache.Get` | Backend/vsync/flaskServer.py:313-317 | a cache read returns a value only for a key whose entry is present and not yet expired, and then exactly the stored value; a missing or expired entry reads as None |
| `TtlCache.Set` | Backend/vsync/flaskServer.py:293 | a set adds the key if it was missing and keeps every other key; the key's entry holds the value and expires Timeout (120) seconds after `now`; no other entry changes |
| `TtlCache.ReadAfterWrite` | Backend/vsync/flaskServer.py:17-18 | a value set at time t reads back unchanged at every time before t + 120 and as None from t + 120 on |
| `TtlCache.WriteIsolated` | Backend/vsync/flaskServer.py:293 | setting one key does not change what any other key reads |
| `Directory.NewRecord` | Backend/vsync/flaskServer.py:83-89 | the registered record holds the given id, the five posted fields and availability 0 |
| `Directory.AllPresent` | Backend/vsync/flaskServer.py:82 | the five registration parameters pass exactly when none of them is absent and none is the empty string |
| `Directory.ShapeLookup` | Backend/vsync/flaskServer.py:125-138 | reply status is 0 exactly when a payload came back with status 0; the payload, if any, is the data; the error is empty exactly on status 0, "No data retrieved from VSync" without a payload, "No service provider found" otherwise |
| `Directory.PostReply.Status` | Backend/vsync/flaskServer.py:98-109 | a registration reply has status 0 exactly when it is the success reply, and status 1 otherwise |
| `Directory.PostReply.Message` | Backend/vsync/flaskServer.py:98-109 | the success reply carries its own message, the failure reply says "Failure", and the missing-parameters reply says "Did not receive all parameters" |
| `Directory.SuccessMessage` | Backend/vsync/flaskServer.py:99 | the success message is "Success. ", the first acknowledgement, " . ", the second acknowledgement, so both acknowledgements can be read back from it |
| `Remote.Proxy.PutDHT` | Backend/vsync/flaskServer.py:290 | a putDHT call is logged; it stores the pair unless it raises, and then reports the error |
| `Remote.Proxy.GetDHT` | Backend/vsync/flaskServer.py:320 | a getDHT call is logged and changes no remote state; it returns the stored value, None for a missing key, or the raised error |
| `Remote.Proxy.PutService` | Backend/vsync/flaskServer.py:93-96 | a putService call is logged; it stores the value unless it raises; the caller gets the remote acknowledgement or the error |
| `Remote.Proxy.GetServiceProvider` | Backend/vsync/flaskServer.py:123 | a getServiceProvider call is logged with its type and location and changes no remote state |
| `Push.PushMessage` | Backend/vsync/flaskServer.py:357-366 | the message chosen at counter c is body number c mod 5 of the fixed rotation, under the fixed title |
| `Push.BroadcastsAt` | Backend/vsync/flaskServer.py:357-373 | the i-th of n consecutive successful pushes sends the message of counter + i |
| `Push.RotationPeriod` | Backend/vsync/flaskServer.py:357-366 | counters fewer than five apart choose different messages; counters five apart choose the same |
| `Push.FiveDistinctThenRepeat` | Backend/vsync/flaskServer.py:357-373 | five consecutive pushes send five different messages and the sixth repeats the first |
| `Push.BroadcastsRotate` | Backend/vsync/flaskServer.py:357-373 | among any run of consecutive successful pushes, two fewer than five calls apart send different messages and two exactly five apart send the same one |
| `Users.Login` | Backend/vsync/flaskServer.py:154-160 | login succeeds (status 0, "Login Success") exactly when the user exists and the password matches; "User Not Exist" exactly when the user is absent; "Login Invalid" otherwise |
| `Users.LoginAfterCreate` | Backend/vsync/flaskServer.py:383-386 | a user just stored with a password logs in with that password |
| `FlaskServer.Server.constructor` | Backend/vsync/flaskServer.py:14-334 | the server starts with an empty cache (:15), each user store seeded with its one test user (:21-22), counter 0 and no device tokens (:333-334), and no push requests |
| `FlaskServer.Server.PostService` | Backend/vsync/flaskServer.py:67-111 | without all five fields truthy: "Did not receive all parameters", no remote call. Otherwise putService(type, id), then putService(id, record), stopping at the first that raises: a raise replies "Failure" with the error and no id; success replies status 0 with both acknowledgements and the id; the remote directory gets exactly the writes that went through |
| `FlaskServer.Server.GetServiceProvider` | Backend/vsync/flaskServer.py:113-140 | exactly one getServiceProvider call; its answer is shaped by ShapeLookup; a raised error propagates |
| `FlaskServer.Server.AuthUsers` | Backend/vsync/flaskServer.py:142-168 | user type sr checks the sr store, sp the sp store, each by Login; for any other user type the handler returns no response (:168), which Flask raises as an error |
| `FlaskServer.Server.CreateUser` | Backend/vsync/flaskServer.py:378-390 | for sp or sr, the user is stored in that store only, the other is unchanged, and login with the same credentials then succeeds; any other type changes nothing; the reply is always success |
| `FlaskServer.Server.TestCache` | Backend/vsync/flaskServer.py:263-275 | the pair is set in the cache with the 120-second timeout and the value read back is the value just set |
| `FlaskServer.Server.TestPut` | Backend/vsync/flaskServer.py:277-297 | a missing key or value touches neither the remote store nor the cache; otherwise exactly one putDHT call, and only when it does not raise is the cache entry set to expire at now + 120; a raise propagates and leaves the cache unchanged |
| `FlaskServer.Server.TestGet` | Backend/vsync/flaskServer.py:300-328 | never changes the cache; a live cache entry is returned with no remote call; on a miss exactly one getDHT call, whose value, not-found or raised error is returned |
| `FlaskServer.Server.RegisterDevice` | Backend/vsync/flaskServer.py:336-351 | afterwards the user maps to the new token, the key set grows by at most that user, every other entry is unchanged, and re-registering the same token changes nothing |
| `FlaskServer.Server.SendTestPush` | Backend/vsync/flaskServer.py:353-376 | one push request carrying the message of the current counter to exactly the stored token values; the counter then advances by one, unless the push service raises |
| `FlaskServer.SixTestPushes` | Backend/vsync/flaskServer.py:353-376 | six successful test pushes in a row advance the counter by six and append exactly six requests to the current device tokens, carrying the messages of counters c to c + 5 |
| `FlaskServer.SixRequestsRotate` | Backend/vsync/flaskServer.py:357-373 | those six requests are the rotation's messages from counter c, addressed to the tokens; the first five differ from each other and the sixth repeats the first |

## Left out

- `initializeRPC`, `startFlaskServer` and `client.py`: they set up the XML-RPC proxy and bind the server, which is I/O.
- The constant stub endpoints (`index`, `deleteService`, `users`, `user`, `services`, `service`, `balancing_get`, `balancing_post`, `updateService`, `changeServiceAvailability`) and the unused `serviceData`/`serviceID` stub. They hold no logic.
- Flask routing, reading parameters from `request.args` or `request.form` (including the GET/POST branch of `authUsers`), and `json.dumps` formatting. Parameters are method arguments and replies are datatypes. The server port in reply messages is not modelled.
- `print` calls (`flaskServer.py:350`, `:368`): console output only.
- werkzeug `SimpleCache` internals: pruning past its capacity threshold, pickling, and timeouts other than the 120 seconds the server uses. Time is whole seconds and is passed to each handler as `now`.
- XML-RPC transport. Each remote call is a logged event whose raise-or-answer outcome is a parameter.
- Remote key spaces: the remote side is not part of this model, so nothing shows whether `putDHT`/`getDHT` and `putService` share one key space. The model assumes they are separate (`Remote.Proxy` keeps `dht` and `directory` apart). So `postService` never changes what `testget` can read remotely, and `testget` never sees a type-index or detail entry.
- The text of the error Flask raises when `authUsers` returns no response depends on the Flask version. The model uses one fixed text, `NoResponse`.
- Remote.Proxy.PutDHT: a raised call is modelled as leaving the remote store unchanged, although a real call can raise after the remote side has stored. The same holds for `Remote.Proxy.PutService`.
- Provider matching by type and location happens on the remote side, so `getServiceProvider`'s answer is a parameter. The answer is taken as already decoded. `json.loads` raising on a malformed answer is not modelled. The payload's `status` is an optional integer, so Python's `0 == False` and `0 == 0.0` equalities are not modelled.
- `uuid.uuid1()`: the fresh service id is a parameter of `PostService`.
- GCM: `gcm.json_request` is a recorded push request whose raise is a parameter. Its response is ignored, as in the code. The GCM library's own checks are not modelled. In particular, if it raises on an empty list of registration ids, then with no device registered every `sendTestPush` raises and the counter never advances. The model leaves that to the `raises` parameter, so it also allows a successful push to an empty token set.
- FlaskServer.Server.SendTestPush: the device tokens are sent as the set of the map's values, so duplicate tokens and the order of `dict.values()` are not captured.
- Thread safety of the module-level cache, maps and counter. The model is sequential.
- FlaskServer.Server.TestGet: the server runs on Python 2, where `str.format` with a non-ASCII unicode argument raises `UnicodeEncodeError`. So a non-ASCII cached or remote value makes `testget` raise while formatting its reply (`flaskServer.py:318`, `:322`), and the model does not capture that error path.
- FlaskServer.Server.TestCache: for the same reason, a non-ASCII value makes `testCache` raise while formatting its reply (`flaskServer.py:275`), after the cache is set. The model returns the value.
- FlaskServer.Server.PostService: the two acknowledgements are formatted inside the `try` (`flaskServer.py:99`), so a non-ASCII acknowledgement turns a registration whose two writes both went through into the "Failure" reply with no service id. The model replies with the success reply there.
- FlaskServer.Server.TestPut: the invalid-parameters reply (`flaskServer.py:297`) is formatted the same way, so a non-ASCII key or value there raises. The model returns `InvalidParameters`.
