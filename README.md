# kasa-tasker in Dafny

A model of the control path of a TP-Link Kasa cloud client, a script that
logs in to the Kasa cloud, fetches the user's device list and switches one
device, found by alias, on or off. It has three parts.

- **Envelope validators** (module `Envelope`). Each one is a total check over a decoded
  response. The outer `{error_code, result | msg}` envelope must carry the number 0, a
  truthy `result` and a falsy `msg`. The login result also needs a truthy token, and the
  device-list result a truthy list. The relay and bulb results parse
  `result.responseData` a second time and test an `err_code` at the family's own path. A
  failed parse is an outcome of its own (`ParseThrows`), because `JSON.parse` throws
  there.
- **Request construction** (module `Protocol`, with the query encoder in `Queries`). This
  covers the login, device-list and passthrough requests, the fixed client metadata, the
  query string in its fixed key order, and the two device-family payloads. A relay takes
  `state: 1/0` and a bulb takes `on_off: true/false`.
- **The session** (class `KasaClient.Kasa`, specified by the functions of module
  `Session`). It has two fields, the token and the cached device directory. Login is
  lazy: it happens whenever the token is falsy. `login` and `refreshDeviceList` call
  each other, and `login` stores the token before it refreshes, so the recursion ends.
  The measure is `1` for login and `token truthy ? 0 : 2` for refresh. `findDevice` is a
  first-match scan, the loop of `Directory.SearchDirectory`. `setDeviceState` dispatches
  on the device type.

JavaScript values are modelled explicitly in `JsValues`. A decoded JSON value (`Json`)
or `undefined` makes up a `Value`. The model also has truthiness (`!!x`), a property
read that gives `undefined` on anything but an object (`?.`), and the `String(x)`
coercion. That coercion is used when the token goes into a URL, and when `JSON.parse`
is handed a `responseData` that is not a string. The network is a `Network` object. It
holds a script of replies still to come and a log of requests sent. Each method of
`Kasa` is proved to leave the object and the network in the state given by the
matching `Session` function, and to return the same outcome. The lemmas of
`SessionProperties` state the properties of those functions.

The model follows the code in the places where the code is looser than a tidy design
would be:

- An unrecognised `deviceType` sends nothing and reports success.
- An empty device-list array passes validation.
- A `responseData` that is not JSON makes the validator throw rather than return false.
- Refreshing the directory without a token fetches it twice: once inside `login` and
  once after it.

## Model

| member | source | states |
|---|---|---|
| JsValues.Truthy | src/kasa-tasker.ts:7-9 | only a defined non-null value can be truthy; every array and object is truthy |
| JsValues.Get | src/kasa-tasker.ts:25-26 | a property read yields a value only when the receiver is an object holding the key, and then yields that key's value |
| JsValues.JsString | src/kasa-tasker.ts:96 | converting a string value to text gives the string itself |
| JsValues.DecimalRoundTrip | src/kasa-tasker.ts:96 | a number converted to text is written in decimal digits that read back as the same number, with a leading zero only for 0 |
| Queries.BuildQueries | src/kasa-tasker.ts:44-47 | the query string is empty exactly when the record has no entries |
| Queries.SeparatorCount | src/kasa-tasker.ts:44-47 | with no `&` in keys or values, n entries give exactly n-1 `&` separators, and 0 entries give none |
| Queries.QueryRoundTrip | src/kasa-tasker.ts:44-47 | splitting a non-empty query string on `&` gives back the `key=val` entries in the record's order |
| Envelope.IsOkResult | src/kasa-tasker.ts:6-10 | only an object body can pass the envelope check |
| Envelope.OkResultShape | src/kasa-tasker.ts:6-10 | the envelope passes if and only if the body is an object whose `error_code` is the number 0, whose `result` is present and truthy, and whose `msg` is absent or falsy |
| Envelope.EnvelopeEdgeCases | src/kasa-tasker.ts:6-10 | the string `"0"`, a non-zero code, a missing code, a truthy `msg`, an array, `null` and `undefined` are all rejected; an empty `msg` is allowed |
| Envelope.IsOkLoginResult | src/kasa-tasker.ts:12-14 | a login result passes only with an ok envelope and a truthy `result.token` |
| Envelope.LoginTokenMustBeTruthy | src/kasa-tasker.ts:12-14 | an empty-string token is rejected and a non-empty one accepted |
| Envelope.IsOkDeviceListResult | src/kasa-tasker.ts:16-18 | a device-list result passes only with an ok envelope and a truthy `result.deviceList` |
| Envelope.EmptyDeviceListPasses | src/kasa-tasker.ts:16-18 | an empty `deviceList` array passes validation |
| Envelope.CheckPassthrough | src/kasa-tasker.ts:20-42 | a passthrough body is accepted if and only if the envelope is ok, `responseData` is truthy and parses, and the inner `err_code` at the family's path is the number 0 (`InnerErrCode`: the `?.` chain of lines 25-26 for relays, the `response && response[...]` guard of lines 37-38 for bulbs); it throws exactly when the envelope is ok, `responseData` is truthy and parsing fails |
| Envelope.IsOkSetRelayResult | src/kasa-tasker.ts:20-30 | the relay check accepts if and only if the envelope is ok and `responseData` is truthy and parses to a value whose `system.set_relay_state.err_code` is the number 0 |
| Envelope.IsOkTransitionLightResult | src/kasa-tasker.ts:32-42 | the bulb check accepts if and only if the envelope is ok and `responseData` is truthy and parses to a value whose lighting-service `transition_light_state.err_code` is the number 0 |
| Envelope.PassthroughNeedsEnvelope | src/kasa-tasker.ts:20-30 | without an ok envelope and a truthy `responseData`, both checks return false for any parser, so they never throw |
| Envelope.LightGuardIsOptionalRead | src/kasa-tasker.ts:37-38 | the bulb guard `response && response[k]` reads the same inner code as an optional property chain |
| Envelope.PassthroughVerdicts | src/kasa-tasker.ts:20-42 | each check accepts its own family's `err_code` 0 and rejects a non-zero code. Each rejects the other family's success. Both throw when `responseData` is not JSON |
| Protocol.DeviceOf | src/@types/kasa.d.ts:1-6 | the four device fields are the entry's `deviceType`, `deviceId`, `alias` and `appServerUrl` properties |
| Protocol.LoginRequest | src/kasa-tasker.ts:68-79 | the login request goes to the cloud endpoint with the fixed app type and terminal id and the session's credentials |
| Protocol.DeviceListRequest | src/kasa-tasker.ts:96-101 | the device-list request carries `getDeviceList` and the token, converted to text, as the `token` query parameter |
| Protocol.PassthroughParams | src/kasa-tasker.ts:153-161 | there are seven query parameters, and the first is `token` holding the session's token as text |
| Protocol.RelayPayload | src/kasa-tasker.ts:169-177 | the relay payload's `system.set_relay_state.state` is 1 for ON and 0 for OFF |
| Protocol.LightPayload | src/kasa-tasker.ts:216-222 | the bulb payload's `transition_light_state.on_off` is the boolean `state == ON` |
| Protocol.PassthroughRequest | src/kasa-tasker.ts:163-180 | a passthrough call is posted to the device's `appServerUrl` with the encoded parameters, and carries the device id and the payload |
| Protocol.PayloadEncodings | src/kasa-tasker.ts:172-174 | ON and OFF map to 1 and 0 for relays and to true and false for bulbs. Neither payload carries the other family's key |
| Protocol.PassthroughQueryOrder | src/kasa-tasker.ts:153-163 | the query string splits into `token, appName, termID, appVer, ospf, netType, locale`, in that order, with the session's token first |
| Directory.SearchIsFirstMatch | src/kasa-tasker.ts:135 | the lookup finds the entry at k if and only if no earlier entry is null or matches and entry k matches. It reports no match if and only if no entry matches and none is null. It throws if and only if a null entry comes first |
| Directory.SearchDirectory | src/kasa-tasker.ts:135-141 | the linear scan returns exactly `Search`, the first-match lookup of `find`; a directory that is not an array throws, as calling `find` on it does at line 135 |
| Directory.FirstOfDuplicatesWins | src/kasa-tasker.ts:135 | of two entries with the same alias the earlier is returned |
| Session.Login | src/kasa-tasker.ts:67-89 | login sends the login request first and only appends to the log. On success both token and directory are truthy. The field invariant is kept |
| Session.Refresh | src/kasa-tasker.ts:91-110 | a refresh sends at least one request and only appends to the log. On success both fields are truthy. A token already held is kept |
| Session.FindDevice | src/kasa-tasker.ts:130-141 | with a directory cached, nothing is sent and the result is the first-match lookup. Without one, the directory is refreshed first: a failed refresh is the result, and after a successful one the result is the first-match lookup in the refreshed list. A held token is kept, and a found device is the first match in the directory afterwards |
| Session.Passthrough | src/kasa-tasker.ts:143-233 | it always sends at least one request and only appends to the log. With a token held, exactly one passthrough request with the family's payload is sent, both fields are unchanged, and the call succeeds iff the reply passes the family's check. Without a token, login comes first and a failed login is the result. After a successful login, exactly one passthrough with the stored token follows, the fields are those login left, and the call succeeds iff that reply passes the family's check |
| Session.SetDeviceState | src/kasa-tasker.ts:120-128 | setting a state only appends to the log and keeps the field invariant. Dispatch is stated for every session by DispatchAfterLookup |
| Session.Run | src/kasa-tasker.ts:236-241 | the main run only appends to the log it starts with |
| SessionProperties.RefreshWithToken | src/kasa-tasker.ts:91-110 | with a token held, a refresh sends one device-list request and keeps the token. The directory is replaced by the reply's list only if the reply passes validation, and is otherwise unchanged |
| SessionProperties.LoginEffects | src/kasa-tasker.ts:82-109 | the token is assigned only from a reply that passes the login check. Then exactly one device-list request with that token follows, and the directory becomes that reply's list if it passes its check; otherwise the directory is unchanged and the login fails. Any other login reply throws and leaves token and directory unchanged. Exactly the replies read are consumed |
| SessionProperties.RefreshWithoutTokenFetchesTwice | src/kasa-tasker.ts:92-96 | refreshing without a token sends a login and two device-list requests, and keeps the second list |
| SessionProperties.RefreshWithoutToken | src/kasa-tasker.ts:91-96 | without a token, a refresh sends the login request first, and a failed login is the refresh's result. After a successful one, exactly one more device-list request with the stored token follows. The directory becomes that reply's list if it passes; otherwise the directory is left as login left it and the refresh fails |
| SessionProperties.RefreshLoginRejected | src/kasa-tasker.ts:92-93 | without a token and with a rejected login reply, a refresh fails after the single login request and leaves token and directory unchanged |
| SessionProperties.PassthroughWithoutToken | src/kasa-tasker.ts:143-147 | without a token, a passthrough sends the login request first; a failed login sends no passthrough, and after a successful one exactly one passthrough with the family's payload and the stored token follows, the rest being a passthrough from the state login left |
| SessionProperties.DispatchAfterLookup | src/kasa-tasker.ts:120-128 | in any session, an error from finding the device is the result. A bulb is handed to the light adapter and a plug to the relay adapter, each sending exactly its payload when a token is held. Any other type does nothing and succeeds |
| SessionProperties.DispatchByDeviceType | src/kasa-tasker.ts:120-128 | with a token and a directory held, a bulb gets exactly the light payload and a plug exactly the relay payload. Any other type sends nothing and succeeds. A missing alias fails with no request |
| SessionProperties.AfterLogin | src/kasa-tasker.ts:82-85 | after a successful login on a fresh session both fields are truthy and the log is the login request then one device-list request |
| SessionProperties.RunRequestSequence | src/kasa-tasker.ts:236-238 | the main run sends one login request first, then at most one device-list request, then at most one passthrough request; success implies the directory was fetched |
| SessionProperties.RunMissingAlias | src/kasa-tasker.ts:131-140 | when login and directory succeed but no entry has the alias, the run fails with the alias after exactly two requests |
| SessionProperties.LoginThenDirectory | src/kasa-tasker.ts:82-106 | valid login and list replies leave the session holding exactly that token and that list, after exactly two requests |
| SessionProperties.HeldTokenSwitchesPlug | src/kasa-tasker.ts:143-186 | with a token and a one-plug directory held, switching sends exactly the relay payload and succeeds on `err_code` 0 |
| SessionProperties.RunSwitchesPlugOn | src/kasa-tasker.ts:236-238 | valid credentials and a plug, state ON: one login, one directory fetch, one passthrough with `state: 1`, and success |
| SessionProperties.HeldTokenTurnsBulbOff | src/kasa-tasker.ts:190-230 | with a token held and a bulb, state OFF: no login, one passthrough with `on_off: false`, and success on `err_code` 0 |
| KasaClient.Kasa.constructor | src/kasa-tasker.ts:62-65 | a new session holds the credentials, no token and no directory |
| KasaClient.Kasa.Login | src/kasa-tasker.ts:67-89 | the new token, directory, script and log, and the outcome, are those of `Session.Login` |
| KasaClient.Kasa.Refresh | src/kasa-tasker.ts:91-110 | the new state and the outcome are those of `Session.Refresh` |
| KasaClient.Kasa.FindDevice | src/kasa-tasker.ts:130-141 | the new state and the found device or error are those of `Session.FindDevice` |
| KasaClient.Kasa.Passthrough | src/kasa-tasker.ts:143-233 | the new state and outcome are those of `Session.Passthrough` for the given family |
| KasaClient.Kasa.SetRelayState | src/kasa-tasker.ts:143-188 | the new state and outcome are those of the relay passthrough |
| KasaClient.Kasa.TransitionLightState | src/kasa-tasker.ts:190-233 | the new state and outcome are those of the bulb passthrough |
| KasaClient.Kasa.SetDeviceState | src/kasa-tasker.ts:120-128 | the new state and outcome are those of `Session.SetDeviceState` |
| KasaClient.Kasa.TurnOn | src/kasa-tasker.ts:112-114 | the same as setting the state to ON |
| KasaClient.Kasa.TurnOff | src/kasa-tasker.ts:116-118 | the same as setting the state to OFF |
| KasaClient.Run | src/kasa-tasker.ts:236-241 | the outcome and the network's script and log are those of `Session.Run` from a fresh session |

## Left out

- HTTP transport: `fetch`, `resp.json()` and the wire form of URLs and bodies. A `Network` object with a script of replies stands in for them. A rejected `fetch`, a body that is not JSON and an exhausted script are all one failure, `NetworkFailure`.
- `JSON.stringify`: its exact output is not modelled. Request bodies are structured values, and `requestData` is kept as the payload value it would encode.
- `JSON.parse`: its grammar is not modelled. It is the function parameter `parse` (`None` when it throws), supplied with the constructor.
- Numbers: they are integers. Fractions, `NaN`, `-0` and the exponent form that `String` uses for very large numbers are not modelled.
- Property reads: only the object's own JSON properties are seen. None of the keys the client reads is an inherited property of a JavaScript object.
- Queries.BuildQueries: takes the record as its ordered list of entries. It does not model the way `Object.entries` moves integer-like keys to the front; the one record the client builds has none.
- async/await: each awaited step is a sequential step. Nothing here is concurrent.
- The Tasker host: `setLocal`, `exit`, `popup`, and the ambient `kasausername`, `kasapassword`, `devicealias` and `devicestate` (src/kasa-tasker.ts:49-53, 236-241) are left out. `KasaClient.Run` takes these inputs as parameters and returns the outcome that `returnOk`/`returnError` would report.
- Error message text and pretty-printing: they are not modelled. Errors are the kinds in `Session.Error`, and a failed validation carries the raw body.
- The desired state: it is the two-valued `DeviceState`. A Tasker value other than `"ON"` would act as OFF in the source.
- The two passthrough methods: they differ only in payload and validator, so they share one definition, `Session.Passthrough`, taking the device family as a parameter.
