/**
 * What the Kasa client sends: the three kinds of POST request (login,
 * device list, passthrough), the fixed client metadata they carry, and the
 * device-family payloads. Bodies are kept as structured values; the exact
 * characters `JSON.stringify` would print are not modelled.
 */
module Protocol {
  import opened JsValues
  import opened Queries
  import opened Envelope

  const CloudUrl := "https://wap.tplinkcloud.com"
  const AppName := "Kasa_Android"
  const TerminalId := "c39f7337-a17b-41a3-b5e4-0f34860a700f"
  const AppVersion := "1.4.4.607"
  const OsVersion := "Android+6.0.1"
  const NetworkType := "wifi"
  const Locale := "en_US HTTP/1.1"

  const SmartBulb := "IOT.SMARTBULB"
  const SmartPlugSwitch := "IOT.SMARTPLUGSWITCH"

  /** The desired state of a device. */
  datatype DeviceState = OFF | ON

  /** The `method` and `params` of a request body. */
  datatype Body =
    | LoginBody(appType: string, cloudUserName: string, cloudPassword: string, terminalUuid: string)
    | GetDeviceListBody
      /** `requestData` is sent as the JSON text of this payload. */
    | PassthroughBody(deviceId: Value, requestData: Json)

  datatype Request = Post(url: string, body: Body)

  /**
   * What one request yields: the decoded body, or a failure of `fetch` or of
   * `resp.json()`.
   */
  datatype Reply = Response(body: Json) | NetworkFailure

  /** The device record, read from a directory entry property by property. */
  datatype Device = Device(deviceType: Value, deviceId: Value, alias: Value, appServerUrl: Value)

  function DeviceOf(entry: Json): (d: Device)
    ensures d.alias == Get(Def(entry), "alias") && d.deviceType == Get(Def(entry), "deviceType")
    ensures d.deviceId == Get(Def(entry), "deviceId") && d.appServerUrl == Get(Def(entry), "appServerUrl")
  {
    var e := Def(entry);
    Device(Get(e, "deviceType"), Get(e, "deviceId"), Get(e, "alias"), Get(e, "appServerUrl"))
  }

  function LoginRequest(username: string, password: string): (r: Request)
    ensures r.url == CloudUrl && r.body.LoginBody?
    ensures r.body.cloudUserName == username && r.body.cloudPassword == password
    ensures r.body.appType == AppName && r.body.terminalUuid == TerminalId
  {
    Post(CloudUrl, LoginBody(AppName, username, password, TerminalId))
  }

  /** The device-list request carries the token, printed by `String`, in its URL. */
  function DeviceListRequest(token: Value): (r: Request)
    ensures r.body == GetDeviceListBody
    ensures r.url == CloudUrl + "?token=" + JsString(token)
  {
    Post(CloudUrl + "?token=" + JsString(token), GetDeviceListBody)
  }

  /** The query parameters of a passthrough call, in the order they are sent. */
  function PassthroughParams(token: Value): (ps: seq<(string, string)>)
    ensures |ps| == 7 && ps[0] == ("token", JsString(token))
  {
    [ ("token", JsString(token)),
      ("appName", AppName),
      ("termID", TerminalId),
      ("appVer", AppVersion),
      ("ospf", OsVersion),
      ("netType", NetworkType),
      ("locale", Locale) ]
  }

  /** `{system: {set_relay_state: {state: 1 | 0}}}`. */
  function RelayPayload(state: DeviceState): (p: Json)
    ensures Get(Get(Get(Def(p), "system"), "set_relay_state"), "state") == Def(JNum(if state == ON then 1 else 0))
  {
    Single("system", Single("set_relay_state", Single("state", JNum(if state == ON then 1 else 0))))
  }

  /** `{[LightingService]: {transition_light_state: {on_off: state == ON}}}`. */
  function LightPayload(state: DeviceState): (p: Json)
    ensures Get(Get(Get(Def(p), LightingService), "transition_light_state"), "on_off") == Def(JBool(state == ON))
  {
    Single(LightingService, Single("transition_light_state", Single("on_off", JBool(state == ON))))
  }

  function FamilyPayload(family: Family, state: DeviceState): Json
  {
    match family
    case Relay => RelayPayload(state)
    case Light => LightPayload(state)
  }

  /**
   * A passthrough call: sent to the device's own `appServerUrl` with the
   * session's token and the fixed client metadata as the query string.
   */
  function PassthroughRequest(device: Json, token: Value, payload: Json): (r: Request)
    ensures r.body == PassthroughBody(DeviceOf(device).deviceId, payload)
    ensures r.url == JsString(DeviceOf(device).appServerUrl) + "?" + BuildQueries(PassthroughParams(token))
  {
    var d := DeviceOf(device);
    Post(JsString(d.appServerUrl) + "?" + BuildQueries(PassthroughParams(token)), PassthroughBody(d.deviceId, payload))
  }

  /** The next scripted reply and the rest of the script; an exhausted script fails. */
  function NextReply(script: seq<Reply>): (Reply, seq<Reply>)
  {
    if script == [] then (NetworkFailure, []) else (script[0], script[1..])
  }

  /** The relay payload encodes ON as 1 and OFF as 0; the bulb payload as a boolean. */
  lemma PayloadEncodings()
    ensures Get(Get(Get(Def(RelayPayload(ON)), "system"), "set_relay_state"), "state") == Def(JNum(1))
    ensures Get(Get(Get(Def(RelayPayload(OFF)), "system"), "set_relay_state"), "state") == Def(JNum(0))
    ensures Get(Get(Get(Def(LightPayload(ON)), LightingService), "transition_light_state"), "on_off") == Def(JBool(true))
    ensures Get(Get(Get(Def(LightPayload(OFF)), LightingService), "transition_light_state"), "on_off") == Def(JBool(false))
    ensures Get(Def(RelayPayload(ON)), LightingService) == Undefined
    ensures Get(Def(LightPayload(ON)), "system") == Undefined
  {
  }

  lemma MetadataFreeOfAmpersand()
    ensures '&' !in AppName && '&' !in TerminalId && '&' !in AppVersion
    ensures '&' !in OsVersion && '&' !in NetworkType && '&' !in Locale
  {
  }

  /** The seven `key=val` entries of a passthrough query for a string token, token first. */
  function QueryEntries(token: string): seq<string>
  {
    [ "token=" + token, "appName=" + AppName, "termID=" + TerminalId, "appVer=" + AppVersion,
      "ospf=" + OsVersion, "netType=" + NetworkType, "locale=" + Locale ]
  }

  lemma {:induction false} PassthroughParamsFree(token: string)
    requires '&' !in token
    ensures FreeOf(PassthroughParams(Def(JStr(token))), '&')
  {
    var ps := PassthroughParams(Def(JStr(token)));
    MetadataFreeOfAmpersand();
    forall i | 0 <= i < 7 ensures '&' !in ps[i].0 && '&' !in ps[i].1 {
      // One empty branch per parameter, so that each entry is checked on its own.
      if i == 0 {} else if i == 1 {} else if i == 2 {} else if i == 3 {} else if i == 4 {} else if i == 5 {} else {}
    }
  }

  lemma {:induction false} PassthroughEntries(token: string)
    ensures Entries(PassthroughParams(Def(JStr(token)))) == QueryEntries(token)
  {
    var es := Entries(PassthroughParams(Def(JStr(token))));
    var expected := QueryEntries(token);
    assert es[0] == expected[0] && es[1] == expected[1] && es[2] == expected[2];
    assert es[3] == expected[3] && es[4] == expected[4] && es[5] == expected[5] && es[6] == expected[6];
  }

  /**
   * The passthrough query string for a string token lists the seven
   * parameters in their fixed order, token first.
   */
  lemma {:induction false} PassthroughQueryOrder(token: string)
    requires '&' !in token
    ensures Split(BuildQueries(PassthroughParams(Def(JStr(token)))), '&') == QueryEntries(token)
  {
    PassthroughParamsFree(token);
    QueryRoundTrip(PassthroughParams(Def(JStr(token))));
    PassthroughEntries(token);
  }
}
