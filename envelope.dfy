/**
 * The response validators of the Kasa cloud client. Each is a total check
 * over a decoded body: the outer `{error_code, result | msg}` envelope, the
 * login and device-list results, and the two passthrough results whose
 * `result.responseData` is a JSON string parsed a second time.
 */
module Envelope {
  import opened JsValues

  /** The property under which smart bulbs nest their lighting commands. */
  const LightingService := "smartlife.iot.smartbulb.lightingservice"

  function ResultOf(body: Value): Value { Get(body, "result") }

  /**
   * `isOkResult`: `error_code` is the number 0, `result` is truthy and `msg`
   * is falsy. Only an object body can pass.
   */
  function IsOkResult(body: Value): (ok: bool)
    ensures ok ==> body.Def? && body.json.JObj?
  {
    && Get(body, "error_code") == Def(JNum(0))
    && Truthy(ResultOf(body))
    && !Truthy(Get(body, "msg"))
  }

  function TokenOf(body: Value): Value { Get(ResultOf(body), "token") }

  function DeviceListOf(body: Value): Value { Get(ResultOf(body), "deviceList") }

  /** `isOkLoginResult`: an ok envelope whose `result.token` is truthy. */
  function IsOkLoginResult(body: Value): (ok: bool)
    ensures ok ==> IsOkResult(body) && Truthy(TokenOf(body))
  {
    IsOkResult(body) && Truthy(TokenOf(body))
  }

  /** `isOkDeviceListResult`: an ok envelope whose `result.deviceList` is truthy. */
  function IsOkDeviceListResult(body: Value): (ok: bool)
    ensures ok ==> IsOkResult(body) && Truthy(DeviceListOf(body))
  {
    IsOkResult(body) && Truthy(DeviceListOf(body))
  }

  /** The two device families and their passthrough schemas. */
  datatype Family = Relay | Light

  /**
   * What a passthrough validator does: report success, report failure, or
   * let the exception of `JSON.parse` escape.
   */
  datatype Verdict = Accepted | Rejected | ParseThrows

  function ResponseDataOf(body: Value): Value { Get(ResultOf(body), "responseData") }

  /**
   * The inner `err_code` a family checks in the parsed `responseData`:
   * `response?.system?.set_relay_state?.err_code` for relays, and
   * `(response && response[LightingService])?.transition_light_state?.err_code`
   * for bulbs.
   */
  function InnerErrCode(family: Family, response: Json): Value
  {
    match family
    case Relay =>
      Get(Get(Get(Def(response), "system"), "set_relay_state"), "err_code")
    case Light =>
      var nested := if Truthy(Def(response)) then Get(Def(response), LightingService) else Def(response);
      Get(Get(nested, "transition_light_state"), "err_code")
  }

  /**
   * `isOkSetRelayResult` and `isOkTransitionLightResult`. The inner string is
   * parsed only once the envelope is ok and `responseData` is truthy; a value
   * that is not a string is first converted by `String`, as `JSON.parse` does.
   */
  function CheckPassthrough(family: Family, body: Value, parse: Parser): (v: Verdict)
    ensures v != Rejected ==> IsOkResult(body) && Truthy(ResponseDataOf(body))
    ensures v == ParseThrows <==>
              IsOkResult(body) && Truthy(ResponseDataOf(body)) && parse(JsString(ResponseDataOf(body))).None?
    ensures v == Accepted <==>
              var parsed := parse(JsString(ResponseDataOf(body)));
              IsOkResult(body) && Truthy(ResponseDataOf(body)) &&
              parsed.Some? && InnerErrCode(family, parsed.value) == Def(JNum(0))
  {
    if IsOkResult(body) && Truthy(ResponseDataOf(body)) then
      match parse(JsString(ResponseDataOf(body)))
      case None => ParseThrows
      case Some(response) =>
        if InnerErrCode(family, response) == Def(JNum(0)) then Accepted else Rejected
    else
      Rejected
  }

  function IsOkSetRelayResult(body: Value, parse: Parser): (v: Verdict)
    ensures v == Accepted <==>
              var parsed := parse(JsString(ResponseDataOf(body)));
              IsOkResult(body) && Truthy(ResponseDataOf(body)) &&
              parsed.Some? && InnerErrCode(Relay, parsed.value) == Def(JNum(0))
  {
    CheckPassthrough(Relay, body, parse)
  }

  function IsOkTransitionLightResult(body: Value, parse: Parser): (v: Verdict)
    ensures v == Accepted <==>
              var parsed := parse(JsString(ResponseDataOf(body)));
              IsOkResult(body) && Truthy(ResponseDataOf(body)) &&
              parsed.Some? && InnerErrCode(Light, parsed.value) == Def(JNum(0))
  {
    CheckPassthrough(Light, body, parse)
  }

  /**
   * The envelope in terms of the raw object: `error_code` must be present and
   * the number 0, `result` present and truthy, `msg` absent or falsy.
   */
  lemma OkResultShape(body: Value)
    ensures IsOkResult(body) <==>
              && body.Def? && body.json.JObj?
              && "error_code" in body.json.fields && body.json.fields["error_code"] == JNum(0)
              && "result" in body.json.fields && Truthy(Def(body.json.fields["result"]))
              && ("msg" !in body.json.fields || !Truthy(Def(body.json.fields["msg"])))
  {
  }

  /** Bodies the envelope check turns away, and the empty list it lets through. */
  lemma EnvelopeEdgeCases(result: Json)
    requires Truthy(Def(result))
    ensures !IsOkResult(Def(JObj(map["error_code" := JStr("0"), "result" := result])))
    ensures !IsOkResult(Def(JObj(map["error_code" := JNum(1), "result" := result])))
    ensures !IsOkResult(Def(JObj(map["result" := result])))
    ensures !IsOkResult(Def(JObj(map["error_code" := JNum(0), "result" := result, "msg" := JStr("fail")])))
    ensures !IsOkResult(Def(JArr([result])))
    ensures !IsOkResult(Undefined) && !IsOkResult(Def(JNull))
    ensures IsOkResult(Def(JObj(map["error_code" := JNum(0), "result" := result, "msg" := JStr("")])))
  {
  }

  lemma LoginTokenMustBeTruthy()
    ensures !IsOkLoginResult(Def(JObj(map["error_code" := JNum(0), "result" := Single("token", JStr(""))])))
    ensures IsOkLoginResult(Def(JObj(map["error_code" := JNum(0), "result" := Single("token", JStr("t"))])))
  {
  }

  lemma EmptyDeviceListPasses()
    ensures IsOkDeviceListResult(Def(JObj(map["error_code" := JNum(0), "result" := Single("deviceList", JArr([]))])))
  {
  }

  /** Without an ok envelope and a truthy `responseData` nothing is parsed and nothing passes. */
  lemma PassthroughNeedsEnvelope(family: Family, body: Value, parse: Parser)
    requires !IsOkResult(body) || !Truthy(ResponseDataOf(body))
    ensures CheckPassthrough(family, body, parse) == Rejected
  {
  }

  /** The bulb guard `response && response[k]` reads the same as `response?.[k]`. */
  lemma LightGuardIsOptionalRead(response: Json)
    ensures InnerErrCode(Light, response) ==
              Get(Get(Get(Def(response), LightingService), "transition_light_state"), "err_code")
  {
  }

  /** A body whose `responseData` is `text` and which is otherwise an ok envelope. */
  function PassthroughEnvelope(text: string): Value
  {
    Def(JObj(map["error_code" := JNum(0), "result" := Single("responseData", JStr(text))]))
  }

  function RelayResponse(code: int): Json
  {
    Single("system", Single("set_relay_state", Single("err_code", JNum(code))))
  }

  function LightResponse(code: int): Json
  {
    Single(LightingService, Single("transition_light_state", Single("err_code", JNum(code))))
  }

  /**
   * Each validator accepts its own family's success, rejects a non-zero code,
   * rejects the other family's success, and throws on text that is not JSON.
   */
  lemma {:induction false} PassthroughVerdicts(text: string, parse: Parser, code: int)
    requires text != ""
    ensures parse(text) == Some(RelayResponse(code)) ==>
              && IsOkSetRelayResult(PassthroughEnvelope(text), parse) == (if code == 0 then Accepted else Rejected)
              && IsOkTransitionLightResult(PassthroughEnvelope(text), parse) == Rejected
    ensures parse(text) == Some(LightResponse(code)) ==>
              && IsOkTransitionLightResult(PassthroughEnvelope(text), parse) == (if code == 0 then Accepted else Rejected)
              && IsOkSetRelayResult(PassthroughEnvelope(text), parse) == Rejected
    ensures parse(text) == None ==>
              && IsOkSetRelayResult(PassthroughEnvelope(text), parse) == ParseThrows
              && IsOkTransitionLightResult(PassthroughEnvelope(text), parse) == ParseThrows
  {
    var body := PassthroughEnvelope(text);
    assert ResponseDataOf(body) == Def(JStr(text));
    assert JsString(ResponseDataOf(body)) == text;
    assert IsOkResult(body);
  }
}
