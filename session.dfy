/**
 * The behaviour of a `Kasa` session as functions of its state: the token and
 * the cached device directory it holds, the scripted replies the network
 * has yet to give, and the requests sent so far. A JavaScript exception is
 * an `Err` outcome; the state reached before it is kept, as the object's
 * fields are.
 */
module Session {
  import opened JsValues
  import opened Envelope
  import opened Protocol
  import D = Directory

  /** The constructor arguments, and `JSON.parse`. */
  datatype Context = Context(username: string, password: string, parse: Parser)

  datatype State = State(token: Value, deviceList: Value, script: seq<Reply>, log: seq<Request>)

  /** The ways an operation throws. */
  datatype Error =
    | NetworkError                     // `fetch` rejected or `resp.json()` threw
    | UnexpectedResponse(body: Json)   // a validator returned false
    | ResponseDataNotJson(body: Json)  // `JSON.parse` of `responseData` threw
    | DeviceNotFound(alias: string)    // no directory entry has the alias
    | TypeError                        // `find` on a non-array, or `alias` of `null`

  datatype Outcome<+T> = Ok(value: T) | Err(error: Error)

  datatype Step<+T> = Step(state: State, out: Outcome<T>)

  /** A fresh session: no token, no directory. */
  function Start(script: seq<Reply>, log: seq<Request>): State
  {
    State(Undefined, Undefined, script, log)
  }

  /**
   * The fields hold either nothing or a truthy value. Every assignment takes
   * its value from a reply that passed validation, which makes it truthy;
   * where the value came from is stated by the lemmas of SessionProperties.
   */
  predicate Invariant(s: State)
  {
    && (s.token == Undefined || Truthy(s.token))
    && (s.deviceList == Undefined || Truthy(s.deviceList))
  }

  /** `after` extends the request log `before`. */
  predicate Appends(before: seq<Request>, after: seq<Request>)
  {
    |before| <= |after| && after[..|before|] == before
  }

  /** One awaited `fetch`: the request is logged and the next reply consumed. */
  function Send(s: State, req: Request): (r: (State, Reply))
    ensures r.0.log == s.log + [req]
    ensures r.0.token == s.token && r.0.deviceList == s.deviceList
    ensures r.1 == NextReply(s.script).0 && r.0.script == NextReply(s.script).1
  {
    var (reply, rest) := NextReply(s.script);
    (s.(script := rest, log := s.log + [req]), reply)
  }

  predicate LoginAccepted(reply: Reply)
  {
    reply.Response? && IsOkLoginResult(Def(reply.body))
  }

  predicate DeviceListAccepted(reply: Reply)
  {
    reply.Response? && IsOkDeviceListResult(Def(reply.body))
  }

  /**
   * `login`: post the credentials; on a valid login result store its token
   * and refresh the directory, otherwise throw.
   */
  function Login(ctx: Context, s: State): (r: Step<()>)
    decreases 1
    ensures Appends(s.log, r.state.log) && |r.state.log| > |s.log|
    ensures r.state.log[|s.log|] == LoginRequest(ctx.username, ctx.password)
    ensures r.out.Ok? ==> Truthy(r.state.token) && Truthy(r.state.deviceList)
    ensures Invariant(s) ==> Invariant(r.state)
  {
    var (s1, reply) := Send(s, LoginRequest(ctx.username, ctx.password));
    if LoginAccepted(reply) then
      Refresh(ctx, s1.(token := TokenOf(Def(reply.body))))
    else if reply.NetworkFailure? then
      Step(s1, Err(NetworkError))
    else
      Step(s1, Err(UnexpectedResponse(reply.body)))
  }

  /**
   * `refreshDeviceList`: log in first when the token is falsy, then fetch
   * the device list and replace the directory with a valid result's list.
   */
  function Refresh(ctx: Context, s: State): (r: Step<()>)
    decreases if Truthy(s.token) then 0 else 2
    ensures Appends(s.log, r.state.log) && |r.state.log| > |s.log|
    ensures r.out.Ok? ==> Truthy(r.state.token) && Truthy(r.state.deviceList)
    ensures Invariant(s) ==> Invariant(r.state)
    ensures Truthy(s.token) ==> r.state.token == s.token
  {
    var pre := if Truthy(s.token) then Step(s, Ok(())) else Login(ctx, s);
    if pre.out.Err? then pre
    else
      var (s1, reply) := Send(pre.state, DeviceListRequest(pre.state.token));
      if DeviceListAccepted(reply) then
        Step(s1.(deviceList := DeviceListOf(Def(reply.body))), Ok(()))
      else if reply.NetworkFailure? then
        Step(s1, Err(NetworkError))
      else
        Step(s1, Err(UnexpectedResponse(reply.body)))
  }

  function LookupOutcome(found: D.Lookup, alias: string): Outcome<Json>
  {
    match found
    case Found(d) => Ok(d)
    case NotFound => Err(DeviceNotFound(alias))
    case TypeError => Err(TypeError)
  }

  /**
   * `findDevice`: refresh the directory only when none is cached, then take
   * the first entry with the alias.
   */
  function FindDevice(ctx: Context, s: State, alias: string): (r: Step<Json>)
    ensures Truthy(s.deviceList) ==> r == Step(s, LookupOutcome(D.Search(s.deviceList, alias), alias))
    ensures !Truthy(s.deviceList) ==>
              var p := Refresh(ctx, s);
              && r.state == p.state
              && (p.out.Err? ==> r.out == Err(p.out.error))
              && (p.out.Ok? ==> r.out == LookupOutcome(D.Search(p.state.deviceList, alias), alias))
    ensures Truthy(s.token) ==> r.state.token == s.token
    ensures r.out.Ok? ==> D.Search(r.state.deviceList, alias) == D.Found(r.out.value)
    ensures Appends(s.log, r.state.log)
    ensures Invariant(s) ==> Invariant(r.state)
  {
    var pre := if Truthy(s.deviceList) then Step(s, Ok(())) else Refresh(ctx, s);
    if pre.out.Err? then Step(pre.state, Err(pre.out.error))
    else Step(pre.state, LookupOutcome(D.Search(pre.state.deviceList, alias), alias))
  }

  /**
   * `setRelayState` and `transitionLightState`: log in when the token is
   * falsy, send the family's payload to the device, and validate the reply
   * with the family's own check.
   */
  function Passthrough(ctx: Context, s: State, family: Family, device: Json, desired: DeviceState): (r: Step<()>)
    ensures Appends(s.log, r.state.log) && |r.state.log| > |s.log|
    ensures Truthy(s.token) ==>
              && r.state.log == s.log + [PassthroughRequest(device, s.token, FamilyPayload(family, desired))]
              && r.state.token == s.token && r.state.deviceList == s.deviceList
    ensures Truthy(s.token) ==>
              var reply := NextReply(s.script).0;
              (r.out.Ok? <==> reply.Response? && CheckPassthrough(family, Def(reply.body), ctx.parse) == Accepted)
    ensures !Truthy(s.token) ==>
              var l := Login(ctx, s);
              var reply := NextReply(l.state.script).0;
              && (l.out.Err? ==> r == l)
              && (l.out.Ok? ==>
                    && r.state.log == l.state.log + [PassthroughRequest(device, l.state.token, FamilyPayload(family, desired))]
                    && r.state.token == l.state.token && r.state.deviceList == l.state.deviceList
                    && (r.out.Ok? <==> reply.Response? && CheckPassthrough(family, Def(reply.body), ctx.parse) == Accepted))
    ensures Invariant(s) ==> Invariant(r.state)
  {
    var pre := if Truthy(s.token) then Step(s, Ok(())) else Login(ctx, s);
    if pre.out.Err? then pre
    else
      var (s1, reply) := Send(pre.state, PassthroughRequest(device, pre.state.token, FamilyPayload(family, desired)));
      match reply
      case NetworkFailure => Step(s1, Err(NetworkError))
      case Response(body) =>
        match CheckPassthrough(family, Def(body), ctx.parse)
        case Accepted => Step(s1, Ok(()))
        case Rejected => Step(s1, Err(UnexpectedResponse(body)))
        case ParseThrows => Step(s1, Err(ResponseDataNotJson(body)))
  }

  /**
   * `setDeviceState`: find the device, then hand bulbs to the light adapter
   * and plugs to the relay adapter; any other type does nothing.
   */
  function SetDeviceState(ctx: Context, s: State, alias: string, desired: DeviceState): (r: Step<()>)
    ensures Appends(s.log, r.state.log)
    ensures Invariant(s) ==> Invariant(r.state)
  {
    var found := FindDevice(ctx, s, alias);
    if found.out.Err? then Step(found.state, Err(found.out.error))
    else
      var kind := DeviceOf(found.out.value).deviceType;
      if kind == Def(JStr(SmartBulb)) then Passthrough(ctx, found.state, Light, found.out.value, desired)
      else if kind == Def(JStr(SmartPlugSwitch)) then Passthrough(ctx, found.state, Relay, found.out.value, desired)
      else Step(found.state, Ok(()))
  }

  /** The script's main run: a new session logs in, then sets the device's state. */
  function Run(ctx: Context, alias: string, desired: DeviceState, script: seq<Reply>, log: seq<Request>): (r: Step<()>)
    ensures Appends(log, r.state.log)
  {
    var l := Login(ctx, Start(script, log));
    if l.out.Err? then l else SetDeviceState(ctx, l.state, alias, desired)
  }
}
