/**
 * What a session run sends and stores: fields are replaced only with
 * validated values, logging in chains exactly one directory fetch, a
 * refresh without a token fetches the directory twice, dispatch follows the
 * device type, and the main run sends at most three requests in a fixed
 * order.
 */
module SessionProperties {
  import opened JsValues
  import opened Envelope
  import opened Protocol
  import opened Session
  import D = Directory

  /** With a token held, a refresh sends one device-list request and keeps the token. */
  lemma RefreshWithToken(ctx: Context, s: State)
    requires Truthy(s.token)
    ensures var r := Refresh(ctx, s);
            var reply := NextReply(s.script).0;
            && r.state.token == s.token
            && r.state.log == s.log + [DeviceListRequest(s.token)]
            && r.state.script == NextReply(s.script).1
            && (if DeviceListAccepted(reply)
                then r.out.Ok? && r.state.deviceList == DeviceListOf(Def(reply.body))
                else r.out.Err? && r.state.deviceList == s.deviceList)
  {
  }

  /**
   * `login` assigns the token only from a reply that passed `isOkLoginResult`,
   * and then sends exactly one device-list request carrying that token; any
   * other reply leaves both fields as they were.
   */
  lemma LoginEffects(ctx: Context, s: State)
    ensures var r := Login(ctx, s);
            var reply := NextReply(s.script).0;
            if LoginAccepted(reply) then
              var token := TokenOf(Def(reply.body));
              var list := NextReply(NextReply(s.script).1).0;
              && r.state.token == token
              && r.state.log == s.log + [LoginRequest(ctx.username, ctx.password), DeviceListRequest(token)]
              && r.state.script == NextReply(NextReply(s.script).1).1
              && (if DeviceListAccepted(list)
                  then r.out.Ok? && r.state.deviceList == DeviceListOf(Def(list.body))
                  else r.out.Err? && r.state.deviceList == s.deviceList)
            else
              && r.out.Err?
              && r.state.token == s.token && r.state.deviceList == s.deviceList
              && r.state.log == s.log + [LoginRequest(ctx.username, ctx.password)]
              && r.state.script == NextReply(s.script).1
  {
    var (s1, reply) := Send(s, LoginRequest(ctx.username, ctx.password));
    if LoginAccepted(reply) {
      RefreshWithToken(ctx, s1.(token := TokenOf(Def(reply.body))));
    }
  }

  /**
   * Refreshing with no token logs in, which already fetches the directory,
   * and then fetches it a second time.
   */
  lemma RefreshWithoutTokenFetchesTwice(ctx: Context, s: State, login: Json, first: Json, second: Json)
    requires !Truthy(s.token)
    requires |s.script| >= 3
    requires s.script[0] == Response(login) && IsOkLoginResult(Def(login))
    requires s.script[1] == Response(first) && IsOkDeviceListResult(Def(first))
    requires s.script[2] == Response(second) && IsOkDeviceListResult(Def(second))
    ensures var r := Refresh(ctx, s);
            var token := TokenOf(Def(login));
            && r.out.Ok?
            && r.state.token == token
            && r.state.deviceList == DeviceListOf(Def(second))
            && r.state.log == s.log + [LoginRequest(ctx.username, ctx.password), DeviceListRequest(token), DeviceListRequest(token)]
  {
    LoginEffects(ctx, s);
    var l := Login(ctx, s);
    assert l.state.script == s.script[2..] by {
      var (s1, _) := Send(s, LoginRequest(ctx.username, ctx.password));
      RefreshWithToken(ctx, s1.(token := TokenOf(Def(login))));
    }
    RefreshWithToken(ctx, l.state);
  }

  /**
   * Refreshing with no token logs in first; a failed login ends the refresh
   * with the login's error, and a successful one is followed by one more
   * device-list request carrying the token login stored, whose reply alone
   * decides the final directory and outcome.
   */
  lemma RefreshWithoutToken(ctx: Context, s: State)
    requires !Truthy(s.token)
    ensures var r := Refresh(ctx, s);
            var l := Login(ctx, s);
            && r.state.log[|s.log|] == LoginRequest(ctx.username, ctx.password)
            && (l.out.Err? ==> r == l)
            && (l.out.Ok? ==>
                  var reply := NextReply(l.state.script).0;
                  && r.state.token == l.state.token
                  && r.state.log == l.state.log + [DeviceListRequest(l.state.token)]
                  && r.state.script == NextReply(l.state.script).1
                  && (if DeviceListAccepted(reply)
                      then r.out.Ok? && r.state.deviceList == DeviceListOf(Def(reply.body))
                      else r.out.Err? && r.state.deviceList == l.state.deviceList))
  {
    var l := Login(ctx, s);
    if l.out.Ok? {
      RefreshWithToken(ctx, l.state);
    }
  }

  /** A rejected login reply ends a refresh without a token after one request. */
  lemma RefreshLoginRejected(ctx: Context, s: State)
    requires !Truthy(s.token) && !LoginAccepted(NextReply(s.script).0)
    ensures var r := Refresh(ctx, s);
            && r.out.Err?
            && r.state.log == s.log + [LoginRequest(ctx.username, ctx.password)]
            && r.state.token == s.token && r.state.deviceList == s.deviceList
  {
    LoginEffects(ctx, s);
  }

  /**
   * `setRelayState` and `transitionLightState` with no token: login is the
   * first request; a failed login sends no passthrough; otherwise exactly
   * one passthrough follows, carrying the token login stored.
   */
  lemma PassthroughWithoutToken(ctx: Context, s: State, family: Family, device: Json, desired: DeviceState)
    requires !Truthy(s.token)
    ensures var r := Passthrough(ctx, s, family, device, desired);
            var l := Login(ctx, s);
            && r.state.log[|s.log|] == LoginRequest(ctx.username, ctx.password)
            && (l.out.Err? ==> r == l)
            && (l.out.Ok? ==> r.state.log == l.state.log + [PassthroughRequest(device, l.state.token, FamilyPayload(family, desired))])
            && (l.out.Ok? ==> r == Passthrough(ctx, l.state, family, device, desired))
  {
  }

  /**
   * `setDeviceState` in any session: an error finding the device is the
   * result; otherwise bulbs go to the light adapter and plugs to the relay
   * adapter, each with exactly its payload when a token is held, and any
   * other type does nothing and succeeds.
   */
  lemma DispatchAfterLookup(ctx: Context, s: State, alias: string, desired: DeviceState)
    ensures var f := FindDevice(ctx, s, alias);
            var r := SetDeviceState(ctx, s, alias, desired);
            match f.out
            case Err(e) => r == Step(f.state, Err(e))
            case Ok(d) =>
              var kind := DeviceOf(d).deviceType;
              if kind == Def(JStr(SmartBulb)) then
                && r == Passthrough(ctx, f.state, Light, d, desired)
                && (Truthy(f.state.token) ==> r.state.log == f.state.log + [PassthroughRequest(d, f.state.token, LightPayload(desired))])
              else if kind == Def(JStr(SmartPlugSwitch)) then
                && r == Passthrough(ctx, f.state, Relay, d, desired)
                && (Truthy(f.state.token) ==> r.state.log == f.state.log + [PassthroughRequest(d, f.state.token, RelayPayload(desired))])
              else
                r == Step(f.state, Ok(()))
  {
  }

  /**
   * With a token and a directory held, `setDeviceState` sends nothing to
   * find the device; bulbs get exactly the light payload, plugs exactly the
   * relay payload, any other type nothing at all and no error, and an alias
   * that is missing fails without a request.
   */
  lemma DispatchByDeviceType(ctx: Context, s: State, alias: string, desired: DeviceState)
    requires Truthy(s.token) && Truthy(s.deviceList)
    ensures var r := SetDeviceState(ctx, s, alias, desired);
            match D.Search(s.deviceList, alias)
            case Found(d) =>
              var kind := DeviceOf(d).deviceType;
              if kind == Def(JStr(SmartBulb)) then
                && r == Passthrough(ctx, s, Light, d, desired)
                && r.state.log == s.log + [PassthroughRequest(d, s.token, LightPayload(desired))]
              else if kind == Def(JStr(SmartPlugSwitch)) then
                && r == Passthrough(ctx, s, Relay, d, desired)
                && r.state.log == s.log + [PassthroughRequest(d, s.token, RelayPayload(desired))]
              else
                r == Step(s, Ok(()))
            case NotFound => r == Step(s, Err(DeviceNotFound(alias)))
            case TypeError => r == Step(s, Err(TypeError))
  {
  }

  /** The state after the main run's successful login. */
  lemma AfterLogin(ctx: Context, script: seq<Reply>, log: seq<Request>)
    ensures var l := Login(ctx, Start(script, log));
            l.out.Ok? ==> Truthy(l.state.token) && Truthy(l.state.deviceList) && l.state.log == log + [LoginRequest(ctx.username, ctx.password), DeviceListRequest(l.state.token)]
  {
    LoginEffects(ctx, Start(script, log));
  }

  /**
   * The main run sends one login request first, then at most one
   * device-list request (the one chained from login), then at most one
   * passthrough request; it succeeds only after the directory was fetched.
   */
  lemma {:induction false} RunRequestSequence(ctx: Context, alias: string, desired: DeviceState, script: seq<Reply>)
    ensures var r := Run(ctx, alias, desired, script, []);
            var log := r.state.log;
            && 1 <= |log| <= 3
            && log[0] == LoginRequest(ctx.username, ctx.password)
            && (|log| >= 2 ==> log[1].body == GetDeviceListBody)
            && (|log| == 3 ==> log[2].body.PassthroughBody?)
            && (r.out.Ok? ==> |log| >= 2)
  {
    var start := Start(script, []);
    var l := Login(ctx, start);
    LoginEffects(ctx, start);
    if l.out.Ok? {
      AfterLogin(ctx, script, []);
      DispatchByDeviceType(ctx, l.state, alias, desired);
    }
  }

  /**
   * When login and the directory fetch succeed but no entry has the alias,
   * the run fails with the alias and sends no passthrough request.
   */
  lemma {:induction false} RunMissingAlias(ctx: Context, alias: string, desired: DeviceState, script: seq<Reply>)
    requires var l := Login(ctx, Start(script, []));
             l.out.Ok? && D.Search(l.state.deviceList, alias) == D.NotFound
    ensures var r := Run(ctx, alias, desired, script, []);
            && r.out == Err(DeviceNotFound(alias))
            && |r.state.log| == 2
  {
    AfterLogin(ctx, script, []);
    var l := Login(ctx, Start(script, []));
    DispatchByDeviceType(ctx, l.state, alias, desired);
  }

  /** A fresh session whose login and directory replies are both valid ends up holding both. */
  lemma {:induction false} LoginThenDirectory(ctx: Context, login: Json, list: Json, rest: seq<Reply>)
    requires IsOkLoginResult(Def(login)) && IsOkDeviceListResult(Def(list))
    ensures var l := Login(ctx, Start([Response(login), Response(list)] + rest, []));
            && l.out.Ok?
            && l.state == State(TokenOf(Def(login)), DeviceListOf(Def(list)), rest,
                                [LoginRequest(ctx.username, ctx.password), DeviceListRequest(TokenOf(Def(login)))])
  {
    var start := Start([Response(login), Response(list)] + rest, []);
    var (s1, reply) := Send(start, LoginRequest(ctx.username, ctx.password));
    assert reply == Response(login) && s1.script == [Response(list)] + rest;
    RefreshWithToken(ctx, s1.(token := TokenOf(Def(login))));
    assert ([Response(list)] + rest)[1..] == rest;
  }

  /**
   * With a token and a one-plug directory held, switching the plug sends
   * exactly the relay payload and succeeds when the plug reports `err_code` 0.
   */
  lemma {:induction false} HeldTokenSwitchesPlug(ctx: Context, s: State, alias: string, plug: Json, text: string, desired: DeviceState)
    requires Truthy(s.token) && text != ""
    requires s.deviceList == Def(JArr([plug])) && HasAliasAndType(plug, alias, SmartPlugSwitch)
    requires s.script == [Response(OkBody(Single("responseData", JStr(text))))]
    requires ctx.parse(text) == Some(RelayResponse(0))
    ensures var r := SetDeviceState(ctx, s, alias, desired);
            && r.out.Ok?
            && r.state.log == s.log + [PassthroughRequest(plug, s.token, RelayPayload(desired))]
  {
    DispatchByDeviceType(ctx, s, alias, desired);
    assert D.Search(s.deviceList, alias) == D.Found(plug);
    PassthroughVerdicts(text, ctx.parse, 0);
  }

  /**
   * Scenario: valid credentials, a plug with the alias, state ON. One login,
   * one directory fetch, one passthrough carrying `state: 1`, and success.
   */
  lemma {:induction false} RunSwitchesPlugOn(ctx: Context, alias: string, plug: Json, token: string, text: string)
    requires token != "" && text != ""
    requires HasAliasAndType(plug, alias, SmartPlugSwitch)
    requires ctx.parse(text) == Some(RelayResponse(0))
    ensures var script := [Response(OkBody(Single("token", JStr(token)))),
                           Response(OkBody(Single("deviceList", JArr([plug])))),
                           Response(OkBody(Single("responseData", JStr(text))))];
            var r := Run(ctx, alias, ON, script, []);
            && r.out.Ok?
            && r.state.log == [ LoginRequest(ctx.username, ctx.password),
                                DeviceListRequest(Def(JStr(token))),
                                PassthroughRequest(plug, Def(JStr(token)), RelayPayload(ON)) ]
  {
    var tokenBody := OkBody(Single("token", JStr(token)));
    var listBody := OkBody(Single("deviceList", JArr([plug])));
    var reply := Response(OkBody(Single("responseData", JStr(text))));
    var script := [Response(tokenBody), Response(listBody), reply];
    assert IsOkLoginResult(Def(tokenBody)) && TokenOf(Def(tokenBody)) == Def(JStr(token));
    assert IsOkDeviceListResult(Def(listBody)) && DeviceListOf(Def(listBody)) == Def(JArr([plug]));
    assert script == [Response(tokenBody), Response(listBody)] + [reply];
    LoginThenDirectory(ctx, tokenBody, listBody, [reply]);
    var l := Login(ctx, Start(script, []));
    assert l.state.script == [reply];
    HeldTokenSwitchesPlug(ctx, l.state, alias, plug, text, ON);
    assert Run(ctx, alias, ON, script, []) == SetDeviceState(ctx, l.state, alias, ON);
  }

  /** An ok envelope around `result`. */
  function OkBody(result: Json): Json
  {
    JObj(map["error_code" := JNum(0), "result" := result])
  }

  predicate HasAliasAndType(entry: Json, alias: string, kind: string)
  {
    entry.JObj? && D.HasAlias(entry, alias) && DeviceOf(entry).deviceType == Def(JStr(kind))
  }

  /**
   * Scenario: a token is already held and the alias names a bulb; state OFF
   * sends no login, one passthrough carrying `on_off: false`, and succeeds
   * when the bulb reports `err_code` 0.
   */
  lemma {:induction false} HeldTokenTurnsBulbOff(ctx: Context, s: State, alias: string, bulb: Json, text: string)
    requires Truthy(s.token) && text != ""
    requires s.deviceList == Def(JArr([bulb])) && HasAliasAndType(bulb, alias, SmartBulb)
    requires s.script == [Response(OkBody(Single("responseData", JStr(text))))]
    requires ctx.parse(text) == Some(LightResponse(0))
    ensures var r := SetDeviceState(ctx, s, alias, OFF);
            && r.out.Ok?
            && r.state.log == s.log + [PassthroughRequest(bulb, s.token, LightPayload(OFF))]
  {
    DispatchByDeviceType(ctx, s, alias, OFF);
    assert D.Search(s.deviceList, alias) == D.Found(bulb);
    PassthroughVerdicts(text, ctx.parse, 0);
  }
}
