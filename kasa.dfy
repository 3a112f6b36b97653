/**
 * The `Kasa` session object. Its two private fields, the token and the
 * device directory, are assigned step by step as requests complete; every
 * request goes through a `Network` whose replies are scripted in advance.
 * Each method's outcome and new state are those of the matching function
 * in module Session.
 */
module KasaClient {
  import opened JsValues
  import opened Envelope
  import opened Protocol
  import opened Session
  import D = Directory

  /** The HTTP transport: replies to give, in order, and the requests received. */
  class Network {
    var script: seq<Reply>
    var log: seq<Request>

    constructor (script: seq<Reply>)
      ensures this.script == script && log == []
    {
      this.script := script;
      log := [];
    }

    /** `await fetch(...)` followed by `await resp.json()`. */
    method Fetch(req: Request) returns (reply: Reply)
      modifies this
      ensures log == old(log) + [req]
      ensures (reply, script) == NextReply(old(script))
    {
      log := log + [req];
      reply := NextReply(script).0;
      script := NextReply(script).1;
    }
  }

  class Kasa {
    const username: string
    const password: string
    const parse: Parser
    const net: Network
    var token: Value
    var deviceList: Value

    function Ctx(): Context
    {
      Context(username, password, parse)
    }

    function Snapshot(): State
      reads this, net
    {
      State(token, deviceList, net.script, net.log)
    }

    predicate Valid()
      reads this, net
    {
      Invariant(Snapshot())
    }

    constructor (username: string, password: string, parse: Parser, net: Network)
      ensures this.username == username && this.password == password
      ensures this.parse == parse && this.net == net
      ensures token == Undefined && deviceList == Undefined
      ensures Valid()
    {
      this.username := username;
      this.password := password;
      this.parse := parse;
      this.net := net;
      token := Undefined;
      deviceList := Undefined;
    }

    method Login() returns (r: Outcome<()>)
      requires Valid()
      modifies this, net
      decreases 1
      ensures Valid()
      ensures Step(Snapshot(), r) == Session.Login(Ctx(), old(Snapshot()))
    {
      var reply := net.Fetch(LoginRequest(username, password));
      if LoginAccepted(reply) {
        token := TokenOf(Def(reply.body));
        r := Refresh();
      } else if reply.NetworkFailure? {
        r := Err(NetworkError);
      } else {
        r := Err(UnexpectedResponse(reply.body));
      }
    }

    method Refresh() returns (r: Outcome<()>)
      requires Valid()
      modifies this, net
      decreases if Truthy(token) then 0 else 2
      ensures Valid()
      ensures Step(Snapshot(), r) == Session.Refresh(Ctx(), old(Snapshot()))
    {
      if !Truthy(token) {
        r := Login();
        if r.Err? {
          return;
        }
      }
      var reply := net.Fetch(DeviceListRequest(token));
      if DeviceListAccepted(reply) {
        deviceList := DeviceListOf(Def(reply.body));
        r := Ok(());
      } else if reply.NetworkFailure? {
        r := Err(NetworkError);
      } else {
        r := Err(UnexpectedResponse(reply.body));
      }
    }

    method FindDevice(alias: string) returns (r: Outcome<Json>)
      requires Valid()
      modifies this, net
      ensures Valid()
      ensures Step(Snapshot(), r) == Session.FindDevice(Ctx(), old(Snapshot()), alias)
    {
      if !Truthy(deviceList) {
        var refreshed := Refresh();
        if refreshed.Err? {
          return Err(refreshed.error);
        }
      }
      var found := D.SearchDirectory(deviceList, alias);
      r := LookupOutcome(found, alias);
    }

    /** `setRelayState` (family Relay) and `transitionLightState` (family Light). */
    method Passthrough(family: Family, device: Json, desired: DeviceState) returns (r: Outcome<()>)
      requires Valid()
      modifies this, net
      ensures Valid()
      ensures Step(Snapshot(), r) == Session.Passthrough(Ctx(), old(Snapshot()), family, device, desired)
    {
      if !Truthy(token) {
        r := Login();
        if r.Err? {
          return;
        }
      }
      var reply := net.Fetch(PassthroughRequest(device, token, FamilyPayload(family, desired)));
      match reply {
        case NetworkFailure =>
          r := Err(NetworkError);
        case Response(body) =>
          var verdict := CheckPassthrough(family, Def(body), parse);
          match verdict {
            case Accepted => r := Ok(());
            case Rejected => r := Err(UnexpectedResponse(body));
            case ParseThrows => r := Err(ResponseDataNotJson(body));
          }
      }
    }

    method SetRelayState(device: Json, desired: DeviceState) returns (r: Outcome<()>)
      requires Valid()
      modifies this, net
      ensures Valid()
      ensures Step(Snapshot(), r) == Session.Passthrough(Ctx(), old(Snapshot()), Relay, device, desired)
    {
      r := Passthrough(Relay, device, desired);
    }

    method TransitionLightState(device: Json, desired: DeviceState) returns (r: Outcome<()>)
      requires Valid()
      modifies this, net
      ensures Valid()
      ensures Step(Snapshot(), r) == Session.Passthrough(Ctx(), old(Snapshot()), Light, device, desired)
    {
      r := Passthrough(Light, device, desired);
    }

    method SetDeviceState(alias: string, desired: DeviceState) returns (r: Outcome<()>)
      requires Valid()
      modifies this, net
      ensures Valid()
      ensures Step(Snapshot(), r) == Session.SetDeviceState(Ctx(), old(Snapshot()), alias, desired)
    {
      var found := FindDevice(alias);
      if found.Err? {
        return Err(found.error);
      }
      var device := found.value;
      var kind := DeviceOf(device).deviceType;
      if kind == Def(JStr(SmartBulb)) {
        r := TransitionLightState(device, desired);
      } else if kind == Def(JStr(SmartPlugSwitch)) {
        r := SetRelayState(device, desired);
      } else {
        r := Ok(());
      }
    }

    method TurnOn(alias: string) returns (r: Outcome<()>)
      requires Valid()
      modifies this, net
      ensures Valid()
      ensures Step(Snapshot(), r) == Session.SetDeviceState(Ctx(), old(Snapshot()), alias, ON)
    {
      r := SetDeviceState(alias, ON);
    }

    method TurnOff(alias: string) returns (r: Outcome<()>)
      requires Valid()
      modifies this, net
      ensures Valid()
      ensures Step(Snapshot(), r) == Session.SetDeviceState(Ctx(), old(Snapshot()), alias, OFF)
    {
      r := SetDeviceState(alias, OFF);
    }
  }

  /**
   * The script's main run: a new session logs in and then sets the state of
   * the device with the alias; the outcome is what is reported to the host.
   */
  method Run(username: string, password: string, parse: Parser, alias: string, desired: DeviceState, net: Network)
    returns (r: Outcome<()>)
    modifies net
    ensures var spec := Session.Run(Context(username, password, parse), alias, desired, old(net.script), old(net.log));
            r == spec.out && net.script == spec.state.script && net.log == spec.state.log
  {
    var kasa := new Kasa(username, password, parse, net);
    r := kasa.Login();
    if r.Ok? {
      r := kasa.SetDeviceState(alias, desired);
    }
  }
}
