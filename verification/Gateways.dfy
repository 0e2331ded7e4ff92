/** An APISIX gateway as the portal provisions it: consumers and routes. */
module Gateways {
  import opened Common

  datatype RateLimit = RateLimit(count: int, window: int)
  datatype Consumer = Consumer(key: string, limit: RateLimit)
  datatype Route = Route(uri: string, upstream: string, allowed: seq<string>, oauth: bool)

  /** One Admin API call. Both kinds of route are written by EnsureRoute, with the
      route's flag telling which. */
  datatype Call =
    | EnsureConsumer(name: string, consumer: Consumer)
    | DeleteConsumer(name: string)
    | EnsureRoute(id: string, route: Route)
    | DeleteRoute(id: string)

  /** What a gateway serves. */
  datatype Live = Live(consumers: map<string, Consumer>, routes: map<string, Route>) {

    function Effect(call: Call): Live {
      match call
      case EnsureConsumer(name, consumer) => this.(consumers := consumers[name := consumer])
      case DeleteConsumer(name) => this.(consumers := consumers - {name})
      case EnsureRoute(id, route) => this.(routes := routes[id := route])
      case DeleteRoute(id) => this.(routes := routes - {id})
    }
  }

  /** A gateway and its fault tape: the outcomes of its next calls, true for a call that
      fails without effect. Beyond the tape every call succeeds. */
  datatype State = State(live: Live, faults: seq<bool>) {

    predicate Failing() {
      faults != [] && faults[0]
    }

    function Rest(): seq<bool> {
      if faults == [] then [] else faults[1..]
    }

    function After(call: Call): State {
      State(if Failing() then live else live.Effect(call), Rest())
    }

    function Answer(): Result<()> {
      if Failing() then Err(GatewayFailed) else Ok(())
    }
  }

  /** The in-memory gateway: two maps assigned and deleted in place. */
  class Gateway {
    var consumers: map<string, Consumer>
    var routes: map<string, Route>
    var faults: seq<bool>

    constructor (faults: seq<bool>)
      ensures Now() == State(Live(map[], map[]), faults)
    {
      consumers, routes := map[], map[];
      this.faults := faults;
    }

    function Now(): State
      reads this
    {
      State(Live(consumers, routes), faults)
    }

    /** Consumes the outcome of the next call. */
    method Fails() returns (failing: bool)
      modifies this`faults
      ensures failing == old(Now()).Failing() && Now() == State(old(Now()).live, old(Now()).Rest())
    {
      failing := faults != [] && faults[0];
      if faults != [] {
        faults := faults[1..];
      }
    }

    method EnsureConsumer(name: string, key: string, limit: RateLimit) returns (r: Result<()>)
      modifies this
      ensures Now() == old(Now()).After(Call.EnsureConsumer(name, Consumer(key, limit))) && r == old(Now()).Answer()
    {
      var failing := Fails();
      if failing { return Err(GatewayFailed); }
      consumers := consumers[name := Consumer(key, limit)];
      return Ok(());
    }

    method DeleteConsumer(name: string) returns (r: Result<()>)
      modifies this
      ensures Now() == old(Now()).After(Call.DeleteConsumer(name)) && r == old(Now()).Answer()
    {
      var failing := Fails();
      if failing { return Err(GatewayFailed); }
      consumers := consumers - {name};
      return Ok(());
    }

    method EnsureRoute(id: string, contextPath: string, upstream: string, allowed: seq<string>) returns (r: Result<()>)
      modifies this
      ensures Now() == old(Now()).After(Call.EnsureRoute(id, Route(contextPath, upstream, allowed, false)))
              && r == old(Now()).Answer()
    {
      var failing := Fails();
      if failing { return Err(GatewayFailed); }
      routes := routes[id := Route(contextPath, upstream, allowed, false)];
      return Ok(());
    }

    method EnsureOAuthRoute(id: string, contextPath: string, upstream: string, issuer: string, claim: string,
                            allowed: seq<string>)
      returns (r: Result<()>)
      modifies this
      ensures Now() == old(Now()).After(Call.EnsureRoute(id, Route(contextPath, upstream, allowed, true)))
              && r == old(Now()).Answer()
    {
      var failing := Fails();
      if failing { return Err(GatewayFailed); }
      routes := routes[id := Route(contextPath, upstream, allowed, true)];
      return Ok(());
    }

    method DeleteRoute(id: string) returns (r: Result<()>)
      modifies this
      ensures Now() == old(Now()).After(Call.DeleteRoute(id)) && r == old(Now()).Answer()
    {
      var failing := Fails();
      if failing { return Err(GatewayFailed); }
      routes := routes - {id};
      return Ok(());
    }
  }

  /** A replaceable client; without one the gateway is disabled. */
  class Swappable<Client> {
    var inner: Option<Client>

    constructor (inner: Option<Client>)
      ensures this.inner == inner
    {
      this.inner := inner;
    }

    /** From now on Get yields exactly this client, or none. */
    method Swap(inner: Option<Client>)
      modifies this
      ensures this.inner == inner
      ensures Get() == if inner.Some? then Ok(inner.value) else Err(GatewayDisabled)
    {
      this.inner := inner;
    }

    predicate Enabled()
      reads this
    {
      inner.Some?
    }

    /** The client every call is delegated to. */
    function Get(): (r: Result<Client>)
      reads this
      ensures r.Ok? ==> inner == Some(r.value)
      ensures r.Err? ==> !Enabled() && r.error.GatewayDisabled?
    {
      if inner.Some? then Ok(inner.value) else Err(GatewayDisabled)
    }
  }
}
