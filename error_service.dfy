/** The error-handling service: the service registry, the health-status store and the
    error log, and the request handlers that read and update them. */
module ErrorService {
  import opened Common
  import opened Translator
  import opened ErrorLog
  import opened Health
  import opened Proxy

  /** The registry the service starts with. */
  const SeedRegistry: map<string, string> := map[
    "api-gateway" := "http://api-gateway:8084",
    "bus-booking" := "http://bus-booking:8001",
    "bus-service" := "http://bus-service:8002",
    "user-service" := "http://user-service:8003",
    "agent-service" := "http://agent-service:8006",
    "booking-service" := "http://booking-service:8007"
  ]

  /** Every seeded service has a message of its own. */
  lemma SeedServicesAreListed()
    ensures SeedRegistry.Keys == ListedServices
    ensures forall name :: name in SeedRegistry ==> UserMessage(name) != DefaultMessage
  {
    forall name | name in SeedRegistry ensures UserMessage(name) != DefaultMessage {
      UserMessageIsDefaultIffUnlisted(name);
    }
  }

  /** The registry lookup the health, error and proxy handlers begin with: the URL of a
      registered name, or 404. */
  function Resolve(registry: map<string, string>, name: string): (r: Result<string>)
    ensures r.Ok? <==> name in registry
    ensures r.Ok? ==> r.value == registry[name]
    ensures r.Err? ==> r == Err(404, NotInRegistry(name))
  {
    if name in registry then Ok(registry[name]) else Err(404, NotInRegistry(name))
  }

  /** Registering and then resolving gives back exactly the URL registered; other names
      resolve as before. Deregistering and then resolving fails with 404. */
  lemma RegisterResolveRoundTrip(registry: map<string, string>, name: string, url: string, other: string)
    requires other != name
    ensures Resolve(registry[name := url], name) == Ok(url)
    ensures Resolve(registry[name := url], other) == Resolve(registry, other)
    ensures Resolve(registry - {name}, name).Err? && Resolve(registry - {name}, name).status == 404
    ensures Resolve(registry - {name}, other) == Resolve(registry, other)
  {
  }

  class ErrorHandlingService {
    var registry: map<string, string>
    var health: map<string, ServiceStatus>
    var history: seq<Entry>

    constructor ()
      ensures registry == SeedRegistry && health == map[] && history == []
    {
      registry := SeedRegistry;
      health := map[];
      history := [];
    }

    /** `GET /registry`. */
    method GetServiceRegistry() returns (r: map<string, string>)
      ensures r == registry
    {
      r := registry;
    }

    /** `POST /registry/{name}?url=...`: insert or overwrite. */
    method RegisterService(name: string, url: string) returns (message: string)
      modifies this
      ensures registry == old(registry)[name := url]
      ensures health == old(health) && history == old(history)
      ensures message == "Service '" + name + "' registered at " + url
    {
      registry := registry[name := url];
      message := "Service '" + name + "' registered at " + url;
    }

    /** `DELETE /registry/{name}`: remove, or 404 with nothing changed. The health record
        and the log entries of the service are kept. */
    method DeregisterService(name: string) returns (r: Result<string>)
      modifies this
      ensures r.Ok? <==> name in old(registry)
      ensures r.Ok? ==> registry == old(registry) - {name} && r.value == "Service '" + name + "' deregistered"
      ensures r.Err? ==> registry == old(registry) && r == Err(404, NotInRegistry(name))
      ensures health == old(health) && history == old(history)
    {
      if name in registry {
        registry := registry - {name};
        r := Ok("Service '" + name + "' deregistered");
      } else {
        r := Err(404, NotInRegistry(name));
      }
    }

    /** `log_error`: append one unresolved entry. */
    method LogError(timestamp: string, serviceName: string, endpoint: string, statusCode: int,
                    errorMessage: string, userMessage: string, requestDetails: Option<RequestDetails>)
      returns (e: Entry)
      modifies this
      ensures e == NewEntry(timestamp, serviceName, endpoint, statusCode, errorMessage, userMessage, requestDetails)
      ensures history == old(history) + [e]
      ensures registry == old(registry) && health == old(health)
    {
      e := Entry(timestamp, serviceName, endpoint, statusCode, errorMessage, userMessage, requestDetails, false);
      history := history + [e];
    }

    /** `check_service_health`: overwrite the record of `name` and log a failed probe. */
    method CheckServiceHealth(name: string, url: string, probe: Probe)
      modifies this
      ensures health == old(health)[name := ProbeStatus(name, url, probe)]
      ensures history == old(history) + ProbeLog(name, url, probe)
      ensures registry == old(registry)
    {
      var endpoint := url + "/";
      match probe.outcome {
        case Answered(code) =>
          var status := if code < 300 then Up else Degraded;
          var userMessage := if status == Up then None else Some(UserMessage(name));
          health := health[name := ServiceStatus(name, status, probe.checkedAt, probe.elapsedMs, endpoint, userMessage)];
        case Raised(error) =>
          var userMessage := UserMessage(name);
          health := health[name := ServiceStatus(name, Down, probe.checkedAt, 0, endpoint, Some(userMessage))];
          var _ := LogError(probe.checkedAt, name, endpoint, 503, error, userMessage, None);
      }
    }

    /** `check_all_services_health`: probe every service of the registry snapshot, in the
        order `order` enumerates its keys (the order in which the probes complete). */
    method CheckAllServicesHealth(order: seq<string>, probes: map<string, Probe>)
      requires Distinct(order) && forall k :: k in registry <==> k in order
      requires forall k :: k in registry ==> k in probes
      modifies this
      ensures health == StatusesAfter(old(health), old(registry), order, probes)
      ensures history == old(history) + FailuresLogged(old(registry), order, probes)
      ensures registry == old(registry)
    {
      var snapshot := registry;
      var i := 0;
      while i < |order|
        invariant 0 <= i <= |order| && registry == snapshot
        invariant StatusesAfter(health, snapshot, order[i..], probes) == StatusesAfter(old(health), snapshot, order, probes)
        invariant history + FailuresLogged(snapshot, order[i..], probes) == old(history) + FailuresLogged(snapshot, order, probes)
      {
        var name := order[i];
        ProbeStep(health, snapshot, order, i, probes);
        ghost var before, rest := history, FailuresLogged(snapshot, order[i + 1..], probes);
        CheckServiceHealth(name, snapshot[name], probes[name]);
        ghost var logged := ProbeLog(name, snapshot[name], probes[name]);
        AppendAssociative(before, logged, rest);
        i := i + 1;
      }
    }

    /** `GET /health`: probe everything, then report the whole store, stale records of
        deregistered services included. */
    method GetAllServicesHealth(order: seq<string>, probes: map<string, Probe>)
      returns (r: map<string, ServiceStatus>)
      requires Distinct(order) && forall k :: k in registry <==> k in order
      requires forall k :: k in registry ==> k in probes
      modifies this
      ensures r == health == StatusesAfter(old(health), old(registry), order, probes)
      ensures history == old(history) + FailuresLogged(old(registry), order, probes)
      ensures registry == old(registry)
    {
      CheckAllServicesHealth(order, probes);
      r := health;
    }

    /** `GET /health/{name}`: 404 for an unknown name, otherwise probe it and report. */
    method GetServiceHealth(name: string, probe: Probe) returns (r: Result<ServiceStatus>)
      modifies this
      ensures name !in old(registry) ==>
                r == Err(404, NotInRegistry(name)) && health == old(health) && history == old(history)
      ensures name in old(registry) ==>
                && r == Ok(ProbeStatus(name, old(registry)[name], probe))
                && health == old(health)[name := r.value]
                && history == old(history) + ProbeLog(name, old(registry)[name], probe)
      ensures registry == old(registry)
    {
      var url := Resolve(registry, name);
      if url.Err? {
        return Err(url.status, url.detail);
      }
      CheckServiceHealth(name, url.value, probe);
      r := Ok(health[name]);
    }

    /** `GET /errors?limit=N`, where an absent limit means 50. */
    method GetErrorHistory(limit: int := 50) returns (r: seq<Entry>)
      ensures r == RecentErrors(history, limit)
    {
      r := RecentErrors(history, limit);
    }

    /** `GET /errors/{name}`: 404 only for a name that is not registered; a registered
        service without errors gets an empty list. */
    method GetServiceErrors(name: string) returns (r: Result<seq<Entry>>)
      ensures r.Err? <==> name !in registry
      ensures r.Err? ==> r == Err(404, NotInRegistry(name))
      ensures r.Ok? ==> r.value == ErrorsFor(history, name)
      // the service's entries, in log order, none lost and none from another service
      ensures r.Ok? ==> IsSubsequence(r.value, history)
      ensures r.Ok? ==> forall e :: multiset(r.value)[e] == if e.serviceName == name then multiset(history)[e] else 0
    {
      var url := Resolve(registry, name);
      if url.Err? {
        return Err(url.status, url.detail);
      }
      ErrorsForIsSubsequence(history, name);
      ErrorsForCounts(history, name);
      r := Ok(ErrorsFor(history, name));
    }

    /** `POST /proxy`. */
    method ProxyRequestHandler(req: ProxyRequest, upstream: Upstream, now: string)
      returns (resp: ProxyResponse)
      modifies this
      ensures var f := Forward(old(registry), req, upstream, now, |old(history)|);
        resp == f.response && history == old(history) + f.logged
      ensures registry == old(registry) && health == old(health)
    {
      var url := Resolve(registry, req.targetService);
      if url.Err? {
        return Rejected(url.status, url.detail);
      }
      var verb := ParseMethod(req.httpMethod);
      if verb == None {
        return Rejected(400, "Unsupported method: " + req.httpMethod);
      }
      resp := CompleteCall(TargetOf(url.value, req), upstream, now);
    }

    /** The part of `proxy_request` after the outbound call was made. */
    method CompleteCall(t: Target, upstream: Upstream, now: string) returns (resp: ProxyResponse)
      modifies this
      ensures var o := Settle(t, upstream, now, |old(history)|);
        resp == o.response && history == old(history) + o.logged
      ensures registry == old(registry) && health == old(health)
    {
      match upstream {
        case RequestError(msg) =>
          var message := "Request to " + t.name + " failed: " + msg;
          var _ := LogError(now, t.name, t.endpoint, 503, message, t.userMessage, t.details);
          resp := Failed(503, "Service Unavailable", message, t.userMessage, |history| - 1);
        case OtherError(msg) =>
          var message := "Unexpected error: " + msg;
          var _ := LogError(now, t.name, t.endpoint, 500, message, t.userMessage, t.details);
          resp := Failed(500, "Internal Server Error", message, t.userMessage, |history| - 1);
        case Responded(code, headers, text, json) =>
          ghost var start := history;
          ghost var first := if code >= 400 then [LogFor(t, now, code, text)] else [];
          if code >= 400 {
            var _ := LogError(now, t.name, t.endpoint, code, text, t.userMessage, t.details);
          }
          assert history == start + first;
          if ContentType(headers) != Some("application/json") {
            resp := Passthrough(code, headers, TextBody(text), t.name);
          } else if json.Decoded? {
            resp := Passthrough(code, headers, JsonBody(json.document), t.name);
          } else {
            var message := "Unexpected error: " + json.error;
            var e := LogError(now, t.name, t.endpoint, 500, message, t.userMessage, t.details);
            resp := Failed(500, "Internal Server Error", message, t.userMessage, |history| - 1);
            AppendAssociative(start, first, [e]);
          }
      }
    }
  }

  /** Registering a service and then asking for its health probes `url + "/"` against the
      URL just registered; once deregistered, the same request is refused with 404 and
      probes nothing. */
  method RegisterProbeDeregister(name: string, url: string, probe: Probe)
    returns (first: Result<ServiceStatus>, second: Result<ServiceStatus>)
    ensures first == Ok(ProbeStatus(name, url, probe)) && first.value.endpoint == url + "/"
    ensures second == Err(404, NotInRegistry(name))
  {
    var service := new ErrorHandlingService();
    var _ := service.RegisterService(name, url);
    first := service.GetServiceHealth(name, probe);
    var _ := service.DeregisterService(name);
    second := service.GetServiceHealth(name, probe);
  }

  /** An unreachable `bus-service`: its health reads `down` with response time 0 and the
      service's own message, and its error list then holds one 503 entry. */
  method UnreachableBusService(error: string, at: string, elapsed: nat)
    returns (status: Result<ServiceStatus>, errors: Result<seq<Entry>>)
    ensures status.Ok? && status.value.status == Down && status.value.responseTime == 0
    ensures status.value.userMessage == Some(UserErrorMessages["bus-service"])
    ensures errors.Ok? && |errors.value| == 1 && errors.value[0].statusCode == 503
  {
    var service := new ErrorHandlingService();
    status := service.GetServiceHealth("bus-service", Probe(Raised(error), at, elapsed));
    errors := service.GetServiceErrors("bus-service");
    ErrorsForAppend([], errors.value[0], "bus-service");
  }

  /** Proxying `GET /buses` to a `bus-service` that answers 404 with a JSON body passes the
      404 and the body through and logs exactly one 404 entry. */
  method ProxiedNotFound(at: string) returns (resp: ProxyResponse, logged: seq<Entry>)
    ensures resp == Passthrough(404, map["content-type" := "application/json"],
                                JsonBody("{\"detail\": \"not found\"}"), "bus-service")
    ensures |logged| == 1 && logged[0].statusCode == 404
  {
    var service := new ErrorHandlingService();
    var headers := map["content-type" := "application/json"];
    var body := "{\"detail\": \"not found\"}";
    resp := service.ProxyRequestHandler(
      ProxyRequest("bus-service", "/buses", "get", None, None),
      Responded(404, headers, body, Decoded(body)), at);
    logged := service.history;
  }
}
