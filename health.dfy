/** The health monitor of the error-handling service: how one liveness probe is
    classified, and what probing a whole registry snapshot does to the health store and
    the error log. */
module Health {
  import opened Common
  import opened Translator
  import opened ErrorLog

  datatype Status = Up | Degraded | Down

  /** One `ServiceStatus` record; `responseTime` is in whole milliseconds. */
  datatype ServiceStatus = ServiceStatus(
    serviceName: string,
    status: Status,
    lastChecked: string,
    responseTime: nat,
    endpoint: string,
    userMessage: Option<string>)

  /** What the liveness GET did: the backend answered with a status code, or the call
      raised (connection failure, the 3-second timeout, any other exception) with the
      exception's text. */
  datatype ProbeOutcome = Answered(statusCode: int) | Raised(error: string)

  /** Everything one probe takes from its environment: the outcome of the call, the clock
      reading used as the check's timestamp, and the measured round trip. */
  datatype Probe = Probe(outcome: ProbeOutcome, checkedAt: string, elapsedMs: nat)

  function HealthEndpoint(url: string): string {
    url + "/"
  }

  /** The record `check_service_health` stores for `name`. */
  function ProbeStatus(name: string, url: string, p: Probe): (s: ServiceStatus)
    ensures s.serviceName == name && s.endpoint == url + "/" && s.lastChecked == p.checkedAt
    ensures s.status == Up <==> p.outcome.Answered? && p.outcome.statusCode < 300
    ensures s.status == Degraded <==> p.outcome.Answered? && p.outcome.statusCode >= 300
    ensures s.status == Down <==> p.outcome.Raised?
    // a user message is attached exactly when the service is not up, and it is the translated one
    ensures s.userMessage == None <==> s.status == Up
    ensures s.userMessage != None ==> s.userMessage == Some(UserMessage(name))
    ensures s.responseTime == if s.status == Down then 0 else p.elapsedMs
  {
    match p.outcome
    case Answered(code) =>
      var status := if code < 300 then Up else Degraded;
      ServiceStatus(name, status, p.checkedAt, p.elapsedMs, HealthEndpoint(url),
                    if status == Up then None else Some(UserMessage(name)))
    case Raised(_) =>
      ServiceStatus(name, Down, p.checkedAt, 0, HealthEndpoint(url), Some(UserMessage(name)))
  }

  /** The entries `check_service_health` appends to the error log: none when the backend
      answered, whatever its status code; one 503 entry when the call raised. */
  function ProbeLog(name: string, url: string, p: Probe): (log: seq<Entry>)
    ensures |log| == if p.outcome.Raised? then 1 else 0
    ensures forall e :: e in log ==>
      && e.statusCode == 503 && e.serviceName == name && e.endpoint == url + "/"
      && e.errorMessage == p.outcome.error && e.userMessage == UserMessage(name)
      && e.timestamp == p.checkedAt && e.requestDetails == None && !e.isResolved
  {
    match p.outcome
    case Answered(_) => []
    case Raised(error) =>
      [NewEntry(p.checkedAt, name, HealthEndpoint(url), 503, error, UserMessage(name), None)]
  }

  /** The services of the sequence that must be probed for a snapshot to be probed. */
  predicate Probeable(registry: map<string, string>, order: seq<string>, probes: map<string, Probe>) {
    forall k :: k in order ==> k in registry && k in probes
  }

  /** The health store after the services of `order` were probed one after another. */
  function StatusesAfter(health: map<string, ServiceStatus>, registry: map<string, string>,
                         order: seq<string>, probes: map<string, Probe>): map<string, ServiceStatus>
    requires Probeable(registry, order, probes)
    decreases |order|
  {
    if order == [] then health
    else
      var k := order[0];
      StatusesAfter(health[k := ProbeStatus(k, registry[k], probes[k])], registry, order[1..], probes)
  }

  /** The entries appended to the error log while the services of `order` were probed. */
  function FailuresLogged(registry: map<string, string>, order: seq<string>,
                          probes: map<string, Probe>): seq<Entry>
    requires Probeable(registry, order, probes)
  {
    if order == [] then []
    else
      var k := order[0];
      ProbeLog(k, registry[k], probes[k]) + FailuresLogged(registry, order[1..], probes)
  }

  /** The services of `order` whose probe raised, in probing order. */
  function Failing(order: seq<string>, probes: map<string, Probe>): (r: seq<string>)
    requires forall k :: k in order ==> k in probes
    ensures forall k :: k in r <==> k in order && probes[k].outcome.Raised?
  {
    if order == [] then []
    else (if probes[order[0]].outcome.Raised? then [order[0]] else []) + Failing(order[1..], probes)
  }

  /** The failing services keep the order in which they were probed. */
  lemma {:induction false} FailingIsSubsequence(order: seq<string>, probes: map<string, Probe>)
    requires forall k :: k in order ==> k in probes
    ensures IsSubsequence(Failing(order, probes), order)
  {
    if order != [] {
      FailingIsSubsequence(order[1..], probes);
      var rest := Failing(order[1..], probes);
      if probes[order[0]].outcome.Raised? {
        assert Failing(order, probes) == [order[0]] + rest;
        assert ([order[0]] + rest)[1..] == rest;
      } else {
        assert Failing(order, probes) == rest;
        if rest != [] {
          assert rest[0] in rest;
        }
      }
    }
  }

  /** Probing `order[i..]` probes `order[i]` first, then `order[i + 1..]`. */
  lemma ProbeStep(health: map<string, ServiceStatus>, registry: map<string, string>,
                  order: seq<string>, i: nat, probes: map<string, Probe>)
    requires Probeable(registry, order, probes) && i < |order|
    ensures Probeable(registry, order[i..], probes) && Probeable(registry, order[i + 1..], probes)
    ensures var k := order[i];
      && StatusesAfter(health, registry, order[i..], probes)
         == StatusesAfter(health[k := ProbeStatus(k, registry[k], probes[k])], registry, order[i + 1..], probes)
      && FailuresLogged(registry, order[i..], probes)
         == ProbeLog(k, registry[k], probes[k]) + FailuresLogged(registry, order[i + 1..], probes)
  {
    assert order[i..][0] == order[i] && order[i..][1..] == order[i + 1..];
  }

  /** After probing, every probed service holds the record its own probe produced, every
      other service keeps its old record, and nothing else appears (stale records of
      services no longer registered survive). */
  lemma {:induction false} StatusesAfterProbing(health: map<string, ServiceStatus>,
      registry: map<string, string>, order: seq<string>, probes: map<string, Probe>)
    requires Probeable(registry, order, probes)
    decreases |order|
    ensures var h := StatusesAfter(health, registry, order, probes);
      && (forall k :: k in h <==> k in health || k in order)
      && (forall k :: k in order ==> h[k] == ProbeStatus(k, registry[k], probes[k]))
      && (forall k :: k in health && k !in order ==> h[k] == health[k])
  {
    if order != [] {
      var k := order[0];
      var health' := health[k := ProbeStatus(k, registry[k], probes[k])];
      StatusesAfterProbing(health', registry, order[1..], probes);
      assert forall j :: j in order <==> j == k || j in order[1..];
    }
  }

  /** Probing the whole registry leaves exactly one current record per registered service,
      made by that service's own probe against `url + "/"`. */
  lemma ProbeAllCoversRegistry(health: map<string, ServiceStatus>, registry: map<string, string>,
                               order: seq<string>, probes: map<string, Probe>)
    requires forall k :: k in registry <==> k in order
    requires forall k :: k in registry ==> k in probes
    ensures var h := StatusesAfter(health, registry, order, probes);
      forall k :: k in registry ==>
        k in h && h[k].serviceName == k && h[k].endpoint == registry[k] + "/"
        && h[k] == ProbeStatus(k, registry[k], probes[k])
  {
    StatusesAfterProbing(health, registry, order, probes);
  }

  /** The log grows by one 503 entry per failing service, in probing order, and by
      nothing for a service that answered. */
  lemma {:induction false} FailuresLoggedInOrder(registry: map<string, string>, order: seq<string>,
                                                 probes: map<string, Probe>)
    requires Probeable(registry, order, probes)
    ensures var log, down := FailuresLogged(registry, order, probes), Failing(order, probes);
      && |log| == |down|
      && forall i :: 0 <= i < |log| ==>
           log[i] == ProbeLog(down[i], registry[down[i]], probes[down[i]])[0]
  {
    if order != [] {
      var k := order[0];
      FailuresLoggedInOrder(registry, order[1..], probes);
      var log, down := FailuresLogged(registry, order, probes), Failing(order, probes);
      var log', down' := FailuresLogged(registry, order[1..], probes), Failing(order[1..], probes);
      var first := ProbeLog(k, registry[k], probes[k]);
      assert log == first + log';
      if probes[k].outcome.Raised? {
        assert down == [k] + down';
        forall i | 0 <= i < |log|
          ensures log[i] == ProbeLog(down[i], registry[down[i]], probes[down[i]])[0]
        {
          if i > 0 { assert log[i] == log'[i - 1] && down[i] == down'[i - 1]; }
        }
      } else {
        assert first == [] && down == down';
      }
    }
  }

  /** No entry is logged exactly when every probed service answered. */
  lemma NoFailuresLoggedIffAllAnswered(registry: map<string, string>, order: seq<string>,
                                       probes: map<string, Probe>)
    requires Probeable(registry, order, probes)
    ensures FailuresLogged(registry, order, probes) == [] <==>
            forall k :: k in order ==> probes[k].outcome.Answered?
  {
    FailuresLoggedInOrder(registry, order, probes);
    var down := Failing(order, probes);
    if down != [] {
      assert down[0] in down;
    }
  }
}
