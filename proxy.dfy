/** The proxy gateway of the error-handling service: it resolves the target service,
    builds the target URL, dispatches on the method, and turns the backend's answer or
    failure into a response envelope and error-log entries. */
module Proxy {
  import opened Common
  import opened Translator
  import opened ErrorLog

  /** The body of `POST /proxy`. */
  datatype ProxyRequest = ProxyRequest(
    targetService: string,
    endpoint: string,
    httpMethod: string,
    data: Option<map<string, string>>,
    headers: Option<map<string, string>>)

  datatype Method = Get | Post | Put | Delete

  /** The call the proxy makes: `get` and `delete` send the payload as query parameters,
      `post` and `put` as a JSON body. */
  datatype OutboundCall = OutboundCall(
    verb: Method,
    url: string,
    params: Option<map<string, string>>,
    json: Option<map<string, string>>,
    headers: Option<map<string, string>>)

  /** How the backend's body decodes as JSON: the decoded document, or the decoder's error. */
  datatype JsonParse = Decoded(document: string) | Undecodable(error: string)

  /** What the outbound call did: a response (header names lower case, as the HTTP
      client presents them), an `httpx.RequestError`, or any other exception. */
  datatype Upstream =
    | Responded(statusCode: int, respHeaders: map<string, string>, text: string, json: JsonParse)
    | RequestError(message: string)
    | OtherError(message: string)

  datatype Body = JsonBody(document: string) | TextBody(text: string)

  /** What `proxy_request` returns: the pass-through envelope (sent with HTTP 200), a caller
      error without a log entry, or a failure envelope referring to a log entry. */
  datatype ProxyResponse =
    | Passthrough(statusCode: int, headers: map<string, string>, data: Body, service: string)
    | Rejected(status: int, detail: string)
    | Failed(status: int, detail: string, message: string, userMessage: string, errorId: int)

  /** The result of one forward: the response, the call made (if any), the entries logged. */
  datatype Forwarding = Forwarding(response: ProxyResponse, call: Option<OutboundCall>, logged: seq<Entry>)

  function LowerChar(c: char): char {
    if 'A' <= c <= 'Z' then (c as int + 32) as char else c
  }

  /** `str.lower()` on the ASCII letters. */
  function Lower(s: string): (r: string)
    ensures |r| == |s|
    ensures forall i :: 0 <= i < |s| ==> r[i] == LowerChar(s[i])
  {
    if s == [] then [] else [LowerChar(s[0])] + Lower(s[1..])
  }

  lemma {:induction false} LowerIdempotent(s: string)
    ensures Lower(Lower(s)) == Lower(s)
  {
    var l := Lower(s);
    assert forall i :: 0 <= i < |l| ==> Lower(l)[i] == l[i];
  }

  /** The method dispatch: the lower-cased method must be one of four names. */
  function ParseMethod(m: string): Option<Method>
  {
    var l := Lower(m);
    if l == "get" then Some(Get)
    else if l == "post" then Some(Post)
    else if l == "put" then Some(Put)
    else if l == "delete" then Some(Delete)
    else None
  }

  /** Exactly the four method names are accepted, each in any letter case. */
  lemma ParseMethodAccepts(m: string)
    ensures ParseMethod(m) == Some(Get) <==> Lower(m) == "get"
    ensures ParseMethod(m) == Some(Post) <==> Lower(m) == "post"
    ensures ParseMethod(m) == Some(Put) <==> Lower(m) == "put"
    ensures ParseMethod(m) == Some(Delete) <==> Lower(m) == "delete"
    ensures ParseMethod(m) == None <==> Lower(m) !in {"get", "post", "put", "delete"}
  {
  }

  /** The dispatch ignores letter case: a method and its lower-case form are treated alike. */
  lemma ParseMethodIgnoresCase(m: string)
    ensures ParseMethod(m) == ParseMethod(Lower(m))
  {
    LowerIdempotent(m);
  }

  /** `endpoint.lstrip("/")`: every leading slash removed, nothing else touched. */
  function StripLeadingSlashes(s: string): (r: string)
    ensures |r| <= |s| && r == s[|s| - |r|..]
    ensures forall i :: 0 <= i < |s| - |r| ==> s[i] == '/'
    ensures r == [] || r[0] != '/'
  {
    if s != [] && s[0] == '/' then StripLeadingSlashes(s[1..]) else s
  }

  /** `f"{service_url}/{endpoint}"` with the stripped endpoint. */
  function TargetUrl(base: string, endpoint: string): string {
    base + "/" + StripLeadingSlashes(endpoint)
  }

  /** Leading slashes make no difference to the stripped endpoint. */
  lemma {:induction false} StripIgnoresLeadingSlashes(s: string, k: nat)
    requires k <= |s| && forall i :: 0 <= i < k ==> s[i] == '/'
    ensures StripLeadingSlashes(s) == StripLeadingSlashes(s[k..])
  {
    if k > 0 {
      assert s[0] == '/';
      assert StripLeadingSlashes(s) == StripLeadingSlashes(s[1..]);
      StripIgnoresLeadingSlashes(s[1..], k - 1);
      assert s[1..][k - 1..] == s[k..];
    }
  }

  /** However many slashes the endpoint starts with, exactly one separates it from the base. */
  lemma TargetUrlHasOneSeparator(base: string, endpoint: string, k: nat)
    requires k <= |endpoint| && forall i :: 0 <= i < k ==> endpoint[i] == '/'
    ensures TargetUrl(base, endpoint) == TargetUrl(base, endpoint[k..])
  {
    StripIgnoresLeadingSlashes(endpoint, k);
  }

  function BuildCall(verb: Method, url: string, req: ProxyRequest): (c: OutboundCall)
    ensures c.verb == verb && c.url == url && c.headers == req.headers
    ensures verb in {Get, Delete} ==> c.params == req.data && c.json == None
    ensures verb in {Post, Put} ==> c.json == req.data && c.params == None
  {
    match verb
    case Get => OutboundCall(Get, url, req.data, None, req.headers)
    case Delete => OutboundCall(Delete, url, req.data, None, req.headers)
    case Post => OutboundCall(Post, url, None, req.data, req.headers)
    case Put => OutboundCall(Put, url, None, req.data, req.headers)
  }

  function NotInRegistry(name: string): string {
    "Service '" + name + "' not found in registry"
  }

  function ContentType(h: map<string, string>): Option<string> {
    if "content-type" in h then Some(h["content-type"]) else None
  }

  /** What a forward that passed the caller checks has resolved: the service name, the
      stripped endpoint, the request details it logs and the translated message. */
  datatype Target = Target(name: string, endpoint: string, details: Option<RequestDetails>, userMessage: string)

  function TargetOf(base: string, req: ProxyRequest): Target {
    var url := TargetUrl(base, req.endpoint);
    Target(req.targetService, StripLeadingSlashes(req.endpoint),
           Some(RequestDetails(req.httpMethod, url, req.data, req.headers)), UserMessage(req.targetService))
  }

  /** The `log_error` call the proxy makes for `t`. */
  function LogFor(t: Target, now: string, code: int, message: string): Entry {
    NewEntry(now, t.name, t.endpoint, code, message, t.userMessage, t.details)
  }

  /** The response and the entries logged once the outbound call was made. */
  datatype Outcome = Outcome(response: ProxyResponse, logged: seq<Entry>)

  /** The backend answered: log an error answer, then pass the answer through, its body
      decoded when it is declared JSON; a declared JSON body that does not decode raises
      inside the handler and ends as the proxy's own 500. */
  function Answer(t: Target, code: int, headers: map<string, string>, text: string, json: JsonParse,
                  now: string, logLength: nat): Outcome
  {
    var logged := if code >= 400 then [LogFor(t, now, code, text)] else [];
    if ContentType(headers) != Some("application/json") then
      Outcome(Passthrough(code, headers, TextBody(text), t.name), logged)
    else
      match json
      case Decoded(document) =>
        Outcome(Passthrough(code, headers, JsonBody(document), t.name), logged)
      case Undecodable(error) =>
        var message := "Unexpected error: " + error;
        Outcome(Failed(500, "Internal Server Error", message, t.userMessage, logLength + |logged|),
                logged + [LogFor(t, now, 500, message)])
  }

  /** The three ways the outbound call can end. */
  function Settle(t: Target, upstream: Upstream, now: string, logLength: nat): Outcome {
    match upstream
    case RequestError(msg) =>
      var message := "Request to " + t.name + " failed: " + msg;
      Outcome(Failed(503, "Service Unavailable", message, t.userMessage, logLength),
              [LogFor(t, now, 503, message)])
    case OtherError(msg) =>
      var message := "Unexpected error: " + msg;
      Outcome(Failed(500, "Internal Server Error", message, t.userMessage, logLength),
              [LogFor(t, now, 500, message)])
    case Responded(code, headers, text, json) =>
      Answer(t, code, headers, text, json, now, logLength)
  }

  /** `proxy_request` when the error log held `logLength` entries before the call. */
  function Forward(registry: map<string, string>, req: ProxyRequest, upstream: Upstream,
                   now: string, logLength: nat): Forwarding
  {
    var name := req.targetService;
    if name !in registry then
      Forwarding(Rejected(404, NotInRegistry(name)), None, [])
    else
      match ParseMethod(req.httpMethod)
      case None =>
        Forwarding(Rejected(400, "Unsupported method: " + req.httpMethod), None, [])
      case Some(verb) =>
        var o := Settle(TargetOf(registry[name], req), upstream, now, logLength);
        Forwarding(o.response, Some(BuildCall(verb, TargetUrl(registry[name], req.endpoint), req)), o.logged)
  }

  /** Every entry logged after the call was made is a `LogFor(t, ...)` entry. */
  lemma SettleLogsTarget(t: Target, upstream: Upstream, now: string, logLength: nat)
    ensures forall e :: e in Settle(t, upstream, now, logLength).logged ==>
      && e.serviceName == t.name && e.endpoint == t.endpoint && e.userMessage == t.userMessage
      && e.timestamp == now && !e.isResolved && e.requestDetails == t.details
  {
    if upstream.Responded? {
      var code := upstream.statusCode;
      var first := if code >= 400 then [LogFor(t, now, code, upstream.text)] else [];
      var o := Settle(t, upstream, now, logLength);
      assert o.logged == first || o.logged == first + [LogFor(t, now, 500, "Unexpected error: " + upstream.json.error)];
    }
  }

  /** A failure envelope cites the last entry logged. */
  lemma SettleFailureCitesEntry(t: Target, upstream: Upstream, now: string, logLength: nat)
    ensures var o := Settle(t, upstream, now, logLength);
      o.response.Failed? ==>
        && o.logged != []
        && o.response.errorId == logLength + |o.logged| - 1
        && o.logged[|o.logged| - 1].statusCode == o.response.status
        && o.logged[|o.logged| - 1].errorMessage == o.response.message
        && o.response.userMessage == t.userMessage
  {
  }

  /** Caller errors fail fast: an unknown target gives 404 and an unsupported method 400,
      with no call made and nothing logged; every other request makes exactly one call,
      to the resolved base URL with the stripped endpoint, sending the payload as the
      method requires. */
  lemma ForwardCallerErrors(registry: map<string, string>, req: ProxyRequest, upstream: Upstream,
                            now: string, logLength: nat)
    ensures var f := Forward(registry, req, upstream, now, logLength);
      && (req.targetService !in registry ==>
            f == Forwarding(Rejected(404, NotInRegistry(req.targetService)), None, []))
      && (req.targetService in registry && ParseMethod(req.httpMethod) == None ==>
            f == Forwarding(Rejected(400, "Unsupported method: " + req.httpMethod), None, []))
      && (f.response.Rejected? <==> f.call == None)
      && (f.response.Rejected? ==> f.logged == [])
      && (f.call.Some? ==>
            && req.targetService in registry
            && ParseMethod(req.httpMethod).Some?
            && f.call.value == BuildCall(ParseMethod(req.httpMethod).value,
                                         TargetUrl(registry[req.targetService], req.endpoint), req))
  {
  }

  /** Every entry the proxy logs names the target, the stripped endpoint, the translated
      message and the request as sent. */
  lemma ForwardLogsRequest(registry: map<string, string>, req: ProxyRequest, upstream: Upstream,
                           now: string, logLength: nat)
    ensures var f := Forward(registry, req, upstream, now, logLength);
      forall e :: e in f.logged ==>
        && e.serviceName == req.targetService
        && e.endpoint == StripLeadingSlashes(req.endpoint)
        && e.userMessage == UserMessage(req.targetService)
        && e.timestamp == now && !e.isResolved
        && e.requestDetails == Some(RequestDetails(req.httpMethod,
             TargetUrl(registry[req.targetService], req.endpoint), req.data, req.headers))
  {
    if req.targetService in registry && ParseMethod(req.httpMethod).Some? {
      SettleLogsTarget(TargetOf(registry[req.targetService], req), upstream, now, logLength);
    }
  }

  /** A failure envelope carries the translated message and the index the last entry
      logged takes in the log; that entry has the envelope's status code and message. */
  lemma ForwardFailureCitesEntry(registry: map<string, string>, req: ProxyRequest, upstream: Upstream,
                                 now: string, logLength: nat)
    ensures var f := Forward(registry, req, upstream, now, logLength);
      f.response.Failed? ==>
        && f.logged != []
        && f.response.errorId == logLength + |f.logged| - 1
        && f.logged[|f.logged| - 1].statusCode == f.response.status
        && f.logged[|f.logged| - 1].errorMessage == f.response.message
        && f.response.userMessage == UserMessage(req.targetService)
  {
    if req.targetService in registry && ParseMethod(req.httpMethod).Some? {
      SettleFailureCitesEntry(TargetOf(registry[req.targetService], req), upstream, now, logLength);
    }
  }

  /** A transport error gives 503 and any other exception 500, each with exactly one entry,
      which is the new last entry of the log. */
  lemma ForwardExceptions(registry: map<string, string>, req: ProxyRequest, upstream: Upstream,
                          now: string, logLength: nat)
    requires req.targetService in registry && ParseMethod(req.httpMethod).Some?
    requires !upstream.Responded?
    ensures var f := Forward(registry, req, upstream, now, logLength);
      && f.response.Failed? && |f.logged| == 1 && f.response.errorId == logLength
      && f.response.status == (if upstream.RequestError? then 503 else 500)
      && f.response.detail == (if upstream.RequestError? then "Service Unavailable" else "Internal Server Error")
      && f.response.message == (if upstream.RequestError?
                                then "Request to " + req.targetService + " failed: " + upstream.message
                                else "Unexpected error: " + upstream.message)
  {
  }

  /** An answer is logged exactly when its code is 400 or more, with that code and the body
      as the internal error text, and is passed through with its code, headers and body,
      the body decoded exactly when the content type is exactly `application/json`. */
  lemma ForwardAnswers(registry: map<string, string>, req: ProxyRequest, upstream: Upstream,
                       now: string, logLength: nat)
    requires req.targetService in registry && ParseMethod(req.httpMethod).Some?
    requires upstream.Responded?
    ensures var f := Forward(registry, req, upstream, now, logLength);
      && (upstream.statusCode >= 400 <==> f.logged != [] && f.logged[0].statusCode == upstream.statusCode)
      && (upstream.statusCode >= 400 ==> f.logged[0].errorMessage == upstream.text)
      && (ContentType(upstream.respHeaders) != Some("application/json") ==>
            f.response == Passthrough(upstream.statusCode, upstream.respHeaders,
                                      TextBody(upstream.text), req.targetService))
      && (ContentType(upstream.respHeaders) == Some("application/json") && upstream.json.Decoded? ==>
            f.response == Passthrough(upstream.statusCode, upstream.respHeaders,
                                      JsonBody(upstream.json.document), req.targetService))
      && (f.response.Passthrough? ==> |f.logged| == if upstream.statusCode >= 400 then 1 else 0)
  {
  }

  /** A declared JSON body that does not decode raises inside the handler whatever the
      code: the answer ends as the proxy's own 500, logged after the answer's own entry
      (when there is one) and cited by the envelope. */
  lemma ForwardUndecodableBody(registry: map<string, string>, req: ProxyRequest, upstream: Upstream,
                               now: string, logLength: nat)
    requires req.targetService in registry && ParseMethod(req.httpMethod).Some?
    requires upstream.Responded? && upstream.json.Undecodable?
    requires ContentType(upstream.respHeaders) == Some("application/json")
    ensures var f := Forward(registry, req, upstream, now, logLength);
      && f.response.Failed? && f.response.status == 500
      && f.response.detail == "Internal Server Error"
      && f.response.message == "Unexpected error: " + upstream.json.error
      && |f.logged| == (if upstream.statusCode >= 400 then 2 else 1)
      && f.logged[|f.logged| - 1].statusCode == 500
      && f.response.errorId == logLength + |f.logged| - 1
  {
  }

  /** An error answer whose declared JSON body does not decode is logged twice: once with
      the backend's code, then once more as the proxy's own 500, which the envelope cites. */
  lemma UndecodableErrorBodyLogsTwice(registry: map<string, string>, req: ProxyRequest,
                                      upstream: Upstream, now: string, logLength: nat)
    requires req.targetService in registry && ParseMethod(req.httpMethod).Some?
    requires upstream.Responded? && upstream.statusCode >= 400 && upstream.json.Undecodable?
    requires ContentType(upstream.respHeaders) == Some("application/json")
    ensures var f := Forward(registry, req, upstream, now, logLength);
      && |f.logged| == 2
      && f.logged[0].statusCode == upstream.statusCode && f.logged[1].statusCode == 500
      && f.response.Failed? && f.response.errorId == logLength + 1
  {
  }
}
