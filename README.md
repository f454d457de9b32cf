# Bus management services — a verified model

This project models the services of a small bus-management system:

- **the error-handling service.** It keeps:
  - a registry of backend services (name → base URL);
  - a health-status store filled by liveness probes;
  - an append-only error log.

  It translates service names into user-facing messages and answers queries over the log. It also acts as a monitoring proxy that forwards calls to the backends and logs their failures.
- **the domain services**, each an in-memory table with its validation rules:
  - buses and their seat counts;
  - seat bookings that must not collide;
  - travel agents with unique usernames and emails;
  - users with hashed passwords;
  - bookings that can be cancelled.

Every in-memory table of a service is a field of a Dafny class, and every handler that changes one is a method with a `modifies` clause. The buses, users and bus-booking tables are read back in iteration order. Each is a `map` plus the sequence of its keys in insertion order (`Common.OrderedDict`), because that is the order `dict.values()` yields. The service registry is a plain `map`: the one place that iterates it, the health check over all services, takes the order in which the services are probed as a parameter. The domain services and the health and error handlers return their errors (`HTTPException`, `JSONResponse` with an error status) as `Err(status, detail)` values of `Common.Result`. The proxy returns its own envelope, `Proxy.ProxyResponse`: `Rejected` for a caller error (unknown target, unsupported method) and `Failed` for a failed call.

The outside world is passed in as parameters:
- the outcome of each network call (`Health.Probe`, `Proxy.Upstream`);
- clock readings (opaque timestamp strings, integer milliseconds);
- freshly drawn ids;
- the password hash function.

The proxy is specified by the pure function `Proxy.Forward`, which is built in layers:
- `Forward` applies the caller checks;
- `Settle` handles how the outbound call ended;
- `Answer` handles a backend response.

The handler method `ErrorService.ErrorHandlingService.ProxyRequestHandler` is proved to produce exactly `Forward`'s response and log entries.

Modules, one per file:
- `Common`
- `Translator`
- `ErrorLog`
- `Health`
- `Proxy`
- `ErrorService` (the service class)
- `BusService`
- `BookingService`
- `AgentService`
- `UserService`
- `BusBooking`

## Model

| member | source | states |
|---|---|---|
| Common.Values | bus-service/main.py:56 | `list(d.values())`: one value per key, the value stored under the key at the same position |
| Common.ValuesAreStored | bus-service/main.py:56 | the values listed are exactly the values stored in the dictionary |
| Common.ValuesInsert | bus-service/main.py:69 | inserting a fresh key keeps the dictionary well formed and appends its value at the end of the iteration order |
| Translator.UserMessageLookup | error_handling/main.py:39-47 | a listed service gets its own message; any other name gets the `"default"` message; the result is always a message of the table |
| Translator.UserMessageIsDefaultIffUnlisted | error_handling/main.py:39-47 | the message is the default one exactly when the name is not one of the six listed services |
| Translator.UserMessageInjectiveOnListed | error_handling/main.py:40-45 | two listed services never share a message |
| ErrorLog.SliceStart | error_handling/main.py:172 | Python's start index for `s[a:]`: a negative `a` counts from the end and is clamped at 0; a positive one is clamped at the length |
| ErrorLog.RecentErrors | error_handling/main.py:170-172 | the result is a suffix of the log. A log no longer than the limit is returned whole. `0 < limit < len` gives the last `limit` entries in log order. `limit = 0` gives the whole log (`h[-0:]`). A negative limit drops the first `-limit` entries |
| ErrorLog.ErrorsFor | error_handling/main.py:183 | only entries of the log that belong to the service, at most as many as the log holds |
| ErrorLog.ErrorsForIsSubsequence | error_handling/main.py:183 | the service's entries are an order-preserving subsequence of the log |
| ErrorLog.ErrorsForCounts | error_handling/main.py:183 | every entry of the service occurs as often as in the log; every other entry does not occur |
| ErrorLog.ErrorsForAppend | error_handling/main.py:183-198 | appending an entry extends exactly the list of the service it belongs to |
| Health.ProbeStatus | error_handling/main.py:117-149 | `up` iff the backend answered below 300; `degraded` iff it answered with 300 or more; `down` iff the call raised. The user message is absent iff `up`, otherwise it is the translated one. The endpoint is `url + "/"`. The response time is 0 when down |
| Health.ProbeLog | error_handling/main.py:140-158 | a probe that raised logs exactly one unresolved 503 entry with the exception text and the translated message; an answered probe logs nothing |
| Health.Failing | error_handling/main.py:140-158 | a service is listed iff it was probed and its probe raised |
| Health.ProbeStep | error_handling/main.py:160-166 | probing a suffix of the order probes its first service, then the rest |
| Health.StatusesAfterProbing | error_handling/main.py:160-166 | after probing, each probed service holds the record of its own probe, every other record is kept, and no other key appears |
| Health.ProbeAllCoversRegistry | error_handling/main.py:160-166 | probing the whole registry leaves one current record per registered service, taken against `url + "/"` |
| Health.FailingIsSubsequence | error_handling/main.py:160-166 | the failing services are an order-preserving subsequence of the probing order |
| Health.FailuresLoggedInOrder | error_handling/main.py:152-166 | the log grows by exactly one 503 entry per failing service, in probing order |
| Health.NoFailuresLoggedIffAllAnswered | error_handling/main.py:140-166 | nothing is logged iff every probed service answered, whatever its status code |
| Proxy.Lower | error_handling/main.py:230 | `str.lower()` on ASCII: same length, each letter lowered |
| Proxy.LowerIdempotent | error_handling/main.py:230-248 | lowering twice is lowering once |
| Proxy.ParseMethodAccepts | error_handling/main.py:230-258 | exactly the lower-case forms `get`, `post`, `put`, `delete` are accepted, each selecting its own call; anything else is unsupported |
| Proxy.ParseMethodIgnoresCase | error_handling/main.py:230-248 | the dispatch treats a method and its lower-case form alike |
| Proxy.StripLeadingSlashes | error_handling/main.py:218 | `lstrip("/")`: the result is a suffix; everything removed is `/`; the result does not start with `/` |
| Proxy.StripIgnoresLeadingSlashes | error_handling/main.py:218 | any number of extra leading slashes strips to the same endpoint |
| Proxy.TargetUrlHasOneSeparator | error_handling/main.py:217-219 | however many slashes the endpoint starts with, the URL is the same, with one `/` after the base |
| Proxy.BuildCall | error_handling/main.py:230-253 | `get`/`delete` send the payload as query parameters, `post`/`put` as a JSON body; URL and headers are passed unchanged |
| Proxy.SettleLogsTarget | error_handling/main.py:261-314 | every entry logged after the call names the target, the stripped endpoint, the translated message and the request details |
| Proxy.SettleFailureCitesEntry | error_handling/main.py:279-324 | a failure envelope's `error_id` is the index of the last entry logged, and that entry has its status and message |
| Proxy.ForwardCallerErrors | error_handling/main.py:211-258 | an unknown target gives 404 and an unsupported method gives 400; neither makes a call or logs. Every other request makes one call to `base + "/" + stripped endpoint`, with the payload placed by method |
| Proxy.ForwardLogsRequest | error_handling/main.py:221-314 | every logged entry carries the target, the stripped endpoint, the translated message, the timestamp and the request details (method, full URL, data, headers); none is resolved |
| Proxy.ForwardFailureCitesEntry | error_handling/main.py:279-324 | a failure envelope carries the translated message, and its `error_id` is the new last index of the log, whose entry has the envelope's code and message |
| Proxy.ForwardExceptions | error_handling/main.py:279-324 | a transport error gives 503 "Service Unavailable" and any other exception 500 "Internal Server Error", each with its message. Exactly one entry is logged, and `error_id` is the old log length |
| Proxy.ForwardAnswers | error_handling/main.py:260-278 | an answer is logged iff its code is at least 400, with that code and the body text. It is passed through with its code, headers and body, decoded exactly when the content type is exactly `application/json` |
| Proxy.ForwardUndecodableBody | error_handling/main.py:260-324 | a declared JSON body that does not decode, at any code, ends as a 500 "Internal Server Error" with the decoder's message; the 500 entry is logged after the answer's own entry (one entry below 400, two from 400), and `error_id` cites it |
| Proxy.UndecodableErrorBodyLogsTwice | error_handling/main.py:261-324 | an error answer declared JSON whose body does not decode logs twice: the backend's code, then the proxy's 500, which the envelope cites |
| ErrorService.SeedServicesAreListed | error_handling/main.py:23-47 | the seeded services are exactly the listed ones, so each has a message of its own |
| ErrorService.Resolve | error_handling/main.py:211-217 | a name resolves to its registered URL iff it is registered, otherwise 404 "Service '…' not found in registry" |
| ErrorService.RegisterResolveRoundTrip | error_handling/main.py:332-347 | after registering, the name resolves to exactly that URL; after deregistering, it gives 404; other names are unaffected |
| ErrorService.ErrorHandlingService.constructor | error_handling/main.py:23-36 | the seeded registry, an empty health store and an empty log |
| ErrorService.ErrorHandlingService.GetServiceRegistry | error_handling/main.py:327-330 | the registry as it is |
| ErrorService.ErrorHandlingService.RegisterService | error_handling/main.py:332-336 | upsert of the URL, nothing else changed, with the confirmation message |
| ErrorService.ErrorHandlingService.DeregisterService | error_handling/main.py:338-347 | removes a registered name; otherwise 404 with the registry unchanged; health records and log entries are kept |
| ErrorService.ErrorHandlingService.LogError | error_handling/main.py:186-205 | appends exactly one unresolved entry with the given fields and returns it |
| ErrorService.ErrorHandlingService.CheckServiceHealth | error_handling/main.py:117-158 | only the record of the probed service is overwritten, with `ProbeStatus`; the log grows by `ProbeLog`; the registry is untouched |
| ErrorService.ErrorHandlingService.CheckAllServicesHealth | error_handling/main.py:160-166 | probing every registered service leaves the store and the log as the sequential fold over the registry snapshot gives them |
| ErrorService.ErrorHandlingService.GetAllServicesHealth | error_handling/main.py:99-103 | probes everything, then returns the whole health store |
| ErrorService.ErrorHandlingService.GetServiceHealth | error_handling/main.py:105-115 | 404 with nothing changed for an unknown name; otherwise probes the service and returns its new record |
| ErrorService.ErrorHandlingService.GetErrorHistory | error_handling/main.py:169-172 | the log under the limit rule of `RecentErrors`, with a limit of 50 when none is given; the log is unchanged |
| ErrorService.ErrorHandlingService.GetServiceErrors | error_handling/main.py:174-184 | 404 iff the name is not registered. Otherwise the service's entries form an order-preserving subsequence of the log, with each entry as often as in the log and none from another service |
| ErrorService.ErrorHandlingService.ProxyRequestHandler | error_handling/main.py:208-324 | the response is `Forward`'s response, and the log grows by exactly `Forward`'s entries; registry and health are untouched |
| ErrorService.ErrorHandlingService.CompleteCall | error_handling/main.py:228-324 | once the call is made, the response and the entries logged are those of `Settle` |
| ErrorService.RegisterProbeDeregister | error_handling/main.py:105-115 | after `register_service`, `get_service_health` probes `url + "/"` against the URL just registered; after `deregister_service`, it answers 404 |
| ErrorService.UnreachableBusService | error_handling/main.py:105-184 | an unreachable `bus-service` reads `down` with response time 0 and its own message, and its error list holds one 503 entry |
| ErrorService.ProxiedNotFound | error_handling/main.py:208-278 | a proxied 404 JSON answer is passed through with its code and decoded body, and is logged once |
| BusService.SampleBusesFull | bus-service/main.py:22-43 | both sample buses start with every seat available |
| BusService.Reseat | bus-service/main.py:72-80 | 404 "Bus not found" for an unknown id. 400 "Seats cannot exceed total seats" when the count exceeds the total; a count equal to the total, or below 0, is accepted. Otherwise only that bus's available seats change |
| BusService.ReseatKeepsInvariant | bus-service/main.py:76-79 | a successful update keeps every bus under its own id and leaves the bus within its total |
| BusService.ReseatIdempotent | bus-service/main.py:79 | setting the same count twice equals setting it once |
| BusService.SeedStep | bus-service/main.py:45-48 | each seed id is fresh, and storing its bus keeps the table well formed |
| BusService.BusStore.constructor | bus-service/main.py:22-48 | the two samples stored under their ids in seed order, each with `bus_id` equal to its key and all seats available |
| BusService.BusStore.GetBuses | bus-service/main.py:54-56 | exactly the stored buses, in insertion order |
| BusService.BusStore.GetBus | bus-service/main.py:58-62 | the stored bus under that id, whose `bus_id` is the id, or 404 "Bus not found" |
| BusService.BusStore.CreateBus | bus-service/main.py:64-70 | the bus is stored under the fresh id with `bus_id` set to it, appended to the order; the other buses are untouched |
| BusService.BusStore.UpdateSeats | bus-service/main.py:72-80 | the table becomes `Reseat`'s result, or is unchanged on error; the answer is the updated bus |
| BookingService.SeatTaken | booking-service/main.py:40-42 | true iff some stored booking has the same bus, seat number and journey date |
| BookingService.AppendFreeSeat | booking-service/main.py:40-45 | appending a booking whose seat is free keeps every seat booked at most once |
| BookingService.AgentIgnored | booking-service/main.py:27-42 | the conflict check does not look at the agent |
| BookingService.RebookingRefused | booking-service/main.py:40-45 | once stored, the same seat on the same bus and day is taken for every later request |
| BookingService.BookingStore.constructor | booking-service/main.py:20 | no bookings |
| BookingService.BookingStore.GetBookings | booking-service/main.py:33-35 | the bookings in the order they were made |
| BookingService.BookingStore.CreateBooking | booking-service/main.py:38-46 | 400 "Seat already booked" iff the seat is taken, with the list unchanged; otherwise the booking is appended at the end. No seat is ever booked twice |
| AgentService.UsernameTaken | agent-service/main.py:43 | true iff some agent has the username |
| AgentService.EmailTaken | agent-service/main.py:45 | true iff some agent has the email |
| AgentService.Register | agent-service/main.py:40-49 | a taken username gives "Username already exists" even when the email is taken too; otherwise a taken email gives "Email already exists"; otherwise the agent is appended |
| AgentService.RegisterKeepsLoginsUnique | agent-service/main.py:43-48 | registration keeps usernames pairwise distinct and emails pairwise distinct |
| AgentService.FindAgent | agent-service/main.py:53 | the first agent with both the username and the password, or none iff no agent has both |
| AgentService.FindAgentUnique | agent-service/main.py:43-53 | with unique usernames, the matching agent is the one found |
| AgentService.AgentStore.constructor | agent-service/main.py:18 | no agents |
| AgentService.AgentStore.GetAgents | agent-service/main.py:36-38 | the agents in registration order |
| AgentService.AgentStore.RegisterAgent | agent-service/main.py:40-49 | the list becomes `Register`'s result, or is unchanged on error; usernames and emails stay unique |
| AgentService.AgentStore.LoginAgent | agent-service/main.py:51-56 | "Login successful" iff some agent has both the username and the password, otherwise 401 "Invalid credentials"; the list is only read |
| UserService.PublicHidesPassword | user-service/main.py:57-59 | the public view of a record does not depend on its password |
| UserService.UserStore.constructor | user-service/main.py:10-24 | an empty table and the given hash function |
| UserService.UserStore.RegisterUser | user-service/main.py:30-40 | 400 "Username already exists" iff the username is a KEY of the table (a user id), with nothing changed. Otherwise the record is stored under the fresh id, with `user_id` equal to the id and the password replaced by its hash, and the id is returned |
| UserService.UserStore.LoginUser | user-service/main.py:42-51 | the first user in registration order with the username and the hash of the password, returning its id and username; 401 "Invalid credentials" iff there is none |
| UserService.UserStore.GetUser | user-service/main.py:53-59 | 404 "User not found" for an unknown id, otherwise the stored record without its password; the table is only read |
| UserService.DuplicateUsernameAccepted | user-service/main.py:32-51 | two registrations with the same username both succeed; a login then answers with the first |
| UserService.UsernameEqualToIdRefused | user-service/main.py:32-33 | a username equal to an existing user id is refused |
| BusBooking.NewBooking | bus-booking/main.py:12-34 | the record carries the fresh id, the creation time and the posted user, bus, seat number and journey date; its status is the posted one, or `"confirmed"` when none is posted |
| BusBooking.Cancel | bus-booking/main.py:42-48 | 404 "Booking not found" for an unknown id; otherwise only that booking's status becomes `"cancelled"` |
| BusBooking.CancelIdempotent | bus-booking/main.py:46-47 | cancelling twice equals cancelling once |
| BusBooking.CancelCommutes | bus-booking/main.py:42-48 | cancelling two bookings gives the same table in either order |
| BusBooking.BookingTable.constructor | bus-booking/main.py:10 | no bookings |
| BusBooking.BookingTable.GetBookings | bus-booking/main.py:23-25 | exactly the stored bookings, in creation order |
| BusBooking.BookingTable.CreateBooking | bus-booking/main.py:27-34 | the record is stored under the fresh id, with `booking_id` equal to it, appended to the order; the other bookings are untouched |
| BusBooking.BookingTable.GetBooking | bus-booking/main.py:36-40 | the booking under that id, or 404 "Booking not found" |
| BusBooking.BookingTable.CancelBooking | bus-booking/main.py:42-48 | the table becomes `Cancel`'s result, or is unchanged on error; the answer is the updated booking |

## Left out

- The HTTP layer is not modelled: FastAPI routing, pydantic validation, CORS, and the 200 status under which the proxy's pass-through envelope is sent.
- All network I/O is not modelled: the `httpx` client, its 3-second and 10-second timeouts, and the JSON decoding of a backend body. The outcome of each call is an input (`Health.Probe`, `Proxy.Upstream`). So is the decoding of a body (`Proxy.JsonParse`); its document is kept as text.
- Concurrency is not modelled: the `asyncio.gather` fan-out of the health check, the startup task and the periodic 30-second health loop (error_handling/main.py:350-360). `CheckAllServicesHealth` probes sequentially in a given order. Each probe does its two writes without yielding, so a concurrent run equals a sequential one in completion order.
- Proxy.Forward: one clock reading per forward serves as the timestamp of every entry it logs, while the service reads the clock in each `log_error` call (error_handling/main.py:189), so the two entries of an undecodable error body carry two readings there.
- CheckServiceHealth: one clock reading per probe serves as both `last_checked` and the log entry's timestamp, while the service reads the clock twice.
- Clocks and floats are not modelled: response times are whole milliseconds, timestamps are opaque strings, and the bus `price` field is omitted.
- The request-timing middleware and its path-segment message lookup (error_handling/main.py:76-96) are not modelled. They are framework exception plumbing.
- Logging output is not modelled: `logger` calls, and the support contact read from the environment.
- `uuid.uuid4()` is not modelled: every creating handler takes the new id as a parameter and requires it not to be a key yet.
- `hashlib.sha256` is not modelled: `hash_password` is an arbitrary function given to `UserService.UserStore`. That it is a function is all the model uses: the same password always yields the same stored hash.
- Proxy.Lower: lowers ASCII letters only. Other characters that Python lowers cannot produce one of the four method names, so the dispatch is unaffected.
- The API gateway (api-gateway/main.py) is not part of this model. Every route of it forwards a call with no logic of its own.
- Dates are not validated: `BookingService.Date` is compared field by field, without calendar validity checks.
