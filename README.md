# Round-robin HTTP load balancer, modelled in Dafny

The system forwards inbound HTTP requests to a fixed pool of three backend
servers. Each server record holds an immutable endpoint and a health flag. A
background monitor probes every server's `/health` endpoint and sets its flag
from the result. Each request is served by one server, picked round-robin among
the currently healthy ones through a shared 64-bit counter. When no server is
healthy, or when relaying to the chosen server fails, the client gets
`503 Service Unavailable`, and a failed relay also marks that server unhealthy.
The path `/lb-status` is answered by the balancer itself with a report of the
registry.

The model has three modules:

- `RoundRobin` (`round_robin.dfy`): the selection rule on values. It covers
  the health flags in registry order, the 64-bit counter with its wrap-around,
  the filtered view of healthy servers (`HealthyIndices`) and one selection
  (`Choose`). It also defines the picks of consecutive selections (`Rotation`)
  and proves the fairness of the rotation.
- `HealthProbe` (`health_probe.dfy`): what one probe result means. It gives
  the new health flag (`Verdict`) and the log event of the loop body, both as
  written (`LoggedEvent`) and with the steady-state message corrected
  (`ProbeEvent`, see Findings), with a lemma saying where the two differ.
- `LoadBalancing` (`load_balancer.dfy`): the imperative core. `Server` is a
  class whose `healthy` field is updated in place. `LoadBalancer` is a class
  with a constant registry `servers: seq<Server>` and a mutable `current`
  counter. Its methods are `GetNextServer`, one `HealthCheck` cycle,
  `ServeHTTP` and `HandleStatus`, and each is proved against the functions of
  the other two modules. `Valid()` says the registry holds each server once,
  so updating one server's flag leaves every other flag alone.

Network I/O is replaced by inputs. A probe is a `ProbeResult` (a transport
error or a status code). The reverse proxy's outcome is a `ProxyOutcome` (the
backend's status code or a relay error). Each operation runs as one atomic,
sequential step.

## Model

| member | source | states |
|---|---|---|
| `RoundRobin.NextCounter` | loadbalancer/loadbalancer.go:79 | the atomic increment yields `c + 1`, except at 2^64 - 1, where the `uint64` wraps to 0 |
| `RoundRobin.CountHealthy` | loadbalancer/loadbalancer.go:75-77 | the number of healthy servers is at most the registry size, and it is 0 exactly when no server is healthy |
| `RoundRobin.HealthyIndices` | loadbalancer/loadbalancer.go:67-73 | the filtered view has one entry per healthy server; every entry is a healthy registry index; entries are strictly increasing, so registry order is kept |
| `RoundRobin.HealthyIndicesExtend` | loadbalancer/loadbalancer.go:69-73 | one more loop iteration appends the next server to the view exactly when it is healthy |
| `RoundRobin.HealthyIndicesComplete` | loadbalancer/loadbalancer.go:69-73 | every healthy server appears in the filtered view |
| `RoundRobin.HealthyIndicesRank` | loadbalancer/loadbalancer.go:67-80 | entry `m` of the view has exactly `m` healthy servers before it in the registry |
| `RoundRobin.Choose` | loadbalancer/loadbalancer.go:66-81 | selection fails if and only if no server is healthy; on success the index is a healthy server, and exactly `(old counter + 1) mod 2^64 mod h` healthy servers precede it (`h` = number of healthy servers) |
| `RoundRobin.Rotation` | loadbalancer/loadbalancer.go:66-81 | the picks of `n` consecutive selections while no flag changes: all `n` succeed when some server is healthy and none does otherwise, and every pick is a healthy registry index |
| `RoundRobin.AllHealthyIndices` | loadbalancer/loadbalancer.go:67-73 | with every server healthy, the filtered view is the whole registry `0, 1, …, k-1` |
| `RoundRobin.ChooseAllHealthy` | loadbalancer/loadbalancer.go:79-80 | with all `k` servers healthy, a selection picks index `(old counter + 1) mod k` |
| `RoundRobin.RotationAt` | loadbalancer/loadbalancer.go:65-80 | with all `k` servers healthy and no wrap in the window, the `j`-th of `n` consecutive selections picks `(c + 1 + j) mod k`, and all `n` succeed |
| `RoundRobin.FairRotation` | loadbalancer/loadbalancer.go:65-80 | with all `k` servers healthy, `k` consecutive selections start at `(c + 1) mod k` and step cyclically through the registry. They pick pairwise different servers, and every server is picked, so each exactly once |
| `RoundRobin.FirstRotation` | loadbalancer/loadbalancer.go:59-61 | from the initial counter 0 with three healthy servers, the selections pick indices 1, 2, 0, because the counter is incremented before indexing |
| `RoundRobin.WrapRepeatsServer` | loadbalancer/loadbalancer.go:79-80 | across the 2^64 wrap of the counter, three healthy servers are picked 0, 0, 1, so the rotation repeats a server there |
| `HealthProbe.Verdict` | loadbalancer/loadbalancer.go:97-108 | a probe makes a server healthy exactly when the probe completes with status 200; a transport error always makes it unhealthy |
| `HealthProbe.LoggedEvent` | loadbalancer/loadbalancer.go:95-116 | as written, an event is a transition (check failed, went down, back up) exactly when the verdict differs from the previous flag; the code never reports "still down" |
| `HealthProbe.StillUpWhileDown` | loadbalancer/loadbalancer.go:110-116 | a server that was down and answers 500 stays unhealthy, yet the code logs it as "still up" |
| `HealthProbe.ProbeEvent` | loadbalancer/loadbalancer.go:95-116 | transitions are logged exactly when the state changes; "still up" is logged exactly when the server was and stays healthy; "still down" exactly when it was and stays down after a completed probe; nothing is logged for a transport error on a server that was already down |
| `HealthProbe.ProbeEventRefinesLogged` | loadbalancer/loadbalancer.go:110-116 | the corrected event differs from the logged one only for a down server whose completed probe keeps it down |
| `HealthProbe.Verdicts` | loadbalancer/loadbalancer.go:91-117 | a cycle commits one flag per server, and a flag is true exactly when that server's probe completed with 200 |
| `HealthProbe.Events` | loadbalancer/loadbalancer.go:91-117 | a cycle logs one event per server, as the loop body writes it. An event is a transition exactly when that server's flag changes, and no event is "still down", because the code has no such message |
| `LoadBalancing.Server.constructor` | loadbalancer/loadbalancer.go:54-56 | a server record holds the given endpoint and health flag |
| `LoadBalancing.Server.SetHealth` | loadbalancer/loadbalancer.go:40-44 | after the call the flag is the given value; only this server changes, and its endpoint is a constant |
| `LoadBalancing.Server.IsHealthy` | loadbalancer/loadbalancer.go:46-50 | returns the flag most recently set and changes nothing |
| `LoadBalancing.LoadBalancer.constructor` | loadbalancer/loadbalancer.go:52-63 | the new balancer has exactly three fresh, distinct servers with the three configured endpoints, all healthy, and the counter at 0 |
| `LoadBalancing.LoadBalancer.HealthyServers` | loadbalancer/loadbalancer.go:67-73 | the loop collects exactly the servers at the filtered view's indices, in registry order, and changes nothing |
| `LoadBalancing.LoadBalancer.GetNextServer` | loadbalancer/loadbalancer.go:66-81 | the method returns exactly the selection `Choose` makes from the old flags and counter. On failure it returns the "no healthy servers available" error and leaves the counter alone. On success it advances the counter by one (mod 2^64) and returns a healthy member of the registry. It never changes a health flag |
| `LoadBalancing.ThreeSelectionsVisitAll` | loadbalancer/loadbalancer.go:65-80 | on a balancer whose three servers are all healthy and whose counter does not wrap, three consecutive `GetNextServer` calls return three different registry servers |
| `LoadBalancing.LoadBalancer.HealthCheck` | loadbalancer/loadbalancer.go:91-117 | one cycle visits every server. Each new flag is that server's probe verdict, regardless of how the other probes went. The returned events are the tags the loop body logs as written (`LoggedEvent`), and the counter is unchanged |
| `LoadBalancing.LoadBalancer.HandleStatus` | loadbalancer/loadbalancer.go:155-165 | the report says "active" and "round-robin" and lists every server's endpoint and flag in registry order; nothing changes |
| `LoadBalancing.LoadBalancer.ServeHTTP` | loadbalancer/loadbalancer.go:123-153 | `/lb-status` gets the status report and changes no counter or flag. Otherwise, when no server is healthy the answer is 503 with the selection error and nothing changes. Otherwise the counter advances: a relay error marks only the selected server unhealthy and answers 503 "Service Temporarily Unavailable", and a relayed response is passed on with the selected endpoint and the backend's status code |

## Left out

- HTTP serving, `httputil.NewSingleHostReverseProxy` and its request rewriting, and `http.Client` probes with their 5-second timeout are not modelled. A probe result and a proxy outcome are inputs, and a request is only its path.
- The JSON encoding of the status report and its `time.Now()` timestamp are left out; the report is a datatype.
- `http.Error` appends a newline to the body; the model's message is the text passed to it.
- The endless `for {}` of the health monitor and its 30-second `time.Sleep` are not modelled; `HealthCheck` is one cycle of it.
- `sync.RWMutex` and `atomic.AddUint64` exist for concurrency. Every operation is modelled as one atomic sequential step, so interleavings of concurrent requests with each other and with the monitor are not modelled.
- Logging is not modelled, except the health-check loop's messages, which `HealthCheck` returns as tags (`LoggedEvent`, as written, including the misleading "still up" of the Findings). The routing, proxy-error and completed-request log lines of `ServeHTTP` are left out.
- `parseURL` (which ends the process on a malformed URL) is not modelled; endpoints are opaque strings. `main` and the `api/user_api.go` and `main.go` demo backends are not part of this model.
- FairRotation: holds for windows in which the 64-bit counter does not wrap; at the wrap, `2^64` is generally not a multiple of the number of healthy servers, so one server can be picked twice in a row (`WrapRepeatsServer`).
- FairRotation: the more general claim that any `N` consecutive selections pick each server `⌊N/k⌋` or `⌈N/k⌉` times is not proved; the model proves the `k`-window version and the exact pick `(c + 1 + j) mod k` of each call (`RotationAt`).

## Findings

| source | as written | input that shows it | evidently intended | confidence | as-written member | corrected member |
|---|---|---|---|---|---|---|
| loadbalancer/loadbalancer.go:110-116 | after a completed probe, the final `else` logs "...Server is still up" whenever the health did not change, including for a server that was down and stays down | the server was unhealthy and its probe completes with status 500 (`HealthProbe.StillUpWhileDown`) | the steady-state heartbeat says "still up" only for a server that is up, and a server that stays down gets a "still down" message | high, not executed | `HealthProbe.LoggedEvent` | `HealthProbe.ProbeEvent` |
