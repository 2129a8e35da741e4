/**
 * The load balancer: a fixed registry of backend servers, each with a health
 * flag that is updated in place, and one shared request counter.
 *
 * `GetNextServer` selects round-robin among the healthy servers,
 * `HealthCheck` runs one cycle of the background monitor, and `ServeHTTP`
 * decides what an inbound request gets. Probe results and proxy outcomes are
 * inputs; each operation runs as one atomic step.
 */
module LoadBalancing {
  import opened RoundRobin
  import opened HealthProbe

  /** `http.StatusServiceUnavailable` */
  const StatusServiceUnavailable: int := 503

  /** The path `ServeHTTP` answers itself. */
  const StatusPath: string := "/lb-status"

  /** The text of the error `GetNextServer` returns. */
  const NoHealthyServers: string := "no healthy servers available"

  /** The prefix `ServeHTTP` puts before a selection error. */
  const UnavailablePrefix: string := "Service Unavailable: "

  /** The body `ServeHTTP` answers with when relaying fails. */
  const RelayFailedMessage: string := "Service Temporarily Unavailable"

  /** The backends `NewLoadBalancer` registers, in registry order. */
  const Endpoints: seq<string> := [
    "http://host.docker.internal:8081",
    "http://host.docker.internal:8082",
    "http://host.docker.internal:8083"
  ]

  datatype Result<T> = Ok(value: T) | Err(message: string)

  /** One entry of the status report. */
  datatype ServerView = ServerView(url: string, healthy: bool)

  /** What `/lb-status` reports (its timestamp is not modelled). */
  datatype StatusReport = StatusReport(loadBalancer: string, servers: seq<ServerView>, algorithm: string)

  /** What the reverse proxy observed: the backend's status code, or a transport error. */
  datatype ProxyOutcome = Relayed(statusCode: int) | RelayError

  /** What the client receives. */
  datatype Response =
    | Status(report: StatusReport)
    | Unavailable(statusCode: int, message: string)
    | Forwarded(backend: string, statusCode: int)

  /** One backend: an immutable endpoint and a health flag. */
  class Server {
    const url: string
    var healthy: bool

    constructor (url: string, healthy: bool)
      ensures this.url == url && this.healthy == healthy
    {
      this.url := url;
      this.healthy := healthy;
    }

    method SetHealth(healthy: bool)
      modifies this
      ensures this.healthy == healthy
    {
      this.healthy := healthy;
    }

    method IsHealthy() returns (healthy: bool)
      ensures healthy == this.healthy
    {
      healthy := this.healthy;
    }
  }

  class LoadBalancer {
    const servers: seq<Server>
    var current: Counter

    /** The registry holds each server once, so updating one leaves the others alone. */
    ghost predicate Valid()
      reads this
    {
      forall i, j :: 0 <= i < j < |servers| ==> servers[i] != servers[j]
    }

    /** The health flags in registry order. */
    ghost function Flags(): (flags: seq<bool>)
      reads servers
      ensures |flags| == |servers|
      ensures forall i :: 0 <= i < |servers| ==> flags[i] == servers[i].healthy
    {
      seq(|servers|, i requires 0 <= i < |servers| reads servers => servers[i].healthy)
    }

    /** The endpoint and health flag of every server, in registry order. */
    function Snapshot(): (views: seq<ServerView>)
      reads servers
      ensures |views| == |servers|
      ensures forall i :: 0 <= i < |servers| ==>
        views[i].url == servers[i].url && views[i].healthy == servers[i].healthy
    {
      seq(|servers|, i requires 0 <= i < |servers| reads servers => ServerView(servers[i].url, servers[i].healthy))
    }

    /** `NewLoadBalancer`: three fresh servers, all healthy, and the counter at 0. */
    constructor ()
      ensures Valid()
      ensures |servers| == 3 && current == 0
      ensures forall i :: 0 <= i < |servers| ==>
        fresh(servers[i]) && servers[i].url == Endpoints[i] && servers[i].healthy
    {
      var s1 := new Server(Endpoints[0], true);
      var s2 := new Server(Endpoints[1], true);
      var s3 := new Server(Endpoints[2], true);
      servers := [s1, s2, s3];
      current := 0;
    }

    /**
     * The filtered view: the healthy servers, in registry order, each once.
     */
    method HealthyServers() returns (healthyServers: seq<Server>)
      ensures |healthyServers| == |HealthyIndices(Flags())|
      ensures forall m :: 0 <= m < |healthyServers| ==>
        healthyServers[m] == servers[HealthyIndices(Flags())[m]]
    {
      ghost var flags := Flags();
      healthyServers := [];
      var i := 0;
      while i < |servers|
        invariant 0 <= i <= |servers|
        invariant |healthyServers| == |HealthyIndices(flags[..i])|
        invariant forall m :: 0 <= m < |healthyServers| ==>
          healthyServers[m] == servers[HealthyIndices(flags[..i])[m]]
      {
        var healthy := servers[i].IsHealthy();
        HealthyIndicesExtend(flags, i);
        if healthy {
          healthyServers := healthyServers + [servers[i]];
        }
        i := i + 1;
      }
      assert flags[..|servers|] == flags;
    }

    /**
     * Round-robin selection: the healthy servers in registry order, then the
     * one at the incremented counter modulo their number. Fails, leaving the
     * counter alone, when no server is healthy.
     */
    method GetNextServer() returns (r: Result<Server>)
      requires Valid()
      modifies this
      ensures Valid() && Flags() == old(Flags())
      ensures r.Ok? ==> r.value in servers && r.value.healthy
      ensures match Choose(old(Flags()), old(current))
        case None => r == Err(NoHealthyServers) && current == old(current)
        case Some(i) => r == Ok(servers[i]) && current == NextCounter(old(current))
    {
      var healthyServers := HealthyServers();
      ghost var selection := Choose(Flags(), current);
      if |healthyServers| == 0 {
        assert selection == None;
        return Err(NoHealthyServers);
      }
      current := NextCounter(current);
      assert selection == Some(HealthyIndices(Flags())[current % |healthyServers|]);
      r := Ok(healthyServers[current % |healthyServers|]);
    }

    /**
     * One cycle of the health monitor: every server, in registry order, gets
     * the flag its probe gives, whatever happened to the servers before it.
     */
    method HealthCheck(probes: seq<ProbeResult>) returns (events: seq<HealthEvent>)
      requires Valid() && |probes| == |servers|
      modifies servers
      ensures unchanged(this)
      ensures Flags() == Verdicts(probes)
      ensures events == Events(old(Flags()), probes)
    {
      ghost var was := Flags();
      events := [];
      for i := 0 to |servers|
        invariant forall j :: 0 <= j < i ==> servers[j].healthy == Verdict(probes[j])
        invariant forall j :: i <= j < |servers| ==> servers[j].healthy == was[j]
        invariant events == Events(was[..i], probes[..i])
      {
        var server := servers[i];
        var wasHealthy := server.IsHealthy();
        assert Events(was[..i + 1], probes[..i + 1]) == Events(was[..i], probes[..i]) + [LoggedEvent(wasHealthy, probes[i])];
        if probes[i].TransportError? {
          server.SetHealth(false);
          events := events + [LoggedEvent(wasHealthy, probes[i])];
          continue;
        }
        var healthy := probes[i].statusCode == StatusOK;
        server.SetHealth(healthy);
        events := events + [LoggedEvent(wasHealthy, probes[i])];
      }
      assert was[..|servers|] == was && probes[..|servers|] == probes;
    }

    /** The `/lb-status` report: every server's endpoint and flag; changes nothing. */
    method HandleStatus() returns (report: StatusReport)
      ensures report.loadBalancer == "active" && report.algorithm == "round-robin"
      ensures |report.servers| == |servers|
      ensures forall i :: 0 <= i < |servers| ==>
        report.servers[i] == ServerView(servers[i].url, servers[i].healthy)
    {
      report := StatusReport("active", Snapshot(), "round-robin");
    }

    /**
     * Dispatch of one request. The status path is answered without a
     * selection; otherwise a failed selection gives 503, and a relay that
     * fails marks the selected server, and only it, unhealthy and gives 503.
     */
    method ServeHTTP(path: string, proxy: ProxyOutcome) returns (response: Response)
      requires Valid()
      modifies this, servers
      ensures Valid()
      ensures path == StatusPath ==>
        && response == Status(StatusReport("active", old(Snapshot()), "round-robin"))
        && current == old(current) && Flags() == old(Flags())
      ensures path != StatusPath ==> match Choose(old(Flags()), old(current))
        case None =>
          && response == Unavailable(StatusServiceUnavailable, UnavailablePrefix + NoHealthyServers)
          && current == old(current) && Flags() == old(Flags())
        case Some(i) =>
          && current == NextCounter(old(current))
          && match proxy
             case RelayError =>
               response == Unavailable(StatusServiceUnavailable, RelayFailedMessage)
               && Flags() == old(Flags())[i := false]
             case Relayed(code) =>
               response == Forwarded(servers[i].url, code) && Flags() == old(Flags())
    {
      if path == StatusPath {
        var report := HandleStatus();
        return Status(report);
      }
      ghost var before := Flags();
      ghost var selection := Choose(before, current);
      var selected := GetNextServer();
      if selected.Err? {
        return Unavailable(StatusServiceUnavailable, UnavailablePrefix + selected.message);
      }
      var server := selected.value;
      ghost var i := selection.value;
      assert server == servers[i];
      match proxy
      case RelayError =>
        server.SetHealth(false);
        assert Flags() == before[i := false];
        response := Unavailable(StatusServiceUnavailable, RelayFailedMessage);
      case Relayed(code) =>
        response := Forwarded(server.url, code);
    }
  }

  /** What a caller can conclude from the contracts alone: a fresh balancer rotates 1, 2, 0. */
  method RotationFromStart() {
    var lb := new LoadBalancer();
    assert lb.Flags() == [true, true, true];
    FirstRotation();
    var a := lb.GetNextServer();
    var b := lb.GetNextServer();
    var c := lb.GetNextServer();
    assert a == Ok(lb.servers[1]) && b == Ok(lb.servers[2]) && c == Ok(lb.servers[0]);
  }

  /** A server whose probe fails is skipped by every selection until a probe sees 200 again. */
  method FailedProbeExcluded() {
    var lb := new LoadBalancer();
    var _ := lb.HealthCheck([Completed(StatusOK), TransportError, Completed(StatusOK)]);
    assert lb.Flags() == [true, false, true];
    var a := lb.GetNextServer();
    var b := lb.GetNextServer();
    assert a.Ok? && a.value != lb.servers[1];
    assert b.Ok? && b.value != lb.servers[1];
  }

  /**
   * Three consecutive selections on a balancer whose three servers are all
   * healthy, with no counter wrap in between, return three different servers.
   */
  method ThreeSelectionsVisitAll(lb: LoadBalancer) returns (a: Server, b: Server, c: Server)
    requires lb.Valid() && |lb.servers| == 3 && AllHealthy(lb.Flags())
    requires lb.current + 3 < UINT64_MODULUS
    modifies lb
    ensures a != b && b != c && a != c
    ensures a in lb.servers && b in lb.servers && c in lb.servers
  {
    ghost var flags := lb.Flags();
    ghost var c0 := lb.current;
    FairRotation(flags, c0);
    ghost var r := Rotation(flags, c0, 3);
    assert r == [r[0]] + Rotation(flags, NextCounter(c0), 2);
    assert Rotation(flags, NextCounter(c0), 2) == [r[1]] + Rotation(flags, NextCounter(NextCounter(c0)), 1);
    var ra := lb.GetNextServer();
    var rb := lb.GetNextServer();
    var rc := lb.GetNextServer();
    assert ra == Ok(lb.servers[r[0]]) && rb == Ok(lb.servers[r[1]]) && rc == Ok(lb.servers[r[2]]);
    a, b, c := ra.value, rb.value, rc.value;
  }
}
