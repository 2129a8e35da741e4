/**
 * What one liveness probe means for one server: the new health flag and the
 * log event the health-check loop emits for it.
 *
 * The HTTP client call itself is not modelled; its outcome arrives as a
 * `ProbeResult`.
 */
module HealthProbe {

  /** `http.StatusOK` */
  const StatusOK: int := 200

  /** The outcome of `GET <endpoint>/health`: a transport error or a status code. */
  datatype ProbeResult = TransportError | Completed(statusCode: int)

  /**
   * The log line the loop body writes for one server, as an event tag.
   * `NoEvent` is the transport-error case of a server that was already down,
   * for which nothing is logged.
   */
  datatype HealthEvent = CheckFailed | BackUp | WentDown | StillUp | StillDown | NoEvent

  /** The health flag a probe commits: healthy exactly on a completed 200. */
  function Verdict(p: ProbeResult): (healthy: bool)
    ensures healthy <==> p.Completed? && p.statusCode == StatusOK
  {
    match p
    case TransportError => false
    case Completed(code) => code == StatusOK
  }

  /** A transition is a probe whose verdict differs from the flag before it. */
  predicate IsTransition(e: HealthEvent) {
    e == CheckFailed || e == WentDown || e == BackUp
  }

  /**
   * The event as the loop body computes it: on a completed probe the last
   * branch covers both "was up and is up" and "was down and is still down".
   */
  function LoggedEvent(wasHealthy: bool, p: ProbeResult): (e: HealthEvent)
    ensures e != StillDown
    ensures IsTransition(e) <==> wasHealthy != Verdict(p)
  {
    match p
    case TransportError => if wasHealthy then CheckFailed else NoEvent
    case Completed(code) =>
      var healthy := code == StatusOK;
      if !wasHealthy && healthy then BackUp
      else if wasHealthy && !healthy then WentDown
      else StillUp
  }

  /** A server that was down and answers 500 is logged as "still up". */
  lemma StillUpWhileDown()
    ensures !Verdict(Completed(500))
    ensures LoggedEvent(false, Completed(500)) == StillUp
  {
  }

  /**
   * The event with the last branch split: the steady-state heartbeat says
   * "still up" only of a server that was and stays healthy.
   */
  function ProbeEvent(wasHealthy: bool, p: ProbeResult): (e: HealthEvent)
    ensures IsTransition(e) <==> wasHealthy != Verdict(p)
    ensures e == StillUp <==> wasHealthy && Verdict(p)
    ensures e == StillDown <==> !wasHealthy && p.Completed? && !Verdict(p)
    ensures e == NoEvent <==> !wasHealthy && p.TransportError?
  {
    match p
    case TransportError => if wasHealthy then CheckFailed else NoEvent
    case Completed(code) =>
      var healthy := code == StatusOK;
      if !wasHealthy && healthy then BackUp
      else if wasHealthy && !healthy then WentDown
      else if healthy then StillUp
      else StillDown
  }

  /** The two event functions differ only on a down server that stays down on a completed probe. */
  lemma ProbeEventRefinesLogged(wasHealthy: bool, p: ProbeResult)
    ensures ProbeEvent(wasHealthy, p) != LoggedEvent(wasHealthy, p) <==>
      !wasHealthy && p.Completed? && !Verdict(p)
  {
  }

  /** The health flags one cycle commits, one per probed server. */
  function Verdicts(probes: seq<ProbeResult>): (flags: seq<bool>)
    ensures |flags| == |probes|
    ensures forall i :: 0 <= i < |probes| ==> (flags[i] <==> probes[i] == Completed(StatusOK))
  {
    seq(|probes|, i requires 0 <= i < |probes| => Verdict(probes[i]))
  }

  /**
   * The events one cycle logs, as written, given the flags before the cycle:
   * a steady down server is logged as "still up".
   */
  function Events(was: seq<bool>, probes: seq<ProbeResult>): (events: seq<HealthEvent>)
    requires |was| == |probes|
    ensures |events| == |probes|
    ensures forall i :: 0 <= i < |probes| ==> (IsTransition(events[i]) <==> was[i] != Verdicts(probes)[i])
    ensures forall i :: 0 <= i < |probes| ==> events[i] != StillDown
  {
    seq(|probes|, i requires 0 <= i < |probes| => LoggedEvent(was[i], probes[i]))
  }
}
