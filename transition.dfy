/** The status-transition state machine of the monitoring loop in
    src/main.rs: one bit of memory (was the last ping successful?) and, per
    tick, the classified probe outcome decides the alert and the next bit. */
module Transition {
  import opened Wrappers

  /** What a probe yields: `Ok` with the OK status, `Ok` with any other
      status, or `Err` from the HTTP client. */
  datatype Outcome = Success | BadStatus | TransportFailure

  /** What `ping` returns: a response with its HTTP status code, or an
      error from the HTTP client (no response received). */
  datatype ProbeResult = Response(status: u16) | TransportError

  /** An HTTP status code, a 16-bit unsigned number. */
  newtype u16 = x: int | 0 <= x < 0x1_0000

  /** The status `hyper::Ok` stands for. */
  const HTTP_OK: u16 := 200

  /** The match on `ping`'s result and on the response status. */
  function Classify(p: ProbeResult): (o: Outcome)
    // only the exact OK status counts as a success; other 2xx codes do not
    ensures o == Success <==> p == Response(HTTP_OK)
    ensures o == TransportFailure <==> p.TransportError?
  {
    match p
    case Response(status) => if status == HTTP_OK then Success else BadStatus
    case TransportError => TransportFailure
  }

  /** The three alerts the loop can raise. */
  datatype Alert = SiteBack | NonOkStatus | PingFailed

  /** The fixed text each alert is sent with. */
  function Message(a: Alert): (text: string)
  {
    match a
    case SiteBack => "200 status returned! The site is back :)"
    case NonOkStatus => "Non-200 status code returned!"
    case PingFailed => "Not able to ping!"
  }

  /** The state after a tick and the alert that tick raised, if any. */
  datatype StepResult = StepResult(nextUp: bool, alert: Option<Alert>)

  /** The state the monitor starts in: the target is assumed to be up. */
  const InitialUp := true

  /** One tick of the loop: `up` is `last_ping_successful` before the tick. */
  function Step(up: bool, o: Outcome): (r: StepResult)
    // the new state is "up" exactly when the probe returned the OK status
    ensures r.nextUp <==> o == Success
    // the only silent tick is a success while already up
    ensures r.alert.None? <==> up && o == Success
    // recovery alerts on the down->up edge only
    ensures r.alert == Some(SiteBack) <==> !up && o == Success
    // every failing tick alerts, whatever the prior state
    ensures r.alert == Some(NonOkStatus) <==> o == BadStatus
    ensures r.alert == Some(PingFailed) <==> o == TransportFailure
  {
    match o
    case Success => StepResult(true, if up then None else Some(SiteBack))
    case BadStatus => StepResult(false, Some(NonOkStatus))
    case TransportFailure => StepResult(false, Some(PingFailed))
  }

  /** The state before tick `i` of a run over `os` that started in `up`,
      read off the previous outcome alone. */
  function PriorUp(up: bool, os: seq<Outcome>, i: nat): (priorUp: bool)
    requires i < |os|
  {
    if i == 0 then up else os[i - 1] == Success
  }

  /** The per-tick results of feeding `os` to the state machine from `up`. */
  function Replay(up: bool, os: seq<Outcome>): (r: seq<StepResult>)
    ensures |r| == |os|
    decreases |os|
  {
    if os == [] then []
    else
      var s := Step(up, os[0]);
      [s] + Replay(s.nextUp, os[1..])
  }

  /** The one bit of memory: tick i of a run depends only on its own outcome
      and the outcome of tick i - 1 (or the starting state, for tick 0). */
  lemma {:induction false} ReplayAt(up: bool, os: seq<Outcome>, i: nat)
    requires i < |os|
    ensures Replay(up, os)[i] == Step(PriorUp(up, os, i), os[i])
    decreases |os|
  {
    if i > 0 {
      var s := Step(up, os[0]);
      ReplayAt(s.nextUp, os[1..], i - 1);
      assert ([s] + Replay(s.nextUp, os[1..]))[i] == Replay(s.nextUp, os[1..])[i - 1];
    }
  }

  /** The state after feeding `os` from `up`. */
  function FinalUp(up: bool, os: seq<Outcome>): (finalUp: bool)
    decreases |os|
  {
    if os == [] then up else FinalUp(Step(up, os[0]).nextUp, os[1..])
  }

  /** The alerts raised by a sequence of ticks, in order. */
  function Raised(rs: seq<StepResult>): (alerts: seq<Alert>)
    // each tick raises at most one alert
    ensures |alerts| <= |rs|
    decreases |rs|
  {
    if rs == [] then []
    else (if rs[0].alert.Some? then [rs[0].alert.value] else []) + Raised(rs[1..])
  }

  /** The number of failing ticks in `os`. */
  function Failures(os: seq<Outcome>): (n: nat)
    decreases |os|
  {
    if os == [] then 0 else (if os[0] == Success then 0 else 1) + Failures(os[1..])
  }

  /** Every failing tick contributes its own alert: a run raises at least as
      many alerts as it has failing ticks, and no more than it has ticks. */
  lemma {:induction false} AlertsCoverFailures(up: bool, os: seq<Outcome>)
    ensures Failures(os) <= |Raised(Replay(up, os))| <= |os|
    decreases |os|
  {
    if os != [] {
      var s := Step(up, os[0]);
      var rest := Replay(s.nextUp, os[1..]);
      assert ([s] + rest)[1..] == rest;
      AlertsCoverFailures(s.nextUp, os[1..]);
    }
  }

  /** The final state depends only on the last outcome. */
  lemma {:induction false} FinalIsLastOutcome(up: bool, os: seq<Outcome>)
    requires os != []
    ensures FinalUp(up, os) <==> os[|os| - 1] == Success
    decreases |os|
  {
    if |os| > 1 {
      FinalIsLastOutcome(Step(up, os[0]).nextUp, os[1..]);
    }
  }

  /** The final state is the state the last tick of the replay reports. */
  lemma {:induction false} FinalIsLastReplayed(up: bool, os: seq<Outcome>)
    ensures FinalUp(up, os) == if os == [] then up else Replay(up, os)[|os| - 1].nextUp
    decreases |os|
  {
    if os != [] {
      FinalIsLastReplayed(Step(up, os[0]).nextUp, os[1..]);
    }
  }

  /** Running `a` then `b` is running `a` and resuming from its final state:
      ticks are processed one at a time with nothing but the bit carried. */
  lemma {:induction false} ReplayAppend(up: bool, a: seq<Outcome>, b: seq<Outcome>)
    ensures Replay(up, a + b) == Replay(up, a) + Replay(FinalUp(up, a), b)
    ensures FinalUp(up, a + b) == FinalUp(FinalUp(up, a), b)
    decreases |a|
  {
    if a != [] {
      var s := Step(up, a[0]);
      assert (a + b)[1..] == a[1..] + b;
      ReplayAppend(s.nextUp, a[1..], b);
    } else {
      assert a + b == b;
    }
  }

  /** From a fresh start, a successful first tick raises nothing. */
  lemma FirstSuccessIsSilent(os: seq<Outcome>)
    requires os != [] && os[0] == Success
    ensures Replay(InitialUp, os)[0] == StepResult(true, None)
  {
  }

  /** From a fresh start, "the site is back" is raised at tick i exactly when
      tick i succeeds right after a failing tick. */
  lemma RecoveryOnlyOnEdge(os: seq<Outcome>, i: nat)
    requires i < |os|
    ensures Replay(InitialUp, os)[i].alert == Some(SiteBack)
        <==> os[i] == Success && i > 0 && os[i - 1] != Success
  {
    ReplayAt(InitialUp, os, i);
  }

  /** Every failing tick alerts and leaves the state down, so k failures in a
      row give k alerts. */
  lemma FailuresAlwaysAlert(up: bool, os: seq<Outcome>, i: nat)
    requires i < |os| && os[i] != Success
    ensures !Replay(up, os)[i].nextUp
    ensures Replay(up, os)[i].alert == Some(if os[i] == BadStatus then NonOkStatus else PingFailed)
  {
    ReplayAt(up, os, i);
  }

  /** The alert texts are pairwise different, so an alert identifies its cause. */
  lemma MessagesDistinct(a: Alert, b: Alert)
    ensures Message(a) == Message(b) <==> a == b
  {
  }

  /** The worked scenarios: two successes; one bad status; two bad statuses
      then a success; one transport failure. */
  lemma Scenarios()
    ensures Replay(InitialUp, [Success, Success])
         == [StepResult(true, None), StepResult(true, None)]
    ensures Replay(InitialUp, [BadStatus]) == [StepResult(false, Some(NonOkStatus))]
    ensures Replay(InitialUp, [BadStatus, BadStatus, Success])
         == [StepResult(false, Some(NonOkStatus)), StepResult(false, Some(NonOkStatus)),
             StepResult(true, Some(SiteBack))]
    ensures Replay(InitialUp, [TransportFailure]) == [StepResult(false, Some(PingFailed))]
  {
  }
}
