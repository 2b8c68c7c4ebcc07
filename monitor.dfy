/** The monitoring loop of `main` in src/main.rs: a monitor object owning
    `last_ping_successful`, one tick per probe, and a finite run standing in
    for the endless `loop`. The console and the Slack webhook are recorded
    as traces. */
module Monitoring {
  import opened Wrappers
  import opened Transition
  import opened Schedule
  import opened Alerting

  /** One iteration as the outside world decides it: what the GET request
      returned, and what the webhook returns if an alert is posted. */
  datatype Round = Round(probe: ProbeResult, sent: SendResult)

  const PING_OK_LOG := "Ping ok"

  /** The probe outcomes of a run. */
  function Outcomes(rounds: seq<Round>): (os: seq<Outcome>)
    ensures |os| == |rounds|
    ensures forall i :: 0 <= i < |rounds| ==> os[i] == Classify(rounds[i].probe)
    decreases |rounds|
  {
    if rounds == [] then [] else [Classify(rounds[0].probe)] + Outcomes(rounds[1..])
  }

  /** The Slack payloads posted during one tick taken from state `up`. */
  function TickPosts(c: Config, up: bool, o: Outcome): (payloads: seq<Payload>)
  {
    match Step(up, o).alert
    case Some(a) => Posts(Route(c, Message(a)))
    case None => []
  }

  /** The console lines printed during one tick taken from state `up`: the
      alert's delivery log, then "Ping ok" on a success. */
  function TickConsole(c: Config, up: bool, r: Round): (lines: seq<string>)
  {
    var o := Classify(r.probe);
    (match Step(up, o).alert
     case Some(a) => DeliveryLog(Route(c, Message(a)), r.sent)
     case None => [])
    + (if o == Success then [PING_OK_LOG] else [])
  }

  /** The Slack payloads posted by a run of `rounds` from state `up`. */
  function RunPosts(c: Config, up: bool, rounds: seq<Round>): (payloads: seq<Payload>)
    decreases |rounds|
  {
    if rounds == [] then []
    else
      TickPosts(c, up, Classify(rounds[0].probe))
      + RunPosts(c, Step(up, Classify(rounds[0].probe)).nextUp, rounds[1..])
  }

  /** The console lines printed by a run of `rounds` from state `up`. */
  function RunConsole(c: Config, up: bool, rounds: seq<Round>): (lines: seq<string>)
    decreases |rounds|
  {
    if rounds == [] then []
    else
      TickConsole(c, up, rounds[0])
      + RunConsole(c, Step(up, Classify(rounds[0].probe)).nextUp, rounds[1..])
  }

  /** The payload each alert is posted with. */
  function PayloadsFor(c: Config, alerts: seq<Alert>): (payloads: seq<Payload>)
    decreases |alerts|
  {
    if alerts == [] then []
    else [Payload(Message(alerts[0]), c.botName, c.botEmoji)] + PayloadsFor(c, alerts[1..])
  }

  /** Regrouping a concatenation; stated once so that the loop step of `Run`
      does not search for it. */
  lemma AppendAssoc<T>(a: seq<T>, b: seq<T>, c: seq<T>)
    ensures a + (b + c) == (a + b) + c
  {
  }

  /** A run from `up` is its first tick followed by a run of the rest from
      the state that tick leaves. */
  lemma RunUnfold(c: Config, up: bool, rounds: seq<Round>)
    requires rounds != []
    ensures Replay(up, Outcomes(rounds))
         == [Step(up, Classify(rounds[0].probe))] + Replay(Step(up, Classify(rounds[0].probe)).nextUp, Outcomes(rounds[1..]))
    ensures FinalUp(up, Outcomes(rounds))
         == FinalUp(Step(up, Classify(rounds[0].probe)).nextUp, Outcomes(rounds[1..]))
    ensures RunConsole(c, up, rounds)
         == TickConsole(c, up, rounds[0]) + RunConsole(c, Step(up, Classify(rounds[0].probe)).nextUp, rounds[1..])
    ensures RunPosts(c, up, rounds)
         == TickPosts(c, up, Classify(rounds[0].probe)) + RunPosts(c, Step(up, Classify(rounds[0].probe)).nextUp, rounds[1..])
  {
    assert Outcomes(rounds)[1..] == Outcomes(rounds[1..]);
  }

  /** With no webhook configured, a run posts nothing to Slack. */
  lemma {:induction false} NoWebhookNoPosts(c: Config, up: bool, rounds: seq<Round>)
    requires c.slackUrl == []
    ensures RunPosts(c, up, rounds) == []
    decreases |rounds|
  {
    if rounds != [] {
      NoWebhookNoPosts(c, Step(up, Classify(rounds[0].probe)).nextUp, rounds[1..]);
    }
  }

  /** With a webhook configured, a run posts exactly the alerts the state
      machine raises, in order, each under the bot's name and emoji. */
  lemma {:induction false} WebhookPostsEveryAlert(c: Config, up: bool, rounds: seq<Round>)
    requires c.slackUrl != []
    ensures RunPosts(c, up, rounds) == PayloadsFor(c, Raised(Replay(up, Outcomes(rounds))))
    decreases |rounds|
  {
    if rounds != [] {
      var s := Step(up, Classify(rounds[0].probe));
      var rest := Replay(s.nextUp, Outcomes(rounds[1..]));
      assert Replay(up, Outcomes(rounds)) == [s] + rest;
      assert ([s] + rest)[1..] == rest;
      WebhookPostsEveryAlert(c, s.nextUp, rounds[1..]);
      if s.alert.Some? {
        var a := s.alert.value;
        assert Raised([s] + rest) == [a] + Raised(rest);
        assert ([a] + Raised(rest))[1..] == Raised(rest);
        assert TickPosts(c, up, Classify(rounds[0].probe)) == [Payload(Message(a), c.botName, c.botEmoji)];
        assert PayloadsFor(c, [a] + Raised(rest))
            == [Payload(Message(a), c.botName, c.botEmoji)] + PayloadsFor(c, Raised(rest));
      } else {
        assert Raised([s] + rest) == Raised(rest);
      }
      assert RunPosts(c, up, rounds)
          == TickPosts(c, up, Classify(rounds[0].probe)) + RunPosts(c, s.nextUp, rounds[1..]);
    }
  }

  /** What the webhook returns only changes the log: two runs that see the
      same probe results, whatever their deliveries returned, raise the same
      alerts, post the same payloads and end in the same state. */
  lemma {:induction false} DeliveryOnlyAffectsLog(c: Config, up: bool, r1: seq<Round>, r2: seq<Round>)
    requires |r1| == |r2|
    requires forall i :: 0 <= i < |r1| ==> r1[i].probe == r2[i].probe
    ensures Replay(up, Outcomes(r1)) == Replay(up, Outcomes(r2))
    ensures FinalUp(up, Outcomes(r1)) == FinalUp(up, Outcomes(r2))
    ensures RunPosts(c, up, r1) == RunPosts(c, up, r2)
    decreases |r1|
  {
    if r1 != [] {
      var next := Step(up, Classify(r1[0].probe)).nextUp;
      assert forall i :: 0 <= i < |r1| - 1 ==> r1[1..][i].probe == r2[1..][i].probe by {
        forall i | 0 <= i < |r1| - 1 ensures r1[1..][i].probe == r2[1..][i].probe {
          assert r1[i + 1].probe == r2[i + 1].probe;
        }
      }
      DeliveryOnlyAffectsLog(c, next, r1[1..], r2[1..]);
      RunUnfold(c, up, r1);
      RunUnfold(c, up, r2);
    }
  }

  class Monitor {
    const config: Config
    /** `last_ping_successful`: did the previous probe get the OK status? */
    var lastPingSuccessful: bool
    /** Lines printed to standard output so far. */
    var console: seq<string>
    /** Payloads posted to the Slack webhook so far. */
    var posts: seq<Payload>

    constructor (config: Config)
      ensures this.config == config
      ensures lastPingSuccessful == InitialUp && console == [] && posts == []
    {
      this.config := config;
      lastPingSuccessful := InitialUp;
      console, posts := [], [];
    }

    /** `send_alert`: deliver `message` to the console or the webhook. Its
        frame leaves `lastPingSuccessful` alone: a failed post is only logged. */
    method SendAlert(message: string, sent: SendResult)
      modifies this`console, this`posts
      ensures console == old(console) + DeliveryLog(Route(config, message), sent)
      ensures posts == old(posts) + Posts(Route(config, message))
    {
      if config.slackUrl == [] {
        console := console + [message];
        return;
      }
      posts := posts + [Payload(message, config.botName, config.botEmoji)];
      match sent
      case Delivered =>
        console := console + [SENT_LOG];
      case DeliveryFailed(e) =>
        console := console + [SEND_ERROR_PREFIX + e];
    }

    /** One iteration of the loop body, without the sleep. */
    method Tick(r: Round) returns (s: StepResult)
      modifies this`lastPingSuccessful, this`console, this`posts
      ensures s == Step(old(lastPingSuccessful), Classify(r.probe))
      ensures lastPingSuccessful == s.nextUp
      ensures console == old(console) + TickConsole(config, old(lastPingSuccessful), r)
      ensures posts == old(posts) + TickPosts(config, old(lastPingSuccessful), Classify(r.probe))
    {
      match r.probe
      case Response(status) =>
        if status == HTTP_OK {
          if !lastPingSuccessful {
            SendAlert(Message(SiteBack), r.sent);
            s := StepResult(true, Some(SiteBack));
          } else {
            s := StepResult(true, None);
          }
          console := console + [PING_OK_LOG];
          lastPingSuccessful := true;
        } else {
          SendAlert(Message(NonOkStatus), r.sent);
          lastPingSuccessful := false;
          s := StepResult(false, Some(NonOkStatus));
        }
      case TransportError =>
        SendAlert(Message(PingFailed), r.sent);
        lastPingSuccessful := false;
        s := StepResult(false, Some(PingFailed));
    }
  }

  /** The loop invariant of `Run`: what was recorded for the first `i`
      rounds, followed by a run of the remaining rounds from the current
      state, is a run of all of them from the initial state. */
  ghost predicate Agrees(c: Config, rounds: seq<Round>, i: nat, up: bool,
                         trace: seq<StepResult>, console: seq<string>, posts: seq<Payload>)
    requires i <= |rounds|
  {
    && Replay(InitialUp, Outcomes(rounds)) == trace + Replay(up, Outcomes(rounds[i..]))
    && FinalUp(InitialUp, Outcomes(rounds)) == FinalUp(up, Outcomes(rounds[i..]))
    && RunConsole(c, InitialUp, rounds) == console + RunConsole(c, up, rounds[i..])
    && RunPosts(c, InitialUp, rounds) == posts + RunPosts(c, up, rounds[i..])
  }

  lemma AgreesInitially(c: Config, rounds: seq<Round>)
    ensures Agrees(c, rounds, 0, InitialUp, [], [], [])
  {
    assert rounds[0..] == rounds;
  }

  lemma AgreesStep(c: Config, rounds: seq<Round>, i: nat, up: bool,
                   trace: seq<StepResult>, console: seq<string>, posts: seq<Payload>)
    requires i < |rounds| && Agrees(c, rounds, i, up, trace, console, posts)
    ensures Agrees(c, rounds, i + 1, Step(up, Classify(rounds[i].probe)).nextUp,
                   trace + [Step(up, Classify(rounds[i].probe))],
                   console + TickConsole(c, up, rounds[i]),
                   posts + TickPosts(c, up, Classify(rounds[i].probe)))
  {
    var s := Step(up, Classify(rounds[i].probe));
    assert rounds[i..][1..] == rounds[i + 1..];
    RunUnfold(c, up, rounds[i..]);
    AppendAssoc(trace, [s], Replay(s.nextUp, Outcomes(rounds[i + 1..])));
    AppendAssoc(console, TickConsole(c, up, rounds[i]), RunConsole(c, s.nextUp, rounds[i + 1..]));
    AppendAssoc(posts, TickPosts(c, up, Classify(rounds[i].probe)), RunPosts(c, s.nextUp, rounds[i + 1..]));
  }

  lemma AgreesFinally(c: Config, rounds: seq<Round>, up: bool,
                      trace: seq<StepResult>, console: seq<string>, posts: seq<Payload>)
    requires Agrees(c, rounds, |rounds|, up, trace, console, posts)
    ensures trace == Replay(InitialUp, Outcomes(rounds))
    ensures up == FinalUp(InitialUp, Outcomes(rounds))
    ensures console == RunConsole(c, InitialUp, rounds)
    ensures posts == RunPosts(c, InitialUp, rounds)
  {
    assert rounds[|rounds|..] == [];
  }

  /** The loop of `main` over a finite sequence of rounds, from a fresh
      monitor. The sleep interval, which every iteration recomputes from the
      same immutable argument, is computed once; if it overflows, the process
      panics before its first probe. `slept` is the total of the intervals
      slept after each tick. */
  method Run(config: Config, rounds: seq<Round>)
    returns (panicked: bool, trace: seq<StepResult>, finalUp: bool,
             console: seq<string>, posts: seq<Payload>, slept: int)
    ensures panicked <==> rounds != [] && SleepSeconds(config.minutes).None?
    ensures panicked ==>
      trace == [] && finalUp == InitialUp && console == [] && posts == [] && slept == 0
    ensures !panicked ==> trace == Replay(InitialUp, Outcomes(rounds))
    ensures !panicked ==> finalUp == FinalUp(InitialUp, Outcomes(rounds))
    ensures !panicked ==> console == RunConsole(config, InitialUp, rounds)
    ensures !panicked ==> posts == RunPosts(config, InitialUp, rounds)
    ensures !panicked ==> slept == |rounds| * (config.minutes as int * SECONDS_PER_MINUTE)
  {
    var interval := SleepSeconds(config.minutes);
    if interval.None? {
      // no round is ever reached: a panic if one was due, nothing otherwise
      return rounds != [], [], InitialUp, [], [], 0;
    }
    var perTick := interval.value as int;
    SleepSecondsExact(config.minutes);
    var m := new Monitor(config);
    panicked, trace, slept := false, [], 0;
    AgreesInitially(config, rounds);
    for i := 0 to |rounds|
      invariant m.config == config
      invariant Agrees(config, rounds, i, m.lastPingSuccessful, trace, m.console, m.posts)
      invariant slept == i * perTick
    {
      AgreesStep(config, rounds, i, m.lastPingSuccessful, trace, m.console, m.posts);
      var s := m.Tick(rounds[i]);
      trace := trace + [s];
      slept := slept + perTick;
      assert slept == (i + 1) * perTick by {
        assert (i + 1) * perTick == i * perTick + perTick;
      }
    }
    finalUp := m.lastPingSuccessful;
    console, posts := m.console, m.posts;
    AgreesFinally(config, rounds, finalUp, trace, console, posts);
  }
}
