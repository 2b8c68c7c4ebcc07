# pingbot monitor, modelled in Dafny

pingbot pings one URL every `minutes` minutes. Its `main` loop keeps one bit of
memory, `last_ping_successful`, which starts as `true`. On each tick it
classifies the result of an HTTP GET and decides whether to raise an alert and
which state comes next:

- a response with the OK status alerts "200 status returned! The site is back :)"
  only when the previous tick was down;
- any other status alerts "Non-200 status code returned!" on every tick;
- an error from the HTTP client (no response received) alerts "Not able to ping!" on every tick.

`send_alert` prints the alert to the console when no Slack webhook URL is
given. Otherwise it posts a payload carrying the text, the bot name and the bot
emoji, then logs whether the post succeeded.

Files:

- `wrappers.dfy`: `Option`.
- `transition.dfy` (module `Transition`): the probe classification, the per-tick
  transition `Step`, and runs over sequences of outcomes (`Replay`, `FinalUp`,
  `Raised`), with lemmas about them.
- `schedule.dfy` (module `Schedule`): the sleep interval `minutes * 60` in `u64`
  arithmetic.
- `alerting.dfy` (module `Alerting`): the configuration, the Slack payload, the
  console-or-webhook routing rule, and the log lines of a delivery.
- `monitor.dfy` (module `Monitoring`): the `Monitor` class. Its
  `lastPingSuccessful` field is updated in place by `Tick`, which calls
  `SendAlert`. The class also keeps the console output and the Slack posts as
  traces. `Run` drives a fresh monitor over a finite sequence of rounds and is
  proved against the functions `Replay` and `FinalUp` of `Transition` and
  `RunConsole` and `RunPosts` of `Monitoring`. The file also
  holds the run-level lemmas.

A *round* is what the outside world decides for one tick: what the GET request
returned, and what the webhook post would return.

Only status 200 (`hyper::Ok`, src/main.rs:50) counts as a success. Every other
status, other 2xx codes included, is `BadStatus`.

## Model

| member | source | states |
|---|---|---|
| Transition.Classify | src/main.rs:47-66 | The outcome is Success exactly for a response with status 200, and TransportFailure exactly for an error from the HTTP client (no response received); any other status is BadStatus |
| Transition.Step | src/main.rs:48-66 | The next state is up iff the outcome is Success; the only silent tick is a success while up; "site is back" iff down and Success; the non-200 alert iff BadStatus and the ping alert iff TransportFailure, whatever the prior state |
| Transition.Message | src/main.rs:52-63 | The fixed text of each alert: the recovery text, the non-200 text and the ping-failure text |
| Transition.Replay | src/main.rs:45-66 | The per-tick results of the loop over a sequence of outcomes, one per tick, each tick taken from the state the previous one left |
| Transition.FinalUp | src/main.rs:43-68 | The value of last_ping_successful after the loop has processed a sequence of outcomes |
| Transition.Raised | src/main.rs:48-66 | A sequence of ticks raises at most one alert per tick |
| Transition.ReplayAt | src/main.rs:43-68 | In a run, tick i behaves as Step from the state left by the outcome of tick i-1 (or the start state for tick 0) |
| Transition.FinalIsLastOutcome | src/main.rs:55-64 | After a non-empty run, the monitor is up iff the last outcome was Success |
| Transition.FinalIsLastReplayed | src/main.rs:45-68 | The final state of a run is the state reported by its last tick, or the start state when nothing ran |
| Transition.ReplayAppend | src/main.rs:45-68 | Running a then b equals running a and then running b from the state a leaves; only the one bit is carried between ticks |
| Transition.AlertsCoverFailures | src/main.rs:57-65 | A run raises at least as many alerts as it has failing ticks, and at most one per tick |
| Transition.FirstSuccessIsSilent | src/main.rs:43-55 | From the initial up state, a successful first tick raises no alert and stays up |
| Transition.RecoveryOnlyOnEdge | src/main.rs:50-53 | From a fresh start, "site is back" is raised at tick i iff tick i succeeds right after a failing tick |
| Transition.FailuresAlwaysAlert | src/main.rs:57-65 | Every failing tick leaves the state down and raises the alert for its kind of failure, whatever came before |
| Transition.MessagesDistinct | src/main.rs:52-63 | The three alert texts are pairwise different |
| Transition.Scenarios | src/main.rs:43-66 | Worked runs: [Success, Success] is silent; [BadStatus] and [TransportFailure] alert once; [BadStatus, BadStatus, Success] alerts three times, the last as a recovery |
| Schedule.SleepSeconds | src/main.rs:46 | The u64 product minutes*60 exists iff it fits in 64 bits; when it does, it is a whole number of minutes equal to `minutes` |
| Schedule.SleepSecondsExact | src/main.rs:46 | When it fits, the interval is exactly minutes*60 seconds |
| Alerting.Route | src/main.rs:76-88 | The message goes to the console iff the webhook URL is empty, unchanged; otherwise it is posted to that URL as text, with the bot name and the bot emoji |
| Alerting.DeliveryLog | src/main.rs:78-94 | Every delivery prints exactly one line: the message itself on the console route; on the webhook route "Sent message to slack." iff the post succeeded, otherwise "Error sending message to slack: " followed by the error |
| Alerting.ConsoleFallback | src/main.rs:78-80 | With no webhook URL, nothing is posted, and the one line printed is the message, whatever a post would have returned |
| Monitoring.Outcomes | src/main.rs:47-66 | One outcome per round, the classification of that round's probe result |
| Monitoring.NoWebhookNoPosts | src/main.rs:78-80 | With no webhook URL, a whole run posts nothing to Slack |
| Monitoring.WebhookPostsEveryAlert | src/main.rs:82-90 | With a webhook URL, a run posts exactly the alerts the state machine raises, in order, each with the bot name and emoji |
| Monitoring.DeliveryOnlyAffectsLog | src/main.rs:90-94 | Two runs that see the same probe results raise the same alerts, post the same payloads and end in the same state, whatever their posts returned |
| Monitoring.Monitor.constructor | src/main.rs:43 | A new monitor is up, and has printed and posted nothing |
| Monitoring.Monitor.SendAlert | src/main.rs:76-95 | Appends the routed delivery's log line to the console and its payload, if any, to the posts; leaves lastPingSuccessful unchanged, so a failed post never alters the state |
| Monitoring.Monitor.Tick | src/main.rs:47-66 | The new state and the returned alert are Step of the old state and the classified probe; the console gains the alert's delivery log followed by "Ping ok" on success; the posts gain the alert's payload |
| Monitoring.Run | src/main.rs:43-68 | From a fresh monitor, the per-tick trace, final state, console lines and posts equal the run functions over the rounds, and the time slept is rounds × minutes × 60 seconds; if minutes*60 overflows, the process panics before any probe |

## Left out

- The HTTP request in `ping` (src/main.rs:71-74) is network I/O. Each round carries its result as a `ProbeResult`.
- `Slack::new`, `PayloadBuilder` and `send` (src/main.rs:82-90) are a foreign library and network calls. Each round carries what `send` returns. The `unwrap` panics on a malformed webhook URL or payload are not modelled.
- The error detail printed with `{:?}` (src/main.rs:93) is an opaque string.
- Argument parsing with docopt and the usage text (src/main.rs:13-42) are external library plumbing. The model takes an already parsed `Config`.
- `thread::sleep` (src/main.rs:67) is not performed. `Run` only adds up the seconds each tick would sleep.
- The endless `loop` (src/main.rs:45) becomes a run over a finite sequence of rounds. `Run` computes the interval once rather than on every iteration; the argument is immutable, so the result is the same.
- Schedule.SleepSeconds: models checked `u64` multiplication, where an overflow panics, as in a debug build. The wrap-around of a release build is not modelled.
