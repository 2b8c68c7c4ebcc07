/** `send_alert` of src/main.rs: where an alert message goes (the console
    when no Slack webhook is configured, otherwise a webhook post carrying
    text, bot name and bot emoji) and what is logged about it. */
module Alerting {
  import opened Schedule

  /** The validated command-line arguments. */
  datatype Config = Config(
    url: string,
    minutes: u64,
    slackUrl: string,
    botName: string,
    botEmoji: string)

  /** The three fields of a Slack webhook payload. */
  datatype Payload = Payload(text: string, username: string, iconEmoji: string)

  /** Where one alert is delivered. */
  datatype Delivery = ToConsole(line: string) | ToSlack(webhook: string, payload: Payload)

  /** What posting to the webhook returned. */
  datatype SendResult = Delivered | DeliveryFailed(error: string)

  const SENT_LOG := "Sent message to slack."
  const SEND_ERROR_PREFIX := "Error sending message to slack: "

  /** The routing rule: an empty webhook URL sends the message to the console. */
  function Route(c: Config, message: string): (d: Delivery)
    ensures d.ToConsole? <==> c.slackUrl == []
    // nothing is lost or rewritten on the way: the console gets the message
    // itself, the webhook gets it as the payload text under the bot's identity
    ensures d.ToConsole? ==> d.line == message
    ensures d.ToSlack? ==>
      d.webhook == c.slackUrl && d.payload == Payload(message, c.botName, c.botEmoji)
  {
    if c.slackUrl == [] then ToConsole(message)
    else ToSlack(c.slackUrl, Payload(message, c.botName, c.botEmoji))
  }

  /** The payloads a delivery posts to Slack. */
  function Posts(d: Delivery): (payloads: seq<Payload>)
  {
    if d.ToSlack? then [d.payload] else []
  }

  /** The console lines a delivery prints, given what the webhook returned
      (ignored for a console delivery, which cannot fail). */
  function DeliveryLog(d: Delivery, sent: SendResult): (lines: seq<string>)
    // every delivery prints exactly one line, whether or not a post succeeded
    ensures |lines| == 1
    // a console delivery prints the message itself; a post prints only its fate
    ensures d.ToConsole? ==> lines == [d.line]
    ensures d.ToSlack? ==> (lines == [SENT_LOG] <==> sent.Delivered?)
    // a failed post is logged with its error, and nothing else happens
    ensures d.ToSlack? && sent.DeliveryFailed? ==> lines == [SEND_ERROR_PREFIX + sent.error]
  {
    match d
    case ToConsole(line) => [line]
    case ToSlack(_, _) =>
      match sent
      case Delivered => [SENT_LOG]
      case DeliveryFailed(e) => [SEND_ERROR_PREFIX + e]
  }

  /** With no webhook configured nothing is posted, and the message is the one
      line printed, whatever a webhook would have returned. */
  lemma ConsoleFallback(c: Config, message: string, sent: SendResult)
    requires c.slackUrl == []
    ensures Posts(Route(c, message)) == []
    ensures DeliveryLog(Route(c, message), sent) == [message]
  {
  }
}
