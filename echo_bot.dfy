/** The plain chat-bot base class: it answers every message by echoing it. */
module EchoBot {
  import opened Wrappers

  const EchoPrefix := "Echo: "

  /** `respond_to(message)`: the message behind the echo prefix. */
  function RespondTo(message: string): (r: string)
    ensures |r| == |EchoPrefix| + |message|
    ensures r[..|EchoPrefix|] == EchoPrefix && r[|EchoPrefix|..] == message
  {
    EchoPrefix + message
  }

  /** What an echo reply repeats, or `None` for text that is not an echo reply. */
  function EchoedMessage(reply: string): (m: Option<string>)
    ensures m.Some? <==> |reply| >= |EchoPrefix| && reply[..|EchoPrefix|] == EchoPrefix
  {
    if |reply| >= |EchoPrefix| && reply[..|EchoPrefix|] == EchoPrefix then Some(reply[|EchoPrefix|..]) else None
  }

  /** The echo gives the message back unaltered. */
  lemma EchoRoundTrip(message: string)
    ensures EchoedMessage(RespondTo(message)) == Some(message)
  {
  }

  /** Different messages get different replies. */
  lemma EchoInjective(a: string, b: string)
    requires RespondTo(a) == RespondTo(b)
    ensures a == b
  {
    EchoRoundTrip(a);
    EchoRoundTrip(b);
  }
}
