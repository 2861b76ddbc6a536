/** The live content channel: its name, the cable endpoint URL, and which
    subscriptions a sequence of outbound calls leaves open. */
module Channel {
  import opened Values

  const Suffix: string := "Channel"

  /** The channel a widget subscribes to: its `_class_name` followed by
      `Channel`. */
  function ChannelName(className: string): (r: string) {
    className + Suffix
  }

  /** Distinct class names give distinct channels, so a widget removes the
      channel it subscribed to exactly when its class name is the same. */
  lemma ChannelNameInjective(a: string, b: string)
    ensures ChannelName(a) == ChannelName(b) <==> a == b
  {
    if ChannelName(a) == ChannelName(b) {
      assert (a + Suffix)[..|a|] == a && (b + Suffix)[..|b|] == b;
    }
  }

  /** The scheme: secure WebSocket exactly when the page is served over HTTPS. */
  function Scheme(protocol: string): (r: string) {
    if protocol == "https:" then "wss://" else "ws://"
  }

  /** The cable endpoint built from the page location. */
  function CableUrl(protocol: string, hostname: string, port: string): (r: string) {
    Scheme(protocol) + (hostname + ":" + port) + "/cable"
  }

  /** The cable endpoint is secure exactly for an HTTPS page, carries the
      page's host and port between the scheme and the path, and ends in
      `/cable`. */
  lemma CableUrlParts(protocol: string, hostname: string, port: string)
    ensures var r := CableUrl(protocol, hostname, port);
      && |r| == |Scheme(protocol)| + |hostname| + 1 + |port| + 6
      && ((protocol == "https:") <==> r[..6] == "wss://")
      && (protocol != "https:" ==> r[..5] == "ws://")
      && r[|Scheme(protocol)|..|r| - 6] == hostname + ":" + port
      && r[|r| - 6..] == "/cable"
  {
    var scheme := Scheme(protocol);
    var r := CableUrl(protocol, hostname, port);
    assert r[..|scheme|] == scheme;
    assert r[|scheme|..|r| - 6] == hostname + ":" + port;
    // the third character tells the two schemes apart
    assert r[2] == scheme[2];
  }

  /** The open subscriptions after one more outbound call: a subscribe adds
      its channel once, a removal takes one copy of its channel away. */
  ghost function AfterCall(open: multiset<string>, e: Event): (r: multiset<string>) {
    if e.Subscribe? then open + multiset{e.channel}
    else if e.Unsubscribe? then open - multiset{e.channel}
    else open
  }

  /** The channels a sequence of outbound calls leaves subscribed, with their
      multiplicity. */
  ghost function OpenSubscriptions(log: seq<Event>): (r: multiset<string>) {
    if log == [] then multiset{} else AfterCall(OpenSubscriptions(log[..|log| - 1]), log[|log| - 1])
  }

  lemma OpenSubscriptionsAppend(log: seq<Event>, e: Event)
    ensures OpenSubscriptions(log + [e]) == AfterCall(OpenSubscriptions(log), e)
  {
    assert (log + [e])[..|log|] == log;
  }

  /** Subscribing with nothing open leaves exactly that channel open. */
  lemma SubscribeOpens(log: seq<Event>, c: string, widgetId: int)
    requires OpenSubscriptions(log) == multiset{}
    ensures OpenSubscriptions(log + [Subscribe(c, widgetId)]) == multiset{c}
  {
    OpenSubscriptionsAppend(log, Subscribe(c, widgetId));
  }

  /** A removal takes one copy of its channel away, if there is one. */
  lemma UnsubscribeCloses(log: seq<Event>, c: string)
    ensures OpenSubscriptions(log + [Unsubscribe(c)]) == OpenSubscriptions(log) - multiset{c}
  {
    OpenSubscriptionsAppend(log, Unsubscribe(c));
  }

  /** Calls other than subscribing and removing leave the subscriptions alone. */
  lemma OtherCallKeepsOpen(log: seq<Event>, e: Event)
    requires !e.Subscribe? && !e.Unsubscribe?
    ensures OpenSubscriptions(log + [e]) == OpenSubscriptions(log)
  {
    OpenSubscriptionsAppend(log, e);
  }
}
