/** The channel names and event names shared by the client and the server
    (lib/pusher.ts). Channel names carry an environment prefix so that the
    development and production deployments never share a channel; only the
    presence room carries the `presence-` marker the transport recognises. */
module PusherNames {
  import opened Js

  /** `ENV_PREFIX`: decided by `process.env.NODE_ENV`, which may be unset. */
  function EnvPrefix(nodeEnv: Option<string>): (p: string)
    ensures p == "dev-" || p == "prod-"
    ensures p == "dev-" <==> nodeEnv == Some("development")
  {
    if nodeEnv == Some("development") then "dev-" else "prod-"
  }

  /** `CHANNELS.CHAT` */
  function ChatChannel(nodeEnv: Option<string>): string
  {
    EnvPrefix(nodeEnv) + "chat-channel"
  }

  /** `CHANNELS.PRESENCE` */
  function PresenceChannel(nodeEnv: Option<string>): string
  {
    "presence-" + EnvPrefix(nodeEnv) + "room"
  }

  /** `CHANNELS.PAYMENT` */
  function PaymentChannel(nodeEnv: Option<string>): string
  {
    EnvPrefix(nodeEnv) + "private-payments"
  }

  /** The `EVENTS` object: property name to event name. */
  const Events: map<string, string> := map[
    "MESSAGE" := "message",
    "USER_COUNT" := "user-count",
    "PAYMENT_REQUEST" := "client-payment-request",
    "PAYMENT_CONFIRM" := "client-payment-confirm"
  ]

  /** `events[key]` on an event table: `undefined` for a property the table
      does not have. */
  function Lookup(events: map<string, string>, key: string): (r: Option<string>)
    ensures r.Some? <==> key in events
    ensures r.Some? ==> r.value == events[key]
  {
    if key in events then Some(events[key]) else None
  }

  /** `EVENTS[key]` */
  function EventName(key: string): Option<string>
  {
    Lookup(Events, key)
  }

  /** The table the broadcast endpoint's split branch is written against:
      `EVENTS` with the two split keys it reads. No file defines their
      names; the ones here follow the pattern of the existing entries, the
      key in lower case with `-` for `_` (MESSAGE is "message", USER_COUNT is
      "user-count"). */
  const EventsWithSplit: map<string, string> :=
    Events["SPLIT_JOIN" := "split-join"]["SPLIT_PAY" := "split-pay"]

  /** The presence room is the only channel with the `presence-` marker; the
      other two start with the environment prefix instead. */
  lemma ChannelPrefixes(nodeEnv: Option<string>)
    ensures "presence-" <= PresenceChannel(nodeEnv)
    ensures EnvPrefix(nodeEnv) <= ChatChannel(nodeEnv)
    ensures EnvPrefix(nodeEnv) <= PaymentChannel(nodeEnv)
    ensures !("presence-" <= ChatChannel(nodeEnv))
    ensures !("presence-" <= PaymentChannel(nodeEnv))
  {
    var p := EnvPrefix(nodeEnv);
    assert ChatChannel(nodeEnv)[0] == p[0] && PaymentChannel(nodeEnv)[0] == p[0];
    assert ("presence-")[0] == 'p';
    if p == "prod-" {
      assert ChatChannel(nodeEnv)[1] == 'r' && PaymentChannel(nodeEnv)[1] == 'r';
      assert ("presence-")[1] == 'r';
      assert ChatChannel(nodeEnv)[2] == 'o' && PaymentChannel(nodeEnv)[2] == 'o';
      assert ("presence-")[2] == 'e';
    }
  }

  /** The three channels are pairwise distinct in every environment, and no
      channel of one environment is a channel of the other. */
  lemma ChannelsDistinct(env1: Option<string>, env2: Option<string>)
    ensures ChatChannel(env1) != PresenceChannel(env2)
    ensures ChatChannel(env1) != PaymentChannel(env2)
    ensures PresenceChannel(env1) != PaymentChannel(env2)
    ensures ChatChannel(env1) == ChatChannel(env2) <==> EnvPrefix(env1) == EnvPrefix(env2)
    ensures PresenceChannel(env1) == PresenceChannel(env2) <==> EnvPrefix(env1) == EnvPrefix(env2)
    ensures PaymentChannel(env1) == PaymentChannel(env2) <==> EnvPrefix(env1) == EnvPrefix(env2)
  {
    var p1, p2 := EnvPrefix(env1), EnvPrefix(env2);
    assert ChatChannel(env1)[|p1|] == 'c';
    assert PaymentChannel(env2)[|p2|] == 'p';
    assert PresenceChannel(env1)[9] == p1[0] && PresenceChannel(env2)[9] == p2[0];
    assert ChatChannel(env1)[0] == p1[0] && ChatChannel(env2)[0] == p2[0];
    assert PaymentChannel(env1)[0] == p1[0] && PaymentChannel(env2)[0] == p2[0];
    assert ("presence-")[0] == 'p' && ("presence-")[1] == 'r' && ("presence-")[2] == 'e';
  }

  /** `EVENTS` has exactly four properties and no split-join or split-pay
      entry: reading `EVENTS.SPLIT_JOIN` or `EVENTS.SPLIT_PAY` yields
      `undefined`. */
  lemma EventKeys()
    ensures Events.Keys == {"MESSAGE", "USER_COUNT", "PAYMENT_REQUEST", "PAYMENT_CONFIRM"}
    ensures EventName("SPLIT_JOIN") == None && EventName("SPLIT_PAY") == None
    ensures EventName("MESSAGE") == Some("message")
  {
  }

  /** Both payment events are client events: their names start with `client-`. */
  lemma PaymentEventsAreClientEvents()
    ensures "client-" <= Events["PAYMENT_REQUEST"]
    ensures "client-" <= Events["PAYMENT_CONFIRM"]
    ensures !("client-" <= Events["MESSAGE"]) && !("client-" <= Events["USER_COUNT"])
  {
    assert Events["MESSAGE"][0] == 'm' && Events["USER_COUNT"][0] == 'u';
  }
}
