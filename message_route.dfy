/** The broadcast endpoint `POST /api/pusher/message`
    (app/api/pusher/message/route.ts). It checks the session, then either
    republishes a split event or stamps a chat message with the session's
    identity and publishes it on the chat channel.

    `pusher.trigger` is a call into the transport: the model records the call
    the handler makes and takes its outcome (resolved or rejected) from the
    parameter `trigger`. The wall clock is the parameter `now`, the
    ISO-8601 text `new Date().toISOString()` yields. */
module MessageRoute {
  import opened Js
  import opened AuthSession
  import opened PusherNames

  /** The data object handed to `pusher.trigger` (the split payload's
      `userId` is `forwardedUserId` here); a `None` field is a
      property whose value is `undefined`, which the transport's JSON
      serialisation omits. */
  datatype Payload =
    | SplitPayload(forwardedUserId: Option<Json>, messageTimestamp: Option<Json>)
    | MessagePayload(message: Option<Json>, userId: string, username: Option<Json>,
                     verificationLevel: string, timestamp: string, receipt: Option<Json>)

  /** One call `pusher.trigger(channel, event, payload)`; `event` is a
      JavaScript value and may be `undefined`. */
  datatype Trigger = Trigger(channel: string, event: Option<Json>, payload: Payload)

  /** The call the handler made, if any, and the response it returned. */
  datatype Outcome = Outcome(triggered: Option<Trigger>, response: Response)

  /** The branch test `type === events.SPLIT_JOIN || type === events.SPLIT_PAY`
      against a given event table. */
  predicate IsSplitType(events: map<string, string>, eventType: Option<Json>)
  {
    StrictEquals(eventType, AsJs(Lookup(events, "SPLIT_JOIN")))
    || StrictEquals(eventType, AsJs(Lookup(events, "SPLIT_PAY")))
  }

  /** The message payload: identity and verification level from the session,
      text and display name from the body, `receipt` only when the body's is
      truthy. */
  function MessageData(user: SessionUser, data: Json, now: string): (p: Payload)
    ensures p.MessagePayload?
    ensures p.userId == user.id && p.verificationLevel == user.verificationLevel
    ensures p.message == GetField(data, "message") && p.username == GetField(data, "username")
    ensures p.timestamp == now
    ensures p.receipt.Some? <==> Truthy(GetField(data, "receipt"))
    ensures p.receipt.Some? ==> p.receipt == GetField(data, "receipt")
  {
    var receipt := GetField(data, "receipt");
    MessagePayload(GetField(data, "message"), user.id, GetField(data, "username"),
                   user.verificationLevel, now, if Truthy(receipt) then receipt else None)
  }

  /** The handler written against an event table `events`; the deployed
      handler is `Post`, which uses `EVENTS`. */
  function PostWith(events: map<string, string>, nodeEnv: Option<string>,
                    user: Option<SessionUser>, body: Body, now: string,
                    trigger: Trigger -> bool): (o: Outcome)
    ensures o.response.status in {200, 401, 500}
    ensures o.response.status == 401 <==> !SignedIn(user)
    ensures o.response.status == 401 ==> o.triggered == None && o.response.body == ErrorBody("Unauthorized")
    ensures o.triggered.Some? <==> SignedIn(user) && body.Parsed? && !body.value.JNull?
    ensures o.triggered.Some? ==> o.triggered.value.channel == ChatChannel(nodeEnv)
    ensures o.response.status == 200 <==> o.triggered.Some? && trigger(o.triggered.value)
    ensures o.response.status == 200 ==> o.response.body == SuccessBody
    ensures o.response.status == 500 ==> o.response.body == ErrorBody("Failed to send message")
  {
    if !SignedIn(user) then
      Outcome(None, Response(401, ErrorBody("Unauthorized")))
    else
      match body
      case Unparseable =>
        // `await req.json()` throws
        Outcome(None, Response(500, ErrorBody("Failed to send message")))
      case Parsed(data) =>
        if data.JNull? then
          // destructuring `null` throws a TypeError
          Outcome(None, Response(500, ErrorBody("Failed to send message")))
        else
          var eventType := GetField(data, "type");
          var t :=
            if IsSplitType(events, eventType) then
              Trigger(ChatChannel(nodeEnv), eventType,
                      SplitPayload(GetField(data, "userId"), GetField(data, "messageTimestamp")))
            else
              Trigger(ChatChannel(nodeEnv), AsJs(EventName("MESSAGE")),
                      MessageData(user.value, data, now));
          if trigger(t) then Outcome(Some(t), Response(200, SuccessBody))
          else Outcome(Some(t), Response(500, ErrorBody("Failed to send message")))
  }

  /** `POST` as deployed. */
  function Post(nodeEnv: Option<string>, user: Option<SessionUser>, body: Body, now: string,
                trigger: Trigger -> bool): Outcome
  {
    PostWith(Events, nodeEnv, user, body, now, trigger)
  }

  /** With `EVENTS` lacking both split keys, the split test compares `type`
      with `undefined`: it holds exactly when the body has no `type`. */
  lemma SplitTestIsUndefinedTest(eventType: Option<Json>)
    ensures IsSplitType(Events, eventType) <==> eventType == None
  {
    EventKeys();
  }

  /** As deployed, a body without `type` takes the split branch and is
      published under the event name `undefined`; a body with any `type`,
      including "split-join" and "split-pay", is published as a chat
      message. */
  lemma {:induction false} SplitBranchIffTypeMissing(nodeEnv: Option<string>, user: Option<SessionUser>,
                                                    data: Json, now: string, trigger: Trigger -> bool)
    requires SignedIn(user) && !data.JNull?
    ensures Post(nodeEnv, user, Parsed(data), now, trigger).triggered.Some?
    ensures var t := Post(nodeEnv, user, Parsed(data), now, trigger).triggered.value;
      && (t.payload.SplitPayload? <==> GetField(data, "type") == None)
      && (t.payload.SplitPayload? ==> t.event == None)
      && (t.payload.MessagePayload? ==> t.event == Some(JStr("message")))
  {
    SplitTestIsUndefinedTest(GetField(data, "type"));
    EventKeys();
  }

  /** Two concrete bodies from a signed-in user: a split-join request is
      published as a chat message, and a plain chat line without `type` is
      published as a split event with an `undefined` event name. */
  lemma SplitJoinBodyBecomesMessage(nodeEnv: Option<string>, user: SessionUser, now: string,
                                    trigger: Trigger -> bool)
    requires user.id != ""
    ensures var join := JObject(map["type" := JStr("split-join"), "userId" := JStr("x"),
                                    "messageTimestamp" := JStr("t")]);
      Post(nodeEnv, Some(user), Parsed(join), now, trigger).triggered
        == Some(Trigger(ChatChannel(nodeEnv), Some(JStr("message")), MessageData(user, join, now)))
    ensures var chat := JObject(map["message" := JStr("hi"), "username" := JStr("ab")]);
      Post(nodeEnv, Some(user), Parsed(chat), now, trigger).triggered
        == Some(Trigger(ChatChannel(nodeEnv), None, SplitPayload(None, None)))
  {
    var join := JObject(map["type" := JStr("split-join"), "userId" := JStr("x"),
                            "messageTimestamp" := JStr("t")]);
    var chat := JObject(map["message" := JStr("hi"), "username" := JStr("ab")]);
    SplitTestIsUndefinedTest(GetField(join, "type"));
    SplitTestIsUndefinedTest(GetField(chat, "type"));
    EventKeys();
  }

  /** The split branch forwards `userId` and `messageTimestamp` from the
      untrusted body: which signed-in user sends the request makes no
      difference to what is published. */
  lemma {:induction false} SplitForwardsBodyIdentity(nodeEnv: Option<string>, u1: SessionUser, u2: SessionUser,
                                                    data: Json, now: string, trigger: Trigger -> bool)
    requires u1.id != "" && u2.id != "" && !data.JNull?
    requires GetField(data, "type") == None
    ensures Post(nodeEnv, Some(u1), Parsed(data), now, trigger).triggered
         == Some(Trigger(ChatChannel(nodeEnv), None,
                         SplitPayload(GetField(data, "userId"), GetField(data, "messageTimestamp"))))
    ensures Post(nodeEnv, Some(u1), Parsed(data), now, trigger)
         == Post(nodeEnv, Some(u2), Parsed(data), now, trigger)
  {
    SplitTestIsUndefinedTest(None);
  }

  /** The message branch stamps the session's id and verification level:
      whatever `userId` or `verification_level` the body claims changes
      nothing in the request's outcome. */
  lemma {:induction false} MessageIgnoresClaimedIdentity(nodeEnv: Option<string>, user: SessionUser,
                                                        fields: map<string, Json>, claimedId: Json,
                                                        claimedLevel: Json, now: string,
                                                        trigger: Trigger -> bool)
    requires user.id != "" && "type" in fields
    ensures var o := Post(nodeEnv, Some(user), Parsed(JObject(fields)), now, trigger);
      && o.triggered.Some?
      && o.triggered.value.payload == MessageData(user, JObject(fields), now)
    ensures Post(nodeEnv, Some(user),
                 Parsed(JObject(fields["userId" := claimedId]["verification_level" := claimedLevel])), now, trigger)
         == Post(nodeEnv, Some(user), Parsed(JObject(fields)), now, trigger)
  {
    var claimed := JObject(fields["userId" := claimedId]["verification_level" := claimedLevel]);
    SplitTestIsUndefinedTest(GetField(JObject(fields), "type"));
    assert GetField(claimed, "type") == GetField(JObject(fields), "type");
    assert GetField(claimed, "message") == GetField(JObject(fields), "message");
    assert GetField(claimed, "username") == GetField(JObject(fields), "username");
    assert GetField(claimed, "receipt") == GetField(JObject(fields), "receipt");
  }

  /** With the split events defined, the branch test matches exactly the two
      split event names, and a body without `type` is a chat message. */
  lemma SplitTestWithSplitEvents(eventType: Option<Json>)
    ensures IsSplitType(EventsWithSplit, eventType)
        <==> eventType == Some(JStr("split-join")) || eventType == Some(JStr("split-pay"))
  {
    assert Lookup(EventsWithSplit, "SPLIT_JOIN") == Some("split-join");
    assert Lookup(EventsWithSplit, "SPLIT_PAY") == Some("split-pay");
  }

  /** The handler against the table with split events: split events are
      published under their own name, everything else as a chat message. */
  lemma {:induction false} SplitBranchWithSplitEvents(nodeEnv: Option<string>, user: Option<SessionUser>,
                                                     data: Json, now: string, trigger: Trigger -> bool)
    requires SignedIn(user) && !data.JNull?
    ensures var t := PostWith(EventsWithSplit, nodeEnv, user, Parsed(data), now, trigger).triggered.value;
      && (t.payload.SplitPayload?
          <==> GetField(data, "type") in {Some(JStr("split-join")), Some(JStr("split-pay"))})
      && (t.payload.SplitPayload? ==> t.event == GetField(data, "type"))
      && (GetField(data, "type") == None ==> t.payload.MessagePayload?)
  {
    SplitTestWithSplitEvents(GetField(data, "type"));
  }
}
