/** The channel authorization endpoint `POST /api/pusher/auth`
    (app/api/pusher/auth/route.ts). A signed-in caller gets the transport's
    signed authorization for whatever socket and channel the body names,
    with presence metadata built from the session alone.

    `pusher.authorizeChannel` is a call into the transport library: the model
    records the call the handler makes and takes its result from the
    parameter `authorize` (`None` when it throws). */
module AuthRoute {
  import opened Js
  import opened AuthSession

  /** `presenceData`: `user_id` and the two `user_info` entries. */
  datatype PresenceData = PresenceData(userId: string, verificationLevel: string, username: string)

  /** One call `pusher.authorizeChannel(socketId, channel, presenceData)`;
      the two first arguments are JavaScript values and may be `undefined`. */
  datatype AuthorizeCall = AuthorizeCall(socketId: Option<Json>, channelName: Option<Json>, presence: PresenceData)

  /** What `authorizeChannel` returns: `{ auth, channel_data }`. */
  datatype Signature = Signature(auth: string, channelData: string)

  /** The call the handler made, if any, and the response it returned. */
  datatype Outcome = Outcome(call: Option<AuthorizeCall>, response: Response)

  /** `presenceData` for a session user. */
  function Presence(user: SessionUser): (p: PresenceData)
    ensures p.userId == user.id && p.verificationLevel == user.verificationLevel
    ensures p.username == DefaultUsername(user.id)
  {
    PresenceData(user.id, user.verificationLevel, DefaultUsername(user.id))
  }

  /** `POST`: 401 without a session user, 500 when the body cannot be read or
      the authorizer throws, otherwise the authorizer's signature. */
  function Post(user: Option<SessionUser>, body: Body,
                authorize: AuthorizeCall -> Option<Signature>): (o: Outcome)
    ensures o.response.status in {200, 401, 500}
    ensures o.response.status == 401 <==> user.None?
    ensures o.response.status == 401 ==> o.call == None && o.response.body == ErrorBody("Unauthorized")
    ensures o.call.Some? <==> user.Some? && body.Parsed? && !body.value.JNull?
    ensures o.call.Some? ==>
      o.call.value == AuthorizeCall(GetField(body.value, "socket_id"), GetField(body.value, "channel_name"),
                                    Presence(user.value))
    ensures o.response.status == 200 <==> o.call.Some? && authorize(o.call.value).Some?
    ensures o.response.status == 200 ==>
      o.response.body == AuthorizedBody(authorize(o.call.value).value.auth, authorize(o.call.value).value.channelData)
    ensures o.response.status == 500 ==> o.response.body == ErrorBody("Auth failed")
  {
    match user
    case None => Outcome(None, Response(401, ErrorBody("Unauthorized")))
    case Some(u) =>
      match body
      case Unparseable =>
        // `await req.json()` throws
        Outcome(None, Response(500, ErrorBody("Auth failed")))
      case Parsed(data) =>
        if data.JNull? then
          // reading `data.socket_id` off `null` throws a TypeError
          Outcome(None, Response(500, ErrorBody("Auth failed")))
        else
          var call := AuthorizeCall(GetField(data, "socket_id"), GetField(data, "channel_name"), Presence(u));
          match authorize(call)
          case Some(s) => Outcome(Some(call), Response(200, AuthorizedBody(s.auth, s.channelData)))
          case None => Outcome(Some(call), Response(500, ErrorBody("Auth failed")))
  }

  /** The `username` the client sends is only logged: two requests that
      differ in it, or in a claimed `user_id`, get the same outcome. */
  lemma {:induction false} ClientUsernameIgnored(user: Option<SessionUser>, fields: map<string, Json>,
                                                claimedName: Json, claimedId: Json,
                                                authorize: AuthorizeCall -> Option<Signature>)
    ensures Post(user, Parsed(JObject(fields["username" := claimedName]["user_id" := claimedId])), authorize)
         == Post(user, Parsed(JObject(fields)), authorize)
  {
    var claimed := JObject(fields["username" := claimedName]["user_id" := claimedId]);
    assert GetField(claimed, "socket_id") == GetField(JObject(fields), "socket_id");
    assert GetField(claimed, "channel_name") == GetField(JObject(fields), "channel_name");
  }

  /** No channel name is checked: for a signed-in caller, any channel the
      body names, presence room or not, is handed to the authorizer, whose
      verdict alone decides between 200 and 500. */
  lemma {:induction false} NoChannelCheck(user: SessionUser, fields: map<string, Json>, channel: Json,
                                         authorize: AuthorizeCall -> Option<Signature>)
    ensures var o := Post(Some(user), Parsed(JObject(fields["channel_name" := channel])), authorize);
      && o.call.Some?
      && o.call.value.channelName == Some(channel)
      && (o.response.status == 200 <==> authorize(o.call.value).Some?)
  {
    assert GetField(JObject(fields["channel_name" := channel]), "channel_name") == Some(channel);
  }
}
