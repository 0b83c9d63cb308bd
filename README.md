# Realtime chat and bill-split core, modelled in Dafny

This project models the decision logic and client state of a small group-chat
application. Signed-in World ID users chat on a Pusher channel, see who is
online through a presence channel, and can join and pay a split of a scanned
receipt. The model covers these parts:

- **Channel and event names** (`PusherNames`, lib/pusher.ts). Environment-prefixed
  channel names and the `EVENTS` table. The table has no split events.
- **Route guard** (`RouteGuard`, middleware.ts). A redirect decision from
  "has a token" and the pathname.
- **Broadcast endpoint** (`MessageRoute`, `POST /api/pusher/message`). It goes
  from session, parsed body, clock and transport outcome to the `pusher.trigger`
  call made and the HTTP response.
- **Channel authorizer** (`AuthRoute`, `POST /api/pusher/auth`). It goes from
  session, parsed body and authorizer outcome to the `authorizeChannel` call
  made and the HTTP response.
- **Receipt card status** (`ReceiptCard`). These are the viewer's three-state
  split status (not joined, joined and unpaid, paid), the row marks, the
  button's presence, action, label and disabled state, the split heading, and
  the payment-modal flag as a class.
- **Chat client state** (`Chat.ChatState`). A class with the online counter,
  the id-to-name map, the message list, the display name, the draft and the
  name editor flag. It has one method per transport callback and form handler.
  Pure helpers give the initial name, the send guard, name acceptance and the
  display-name fallback.
- `Js` holds the JavaScript semantics these depend on. It covers parsed JSON
  values, property reads that may be `undefined`, truthiness, `===`, `trim()`,
  `slice(-4)` and JSON responses. `AuthSession` holds the session user and
  the default name (the last four characters of the id).

External calls are parameters. `pusher.trigger` is `trigger: Trigger -> bool`
and `authorizeChannel` is `authorize: AuthorizeCall -> Option<Signature>`.
The route functions record the exact call they make, so pass-through and
stamping can be stated. The wall clock is the parameter `now`.
`getServerSession` and `getToken` are inputs. `process.env.NODE_ENV` is the
parameter `nodeEnv`.

Facts about the code that shape the model:

- The authorizer never looks at the channel name. Any signed-in caller is
  authorized for whatever channel the body names. Its only outcomes are 200,
  401 and 500.
- The broadcast endpoint's split branch publishes the `userId` from the
  request body, not the session's.
- The broadcast endpoint publishes the body's fields without checking them.
  Its only outcomes are 200, 401 and 500.
- The presence counter is floored at 1 only on member removal
  (Chat.tsx:87). A snapshot count replaces it as is (Chat.tsx:71).
- The chat client binds only the `message` event (Chat.tsx:98). No file
  handles a split event, so no split reducer is modelled.
- The pay button is still rendered once the viewer has paid. It is then
  disabled and labelled `Paid ✓` (ReceiptCard.tsx:127-130).

## Model

| member | source | states |
|---|---|---|
| PusherNames.EnvPrefix | lib/pusher.ts:40 | The prefix is "dev-" exactly when NODE_ENV is "development", and "prod-" otherwise, including when NODE_ENV is unset |
| PusherNames.ChannelPrefixes | lib/pusher.ts:42-46 | The presence channel starts with "presence-". The chat and payment channels start with the environment prefix, and neither starts with "presence-" |
| PusherNames.ChannelsDistinct | lib/pusher.ts:42-46 | The three channels are pairwise distinct in every pair of environments. A channel name is shared between two environments exactly when their prefixes agree |
| PusherNames.EventKeys | lib/pusher.ts:48-53 | EVENTS has exactly the keys MESSAGE, USER_COUNT, PAYMENT_REQUEST and PAYMENT_CONFIRM. SPLIT_JOIN and SPLIT_PAY read as undefined. MESSAGE is "message" |
| PusherNames.PaymentEventsAreClientEvents | lib/pusher.ts:50-52 | Both payment event names start with "client-". The other two do not |
| PusherNames.Lookup | lib/pusher.ts:48-53 | A read of an event table's own key gives that key's name, and a read of any other key gives undefined |
| RouteGuard.Decide | middleware.ts:5-19 | A redirect to "/chat" happens exactly with a token on "/". A redirect to "/" happens exactly without a token on a path that starts with "/chat". Every redirect targets one of those two paths |
| RouteGuard.RulesExclusive | middleware.ts:9-18 | The two rules never both apply. The request passes through exactly when neither applies |
| RouteGuard.NoRedirectLoop | middleware.ts:9-18 | With the token state unchanged, following a redirect's target passes through |
| RouteGuard.GuardIsPrefixTest | middleware.ts:14 | The guard is a case-sensitive prefix test. "/chatroom" and "/chat/x" are guarded, "/Chat" and "/" are not, and a signed-in "/chat" passes |
| MessageRoute.MessageData | app/api/pusher/message/route.ts:26-33 | The chat payload takes userId and verification_level from the session and message and username from the body. The timestamp is the clock. receipt is present exactly when the body's receipt is truthy, and then it is that receipt |
| MessageRoute.PostWith | app/api/pusher/message/route.ts:6-41 | The status is 401, 200 or 500. 401 happens exactly when there is no session user id; it carries "Unauthorized" and nothing is published. A trigger is attempted exactly when authenticated and the body parsed to a non-null value. Every trigger goes to CHANNELS.CHAT. 200 with {success: true} happens exactly when the attempted trigger resolved. Every 500 carries "Failed to send message" |
| MessageRoute.SplitTestIsUndefinedTest | app/api/pusher/message/route.ts:17 | As deployed, the split test holds exactly when `type` is undefined |
| MessageRoute.SplitBranchIffTypeMissing | app/api/pusher/message/route.ts:13-35 | For a signed-in caller and a non-null body, the split payload is published exactly when the body has no `type`, and then under the event name undefined. Any other body is published as "message" |
| MessageRoute.SplitJoinBodyBecomesMessage | app/api/pusher/message/route.ts:17-35 | A body with type "split-join" is published as a chat message. A body without `type` is published as a split event named undefined with an empty payload |
| MessageRoute.SplitForwardsBodyIdentity | app/api/pusher/message/route.ts:17-22 | The split branch publishes exactly {userId, messageTimestamp} copied from the body. The outcome is the same whichever signed-in user sends it |
| MessageRoute.MessageIgnoresClaimedIdentity | app/api/pusher/message/route.ts:26-35 | The message branch publishes MessageData for the session user. Changing the body's claimed userId or verification_level leaves the outcome unchanged |
| MessageRoute.SplitTestWithSplitEvents | app/api/pusher/message/route.ts:17 | With the split events defined, the split test holds exactly for "split-join" and "split-pay" |
| MessageRoute.SplitBranchWithSplitEvents | app/api/pusher/message/route.ts:17-35 | With the split events defined, the split payload is published exactly for those two types and under that type's name. A body without `type` becomes a chat message |
| AuthSession.DefaultUsername | components/Chat.tsx:29 | `id.slice(-4)` is the last min(4, length) characters of the id, and the id ends with it |
| AuthRoute.Presence | app/api/pusher/auth/route.ts:34-40 | user_id and verification_level come from the session. The presence username is the last four characters of the session id |
| AuthRoute.Post | app/api/pusher/auth/route.ts:6-57 | 401 "Unauthorized" happens exactly without a session user, and then authorizeChannel is not called. authorizeChannel is called exactly when the body parsed to a non-null value, with the body's socket_id and channel_name unchanged and the session's presence data. 200 with the signature happens exactly when the authorizer succeeds. Every other failure is 500 "Auth failed" |
| AuthRoute.ClientUsernameIgnored | app/api/pusher/auth/route.ts:26-38 | The client-sent username and user_id have no effect on the outcome |
| AuthRoute.NoChannelCheck | app/api/pusher/auth/route.ts:30-44 | Any channel name the body carries reaches the authorizer unchanged. Its verdict alone decides between 200 and 500 |
| ReceiptCard.FindFrom | components/Receipt/ReceiptCard.tsx:38 | `find` returns the first index with the id, with no match before it, or no index when no participant has the id |
| ReceiptCard.CurrentParticipant | components/Receipt/ReceiptCard.tsx:38 | A participant is found exactly when the viewer id is truthy and some participant carries it. The one found is the first participant with the viewer id: it carries the id and no earlier participant does |
| ReceiptCard.ViewerStatus | components/Receipt/ReceiptCard.tsx:39-43 | The status is Paid exactly when hasPaid, NotJoined exactly when not hasJoined, and JoinedUnpaid otherwise. So paid implies joined |
| ReceiptCard.InitiatorIsPaid | components/Receipt/ReceiptCard.tsx:39-43 | The initiator is paid and has no join/pay button, whatever the participant list holds |
| ReceiptCard.NonInitiatorStatusFromFirstMatch | components/Receipt/ReceiptCard.tsx:38-43 | A non-initiator listed with a truthy id has joined. Their status is Paid or JoinedUnpaid by the hasPaid of the first participant with their id |
| ReceiptCard.NotListedNotJoined | components/Receipt/ReceiptCard.tsx:38-43 | A non-initiator who has no truthy id or is not listed is NotJoined |
| ReceiptCard.OwnRowAgreesWithStatus | components/Receipt/ReceiptCard.tsx:92 | For a non-initiator, the paid mark on their first row agrees with their status being Paid |
| ReceiptCard.MissingIdsMeanInitiator | components/Receipt/ReceiptCard.tsx:39 | Without both currentUserId and initiatorId, the viewer counts as initiator. They are then paid and get no button |
| ReceiptCard.OnClick | components/Receipt/ReceiptCard.tsx:120-126 | The click calls onJoin exactly when NotJoined and opens the payment modal exactly when JoinedUnpaid. It does nothing exactly when Paid |
| ReceiptCard.DisabledIffNoAction | components/Receipt/ReceiptCard.tsx:120-127 | The button is disabled exactly when its handler would do nothing |
| ReceiptCard.ButtonLabel | components/Receipt/ReceiptCard.tsx:130 | The label is "Join Split", "Pay 0.1 WLD" or "Paid ✓", each in exact correspondence with the three statuses |
| ReceiptCard.Heading | components/Receipt/ReceiptCard.tsx:80 | The heading is "Split N ways" exactly when connectedUsers > 1, with N = connectedUsers. Otherwise it is "Participants" |
| ReceiptCard.PerHeadAmountWithSplitHeading | components/Receipt/ReceiptCard.tsx:80-86 | The per-head amount is shown exactly with the "Split N ways" heading, and then N is at least 2 |
| ReceiptCard.PaymentModalState.constructor | components/Receipt/ReceiptCard.tsx:35 | The modal starts closed |
| ReceiptCard.PaymentModalState.Click | components/Receipt/ReceiptCard.tsx:120-126 | The click returns the handler's action. The modal becomes open exactly when it was open or the viewer is JoinedUnpaid |
| ReceiptCard.PaymentModalState.Close | components/Receipt/ReceiptCard.tsx:155 | Closing the modal closes it |
| ReceiptCard.PaymentModalState.PaymentSucceeded | components/Receipt/ReceiptCard.tsx:156-159 | A successful payment closes the modal |
| Js.Trim | components/Chat.tsx:129 | `trim()` gives an empty result exactly when every character is JavaScript whitespace. Otherwise the result starts and ends with a non-whitespace character |
| Js.TrimIsSlice | components/Chat.tsx:129 | `trim()` returns the slice of the input between a whitespace prefix and a whitespace suffix. With the ends of a non-empty result being non-whitespace, this fixes the result's characters |
| Js.TrimIdempotent | components/Chat.tsx:213-215 | Trimming a trimmed name changes nothing |
| Chat.InitialName | components/Chat.tsx:28-30 | A non-empty saved name wins. Otherwise the name is the last four characters of the id, a suffix of it. The name is empty only when both are empty |
| Chat.CanSendIff | components/Chat.tsx:129 | A send happens exactly when the draft has a non-whitespace character, there is a session and the display name is non-empty |
| Chat.AcceptedName | components/Chat.tsx:213-217 | A name edit is accepted exactly when the draft has a non-whitespace character. The accepted name is the trimmed draft: non-empty, already trimmed, with no whitespace at either end |
| Chat.SnapshotNamesKeys | components/Chat.tsx:74-77 | The snapshot map's keys are exactly the members' ids |
| Chat.SnapshotNamesLast | components/Chat.tsx:75-77 | Each id maps to the username of the last member with that id |
| Chat.SnapshotNameWins | components/Chat.tsx:74-78 | After the merge, an id in the snapshot takes the snapshot's name, that of the last member with the id |
| Chat.SnapshotKeepsOthers | components/Chat.tsx:74-78 | After the merge, an id absent from the snapshot, possibly empty, keeps its old entry, or stays absent |
| Chat.DisplayNameIn | components/Chat.tsx:147-149 | A non-empty map entry for the sender wins. Otherwise, including when the entry is empty, the result is the message's own username. It is empty only when that username is |
| Chat.DisplayNameAfterMemberAdded | components/Chat.tsx:83 | After member-added, the member's messages show the new non-empty name. Other senders' display names are unchanged |
| Chat.ChatState.constructor | components/Chat.tsx:16-21 | The counter starts at 1. The map, message list, display name and draft start empty, and the editor starts closed |
| Chat.ChatState.DisplayName | components/Chat.tsx:147-149 | getDisplayName shows the current map's entry for the sender when it is non-empty, and otherwise the name the message carries |
| Chat.ChatState.OnSessionLoaded | components/Chat.tsx:26-35 | With a truthy session id, the initial name becomes the display name and the viewer's map entry. Otherwise nothing changes |
| Chat.ChatState.OnUsernameChanged | components/Chat.tsx:38-41 | A non-empty display name with a truthy session id becomes the viewer's map entry. Otherwise the map is unchanged |
| Chat.ChatState.TypeName | components/Chat.tsx:180 | The input's raw text becomes the display name, untrimmed |
| Chat.ChatState.StartEditingName | components/Chat.tsx:248 | The pencil button opens the name editor |
| Chat.ChatState.SubmitNameEdit | components/Chat.tsx:211-229 | The edit is accepted exactly when AcceptedName accepts. Then the name is trimmed and the editor closes. Otherwise nothing changes |
| Chat.ChatState.SubmitInitialName | components/Chat.tsx:168-175 | The name is accepted exactly when AcceptedName accepts. Then the trimmed name is both the display name and the viewer's map entry. Otherwise nothing changes |
| Chat.ChatState.OnSubscriptionSucceeded | components/Chat.tsx:69-79 | The counter becomes the snapshot count, not floored. The map becomes the old map merged with the snapshot's names, the snapshot winning |
| Chat.ChatState.OnMemberAdded | components/Chat.tsx:80-84 | The counter goes up by exactly 1. The member's name is set and every other entry is unchanged |
| Chat.ChatState.OnMemberRemoved | components/Chat.tsx:85-88 | The counter becomes max(1, n-1), so it is at least 1. The map and the messages are unchanged |
| Chat.ChatState.OnMessage | components/Chat.tsx:98-100 | Exactly one message is appended at the end, and the earlier ones are unchanged |
| Chat.ChatState.TypeMessage | components/Chat.tsx:328 | The message input's raw text becomes the draft |
| Chat.ChatState.SendMessage | components/Chat.tsx:127-139 | A request is posted exactly when the send guard passes. It carries the untrimmed draft and the display name. Until the request resolves nothing changes, so typing and sending again stay possible |
| Chat.ChatState.OnSendResolved | components/Chat.tsx:140 | Once a posted request resolves, whatever its HTTP status, the draft is cleared as it then is, including text typed while the request was in flight |

## Findings

| source | as written | input that shows it | evidently intended | confidence | as-written member | corrected member |
|---|---|---|---|---|---|---|
| app/api/pusher/message/route.ts:17 | The split test compares `type` with `EVENTS.SPLIT_JOIN` and `EVENTS.SPLIT_PAY`. Neither key exists in `EVENTS` (lib/pusher.ts:48-53), so both read as undefined | A signed-in caller posts {"type": "split-join", "userId": "x", "messageTimestamp": "t"} and it goes out as a chat `message`. A plain {"message": "hi", "username": "ab"} goes out as a split event whose name is undefined | Split events are published for the two split types, and a body without `type` is a chat message. The corrected table names them "split-join" and "split-pay", an assumed naming | high; not executed | MessageRoute.SplitJoinBodyBecomesMessage | MessageRoute.SplitBranchWithSplitEvents |

The deployed handler is `MessageRoute.Post`, which is `PostWith(Events, …)`.
The corrected handler is `PostWith(EventsWithSplit, …)`. Its table adds
SPLIT_JOIN = "split-join" and SPLIT_PAY = "split-pay". No file in the
repository names a split event, so these two names are an assumption. They
follow the pattern of the existing keys, the key in lower case with `-` for
`_`, as MESSAGE is "message" and USER_COUNT is "user-count". Every property
of `PostWith` holds for both tables. No other part of the model calls the broadcast endpoint.

## Left out

- Pusher client and server construction, `getChannelSubscriptionCount`, `isDev` and `getPusherCredentials` (lib/pusher.ts:5-37, 55-85) are left out. They are environment reads and network I/O.
- The internals of `pusher.trigger` and `pusher.authorizeChannel` are left out. They are parameters. Whether the transport library rejects an undefined event name is therefore not modelled. The split branch's trigger may be rejected at run time, which would give a 500.
- `getServerSession`, `getToken`, the identity provider and the session cookie are left out. They are inputs (`Option<SessionUser>`, `hasToken`).
- The wall clock is the parameter `now`. The model does not say how the ISO text is formatted.
- How the client library encodes the authorization request body is left out. The authorizer receives an already parsed `Body`, or `Unparseable` when `req.json()` throws.
- `localStorage` and `sessionStorage` (Chat.tsx:28, 40, 62, 172, 263-264), and the disconnect and reconnect on rename (Chat.tsx:44-45), are left out. They are side effects on storage and the connection.
- Subscribing, unbinding and unsubscribing (Chat.tsx:65-66, 103-108) and the subscription-error log (Chat.tsx:89-95) are left out. This is transport plumbing with no state change.
- Scrolling, visibility handling, timers, sign out, "Clear Data" and all rendering are left out (Chat.tsx:49-52, 111-125, 151-343). The same goes for ScanModal, PaymentModal's layout, TravelFund, SignIn, the pages and layout. This is presentation and browser side effects.
- Chat.ChatState.SubmitInitialName: which form is rendered is not modelled. The first-time form (Chat.tsx:163-196) is rendered only while the display name is empty, so the first keystroke already leaves it. The model states the submit handler itself.
- Chat.ChatState.TypeName: the keystroke-by-keystroke effect run (map update and reconnect per change) is modelled only through `OnUsernameChanged`. The caller sequences the two.
- ReceiptCard.PaymentModalState.PaymentSucceeded: the call to `onPay` is not recorded. That callback and `onJoin` are supplied by the card's parent, which is not part of the shown code.
- ReceiptCard.OnClick: the browser's suppression of clicks on a disabled button is not modelled. `DisabledIffNoAction` shows that it would make no difference.
- Money amounts, `splitAmount` and `toFixed` formatting (ReceiptCard.tsx:55-86, 160; PaymentModal.tsx:48) are left out. They are JavaScript floating-point numbers and rendering.
- The chat client's `usernames` and the `EVENTS` table are plain JavaScript objects and are modelled as `map`s. A key equal to an inherited property name such as "constructor" or "toString" would read that property in the source. World ID subject ids never take such names, and the code reads only the EVENTS keys MESSAGE, SPLIT_JOIN and SPLIT_PAY.
- Chat.ChatState.SendMessage: the send button's disabled state (Chat.tsx:334) is not modelled. It depends only on the draft being blank, so it does not stop a repeat send while a request is in flight. A fetch that rejects is only logged, so no method models it.
- `slice(-4)` counts UTF-16 code units, while Dafny's `char` is a Unicode scalar value. The two differ only for ids with characters outside the Basic Multilingual Plane.
- JSON numbers are reals. Only their comparison with zero, for truthiness, matters here.
- components/ChatComponent.tsx, components/Pay/index.tsx, server.ts and app/api/socket are left out. They are a separate fetch-based chat, payment SDK calls, and a socket.io server.
- No split-event reducer is modelled, because none exists in the shown code.
