/** The chat client's state (components/Chat.tsx): the online counter, the
    map from user id to display name merged from presence notifications, the
    append-only message list, the viewer's own display name and the message
    draft. Each transport callback and each form handler is a method of
    `ChatState` that changes only the fields the source's setters change.

    Storage (`localStorage`, `sessionStorage`), the reconnect on rename,
    scrolling and rendering are not part of this model; `sendMessage` is
    split at its `await fetch(...)` into the request it posts and the step
    that runs once that request resolved. */
module Chat {
  import opened Js
  import opened AuthSession

  /** A chat line as the client keeps it (the component's `Message` type). */
  datatype Message = Message(message: string, userId: string, timestamp: string,
                             verificationLevel: string, username: string)

  /** A presence member: its `id` and its `info.username`. */
  datatype Member = Member(id: string, username: string)

  /** The JSON body `sendMessage` posts to the broadcast endpoint. */
  datatype SendRequest = SendRequest(message: string, username: string)

  /** `savedName || defaultName`: a non-empty saved name wins, otherwise the
      last four characters of the id. */
  function InitialName(id: string, savedName: Option<string>): (name: string)
    ensures savedName.Some? && savedName.value != "" ==> name == savedName.value
    ensures savedName.None? || savedName.value == "" ==> name == DefaultUsername(id) && id == id[..|id| - |name|] + name
    ensures name == "" <==> id == "" && (savedName.None? || savedName.value == "")
  {
    if savedName.Some? && savedName.value != "" then savedName.value else DefaultUsername(id)
  }

  /** The send guard: `!newMessage.trim() || !session || !username` is
      false. */
  predicate CanSend(draft: string, sessionPresent: bool, username: string)
  {
    Trim(draft) != "" && sessionPresent && username != ""
  }

  /** A send happens exactly when the draft has a non-whitespace character,
      there is a session and the display name is non-empty. */
  lemma CanSendIff(draft: string, sessionPresent: bool, username: string)
    ensures CanSend(draft, sessionPresent, username)
        <==> (exists k :: 0 <= k < |draft| && !IsJsWhitespace(draft[k])) && sessionPresent && username != ""
  {
  }

  /** The name a name-edit form submits: the trimmed draft, accepted only
      when it is non-empty; an accepted name is already trimmed. */
  function AcceptedName(draft: string): (r: Option<string>)
    ensures r.Some? <==> exists k :: 0 <= k < |draft| && !IsJsWhitespace(draft[k])
    ensures r.Some? ==> r.value == Trim(draft) && r.value != "" && Trim(r.value) == r.value
    ensures r.Some? ==> !IsJsWhitespace(r.value[0]) && !IsJsWhitespace(r.value[|r.value| - 1])
  {
    var trimmed := Trim(draft);
    TrimIdempotent(draft);
    if trimmed != "" then Some(trimmed) else None
  }

  /** No member after position `k` has the id of member `k`. */
  predicate LastWithId(members: seq<Member>, k: int)
    requires 0 <= k < |members|
  {
    forall j :: k < j < |members| ==> members[j].id != members[k].id
  }

  /** The `userMap` that `members.each` builds from a presence snapshot,
      one assignment per member in order, so a later member with the same id
      overrides an earlier one. */
  function SnapshotNames(members: seq<Member>): map<string, string>
  {
    if members == [] then map[]
    else
      var last := members[|members| - 1];
      SnapshotNames(members[..|members| - 1])[last.id := last.username]
  }

  /** The snapshot's keys are exactly the ids of its members. */
  lemma {:induction false} SnapshotNamesKeys(members: seq<Member>)
    ensures forall k :: 0 <= k < |members| ==> members[k].id in SnapshotNames(members)
    ensures forall id :: id in SnapshotNames(members) ==> exists k :: 0 <= k < |members| && members[k].id == id
  {
    if members != [] {
      var init := members[..|members| - 1];
      SnapshotNamesKeys(init);
      assert forall k :: 0 <= k < |init| ==> init[k] == members[k];
    }
  }

  /** Each id maps to the username of the last member that carries it. */
  lemma {:induction false} SnapshotNamesLast(members: seq<Member>, k: nat)
    requires k < |members| && LastWithId(members, k)
    ensures members[k].id in SnapshotNames(members)
    ensures SnapshotNames(members)[members[k].id] == members[k].username
  {
    var n := |members|;
    if k < n - 1 {
      var init := members[..n - 1];
      assert init[k] == members[k];
      assert LastWithId(init, k) by {
        forall j | k < j < |init| ensures init[j].id != init[k].id {
          assert init[j] == members[j];
        }
      }
      SnapshotNamesLast(init, k);
    }
  }

  /** The name shown for a message: the map's entry for its sender when that
      is non-empty, else the name the message carries. */
  function DisplayNameIn(usernames: map<string, string>, msg: Message): (name: string)
    ensures msg.userId in usernames && usernames[msg.userId] != "" ==> name == usernames[msg.userId]
    ensures name == msg.username || (msg.userId in usernames && name == usernames[msg.userId])
    ensures !(msg.userId in usernames && usernames[msg.userId] != "") ==> name == msg.username
    ensures name == "" ==> msg.username == ""
  {
    if msg.userId in usernames && usernames[msg.userId] != "" then usernames[msg.userId] else msg.username
  }

  /** After a member-added notification, that member's messages show the
      notified name when it is non-empty, and every other sender's display
      name is what it was. */
  lemma DisplayNameAfterMemberAdded(usernames: map<string, string>, member: Member, msg: Message)
    ensures msg.userId == member.id && member.username != ""
        ==> DisplayNameIn(usernames[member.id := member.username], msg) == member.username
    ensures msg.userId != member.id
        ==> DisplayNameIn(usernames[member.id := member.username], msg) == DisplayNameIn(usernames, msg)
  {
  }

  /** After a snapshot, an id in the snapshot takes the snapshot's name,
      that of the last member with that id. */
  lemma {:induction false} SnapshotNameWins(usernames: map<string, string>, members: seq<Member>, k: nat)
    requires k < |members| && LastWithId(members, k)
    ensures members[k].id in usernames + SnapshotNames(members)
    ensures (usernames + SnapshotNames(members))[members[k].id] == members[k].username
  {
    SnapshotNamesLast(members, k);
  }

  /** After a snapshot, an id no member carries keeps its old entry, or
      stays absent. */
  lemma {:induction false} SnapshotKeepsOthers(usernames: map<string, string>, members: seq<Member>, id: string)
    requires forall j :: 0 <= j < |members| ==> members[j].id != id
    ensures id in usernames
        ==> id in usernames + SnapshotNames(members) && (usernames + SnapshotNames(members))[id] == usernames[id]
    ensures id !in usernames ==> id !in usernames + SnapshotNames(members)
  {
    SnapshotNamesKeys(members);
  }

  class ChatState {
    var connectedUsers: int
    var usernames: map<string, string>
    var messages: seq<Message>
    var username: string
    var newMessage: string
    var isEditingName: bool

    /** The initial `useState` values: one user online (the viewer), no
        names, no messages, no display name yet. */
    constructor ()
      ensures connectedUsers == 1 && usernames == map[] && messages == []
      ensures username == "" && newMessage == "" && !isEditingName
    {
      connectedUsers := 1;
      usernames := map[];
      messages := [];
      username := "";
      newMessage := "";
      isEditingName := false;
    }

    /** The name shown for a message (`getDisplayName`). */
    function DisplayName(msg: Message): (name: string)
      reads this
      ensures msg.userId in usernames && usernames[msg.userId] != "" ==> name == usernames[msg.userId]
      ensures !(msg.userId in usernames && usernames[msg.userId] != "") ==> name == msg.username
    {
      DisplayNameIn(usernames, msg)
    }

    /** The effect that runs when the session arrives: the saved name, or the
        default one, becomes the viewer's name and their map entry. */
    method OnSessionLoaded(user: Option<SessionUser>, savedName: Option<string>)
      modifies this`username, this`usernames
      ensures SignedIn(user) ==>
        && username == InitialName(user.value.id, savedName)
        && usernames == old(usernames)[user.value.id := username]
      ensures !SignedIn(user) ==> username == old(username) && usernames == old(usernames)
    {
      if SignedIn(user) {
        var nameToUse := InitialName(user.value.id, savedName);
        username := nameToUse;
        usernames := usernames[user.value.id := nameToUse];
      }
    }

    /** The effect that runs when the display name changes: a non-empty name
        becomes the viewer's own map entry. */
    method OnUsernameChanged(user: Option<SessionUser>)
      modifies this`usernames
      ensures SignedIn(user) && username != ""
          ==> usernames == old(usernames)[user.value.id := username]
      ensures !(SignedIn(user) && username != "") ==> usernames == old(usernames)
    {
      if SignedIn(user) && username != "" {
        usernames := usernames[user.value.id := username];
      }
    }

    /** The name input's `onChange`: the raw text becomes the display name. */
    method TypeName(value: string)
      modifies this`username
      ensures username == value
    {
      username := value;
    }

    /** The pencil button: open the name editor. */
    method StartEditingName()
      modifies this`isEditingName
      ensures isEditingName
    {
      isEditingName := true;
    }

    /** The header name editor's submit, and its `onBlur`, which does the
        same: a non-blank name is trimmed and closes the editor; a blank one
        changes nothing. */
    method SubmitNameEdit() returns (accepted: bool)
      modifies this`username, this`isEditingName
      ensures accepted <==> AcceptedName(old(username)).Some?
      ensures accepted ==> username == AcceptedName(old(username)).value && !isEditingName
      ensures !accepted ==> username == old(username) && isEditingName == old(isEditingName)
    {
      var trimmedName := Trim(username);
      accepted := trimmedName != "";
      if accepted {
        username := trimmedName;
        isEditingName := false;
      }
    }

    /** The first-time name form's submit: a non-blank name is trimmed and
        becomes both the display name and the viewer's map entry. */
    method SubmitInitialName(sessionUserIdValue: string) returns (accepted: bool)
      modifies this`username, this`usernames
      ensures accepted <==> AcceptedName(old(username)).Some?
      ensures accepted ==> username == AcceptedName(old(username)).value
                           && usernames == old(usernames)[sessionUserIdValue := username]
      ensures !accepted ==> username == old(username) && usernames == old(usernames)
    {
      var trimmedName := Trim(username);
      accepted := trimmedName != "";
      if accepted {
        username := trimmedName;
        usernames := usernames[sessionUserIdValue := trimmedName];
      }
    }

    /** `pusher:subscription_succeeded`: the snapshot's count replaces the
        counter as it is (no floor), and the snapshot's names are merged
        over the map, overriding the entries for the ids it lists. */
    method OnSubscriptionSucceeded(count: int, members: seq<Member>)
      modifies this`connectedUsers, this`usernames
      ensures connectedUsers == count
      ensures usernames == old(usernames) + SnapshotNames(members)
    {
      connectedUsers := count;
      var userMap: map<string, string> := map[];
      var i := 0;
      while i < |members|
        invariant 0 <= i <= |members|
        invariant userMap == SnapshotNames(members[..i])
      {
        assert members[..i + 1][..i] == members[..i];
        userMap := userMap[members[i].id := members[i].username];
        i := i + 1;
      }
      assert members[..i] == members;
      usernames := usernames + userMap;
    }

    /** `pusher:member_added`: one more online, and the member's name is
        recorded; no other entry changes. */
    method OnMemberAdded(member: Member)
      modifies this`connectedUsers, this`usernames
      ensures connectedUsers == old(connectedUsers) + 1
      ensures usernames == old(usernames)[member.id := member.username]
      ensures forall id :: id in old(usernames) && id != member.id ==> id in usernames && usernames[id] == old(usernames)[id]
    {
      connectedUsers := connectedUsers + 1;
      usernames := usernames[member.id := member.username];
    }

    /** `pusher:member_removed`: one fewer online, but never below one; the
        member's name stays in the map and the messages are untouched. */
    method OnMemberRemoved(member: Member)
      modifies this`connectedUsers
      ensures connectedUsers == if old(connectedUsers) - 1 < 1 then 1 else old(connectedUsers) - 1
      ensures connectedUsers >= 1
      ensures usernames == old(usernames) && messages == old(messages)
    {
      connectedUsers := if connectedUsers - 1 < 1 then 1 else connectedUsers - 1;
    }

    /** A `message` event on the chat channel: appended at the end. */
    method OnMessage(msg: Message)
      modifies this`messages
      ensures messages == old(messages) + [msg]
      ensures |messages| == |old(messages)| + 1 && messages[..|old(messages)|] == old(messages)
    {
      messages := messages + [msg];
    }

    /** The message input's `onChange`: the raw text becomes the draft. */
    method TypeMessage(value: string)
      modifies this`newMessage
      ensures newMessage == value
    {
      newMessage := value;
    }

    /** `sendMessage` up to its `await`: when the guard passes, the request
        it posts, with the untrimmed draft and the display name. Nothing
        changes yet; the draft is cleared only when the request resolves
        (`OnSendResolved`), so a caller may type or send again in between. */
    method SendMessage(sessionPresent: bool) returns (request: Option<SendRequest>)
      ensures request.Some? <==> CanSend(newMessage, sessionPresent, username)
      ensures request.Some? ==> request.value == SendRequest(newMessage, username)
    {
      if !CanSend(newMessage, sessionPresent, username) {
        return None;
      }
      request := Some(SendRequest(newMessage, username));
    }

    /** `sendMessage` after its `await fetch(...)` resolved, whatever the
        response's status: the draft is cleared as it is now, including any
        text typed while the request was in flight. A rejected fetch is
        only logged, which changes nothing. */
    method OnSendResolved()
      modifies this`newMessage
      ensures newMessage == ""
    {
      newMessage := "";
    }
  }

  /** A short run of callbacks and what the specifications above let a
      caller conclude about the state after it. */
  method PresenceScenario(self: Member, other: Member, msg: Message)
    requires self.id != other.id && self.username != "" && other.username != ""
  {
    var chat := new ChatState();
    chat.OnMemberRemoved(other);
    assert chat.connectedUsers == 1;
    chat.OnSubscriptionSucceeded(2, [self, other]);
    assert chat.connectedUsers == 2;
    assert LastWithId([self, other], 1);
    assert chat.usernames[other.id] == other.username;
    chat.OnMemberRemoved(other);
    chat.OnMemberRemoved(other);
    assert chat.connectedUsers == 1 && other.id in chat.usernames;
    chat.OnMessage(msg);
    assert chat.messages == [msg];
  }

  /** Sending while a request is in flight: the second draft is posted too,
      and the first request's resolution clears whatever the draft then is,
      so text typed after the second send is lost. */
  method InFlightSendScenario()
  {
    var chat := new ChatState();
    chat.TypeName("ab");
    chat.TypeMessage("one");
    var first := chat.SendMessage(true);
    assert first == Some(SendRequest("one", "ab"));
    chat.TypeMessage("two");
    var second := chat.SendMessage(true);
    assert second == Some(SendRequest("two", "ab"));
    chat.TypeMessage("three");
    chat.OnSendResolved();
    assert chat.newMessage == "";
  }
}
