/** The signed-in user that `getServerSession` yields (types/next-auth.d.ts):
    the World ID subject, its verification level and a username. The
    identity provider and the session cookie are not part of this model. */
module AuthSession {
  import opened Js

  datatype SessionUser = SessionUser(id: string, verificationLevel: string, username: string)

  /** `session?.user?.id` is truthy: there is a session user with a non-empty
      id. Both the broadcast endpoint and the chat client test this. */
  predicate SignedIn(user: Option<SessionUser>)
  {
    user.Some? && user.value.id != ""
  }

  /** `id.slice(-4)`: the name the chat client falls back to and the
      authorizer publishes as the presence username. It is the last four
      characters of the subject id, or the whole id when that is shorter. */
  function DefaultUsername(id: string): (name: string)
    ensures |name| == if |id| < 4 then |id| else 4
    ensures id == id[..|id| - |name|] + name
  {
    SliceLast(id, 4)
  }
}
