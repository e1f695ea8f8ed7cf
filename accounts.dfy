/** Users as the views see them: Django's `User` (identified by its primary key) and the
    requesting user, who may be anonymous and whose profile carries a role. */
module Accounts {
  import opened Common

  datatype User = User(pk: nat, username: string, email: string)

  /** `request.user`: either Django's anonymous user or an authenticated user together with
      the `role` field of that user's profile. */
  datatype Requester =
    | AnonymousUser
    | Authenticated(user: User, profileRole: Option<string>)

  /** `request.user == u`. Django compares model instances by primary key, and the
      anonymous user is not a model instance, so it equals no user. */
  predicate IsUser(req: Requester, u: User) {
    req.Authenticated? && req.user.pk == u.pk
  }

  /** `get_object_or_404(User, username=...)`: usernames are unique in the user table. */
  function FindUser(accounts: seq<User>, username: string): (r: Option<User>)
    ensures r.Some? ==> r.value in accounts && r.value.username == username
    ensures r.None? <==> forall i :: 0 <= i < |accounts| ==> accounts[i].username != username
  {
    First(accounts, (u: User) => u.username == username)
  }
}
