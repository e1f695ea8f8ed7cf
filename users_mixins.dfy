/** Role-based access checks (`RoleRequiredMixin` and its two subclasses): a requester
    passes when authenticated and their profile's role equals the required role. */
module UsersMixins {
  import opened Common
  import opened Accounts

  /** The `required_role` class attributes: `None` on the base mixin. */
  const BaseRequiredRole: Option<string> := None
  const AuthorRole: string := "Author"
  const AdminRole: string := "Admin"

  /** `RoleRequiredMixin.test_func` with the given `required_role`. */
  predicate RoleCheck(req: Requester, requiredRole: Option<string>) {
    req.Authenticated? && req.profileRole == requiredRole
  }

  /** `AuthorRequiredMixin.test_func`. */
  predicate AuthorRequired(req: Requester) {
    RoleCheck(req, Some(AuthorRole))
  }

  /** `AdminRequiredMixin.test_func`. */
  predicate AdminRequired(req: Requester) {
    RoleCheck(req, Some(AdminRole))
  }

  /** The anonymous user fails every role check, whatever role is required. */
  lemma AnonymousFailsEveryRole(requiredRole: Option<string>)
    ensures !RoleCheck(AnonymousUser, requiredRole)
  {
  }

  /** The Author check, spelled out on the user's fields. */
  lemma AuthorRequiredMeaning(req: Requester)
    ensures AuthorRequired(req) <==> req.Authenticated? && req.profileRole == Some("Author")
  {
  }

  /** The Admin check, spelled out on the user's fields. */
  lemma AdminRequiredMeaning(req: Requester)
    ensures AdminRequired(req) <==> req.Authenticated? && req.profileRole == Some("Admin")
  {
  }

  /** No requester passes both the Author and the Admin check. */
  lemma AuthorAndAdminExclusive(req: Requester)
    ensures !(AuthorRequired(req) && AdminRequired(req))
  {
  }

  /** The base mixin admits exactly the authenticated users whose profile has no role. */
  lemma BaseMixinAdmitsOnlyRoleless(req: Requester)
    ensures RoleCheck(req, BaseRequiredRole) <==> req.Authenticated? && req.profileRole.None?
  {
  }
}
