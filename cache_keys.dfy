/** The cache key policy: the logical resources that have a cache entry and the key
    string each one is stored under. */
module CacheKeys {
  import opened Text

  /** The resources that the views cache, or that the signal handlers invalidate. */
  datatype Resource =
    | GlobalList                 // the home page post list
    | UserList(username: string) // one author's post list
    | Detail(pk: nat)            // a post's detail page (only ever deleted)
    | Summary(postId: nat)       // a post's AI summary

  const PostListKey: string := "post_list_view"

  function UserPostsKey(username: string): string {
    "user_posts_" + username
  }

  function PostDetailKey(pk: nat): string {
    "post_detail_" + NatToString(pk)
  }

  function PostSummaryKey(postId: nat): string {
    "post_summary_" + NatToString(postId)
  }

  function KeyFor(r: Resource): string {
    match r
    case GlobalList => PostListKey
    case UserList(u) => UserPostsKey(u)
    case Detail(pk) => PostDetailKey(pk)
    case Summary(id) => PostSummaryKey(id)
  }

  /** The family a key belongs to is visible in its first six characters. */
  function Family(key: string): string {
    if |key| < 6 then key else key[..6]
  }

  lemma FamilyOfKey(r: Resource)
    ensures Family(KeyFor(r)) ==
      match r
      case GlobalList => "post_l"
      case UserList(_) => "user_p"
      case Detail(_) => "post_d"
      case Summary(_) => "post_s"
  {
    match r
    case GlobalList =>
    case UserList(u) => assert KeyFor(r)[..6] == ("user_posts_" + u)[..6];
    case Detail(pk) => assert KeyFor(r)[..6] == ("post_detail_" + NatToString(pk))[..6];
    case Summary(id) => assert KeyFor(r)[..6] == ("post_summary_" + NatToString(id))[..6];
  }

  /** Distinct resources never share a cache entry. */
  lemma KeyForInjective(a: Resource, b: Resource)
    requires KeyFor(a) == KeyFor(b)
    ensures a == b
  {
    FamilyOfKey(a);
    FamilyOfKey(b);
    match a
    case GlobalList =>
    case UserList(u) =>
      PrefixCancel("user_posts_", u, b.username);
    case Detail(pk) =>
      PrefixCancel("post_detail_", NatToString(pk), NatToString(b.pk));
      NatToStringInjective(pk, b.pk);
    case Summary(id) =>
      PrefixCancel("post_summary_", NatToString(id), NatToString(b.postId));
      NatToStringInjective(id, b.postId);
  }

  /** The contrapositive, in the form callers use. */
  lemma KeysDistinct(a: Resource, b: Resource)
    requires a != b
    ensures KeyFor(a) != KeyFor(b)
  {
    if KeyFor(a) == KeyFor(b) {
      KeyForInjective(a, b);
    }
  }

  /** Two usernames share a per-user list key only when they are the same name. */
  lemma UserPostsKeyInjective(u: string, v: string)
    requires UserPostsKey(u) == UserPostsKey(v)
    ensures u == v
  {
    KeyForInjective(UserList(u), UserList(v));
  }
}
