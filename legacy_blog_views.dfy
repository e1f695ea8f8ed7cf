/** The older revision of the blog views: no caching and no role check; update and delete
    are allowed to the post's author alone. */
module LegacyBlogViews {
  import opened Common
  import opened Accounts
  import opened Posts
  import opened Cache
  import CacheKeys
  import opened UsersMixins
  import BlogViews

  /** `PostUpdateView.test_func`: the requester is the post's author. */
  predicate LegacyCanUpdate(req: Requester, post: Post) {
    IsUser(req, post.author)
  }

  /** `PostDeleteView.test_func`, written as an `if` returning `True` or `False`. */
  predicate LegacyCanDelete(req: Requester, post: Post) {
    if IsUser(req, post.author) then true else false
  }

  /** The two older rules agree on every requester and post, and admit exactly the
      authenticated user whose primary key is the author's. */
  lemma LegacyRulesAgree(req: Requester, post: Post)
    ensures LegacyCanUpdate(req, post) <==> LegacyCanDelete(req, post)
    ensures LegacyCanUpdate(req, post) <==> req.Authenticated? && req.user.pk == post.author.pk
  {
  }

  /** The newer rule implies the older one. */
  lemma NewerRuleImpliesLegacy(req: Requester, post: Post)
    ensures BlogViews.CanUpdatePost(req, post) ==> LegacyCanUpdate(req, post)
    ensures BlogViews.CanDeletePost(req, post) ==> LegacyCanDelete(req, post)
  {
  }

  /** The newer rule is strictly stronger: the author of a post whose profile lacks the
      Author role could edit it before and cannot now. */
  lemma NewerRuleIsStricter(author: User, role: Option<string>, post: Post)
    requires post.author == author && role != Some("Author")
    ensures LegacyCanUpdate(Authenticated(author, role), post)
    ensures !BlogViews.CanUpdatePost(Authenticated(author, role), post)
  {
  }

  /** `SameUserPostListView.get_queryset`: the author's posts newest first, or 404 for an
      unknown username. */
  function LegacyUserPosts(table: PostTable, accounts: seq<User>, username: string): (r: BlogViews.QueryResult)
    ensures r.NotFound404? <==> FindUser(accounts, username).None?
    ensures r.Posts? ==> r.payload.PostList? && NewestFirstOrder(r.payload.posts)
    ensures r.Posts? ==> var author := FindUser(accounts, username).value;
      (forall i :: 0 <= i < |r.payload.posts| ==> r.payload.posts[i].author.pk == author.pk) &&
      (forall p :: multiset(r.payload.posts)[p] ==
                     if p.author.pk == author.pk then multiset(table)[p] else 0)
  {
    match FindUser(accounts, username)
    case None => BlogViews.NotFound404
    case Some(u) => BlogViews.Posts(PostList(AuthorFeed(table, u.pk)))
  }

  /** `form_valid` of both the create and the update view: the author becomes the
      requesting user before saving. */
  function AssignAuthor(req: Requester, draft: Post): (saved: Post)
    requires req.Authenticated?
    ensures saved.author == req.user
    ensures saved.id == draft.id && saved.title == draft.title && saved.datePosted == draft.datePosted
  {
    draft.(author := req.user)
  }

  /** On a cache miss the newer per-user view stores and returns exactly the older view's
      list; the revisions differ only in the caching around it. */
  method NewerMissMatchesLegacy(cache: Store, table: PostTable, accounts: seq<User>, username: string)
    returns (r: BlogViews.QueryResult)
    requires CacheKeys.UserPostsKey(username) !in cache.entries
    modifies cache
    ensures r == LegacyUserPosts(table, accounts, username)
  {
    r := BlogViews.SameUserPostListQueryset(cache, table, accounts, username);
  }
}
