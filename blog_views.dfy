/** The blog's list views (read-through caching of the global and per-user post lists),
    the one-time AI summary taken from the session, the ownership rules of the update and
    delete views, and the order in which the editing views queue mail and write posts. */
module BlogViews {
  import opened Common
  import opened Accounts
  import opened Posts
  import opened Cache
  import opened CacheKeys
  import opened UsersMixins
  import opened BlogTasks

  /** Cache timeouts, in seconds. */
  const GlobalListTtl: nat := 3600
  const UserListTtl: nat := 60 * 30

  /** A list view's queryset, or the 404 that `get_object_or_404` raises. */
  datatype QueryResult = Posts(payload: Payload) | NotFound404

  /** `PostListView.get_queryset`. Any cached value that is not `None` (an empty list too)
      is returned as it is, without touching the table or the cache; otherwise all posts,
      newest first, are stored for an hour and returned. */
  method PostListQueryset(cache: Store, table: PostTable) returns (posts: Payload)
    modifies cache
    ensures PostListKey in old(cache.entries) ==>
      posts == old(cache.entries)[PostListKey].value && cache.entries == old(cache.entries)
    ensures PostListKey !in old(cache.entries) ==>
      posts == PostList(NewestFirst(table)) &&
      cache.entries == old(cache.entries)[PostListKey := Entry(posts, GlobalListTtl)]
  {
    var cached := cache.Get(PostListKey);
    if cached.Some? {
      return cached.value;
    }
    posts := PostList(NewestFirst(table));
    cache.Set(PostListKey, posts, GlobalListTtl);
  }

  /** `SameUserPostListView.get_queryset`. A hit is returned without checking that the user
      still exists; on a miss an unknown username is a 404 that leaves the cache alone, and a
      known one has exactly that author's posts, newest first, stored for 30 minutes. */
  method SameUserPostListQueryset(cache: Store, table: PostTable, accounts: seq<User>, username: string)
    returns (r: QueryResult)
    modifies cache
    ensures UserPostsKey(username) in old(cache.entries) ==>
      r == Posts(old(cache.entries)[UserPostsKey(username)].value) &&
      cache.entries == old(cache.entries)
    ensures UserPostsKey(username) !in old(cache.entries) && FindUser(accounts, username).None? ==>
      r == NotFound404 && cache.entries == old(cache.entries)
    ensures UserPostsKey(username) !in old(cache.entries) && FindUser(accounts, username).Some? ==>
      var feed := PostList(AuthorFeed(table, FindUser(accounts, username).value.pk));
      r == Posts(feed) &&
      cache.entries == old(cache.entries)[UserPostsKey(username) := Entry(feed, UserListTtl)]
  {
    var key := UserPostsKey(username);
    var cached := cache.Get(key);
    if cached.Some? {
      return Posts(cached.value);
    }
    var user := FindUser(accounts, username);
    if user.None? {
      return NotFound404;
    }
    var posts := PostList(AuthorFeed(table, user.value.pk));
    cache.Set(key, posts, UserListTtl);
    r := Posts(posts);
  }

  /** The request's session store. */
  class Session {
    var data: map<string, string>

    constructor (initial: map<string, string>)
      ensures data == initial
    {
      data := initial;
    }

    /** `session.pop(key, None)`: the value if present, which is removed. */
    method Pop(key: string) returns (value: Option<string>)
      modifies this
      ensures value == if key in old(data) then Some(old(data)[key]) else None
      ensures data == old(data) - {key}
    {
      value := if key in data then Some(data[key]) else None;
      data := data - {key};
    }
  }

  const AiSummaryKey: string := "ai_summary"

  /** The `ai_summary` entry of `PostListView.get_context_data`: taken out of the session,
      so it is shown once, and `None` when there was none. */
  method ContextAiSummary(session: Session) returns (aiSummary: Option<string>)
    modifies session
    ensures aiSummary == if AiSummaryKey in old(session.data) then Some(old(session.data)[AiSummaryKey]) else None
    ensures AiSummaryKey !in session.data
    ensures session.data == old(session.data) - {AiSummaryKey}
  {
    aiSummary := session.Pop(AiSummaryKey);
  }

  /** Two page renders in a row: the second finds no summary. */
  method SummaryShownAtMostOnce(session: Session) returns (first: Option<string>, second: Option<string>)
    modifies session
    ensures first == if AiSummaryKey in old(session.data) then Some(old(session.data)[AiSummaryKey]) else None
    ensures second == None
  {
    first := ContextAiSummary(session);
    second := ContextAiSummary(session);
  }

  /** `PostUpdateView.test_func`: the Author role check and ownership. */
  predicate CanUpdatePost(req: Requester, post: Post) {
    AuthorRequired(req) && IsUser(req, post.author)
  }

  /** `PostDeleteView.test_func`: the same rule. */
  predicate CanDeletePost(req: Requester, post: Post) {
    AuthorRequired(req) && IsUser(req, post.author)
  }

  /** Editing is allowed exactly to an authenticated user with the Author role who wrote
      the post, and the two views apply the same rule. */
  lemma EditRuleMeaning(req: Requester, post: Post)
    ensures CanUpdatePost(req, post) <==>
      req.Authenticated? && req.profileRole == Some("Author") && req.user.pk == post.author.pk
    ensures CanDeletePost(req, post) <==> CanUpdatePost(req, post)
  {
  }

  /** The steps a view takes, in order: queueing a task (`.delay`), saving a post (which
      fires the `post_save` receiver) or deleting one (which fires `post_delete`). */
  datatype Step = Enqueue(call: BlogTaskCall) | Save(post: Post) | Delete(post: Post)

  /** A view's answer: refused by its `test_func`, or the steps it performed. */
  datatype Handled = Forbidden | Performed(steps: seq<Step>)

  /** `PostCreateView`: the role check, then `form_valid`, which sets the author and queues
      the notification before `super().form_valid` saves the post. */
  function CreatePost(req: Requester, draft: Post): (r: Handled)
    ensures r.Performed? <==> AuthorRequired(req)
    ensures r.Performed? ==> |r.steps| == 2 && r.steps[0].Enqueue? && r.steps[1].Save?
    ensures r.Performed? ==> r.steps[1].post == draft.(author := req.user)
    ensures r.Performed? ==> r.steps[0].call == PostNotifyingEmail(req.user.username, req.user.email)
  {
    if AuthorRequired(req) then
      Performed([Enqueue(PostNotifyingEmail(req.user.username, req.user.email)),
                 Save(draft.(author := req.user))])
    else Forbidden
  }

  /** `PostUpdateView`: `test_func`, then `form_valid`, which sets the author, saves the
      stored post with the submitted title, and only then queues the notification. (Of the
      form's fields the model keeps the title.) */
  function UpdatePost(req: Requester, stored: Post, newTitle: string): (r: Handled)
    ensures r.Performed? <==> CanUpdatePost(req, stored)
    ensures r.Performed? ==> |r.steps| == 2 && r.steps[0].Save? && r.steps[1].Enqueue?
    ensures r.Performed? ==> r.steps[0].post == stored.(title := newTitle, author := req.user)
    ensures r.Performed? ==> r.steps[1].call == PostUpdateNotifyingEmail(req.user.username, req.user.email)
  {
    if CanUpdatePost(req, stored) then
      Performed([Save(stored.(title := newTitle, author := req.user)),
                 Enqueue(PostUpdateNotifyingEmail(req.user.username, req.user.email))])
    else Forbidden
  }

  /** `PostDeleteView.delete`: `test_func`, then the notification carrying the title read
      before deletion is queued, then the post is deleted. */
  function DeletePost(req: Requester, stored: Post): (r: Handled)
    ensures r.Performed? <==> CanDeletePost(req, stored)
    ensures r.Performed? ==> |r.steps| == 2 && r.steps[0].Enqueue? && r.steps[1] == Delete(stored)
    ensures r.Performed? ==>
      r.steps[0].call == NotifyPostDeletion(req.user.username, req.user.email, stored.title)
  {
    if CanDeletePost(req, stored) then
      Performed([Enqueue(NotifyPostDeletion(req.user.username, req.user.email, stored.title)),
                 Delete(stored)])
    else Forbidden
  }

  /** Whatever a view saves is authored by the requesting user. */
  lemma SavedPostsBelongToRequester(req: Requester, draft: Post, stored: Post, newTitle: string)
    ensures forall s :: s in StepsOf(CreatePost(req, draft)) && s.Save? ==> s.post.author == req.user
    ensures forall s :: s in StepsOf(UpdatePost(req, stored, newTitle)) && s.Save? ==> s.post.author == req.user
  {
  }

  function StepsOf(h: Handled): seq<Step> {
    if h.Performed? then h.steps else []
  }
}
