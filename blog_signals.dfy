/** Write-invalidation: the `post_save` and `post_delete` receivers delete the cache keys
    whose contents may mention the saved or deleted post. */
module BlogSignals {
  import opened Posts
  import opened Cache
  import opened CacheKeys

  /** The keys both receivers delete for a post. */
  function InvalidationKeys(post: Post): set<string> {
    {UserPostsKey(post.author.username), PostDetailKey(post.id), PostListKey}
  }

  /** Over every cacheable resource, the receivers delete exactly the global list, the
      author's list and the post's detail key: nothing more, nothing less. */
  lemma InvalidatesExactly(post: Post, r: Resource)
    ensures KeyFor(r) in InvalidationKeys(post) <==>
      r == GlobalList || r == UserList(post.author.username) || r == Detail(post.id)
  {
    if KeyFor(r) == KeyFor(UserList(post.author.username)) {
      KeyForInjective(r, UserList(post.author.username));
    } else if KeyFor(r) == KeyFor(Detail(post.id)) {
      KeyForInjective(r, Detail(post.id));
    } else if KeyFor(r) == KeyFor(GlobalList) {
      KeyForInjective(r, GlobalList);
    }
  }

  /** No cached summary is ever invalidated by a post change. */
  lemma SummariesSurvive(post: Post, postId: nat)
    ensures PostSummaryKey(postId) !in InvalidationKeys(post)
  {
    InvalidatesExactly(post, Summary(postId));
  }

  /** Another author's list survives. */
  lemma OtherAuthorsSurvive(post: Post, username: string)
    requires username != post.author.username
    ensures UserPostsKey(username) !in InvalidationKeys(post)
  {
    InvalidatesExactly(post, UserList(username));
  }

  /** Another post's detail key survives. */
  lemma OtherPostsSurvive(post: Post, pk: nat)
    requires pk != post.id
    ensures PostDetailKey(pk) !in InvalidationKeys(post)
  {
    InvalidatesExactly(post, Detail(pk));
  }

  /** The line the save receiver prints; the only thing the `created` flag affects. */
  function SaveMessage(username: string, created: bool): string {
    (if created then "Post created by " else "Post updated by ") + username + " - cache cleared"
  }

  function DeleteMessage(username: string): string {
    "Post deleted by " + username + " - cache cleared"
  }

  /** `invalidate_cache_on_post_save`: three deletes, then the printed line, returned here.
      The deleted keys do not depend on `created`. */
  method InvalidateCacheOnPostSave(cache: Store, post: Post, created: bool) returns (message: string)
    modifies cache
    ensures cache.entries == old(cache.entries) - InvalidationKeys(post)
    ensures message == SaveMessage(post.author.username, created)
  {
    var _ := cache.Delete(UserPostsKey(post.author.username));
    var _ := cache.Delete(PostDetailKey(post.id));
    var _ := cache.Delete(PostListKey);
    assert cache.entries == old(cache.entries) - InvalidationKeys(post);
    message := SaveMessage(post.author.username, created);
  }

  /** `invalidate_cache_on_post_delete`: the same three deletes. */
  method InvalidateCacheOnPostDelete(cache: Store, post: Post) returns (message: string)
    modifies cache
    ensures cache.entries == old(cache.entries) - InvalidationKeys(post)
    ensures message == DeleteMessage(post.author.username)
  {
    var _ := cache.Delete(UserPostsKey(post.author.username));
    var _ := cache.Delete(PostDetailKey(post.id));
    var _ := cache.Delete(PostListKey);
    assert cache.entries == old(cache.entries) - InvalidationKeys(post);
    message := DeleteMessage(post.author.username);
  }
}
