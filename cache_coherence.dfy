/** How the read-through views and the invalidating receivers work together on one store:
    reads are stable until a post changes, and the first reads after a change recompute. */
module CacheCoherence {
  import opened Common
  import opened Accounts
  import opened Posts
  import opened Cache
  import opened CacheKeys
  import opened BlogSignals
  import opened BlogViews
  import SummarizerViews

  /** Two global-list reads in a row: the second returns what the first did and writes
      nothing, so the store ends as the first read left it. */
  method GlobalListReadIsStable(cache: Store, table: PostTable) returns (first: Payload, second: Payload)
    modifies cache
    ensures second == first
    ensures PostListKey in old(cache.entries) ==>
      first == old(cache.entries)[PostListKey].value && cache.entries == old(cache.entries)
    ensures PostListKey !in old(cache.entries) ==>
      first == PostList(NewestFirst(table)) &&
      cache.entries == old(cache.entries)[PostListKey := Entry(first, GlobalListTtl)]
  {
    first := PostListQueryset(cache, table);
    ghost var afterFirst := cache.entries;
    second := PostListQueryset(cache, table);
    assert cache.entries == afterFirst;
  }

  /** After a post is saved (created or updated), the next global read and the next read
      of its author's list both miss and recompute from the table. */
  method ReadsAfterSaveRecompute(cache: Store, table: PostTable, accounts: seq<User>, post: Post, created: bool)
    returns (globalList: Payload, authorList: QueryResult)
    modifies cache
    ensures globalList == PostList(NewestFirst(table))
    ensures FindUser(accounts, post.author.username).None? ==> authorList == NotFound404
    ensures FindUser(accounts, post.author.username).Some? ==>
      authorList == Posts(PostList(AuthorFeed(table, FindUser(accounts, post.author.username).value.pk)))
  {
    var _ := InvalidateCacheOnPostSave(cache, post, created);
    globalList := PostListQueryset(cache, table);
    InvalidatesExactly(post, UserList(post.author.username));
    KeysDistinct(GlobalList, UserList(post.author.username));
    authorList := SameUserPostListQueryset(cache, table, accounts, post.author.username);
  }

  /** The same after a post is deleted. */
  method ReadsAfterDeleteRecompute(cache: Store, table: PostTable, accounts: seq<User>, post: Post)
    returns (globalList: Payload, authorList: QueryResult)
    modifies cache
    ensures globalList == PostList(NewestFirst(table))
    ensures FindUser(accounts, post.author.username).None? ==> authorList == NotFound404
    ensures FindUser(accounts, post.author.username).Some? ==>
      authorList == Posts(PostList(AuthorFeed(table, FindUser(accounts, post.author.username).value.pk)))
  {
    var _ := InvalidateCacheOnPostDelete(cache, post);
    globalList := PostListQueryset(cache, table);
    InvalidatesExactly(post, UserList(post.author.username));
    KeysDistinct(GlobalList, UserList(post.author.username));
    authorList := SameUserPostListQueryset(cache, table, accounts, post.author.username);
  }

  /** A cached summary outlives a change to the post it summarises. */
  method SummarySurvivesPostSave(cache: Store, post: Post, created: bool, postId: nat)
    modifies cache
    ensures Lookup(cache.entries, PostSummaryKey(postId)) == Lookup(old(cache.entries), PostSummaryKey(postId))
  {
    SummariesSurvive(post, postId);
    var _ := InvalidateCacheOnPostSave(cache, post, created);
  }

  /** Once a summary was generated and cached, asking again uses it: the model is not
      asked a second time and the same redirect is returned. */
  method SecondSummaryRequestUsesCache(cache: Store, table: PostTable, postId: nat, referer: Option<string>,
                                       generated: Option<string>, regenerated: Option<string>)
    returns (first: SummarizerViews.SummaryResponse, second: SummarizerViews.SummaryResponse, askedAgain: bool)
    modifies cache
    ensures first.Redirect? && first.flashedError.None? ==> !askedAgain && second == first
  {
    var asked;
    first, asked := SummarizerViews.SummarizePost(cache, table, postId, referer, generated);
    second, askedAgain := SummarizerViews.SummarizePost(cache, table, postId, referer, regenerated);
  }
}
