/** Blog posts and the two queries the list views run over the post table:
    all posts newest-first, and one author's posts newest-first. */
module Posts {
  import opened Common
  import opened Accounts

  /** The fields of a post that the modelled code reads; `datePosted` is a timestamp. */
  datatype Post = Post(id: nat, title: string, author: User, datePosted: int)

  /** The post table, in storage order (which promises nothing). */
  type PostTable = seq<Post>

  /** Ordered by `-date_posted`: no post is older than a post after it. */
  predicate NewestFirstOrder(s: seq<Post>) {
    forall i, j :: 0 <= i < j < |s| ==> s[i].datePosted >= s[j].datePosted
  }

  function Insert(p: Post, s: seq<Post>): (r: seq<Post>)
    requires NewestFirstOrder(s)
    ensures NewestFirstOrder(r)
    ensures multiset(r) == multiset(s) + multiset{p}
    ensures |r| == |s| + 1
    ensures r[0] == p || (s != [] && r[0] == s[0])
  {
    if s == [] || p.datePosted >= s[0].datePosted then
      [p] + s
    else
      assert s == [s[0]] + s[1..];
      [s[0]] + Insert(p, s[1..])
  }

  /** `order_by('-date_posted')`: the same posts, newest first. Posts with equal dates keep
      an order fixed by this model where the database leaves it unspecified. */
  function NewestFirst(s: seq<Post>): (r: seq<Post>)
    ensures NewestFirstOrder(r)
    ensures multiset(r) == multiset(s)
  {
    if s == [] then []
    else
      assert s == [s[0]] + s[1..];
      Insert(s[0], NewestFirst(s[1..]))
  }

  /** `Post.objects.filter(author=user)` for the user with primary key `authorPk`. */
  function WrittenBy(s: seq<Post>, authorPk: nat): (r: seq<Post>)
    ensures forall i :: 0 <= i < |r| ==> r[i].author.pk == authorPk
    ensures forall p :: multiset(r)[p] == if p.author.pk == authorPk then multiset(s)[p] else 0
  {
    if s == [] then []
    else
      assert s == [s[0]] + s[1..];
      (if s[0].author.pk == authorPk then [s[0]] else []) + WrittenBy(s[1..], authorPk)
  }

  /** `Post.objects.filter(author=user).order_by('-date_posted')`. */
  function AuthorFeed(s: seq<Post>, authorPk: nat): (r: seq<Post>)
    ensures NewestFirstOrder(r)
    ensures forall i :: 0 <= i < |r| ==> r[i].author.pk == authorPk
    ensures forall p :: multiset(r)[p] == if p.author.pk == authorPk then multiset(s)[p] else 0
  {
    var mine := WrittenBy(s, authorPk);
    var r := NewestFirst(mine);
    assert forall i :: 0 <= i < |r| ==> r[i] in multiset(mine);
    r
  }

  /** `get_object_or_404(Post, id=...)`: post ids are unique in the table. */
  function FindPost(table: PostTable, id: nat): (r: Option<Post>)
    ensures r.Some? ==> r.value in table && r.value.id == id
    ensures r.None? <==> forall i :: 0 <= i < |table| ==> table[i].id != id
  {
    First(table, (p: Post) => p.id == id)
  }
}
