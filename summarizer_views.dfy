/** `summarize_post`: the AI summary of a post, read through the cache, and the redirect
    back to the page that asked for it. The language model is a parameter: the outcome it
    would give for this post. */
module SummarizerViews {
  import opened Common
  import opened Text
  import opened Posts
  import opened Cache
  import opened CacheKeys

  const SummaryTtl: nat := 60 * 60
  const HomeUrlName: string := "blog_home"
  const FailureMessage: string := "Failed to generate summary. Please try again."

  /** `request.META.get('HTTP_REFERER', 'blog_home')`. */
  function RefererOrHome(referer: Option<string>): string {
    match referer
    case None => HomeUrlName
    case Some(r) => r
  }

  /** The query separator: `&` when the referer already has a query string, else `?`. */
  function Separator(referer: string): char {
    if '?' in referer then '&' else '?'
  }

  function SummaryParameter(postId: nat): string {
    "show_summary=" + NatToString(postId) + "#post-" + NatToString(postId)
  }

  /** `f"{referer}{separator}show_summary={post.id}#post-{post.id}"`. */
  function SuccessUrl(referer: string, postId: nat): (url: string)
    ensures StartsWith(url, referer)
    ensures |url| > |referer| && url[|referer|] == (if '?' in referer then '&' else '?')
    ensures url[|referer| + 1..] == SummaryParameter(postId)
    ensures '?' in url
  {
    var url := referer + [Separator(referer)] + SummaryParameter(postId);
    assert url[..|referer|] == referer;
    assert url[|referer|] == Separator(referer);
    assert '?' !in referer ==> url[|referer|] == '?';
    url
  }

  /** For a fixed referer, distinct posts give distinct redirect targets. */
  lemma SuccessUrlInjective(referer: string, a: nat, b: nat)
    requires SuccessUrl(referer, a) == SuccessUrl(referer, b)
    ensures a == b
  {
    var pa, pb := SummaryParameter(a), SummaryParameter(b);
    assert pa == SuccessUrl(referer, a)[|referer| + 1..];
    assert pb == SuccessUrl(referer, b)[|referer| + 1..];
    var head := "show_summary=";
    assert pa == head + (NatToString(a) + "#post-" + NatToString(a));
    assert pb == head + (NatToString(b) + "#post-" + NatToString(b));
    PrefixCancel(head, NatToString(a) + "#post-" + NatToString(a), NatToString(b) + "#post-" + NatToString(b));
    var sa, sb := NatToString(a), NatToString(b);
    var ta, tb := sa + "#post-" + sa, sb + "#post-" + sb;
    assert sa == ta[..|sa|] && sb == tb[..|sb|];
    NatToStringInjective(a, b);
  }

  /** The view's responses: 404 for an unknown post, or a redirect (with an error flashed
      when summarising failed). */
  datatype SummaryResponse = NotFound404 | Redirect(url: string, flashedError: Option<string>)

  /** One POST to `summarize_post`. `generated` is what the model returns when asked, and
      `askedModel` reports whether it was asked. */
  method SummarizePost(cache: Store, table: PostTable, postId: nat, referer: Option<string>,
                       generated: Option<string>)
    returns (resp: SummaryResponse, askedModel: bool)
    modifies cache
    // An unknown post is a 404 before the cache is consulted.
    ensures FindPost(table, postId).None? ==>
      resp == NotFound404 && !askedModel && cache.entries == old(cache.entries)
    // A truthy cached summary is used as it is.
    ensures FindPost(table, postId).Some? &&
            PostSummaryKey(postId) in old(cache.entries) &&
            Truthy(old(cache.entries)[PostSummaryKey(postId)].value) ==>
      !askedModel && cache.entries == old(cache.entries) &&
      resp == Redirect(SuccessUrl(RefererOrHome(referer), postId), None)
    // Anything else, an empty summary included, is a miss: the model is asked.
    ensures FindPost(table, postId).Some? &&
            !(PostSummaryKey(postId) in old(cache.entries) &&
              Truthy(old(cache.entries)[PostSummaryKey(postId)].value)) ==>
      askedModel &&
      if generated.Some? && generated.value != "" then
        cache.entries == old(cache.entries)[PostSummaryKey(postId) := Entry(SummaryText(generated.value), SummaryTtl)] &&
        resp == Redirect(SuccessUrl(RefererOrHome(referer), postId), None)
      else
        cache.entries == old(cache.entries) &&
        resp == Redirect(RefererOrHome(referer), Some(FailureMessage))
  {
    var post := FindPost(table, postId);
    if post.None? {
      return NotFound404, false;
    }
    var key := PostSummaryKey(post.value.id);
    var summary := cache.Get(key);
    askedModel := false;
    if summary.None? || !Truthy(summary.value) {
      askedModel := true;
      if generated.None? || generated.value == "" {
        return Redirect(RefererOrHome(referer), Some(FailureMessage)), askedModel;
      }
      cache.Set(key, SummaryText(generated.value), SummaryTtl);
    }
    resp := Redirect(SuccessUrl(RefererOrHome(referer), post.value.id), None);
  }
}
