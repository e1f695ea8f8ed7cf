# Django blog: cache layer, access rules, donations and task policy in Dafny

This project models the logic of a Django blog that can be stated precisely, and proves
properties of that model. The model has four parts.

- **The post cache layer.** The key policy covers `post_list_view`, `user_posts_{username}`,
  `post_detail_{pk}` and `post_summary_{id}`. The two list views read through the cache.
  The `post_save` and `post_delete` receivers delete cache keys. The AI-summary view also
  reads through the cache. The cache itself is the class `Cache.Store`, which holds a
  `map<string, Entry>`; each entry is a value plus the TTL it was set with.
- **The access rules.** This covers the role mixins, the newer role-and-ownership rule of
  the update and delete views, and the older ownership-only rule.
- **The donation lifecycle.** Checkout creates a pending record before Stripe is called.
  The webhook then marks that record succeeded. The donation table is the class
  `PaymentsViews.DonationTable`.
- **The background-job policy.** The mail tasks each build one mail. Every task routes a failure
  one of three ways: it asks for a retry in 300 seconds, it re-raises, or it logs and
  swallows. The profile-image task sends no mail; the model keeps the file name it saves
  under and the way its failures are routed.

One module per source file: `BlogViews`, `BlogSignals`, `SummarizerViews`, `UsersMixins`,
`PaymentsViews`, `PaymentsModels`, `UsersTasks`, `BlogTasks`, `PaymentsTasks`,
`LegacyBlogViews`. Other modules hold shared vocabulary:
- `Common`: `Option` and first-match search.
- `Text`: decimal rendering and its injectivity.
- `Accounts`: users and requesters.
- `Posts`: the post table and its newest-first queries.
- `Cache`: the store.
- `CacheKeys`: the key policy.
- `TaskPolicy`: mail, attempt outcomes and the queue's retry loop.
- `CacheCoherence`: scenarios that combine reads and invalidation on one store.

Foreign results are parameters:
- what `stripe.checkout.Session.create` answers;
- what `stripe.Webhook.construct_event` decides;
- what the language model returns;
- whether `send_mail` succeeds;
- how an image-processing attempt ends.

Where the program's own comments and its code disagree, the model follows the code:
- The docstring of `PostCreateView.form_valid` (blog/views.py:228-232) lists saving the
  post before triggering the mail. The code queues the mail first (blog/views.py:235) and
  saves afterwards (blog/views.py:241). The update view saves first. Elsewhere the program
  defers its tasks until the transaction commits, with `transaction.on_commit`
  (users/views.py:98, 141-143); the post views do not.
- The `PostDetailView` docstring says its cache is invalidated by the signals
  (blog/views.py:172, 182). The view is cached by
  `cache_page(60 * 60, key_prefix='post_detail')` (blog/views.py:163). Django builds that
  page's key itself, so it is not the string `post_detail_{pk}` that the signals delete.
  In the model, the detail key is only ever deleted, so the model claims nothing about
  detail pages being refreshed.
- The docstring of the `Donation` class (payments/models.py:5-10) says webhooks set
  `succeeded` or `failed`. No code path writes `failed`. Two results prove this:
  `PaymentsViews.WebhookNeverFails` covers the webhook, and the last `ensures` of
  `PaymentsViews.DonationTable.CreateCheckoutSession` covers checkout.
- The docstring of `send_welcome_email` says "Up to 3 attempts" (users/tasks.py:24). The
  decorator declares `max_retries=3`, which counts retries. Under the queue's assumed
  counting, that gives four attempts: see `BlogTasks.AlwaysFailingSendStopsAfterFourAttempts`
  and `UsersTasks.WelcomeAlwaysFailingStopsAfterFourAttempts`.

## Model

| member | source | states |
|---|---|---|
| `Text.NatToString` | blog/signals.py:13 | an integer key part is rendered as one or more decimal digits, and a single digit exactly for values below ten |
| `Text.NatToStringValue` | blog/signals.py:13 | the rendered digits, read back most significant first, spell the number itself |
| `Text.NatToStringInjective` | blog/signals.py:13 | distinct post ids render as distinct digit strings |
| `Common.First` | blog/views.py:151 | the lookup returns a matching row from the table, and returns nothing exactly when no row matches |
| `Accounts.FindUser` | blog/views.py:151 | `get_object_or_404(User, username=...)` finds a user with that name, or none exists |
| `Posts.FindPost` | summarizer/views.py:29 | `get_object_or_404(Post, id=...)` finds a post with that id, or none exists |
| `Posts.NewestFirst` | blog/views.py:77-81 | all posts ordered by `-date_posted`: the result is newest-first and a permutation of the table |
| `Posts.WrittenBy` | blog/views.py:154 | `filter(author=user)` keeps every post of that author the same number of times and nothing else |
| `Posts.AuthorFeed` | blog/views.py:154 | the author's posts, newest-first, each row with its multiplicity in the table and no other posts |
| `Cache.Store.Get` | blog/views.py:70 | `cache.get` returns the stored value, or `None` exactly for an absent key, and changes nothing |
| `Cache.Store.Set` | blog/views.py:82 | `cache.set` replaces that one key's entry with the value and TTL; every other key is unchanged |
| `Cache.Store.Delete` | blog/signals.py:12-14 | `cache.delete` removes the key, reports whether it existed, and changes nothing for an absent key |
| `CacheKeys.FamilyOfKey` | blog/signals.py:11-14 | each key family has its own six-character prefix |
| `CacheKeys.KeyForInjective` | blog/views.py:140 | distinct resources (global list, per-user list, detail, summary) never share a cache key |
| `CacheKeys.KeysDistinct` | summarizer/views.py:30 | the contrapositive: different resources give different keys |
| `CacheKeys.UserPostsKeyInjective` | blog/views.py:140 | distinct usernames never share a per-user list entry |
| `BlogViews.PostListQueryset` | blog/views.py:59-83 | any non-`None` cached value, an empty list included, is returned with no fetch or write; a miss stores all posts newest-first with TTL 3600 and returns that list |
| `BlogViews.SameUserPostListQueryset` | blog/views.py:134-159 | a hit is returned without checking that the user exists; a miss for an unknown user is a 404 with the cache unchanged; a miss for a known user stores that author's feed with TTL 1800 and returns it |
| `BlogViews.Session.Pop` | blog/views.py:107-109 | `session.pop(key, None)` returns the value or `None` and removes the key |
| `BlogViews.ContextAiSummary` | blog/views.py:104-111 | `ai_summary` is taken out of the session and is absent afterwards |
| `BlogViews.SummaryShownAtMostOnce` | blog/views.py:107-109 | a second render finds no summary |
| `BlogViews.EditRuleMeaning` | blog/views.py:294-296 | update and delete are allowed iff the requester is authenticated, has the Author role and is the post's author |
| `BlogViews.CreatePost` | blog/views.py:225-241 | refused without the Author role; otherwise the notification is queued before the post, with the requester as author, is saved |
| `BlogViews.UpdatePost` | blog/views.py:269-296 | refused unless the edit rule holds; otherwise the post is saved with the requester as author and then the notification is queued |
| `BlogViews.DeletePost` | blog/views.py:315-338 | refused unless the edit rule holds; otherwise the notification with the title read beforehand is queued and then the post is deleted |
| `BlogViews.SavedPostsBelongToRequester` | blog/views.py:234 | every post a create or update saves is authored by the requesting user |
| `BlogSignals.InvalidateCacheOnPostSave` | blog/signals.py:8-18 | deletes exactly the author list, detail and global keys; `created` changes only the printed line |
| `BlogSignals.InvalidateCacheOnPostDelete` | blog/signals.py:22-29 | deletes the same three keys and nothing else |
| `BlogSignals.InvalidatesExactly` | blog/signals.py:11-14 | over all cacheable resources, a key is deleted iff it is the global list, that author's list or that post's detail |
| `BlogSignals.SummariesSurvive` | blog/signals.py:25-28 | no `post_summary_*` key is deleted |
| `BlogSignals.OtherAuthorsSurvive` | blog/signals.py:11-12 | other authors' lists are untouched |
| `BlogSignals.OtherPostsSurvive` | blog/signals.py:13 | other posts' detail keys are untouched |
| `CacheCoherence.GlobalListReadIsStable` | blog/views.py:69-83 | two reads in a row return the same value, and the second writes nothing: the store ends unchanged after a hit, and holds the newest-first list with TTL 3600 after a miss |
| `CacheCoherence.ReadsAfterSaveRecompute` | blog/signals.py:11-14 | after a save, the next global and per-user reads recompute from the table |
| `CacheCoherence.ReadsAfterDeleteRecompute` | blog/signals.py:25-28 | the same after a delete |
| `CacheCoherence.SummarySurvivesPostSave` | blog/signals.py:11-14 | a cached summary outlives a change to its post |
| `CacheCoherence.SecondSummaryRequestUsesCache` | summarizer/views.py:31-33 | after a successful summary, asking again does not call the model and redirects the same way |
| `SummarizerViews.SummarizePost` | summarizer/views.py:24-46 | an unknown post gives 404 before any cache access; a truthy cached value is used with no generation and no write; a falsy one is a miss; a generated summary is stored with TTL 3600; a failed one stores nothing and redirects to the referer or `blog_home` with an error |
| `SummarizerViews.SuccessUrl` | summarizer/views.py:44-46 | the URL is the referer, then `&` if it already has `?` or `?` otherwise, then `show_summary={id}#post-{id}` |
| `SummarizerViews.SuccessUrlInjective` | summarizer/views.py:46 | for one referer, distinct posts get distinct redirect targets |
| `UsersMixins.AnonymousFailsEveryRole` | users/mixins.py:7 | an unauthenticated user fails every role check |
| `UsersMixins.AuthorRequiredMeaning` | users/mixins.py:10-11 | the Author check passes iff authenticated with role `Author` |
| `UsersMixins.AdminRequiredMeaning` | users/mixins.py:14-15 | the Admin check passes iff authenticated with role `Admin` |
| `UsersMixins.AuthorAndAdminExclusive` | users/mixins.py:7-15 | no user passes both checks |
| `UsersMixins.BaseMixinAdmitsOnlyRoleless` | users/mixins.py:4-7 | with `required_role = None`, only authenticated users whose role is null pass |
| `LegacyBlogViews.LegacyRulesAgree` | Blog_App/blog/views.py:71-88 | the older update and delete rules agree, and allow exactly the post's author |
| `LegacyBlogViews.NewerRuleImpliesLegacy` | blog/views.py:296 | the newer rule implies the older one |
| `LegacyBlogViews.NewerRuleIsStricter` | blog/views.py:294-296 | an author whose role is anything but `Author` (none, `Admin` or any other string) could edit under the old rule and cannot under the new one |
| `LegacyBlogViews.LegacyUserPosts` | Blog_App/blog/views.py:34-37 | 404 exactly for an unknown username; otherwise only that author's posts, all of them, newest-first |
| `LegacyBlogViews.AssignAuthor` | Blog_App/blog/views.py:56-69 | create and update set the author to the requester and keep the other fields |
| `LegacyBlogViews.NewerMissMatchesLegacy` | blog/views.py:149-159 | on a miss the newer per-user view returns exactly the older view's result |
| `PaymentsModels.ParseStatus` | payments/models.py:12-16 | a stored status string is read back only as the status it encodes |
| `PaymentsModels.StatusCodesAreTheChoices` | payments/models.py:12-21 | each status round-trips through its stored value, and that value is one of `STATUS_CHOICES` |
| `PaymentsModels.DigitCount` | payments/models.py:20 | a number has at most k digits iff it is below 10^k |
| `PaymentsModels.AmountFitsMeaning` | payments/models.py:20 | an amount fits `max_digits=10, decimal_places=2` iff its dollar part has at most 8 digits |
| `PaymentsModels.AmountText` | payments/models.py:27 | the amount prints as the whole-dollar digits, a point, then the tens-of-cents digit and the cents digit |
| `PaymentsModels.AmountTextValue` | payments/models.py:27 | apart from the point the amount's text is all digits, and read without the point it spells the number of cents |
| `PaymentsModels.AmountTextInjective` | payments/models.py:27 | distinct amounts print differently |
| `PaymentsModels.CentsFromParts` | payments/models.py:20 | a two-place amount is determined by its whole part and its two decimal digits |
| `PaymentsModels.DisplayName` | payments/models.py:27 | `Anonymous` when the name is `None` or empty, the name otherwise |
| `PaymentsModels.Describe` | payments/models.py:25-27 | `__str__` starts with the display name and ` - $`, and ends with ` ({status})` |
| `PaymentsModels.DescribeShowsAmount` | payments/models.py:27 | the text between the name and the status is the amount |
| `PaymentsViews.PendingDonation` | payments/views.py:69-74 | the new record is pending, has empty name and email, and has the requested amount |
| `PaymentsViews.MarkSucceeded` | payments/views.py:186-190 | status becomes `succeeded`, name and email come from Stripe, and the amount is kept |
| `PaymentsViews.ApplyWebhook` | payments/views.py:142-213 | a bad payload or signature gives 400 and no change; a verified event gives 200; only the named donation may change; mail is queued only with a non-empty email |
| `PaymentsViews.CompletedEventForKnownDonation` | payments/views.py:176-199 | a completed event marks that record succeeded and queues mail iff the email is truthy |
| `PaymentsViews.IgnoredEventsChangeNothing` | payments/views.py:202-213 | other event types and unknown ids are acknowledged with 200 and change nothing |
| `PaymentsViews.ReplayIsIdempotentExceptMail` | payments/views.py:186-196 | a replayed completed event leaves the table as one delivery did and queues the mail again |
| `PaymentsViews.WebhookNeverFails` | payments/views.py:189 | the webhook never records a failed donation |
| `PaymentsViews.DonationTable.CreateCheckoutSession` | payments/views.py:56-119 | a non-positive amount gives 400 with no record; otherwise a fresh pending record exists before Stripe is asked, and a Stripe failure gives 500 and keeps that record |
| `PaymentsViews.DonationTable.HandleWebhook` | payments/views.py:152-213 | updates the fetched record in place, with the effect `ApplyWebhook` states |
| `TaskPolicy.RetryOnFailure` | blog/tasks.py:22-35 | a failed send asks for a retry with countdown 300; a successful one completes |
| `TaskPolicy.LogOnFailure` | payments/tasks.py:20-32 | a failed send is logged and swallowed, never re-raised or retried |
| `TaskPolicy.Execute` | users/tasks.py:17 | under a retry budget, a task runs at least once and at most budget+1 times |
| `TaskPolicy.SucceedsAfterRetries` | users/tasks.py:47-50 | k failed attempts followed by a success end the run as succeeded after k+1 attempts |
| `TaskPolicy.AlwaysFailingExhaustsRetries` | users/tasks.py:47-50 | a send that always fails ends as failed after exactly budget+1 attempts |
| `TaskPolicy.NoRetryWithoutRequest` | users/tasks.py:127-129 | a re-raised or swallowed failure ends the run at that attempt; the queue records a failure exactly for the re-raised one, since a swallowed failure returns normally |
| `TaskPolicy.TwoFailuresThenSuccess` | users/tasks.py:75-79 | a mail failing twice and then succeeding ends after three attempts once two retries are allowed |
| `BlogTasks.Run` | blog/tasks.py:11-89 | each notification task sends its mail and retries in 300 seconds on a failed send |
| `BlogTasks.MailShape` | blog/tasks.py:14-27 | recipients are exactly `[user_email]`, the sender is the default, the subject is that mail's constant, and the body opens with `Hi {username},` |
| `BlogTasks.DeletionMailQuotesTitle` | blog/tasks.py:74 | the deletion mail names the post title in double quotes |
| `BlogTasks.BlogTasksRetryOnFailure` | blog/tasks.py:32-35 | a failed send requests a retry after 300 seconds |
| `BlogTasks.AlwaysFailingSendStopsAfterFourAttempts` | blog/tasks.py:10-35 | with the declared `max_retries=3`, a notification whose send always fails is attempted four times and then ends as failed |
| `UsersTasks.SendWelcomeEmail` | users/tasks.py:17-50 | the mail goes to exactly `[user_email]`, opens with `Hi {username},`, and is retried in 300 seconds on failure |
| `UsersTasks.ProfileUpdateEmail` | users/tasks.py:54-79 | the same for the profile-update mail |
| `UsersTasks.FileName` | users/tasks.py:119 | the saved name is a suffix of the path with no `/`, and is either the whole path or preceded by a `/` |
| `UsersTasks.FileNameOfPlainName` | users/tasks.py:119 | a path without `/` is its own file name |
| `UsersTasks.ProcessProfileImage` | users/tasks.py:88-134 | a missing user is re-raised; any other failure retries in 300 seconds; a success saves under the file name and returns `Image optimized successfully for user {user_id}` |
| `UsersTasks.MissingUserNeverRetried` | users/tasks.py:127-129 | a missing user ends the run after one attempt, whatever the budget |
| `UsersTasks.WelcomeAlwaysFailingStopsAfterFourAttempts` | users/tasks.py:17-50 | with the declared `max_retries=3`, a welcome mail whose send always fails is attempted four times and then ends as failed |
| `PaymentsTasks.SendDonationAppreciationEmail` | payments/tasks.py:10-32 | the mail goes to exactly `[donor_email]` from the fixed literal sender and opens with `Dear {donor_name},`; a failure is logged and swallowed |
| `PaymentsTasks.AppreciationNeverRetried` | payments/tasks.py:30-32 | whatever the retry budget, the send is attempted exactly once and the run ends as a success on the queue; the failure is recorded only as the logged outcome, which occurs exactly when the send failed |

## Left out

- TTL expiry: each entry records its TTL, but no clock is modelled, so entries never expire on their own.
- Detail-page caching (`cache_page` in blog/views.py): its key comes from Django internals that are not shown. The bare `cache_page(...)` call before `about` has no effect and is not modelled.
- Pagination (`paginate_by = 4`): this is Django's paginator.
- The endpoints' error handling:
  - Store failures and ORM failures (`save()` raising, missing profile rows) are not modelled.
  - Stripe's session creation and `construct_event` are represented only by their results.
  - The float parsing `int(float(...) * 100)` is floating point; the checkout takes the amount as whole cents, so the JSON and parse errors that give "An error occurred" (500) are not modelled.
- `PaymentsViews.DonationTable.CreateCheckoutSession`: does not model the database rejecting amounts above `max_digits=10`. That depends on the database backend. `PaymentsModels.AmountFits` states the bound.
- `PaymentsModels.AmountText`: renders the amount as the two-place decimal Django loads from the database. An instance still holding the float assigned at checkout would print differently.
- Webhook input:
  - `customer_details` is taken as always present; a missing one raises outside the `try` in the source.
  - A `donation_id` in the metadata that does not name a number is modelled as no id. The source gets there through the generic `except`, and both paths leave the table unchanged.
- The Groq call (summarizer/services.py) is a parameter: the summary it would return, or none. The model does not show how `redirect()` resolves its target. The success URL built from `blog_home` when no referer is sent is returned as the string the view builds.
- `NewestFirst`: posts with equal `date_posted` come out in an order this model chooses, whereas the database leaves it unspecified.
- Task execution:
  - How Celery counts retries is not shown, so `TaskPolicy.Execute` takes the retry budget as a parameter. It grants a retry while fewer than the budget have been made.
  - Scheduling, worker concurrency and the `send_mail` transport are out.
  - The image work itself (storage reads, Pillow resizing, the buffer and the upload) is out; only the file name and the failure routing remain.
- Whether the framework routes a form POST through the overridden `PostDeleteView.delete` depends on the Django version, which is not shown. `BlogViews.DeletePost` models `delete` as written.
- The view dispatch order of the mixins (login redirect versus 403) is out; `Handled.Forbidden` stands for both.
- Form handling, `transaction.atomic`/`on_commit`, messages, and profile creation in users/views.py and the user signal modules are out. Their meaning rests on framework transaction semantics.
