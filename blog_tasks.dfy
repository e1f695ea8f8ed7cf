/** The three post-notification tasks: each builds one email to the acting user and, when
    sending fails, asks the queue for a retry in 300 seconds. */
module BlogTasks {
  import opened Common
  import opened Text
  import opened TaskPolicy

  /** The calls the views enqueue with `.delay(...)`. */
  datatype BlogTaskCall =
    | PostNotifyingEmail(username: string, userEmail: string)
    | PostUpdateNotifyingEmail(username: string, userEmail: string)
    | NotifyPostDeletion(username: string, userEmail: string, postTitle: string)

  const PostCreatedSubject: string := "Posted created successfully"
  const PostUpdatedSubject: string := "Updated post successfully"
  const PostDeletedSubject: string := "Post Deleted Successfully"

  /** Every blog task is declared `bind=True, max_retries=3`. */
  const BlogMaxRetries: nat := 3

  const CreatedText: string :=
    " \n\nYou successfully created a post on MyDailyBlog, I hope it was a good experience for you.\n"
  const UpdatedText: string := " \n\nYou successfully updated a blog on MyDailyBlog\n"
  const DeletedOpening: string := "\n\n"
  const DeletedClosing: string :=
    " has been successfully deleted from MyDailyBlog.\n\nYou can always create new posts anytime!\n"

  /** `Your post "<title>"`, as the deletion mail names the post. */
  function QuotedTitle(postTitle: string): string {
    "Your post \"" + postTitle + "\""
  }

  /** The email a task call sends. */
  function MailFor(call: BlogTaskCall): Mail {
    match call
    case PostNotifyingEmail(username, userEmail) =>
      Mail(PostCreatedSubject, Greeting(username) + CreatedText, DefaultFromEmail, [userEmail])
    case PostUpdateNotifyingEmail(username, userEmail) =>
      Mail(PostUpdatedSubject, Greeting(username) + UpdatedText, DefaultFromEmail, [userEmail])
    case NotifyPostDeletion(username, userEmail, postTitle) =>
      Mail(PostDeletedSubject,
           Greeting(username) + DeletedOpening + QuotedTitle(postTitle) + DeletedClosing,
           DefaultFromEmail, [userEmail])
  }

  /** One run of a blog task, given whether `send_mail` succeeded. */
  function Run(call: BlogTaskCall, sent: bool): (r: TaskRun)
    ensures r.mail == MailFor(call)
    ensures r.outcome == RetryOnFailure(sent)
  {
    TaskRun(MailFor(call), RetryOnFailure(sent))
  }

  /** Each mail goes to exactly the user's address, from the configured sender, under the
      task's fixed subject, and opens by greeting the user by name. */
  lemma MailShape(call: BlogTaskCall)
    ensures MailFor(call).recipients == [call.userEmail]
    ensures MailFor(call).sender == DefaultFromEmail
    ensures MailFor(call).subject ==
      match call
      case PostNotifyingEmail(_, _) => PostCreatedSubject
      case PostUpdateNotifyingEmail(_, _) => PostUpdatedSubject
      case NotifyPostDeletion(_, _, _) => PostDeletedSubject
    ensures StartsWith(MailFor(call).body, Greeting(call.username))
  {
    match call
    case PostNotifyingEmail(username, _) =>
      StartsWithConcat(Greeting(username), CreatedText);
    case PostUpdateNotifyingEmail(username, _) =>
      StartsWithConcat(Greeting(username), UpdatedText);
    case NotifyPostDeletion(username, _, postTitle) =>
      var rest := DeletedOpening + QuotedTitle(postTitle) + DeletedClosing;
      assert MailFor(call).body == Greeting(username) + rest;
      StartsWithConcat(Greeting(username), rest);
  }

  /** The deletion mail names the post title in double quotes, right after the greeting. */
  lemma DeletionMailQuotesTitle(username: string, userEmail: string, postTitle: string)
    ensures OccursAt(MailFor(NotifyPostDeletion(username, userEmail, postTitle)).body,
                     QuotedTitle(postTitle), |Greeting(username) + DeletedOpening|)
  {
    OccursAtConcat(Greeting(username) + DeletedOpening, QuotedTitle(postTitle), DeletedClosing);
  }

  /** A failed send always requests a retry after 300 seconds; a successful one ends the
      task. */
  lemma BlogTasksRetryOnFailure(call: BlogTaskCall, sent: bool)
    ensures Run(call, sent).outcome == if sent then Completed(None) else RetryRequested(300)
  {
  }

  /** Under the declared budget, a notification whose send keeps failing is attempted four
      times, the first attempt and three retries, and then ends as failed. */
  lemma AlwaysFailingSendStopsAfterFourAttempts(call: BlogTaskCall, sent: nat -> bool)
    requires forall i :: !sent(i)
    ensures Execute((i: nat) => Run(call, sent(i)).outcome, BlogMaxRetries, 0) == FailedTerminal(4)
  {
    AlwaysFailingExhaustsRetries((i: nat) => Run(call, sent(i)).outcome, BlogMaxRetries, 0);
  }
}
