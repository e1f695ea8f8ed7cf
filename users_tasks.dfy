/** The account tasks: the welcome and profile-update mails (retried in 300 seconds when
    sending fails) and the profile-image task, of which the model keeps the file-name
    choice and the way its failures are routed. */
module UsersTasks {
  import opened Common
  import opened Text
  import opened TaskPolicy

  /** All three tasks are declared `bind=True, max_retries=3`. */
  const UsersMaxRetries: nat := 3

  const WelcomeSubject: string := "Welcome to MyDailyBlog"
  const ProfileUpdatedSubject: string := "Profile updated"
  const WelcomeText: string :=
    "\n\nWelcome to MyDailyBlog! We're happy to have you on board.\n\n— The MyDailyBlog Team"
  const ProfileUpdatedText: string :=
    " \n\nYou profile has been updated. \n\n— The MyDailyBlog Team"

  function WelcomeMail(userEmail: string, username: string): Mail {
    Mail(WelcomeSubject, Greeting(username) + WelcomeText, DefaultFromEmail, [userEmail])
  }

  function ProfileUpdateMail(userEmail: string, username: string): Mail {
    Mail(ProfileUpdatedSubject, Greeting(username) + ProfileUpdatedText, DefaultFromEmail, [userEmail])
  }

  /** `send_welcome_email`, given whether `send_mail` succeeded. */
  function SendWelcomeEmail(userEmail: string, username: string, sent: bool): (r: TaskRun)
    ensures r.mail.recipients == [userEmail]
    ensures StartsWith(r.mail.body, "Hi " + username + ",")
    ensures r.outcome == if sent then Completed(None) else RetryRequested(300)
  {
    StartsWithConcat(Greeting(username), WelcomeText);
    TaskRun(WelcomeMail(userEmail, username), RetryOnFailure(sent))
  }

  /** `profile_update_email`, given whether `send_mail` succeeded. */
  function ProfileUpdateEmail(userEmail: string, username: string, sent: bool): (r: TaskRun)
    ensures r.mail.recipients == [userEmail]
    ensures StartsWith(r.mail.body, "Hi " + username + ",")
    ensures r.outcome == if sent then Completed(None) else RetryRequested(300)
  {
    StartsWithConcat(Greeting(username), ProfileUpdatedText);
    TaskRun(ProfileUpdateMail(userEmail, username), RetryOnFailure(sent))
  }

  /** `image_path.split('/')[-1]`: the part of the path after its last `/`. */
  function FileName(path: string): (name: string)
    ensures EndsWith(path, name)
    ensures forall i :: 0 <= i < |name| ==> name[i] != '/'
    ensures name == path || path[|path| - |name| - 1] == '/'
    decreases |path|
  {
    if path == [] then []
    else if path[|path| - 1] == '/' then []
    else FileName(path[..|path| - 1]) + [path[|path| - 1]]
  }

  /** A path with no `/` is its own file name. */
  lemma FileNameOfPlainName(path: string)
    requires forall i :: 0 <= i < |path| ==> path[i] != '/'
    ensures FileName(path) == path
  {
  }

  /** The image task's three ways of ending one attempt. */
  datatype ImageAttempt =
    | UserMissing      // `User.DoesNotExist` from the lookup
    | ProcessingFailed // any other exception (storage, Pillow, the profile save)
    | Processed        // the resized image was saved

  /** One attempt of `process_profile_image`: how it ends and the name the image is saved
      under when it succeeds. */
  datatype ImageRun = ImageRun(outcome: Outcome, savedAs: Option<string>)

  const ImageSuccessPrefix: string := "Image optimized successfully for user "

  function ProcessProfileImage(userId: nat, imagePath: string, attempt: ImageAttempt): (r: ImageRun)
    ensures attempt == UserMissing <==> r.outcome == Reraised
    ensures attempt == ProcessingFailed <==> r.outcome == RetryRequested(300)
    ensures attempt == Processed <==>
      r.outcome == Completed(Some(ImageSuccessPrefix + NatToString(userId)))
    ensures r.savedAs.Some? <==> attempt == Processed
    ensures r.savedAs.Some? ==> r.savedAs.value == FileName(imagePath)
  {
    match attempt
    case UserMissing => ImageRun(Reraised, None)
    case ProcessingFailed => ImageRun(RetryRequested(RetryCountdown), None)
    case Processed =>
      ImageRun(Completed(Some(ImageSuccessPrefix + NatToString(userId))), Some(FileName(imagePath)))
  }

  /** A missing user is never retried, however many retries the queue allows. */
  lemma MissingUserNeverRetried(userId: nat, imagePath: string, maxRetries: nat)
    ensures Execute((i: nat) => ProcessProfileImage(userId, imagePath, UserMissing).outcome,
                    maxRetries, 0) == FailedTerminal(1)
  {
  }

  /** Under the declared budget, a welcome mail whose send keeps failing is attempted four
      times and then ends as failed. */
  lemma WelcomeAlwaysFailingStopsAfterFourAttempts(userEmail: string, username: string, sent: nat -> bool)
    requires forall i :: !sent(i)
    ensures Execute((i: nat) => SendWelcomeEmail(userEmail, username, sent(i)).outcome,
                    UsersMaxRetries, 0) == FailedTerminal(4)
  {
    AlwaysFailingExhaustsRetries((i: nat) => SendWelcomeEmail(userEmail, username, sent(i)).outcome,
                                 UsersMaxRetries, 0);
  }
}
