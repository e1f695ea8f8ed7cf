/** The donation thank-you task: a plain task with no retry configuration whose send
    failures are logged and swallowed. */
module PaymentsTasks {
  import opened Common
  import opened Text
  import opened TaskPolicy

  const AppreciationSubject: string := "Thank You for Your Donation ❤️"
  const AppreciationSender: string := "irfan55iimtgn@gmail.com"
  const AppreciationText: string :=
    "\n\nThank you for your generous donation! Your support means a lot to us.\n\nWarm regards,\nThe Blog Team"

  /** The f-string renders a missing name as `None`. */
  function NameText(donorName: Option<string>): string {
    match donorName
    case None => "None"
    case Some(n) => n
  }

  function Salutation(donorName: Option<string>): string {
    "Dear " + NameText(donorName) + ","
  }

  function AppreciationMail(donorName: Option<string>, donorEmail: string): Mail {
    Mail(AppreciationSubject, Salutation(donorName) + AppreciationText,
         Address(AppreciationSender), [donorEmail])
  }

  /** `send_donation_appreciation_email`, given whether `send_mail` succeeded. */
  function SendDonationAppreciationEmail(donorName: Option<string>, donorEmail: string, sent: bool): (r: TaskRun)
    ensures r.mail.recipients == [donorEmail]
    ensures r.mail.sender == Address("irfan55iimtgn@gmail.com")
    ensures StartsWith(r.mail.body, "Dear " + NameText(donorName) + ",")
    ensures r.outcome == if sent then Completed(None) else FailureLogged
  {
    StartsWithConcat(Salutation(donorName), AppreciationText);
    TaskRun(AppreciationMail(donorName, donorEmail), LogOnFailure(sent))
  }

  /** Whatever the retry budget, the send is attempted once and the run ends as a success on
      the queue, even when the send failed and only the log records it. */
  lemma AppreciationNeverRetried(donorName: Option<string>, donorEmail: string, sent: nat -> bool, maxRetries: nat)
    ensures Execute((i: nat) => SendDonationAppreciationEmail(donorName, donorEmail, sent(i)).outcome,
                    maxRetries, 0) == Succeeded(1)
    ensures SendDonationAppreciationEmail(donorName, donorEmail, sent(0)).outcome.FailureLogged? <==> !sent(0)
  {
    var attempt := (i: nat) => SendDonationAppreciationEmail(donorName, donorEmail, sent(i)).outcome;
    assert attempt(0) == LogOnFailure(sent(0));
  }
}
