/** Donation checkout and the Stripe webhook, as a state machine over the donation table.
    Stripe's answers (session creation, `construct_event`) are parameters. */
module PaymentsViews {
  import opened Common
  import opened PaymentsModels

  /** What `stripe.checkout.Session.create` does with the request. */
  datatype StripeAnswer = SessionCreated(sessionId: string) | StripeFailure

  /** The parts of the Stripe session request the model keeps: the unit amount in cents
      and the donation id carried in the metadata. */
  datatype SessionRequest = SessionRequest(unitAmountCents: nat, donationId: nat)

  /** The JSON responses of the checkout endpoint. */
  datatype CheckoutResponse =
    | InvalidAmount400       // {"error": "Invalid amount"}, status 400
    | Session200(id: string) // {"id": session.id}
    | PaymentError500        // {"error": "Payment processing error"}, status 500

  /** The customer fields of a completed checkout session, and the `donation_id` of its
      metadata when it names a number. */
  datatype CompletedSession = CompletedSession(
    donationId: Option<nat>,
    customerName: Option<string>,
    customerEmail: Option<string>)

  datatype Event = Event(eventType: string, session: CompletedSession)

  /** The result of `stripe.Webhook.construct_event` on the payload and signature. */
  datatype Verification = InvalidPayload | InvalidSignature | Verified(event: Event)

  const CompletedEventType: string := "checkout.session.completed"

  /** `send_donation_appreciation_email.delay(name, email)`. */
  datatype AppreciationCall = AppreciationCall(donorName: Option<string>, donorEmail: string)

  /** What one webhook delivery does: the new table, the HTTP status and the queued mail. */
  datatype WebhookEffect = WebhookEffect(rows: map<nat, Donation>, status: nat, queued: Option<AppreciationCall>)

  /** The record created before Stripe is called. */
  function PendingDonation(cents: nat): (d: Donation)
    ensures d.status == Pending && d.amountCents == cents
    ensures d.donorName == Some("") && d.donorEmail == Some("")
  {
    Donation(Some(""), Some(""), cents, Pending)
  }

  /** The record after a completed payment: donor details from Stripe, amount kept. */
  function MarkSucceeded(d: Donation, s: CompletedSession): (r: Donation)
    ensures r.status == Succeeded && r.amountCents == d.amountCents
    ensures r.donorName == s.customerName && r.donorEmail == s.customerEmail
  {
    d.(donorName := s.customerName, donorEmail := s.customerEmail, status := Succeeded)
  }

  /** Python truthiness of the customer's email. */
  predicate HasEmail(email: Option<string>) {
    email.Some? && email.value != ""
  }

  /** `my_webhooks_view` as a function of the table and the verified (or rejected) event. */
  function ApplyWebhook(rows: map<nat, Donation>, v: Verification): (e: WebhookEffect)
    ensures !v.Verified? ==> e == WebhookEffect(rows, 400, None)
    ensures v.Verified? ==> e.status == 200
    ensures e.queued.Some? ==> v.Verified? && e.queued.value.donorEmail != ""
    ensures forall id :: id in rows <==> id in e.rows
    ensures forall id :: id in rows && !(v.Verified? && v.event.session.donationId == Some(id)) ==>
      e.rows[id] == rows[id]
  {
    match v
    case InvalidPayload => WebhookEffect(rows, 400, None)
    case InvalidSignature => WebhookEffect(rows, 400, None)
    case Verified(event) =>
      if event.eventType != CompletedEventType then WebhookEffect(rows, 200, None)
      else
        var s := event.session;
        if s.donationId.None? || s.donationId.value !in rows then WebhookEffect(rows, 200, None)
        else
          var id := s.donationId.value;
          var d := MarkSucceeded(rows[id], s);
          WebhookEffect(rows[id := d], 200,
                        if HasEmail(d.donorEmail) then Some(AppreciationCall(d.donorName, d.donorEmail.value))
                        else None)
  }

  /** A completed event for a known donation marks it succeeded with Stripe's customer
      details, keeps its amount, and queues the thank-you mail exactly when the email is
      non-empty. */
  lemma CompletedEventForKnownDonation(rows: map<nat, Donation>, s: CompletedSession, id: nat)
    requires s.donationId == Some(id) && id in rows
    ensures var e := ApplyWebhook(rows, Verified(Event(CompletedEventType, s)));
      e.rows == rows[id := MarkSucceeded(rows[id], s)] &&
      e.rows[id].amountCents == rows[id].amountCents &&
      (e.queued.Some? <==> HasEmail(s.customerEmail)) &&
      (e.queued.Some? ==> e.queued.value == AppreciationCall(s.customerName, s.customerEmail.value))
  {
  }

  /** Events of any other type, and completed events naming no known donation, are
      acknowledged and change nothing. */
  lemma IgnoredEventsChangeNothing(rows: map<nat, Donation>, event: Event)
    requires event.eventType != CompletedEventType ||
             event.session.donationId.None? || event.session.donationId.value !in rows
    ensures ApplyWebhook(rows, Verified(event)) == WebhookEffect(rows, 200, None)
  {
  }

  /** Stripe may deliver an event twice: the second delivery leaves the table as the first
      left it, but queues the same mail again. */
  lemma {:induction false} ReplayIsIdempotentExceptMail(rows: map<nat, Donation>, v: Verification)
    ensures var once := ApplyWebhook(rows, v); var twice := ApplyWebhook(once.rows, v);
      twice.rows == once.rows && twice.status == once.status && twice.queued == once.queued
  {
    if v.Verified? && v.event.eventType == CompletedEventType {
      var s := v.event.session;
      if s.donationId.Some? && s.donationId.value in rows {
        var id := s.donationId.value;
        var once := ApplyWebhook(rows, v);
        assert once.rows[id] == MarkSucceeded(rows[id], s);
        assert MarkSucceeded(once.rows[id], s) == once.rows[id];
        assert once.rows[id := MarkSucceeded(once.rows[id], s)] == once.rows;
      }
    }
  }

  /** No code path records a failed donation. */
  predicate NoFailedDonations(rows: map<nat, Donation>) {
    forall id :: id in rows ==> rows[id].status != Failed
  }

  lemma WebhookNeverFails(rows: map<nat, Donation>, v: Verification)
    requires NoFailedDonations(rows)
    ensures NoFailedDonations(ApplyWebhook(rows, v).rows)
  {
  }

  /** The donation table with its auto-incrementing primary key. */
  class DonationTable {
    var rows: map<nat, Donation>
    var nextId: nat

    ghost predicate Valid()
      reads this
    {
      forall id :: id in rows ==> id < nextId
    }

    constructor ()
      ensures Valid() && rows == map[]
    {
      rows := map[];
      nextId := 1;
    }

    /** `CreateDonationCheckoutSession.post` for an amount already converted to cents. A
        non-positive amount is refused with no record; otherwise a pending record is created
        first, so it remains when Stripe then fails. */
    method CreateCheckoutSession(cents: int, stripe: StripeAnswer)
      returns (resp: CheckoutResponse, request: Option<SessionRequest>)
      requires Valid()
      modifies this
      ensures Valid()
      ensures cents <= 0 ==>
        resp == InvalidAmount400 && request == None && rows == old(rows) && nextId == old(nextId)
      ensures cents > 0 ==>
        old(nextId) !in old(rows) &&
        rows == old(rows)[old(nextId) := PendingDonation(cents)] && nextId == old(nextId) + 1 &&
        request == Some(SessionRequest(cents, old(nextId))) &&
        resp == (if stripe.SessionCreated? then Session200(stripe.sessionId) else PaymentError500)
      ensures NoFailedDonations(old(rows)) ==> NoFailedDonations(rows)
    {
      if cents <= 0 {
        return InvalidAmount400, None;
      }
      var id := nextId;
      rows := rows[id := PendingDonation(cents)];
      nextId := nextId + 1;
      request := Some(SessionRequest(cents, id));
      match stripe
      case SessionCreated(sessionId) => resp := Session200(sessionId);
      case StripeFailure => resp := PaymentError500;
    }

    /** `my_webhooks_view`: the fetched record is updated field by field and saved. */
    method HandleWebhook(v: Verification) returns (status: nat, queued: Option<AppreciationCall>)
      requires Valid()
      modifies this
      ensures Valid() && nextId == old(nextId)
      ensures WebhookEffect(rows, status, queued) == ApplyWebhook(old(rows), v)
    {
      if !v.Verified? {
        return 400, None;
      }
      var event := v.event;
      queued := None;
      if event.eventType == CompletedEventType {
        var session := event.session;
        if session.donationId.Some? && session.donationId.value in rows {
          var id := session.donationId.value;
          var donation := rows[id];
          donation := donation.(donorName := session.customerName);
          donation := donation.(donorEmail := session.customerEmail);
          donation := donation.(status := Succeeded);
          rows := rows[id := donation];
          if HasEmail(donation.donorEmail) {
            queued := Some(AppreciationCall(donation.donorName, donation.donorEmail.value));
          }
        }
      }
      status := 200;
    }
  }
}
