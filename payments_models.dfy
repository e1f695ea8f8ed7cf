/** The `Donation` record: donor details that may be null or blank, an amount with two
    decimal places kept here as whole cents, and a status among three choices. */
module PaymentsModels {
  import opened Common
  import opened Text

  datatype Status = Pending | Succeeded | Failed

  /** The stored value of each entry of `STATUS_CHOICES`. */
  function StatusCode(s: Status): string {
    match s
    case Pending => "pending"
    case Succeeded => "succeeded"
    case Failed => "failed"
  }

  /** `STATUS_CHOICES`: (stored value, label) pairs. */
  const StatusChoices: seq<(string, string)> :=
    [("pending", "Pending"), ("succeeded", "Succeeded"), ("failed", "Failed")]

  /** The status a stored value stands for, if it is one of the choices. */
  function ParseStatus(code: string): (r: Option<Status>)
    ensures r.Some? ==> StatusCode(r.value) == code
  {
    if code == "pending" then Some(Pending)
    else if code == "succeeded" then Some(Succeeded)
    else if code == "failed" then Some(Failed)
    else None
  }

  /** Every status has a distinct stored value, listed among the choices. */
  lemma StatusCodesAreTheChoices(s: Status)
    ensures ParseStatus(StatusCode(s)) == Some(s)
    ensures exists i :: 0 <= i < |StatusChoices| && StatusChoices[i].0 == StatusCode(s)
  {
    match s
    case Pending => assert StatusChoices[0].0 == StatusCode(s);
    case Succeeded => assert StatusChoices[1].0 == StatusCode(s);
    case Failed => assert StatusChoices[2].0 == StatusCode(s);
  }

  /** `max_digits=10, decimal_places=2`: at most 10 digits of which 2 follow the point. */
  const MaxDigits: nat := 10
  const DecimalPlaces: nat := 2

  datatype Donation = Donation(
    donorName: Option<string>,  // null=True, blank=True
    donorEmail: Option<string>, // null=True, blank=True
    amountCents: nat,
    status: Status)

  /** Ten digits with two after the point: fewer than 10^10 cents. */
  predicate AmountFits(cents: nat) {
    cents < 10_000_000_000
  }

  function Pow10(k: nat): nat {
    if k == 0 then 1 else 10 * Pow10(k - 1)
  }

  /** A number needs at most `k` digits exactly when it is below 10^k. */
  lemma {:induction false} DigitCount(n: nat, k: nat)
    requires k >= 1
    ensures |NatToString(n)| <= k <==> n < Pow10(k)
    decreases k
  {
    if k > 1 && n >= 10 {
      DigitCount(n / 10, k - 1);
    } else if k > 1 {
      assert Pow10(k) == 10 * Pow10(k - 1);
      PowAtLeastTen(k);
    }
  }

  lemma {:induction false} PowAtLeastTen(k: nat)
    requires k >= 1
    ensures Pow10(k) >= 10
    decreases k
  {
    if k > 1 {
      PowAtLeastTen(k - 1);
    }
  }

  /** The amount fits the field exactly when its whole-dollar part has at most eight
      digits. */
  lemma AmountFitsMeaning(cents: nat)
    ensures AmountFits(cents) <==> |NatToString(cents / 100)| <= MaxDigits - DecimalPlaces
  {
    DigitCount(cents / 100, 8);
    assert Pow10(8) == 100_000_000;
  }

  /** A two-place decimal as Django loads it from the database: `12.50`, `0.05`. */
  function AmountText(cents: nat): (s: string)
    ensures |s| >= 4 && s[|s| - 3] == '.'
    ensures s[..|s| - 3] == NatToString(cents / 100)
    ensures s[|s| - 2] == DigitChar(cents % 100 / 10) && s[|s| - 1] == DigitChar(cents % 10)
  {
    var s := NatToString(cents / 100) + "." + [DigitChar(cents % 100 / 10), DigitChar(cents % 10)];
    assert s[..|s| - 3] == NatToString(cents / 100);
    s
  }

  /** Read without its point, the amount's text spells the number of cents. */
  lemma AmountTextValue(cents: nat)
    ensures var s := AmountText(cents);
            |s| >= 4 && (forall i :: 0 <= i < |s| && i != |s| - 3 ==> IsDigit(s[i])) &&
            DigitsValue(s[..|s| - 3] + s[|s| - 2..]) == cents
  {
    var s := AmountText(cents);
    var dollars := NatToString(cents / 100);
    var tens, units := DigitChar(cents % 100 / 10), DigitChar(cents % 10);
    var t := dollars + [tens, units];
    assert s == dollars + "." + [tens, units];
    assert s[..|s| - 3] + s[|s| - 2..] == t;
    assert t[..|t| - 1] == dollars + [tens];
    assert (dollars + [tens])[..|dollars|] == dollars;
    NatToStringValue(cents / 100);
    assert DigitsValue(dollars + [tens]) == 10 * (cents / 100) + cents % 100 / 10;
    assert DigitsValue(t) == 10 * (10 * (cents / 100) + cents % 100 / 10) + cents % 10;
  }

  /** Distinct amounts print differently. */
  lemma AmountTextInjective(a: nat, b: nat)
    requires AmountText(a) == AmountText(b)
    ensures a == b
  {
    var sa, sb := AmountText(a), AmountText(b);
    NatToStringInjective(a / 100, b / 100);
    assert sa[|sa| - 2] == DigitChar(a % 100 / 10) && sb[|sb| - 2] == DigitChar(b % 100 / 10);
    assert sa[|sa| - 1] == DigitChar(a % 10) && sb[|sb| - 1] == DigitChar(b % 10);
    DigitCharInjective(a % 100 / 10, b % 100 / 10);
    DigitCharInjective(a % 10, b % 10);
    CentsFromParts(a, b);
  }

  /** An amount in cents is determined by its dollars, its tenths and its last digit. */
  lemma CentsFromParts(a: nat, b: nat)
    requires a / 100 == b / 100 && a % 100 / 10 == b % 100 / 10 && a % 10 == b % 10
    ensures a == b
  {
    assert a == 100 * (a / 100) + a % 100;
    assert b == 100 * (b / 100) + b % 100;
    assert a % 100 == 10 * (a % 100 / 10) + a % 100 % 10;
    assert b % 100 == 10 * (b % 100 / 10) + b % 100 % 10;
    assert a % 100 % 10 == a % 10 && b % 100 % 10 == b % 10 by {
      assert a == 10 * (10 * (a / 100) + a % 100 / 10) + a % 100 % 10;
      assert b == 10 * (10 * (b / 100) + b % 100 / 10) + b % 100 % 10;
    }
  }

  /** `self.donor_name or 'Anonymous'`: a missing or empty name is shown as Anonymous. */
  function DisplayName(donorName: Option<string>): (s: string)
    ensures donorName.None? || donorName == Some("") ==> s == "Anonymous"
    ensures donorName.Some? && donorName.value != "" ==> s == donorName.value
  {
    match donorName
    case None => "Anonymous"
    case Some(n) => if n == "" then "Anonymous" else n
  }

  /** `__str__`: `"{name} - ${amount} ({status})"`. */
  function Describe(d: Donation): (s: string)
    ensures StartsWith(s, DisplayName(d.donorName) + " - $")
    ensures EndsWith(s, " (" + StatusCode(d.status) + ")")
  {
    var head := DisplayName(d.donorName) + " - $";
    var tail := " (" + StatusCode(d.status) + ")";
    var s := head + AmountText(d.amountCents) + tail;
    assert s[..|head|] == head;
    assert s[|s| - |tail|..] == tail;
    s
  }

  /** The amount can be read back from the description: what lies between the name and the
      status is the amount's text. */
  lemma DescribeShowsAmount(d: Donation)
    ensures var s := Describe(d); var head := DisplayName(d.donorName) + " - $";
            var tail := " (" + StatusCode(d.status) + ")";
            |head| + |tail| <= |s| && s[|head|..|s| - |tail|] == AmountText(d.amountCents)
  {
    var head := DisplayName(d.donorName) + " - $";
    var tail := " (" + StatusCode(d.status) + ")";
    var s := head + AmountText(d.amountCents) + tail;
    assert s[|head|..|s| - |tail|] == AmountText(d.amountCents);
  }
}
