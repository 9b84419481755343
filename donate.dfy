/**
 * The donation form: the card-number and expiry inputs reformat what is
 * typed, submitting validates all four fields against the current date, and
 * only a valid form is posted to the payment endpoint.
 */
module Donate {
  import opened Wrappers
  import opened JsText

  /** Digits in groups of four joined by single spaces (`match(/.{1,4}/g).join(" ")`). */
  function Group(d: string): (r: string)
    decreases |d|
  {
    if |d| <= 4 then d else d[..4] + " " + Group(d[4..])
  }

  /** The card-number input's change handler: keep the digits, then group them. */
  function FormatCard(value: string): string {
    Group(Digits(value))
  }

  /** The expiry input's change handler: keep the digits, and from three on put a slash after the second and keep at most four. */
  function FormatExpiry(value: string): string {
    var d := Digits(value);
    if |d| >= 3 then d[..2] + "/" + d[2..if |d| < 4 then |d| else 4] else d
  }

  lemma {:induction false} DigitsAppend(a: string, b: string)
    ensures Digits(a + b) == Digits(a) + Digits(b)
  {
    if a != [] {
      assert (a + b)[1..] == a[1..] + b;
      DigitsAppend(a[1..], b);
    } else {
      assert a + b == b;
    }
  }

  lemma {:induction false} DigitsOfDigits(d: string)
    requires AllDigits(d)
    ensures Digits(d) == d
  {
    if d != [] {
      DigitsOfDigits(d[1..]);
    }
  }

  lemma {:induction false} StripSpacesAppend(a: string, b: string)
    ensures StripSpaces(a + b) == StripSpaces(a) + StripSpaces(b)
  {
    if a != [] {
      assert (a + b)[1..] == a[1..] + b;
      StripSpacesAppend(a[1..], b);
    } else {
      assert a + b == b;
    }
  }

  lemma {:induction false} StripSpacesOfDigits(d: string)
    requires AllDigits(d)
    ensures StripSpaces(d) == d
  {
    if d != [] {
      StripSpacesOfDigits(d[1..]);
    }
  }

  /** Grouping only inserts spaces: removing them, or keeping only digits, gives the digits back. */
  lemma {:induction false} GroupInsertsOnlySpaces(d: string)
    requires AllDigits(d)
    ensures Digits(Group(d)) == d && StripSpaces(Group(d)) == d
    ensures d != [] ==> |Group(d)| == |d| + (|d| - 1) / 4
    decreases |d|
  {
    if |d| <= 4 {
      DigitsOfDigits(d);
      StripSpacesOfDigits(d);
    } else {
      GroupInsertsOnlySpaces(d[4..]);
      DigitsAppend(d[..4] + " ", Group(d[4..]));
      DigitsAppend(d[..4], " ");
      DigitsOfDigits(d[..4]);
      StripSpacesAppend(d[..4] + " ", Group(d[4..]));
      StripSpacesAppend(d[..4], " ");
      StripSpacesOfDigits(d[..4]);
      assert d == d[..4] + d[4..];
    }
  }

  /** The card input keeps every digit typed, in order, and nothing else but spaces. */
  lemma FormatCardKeepsDigits(value: string)
    ensures Digits(FormatCard(value)) == Digits(value)
    ensures StripSpaces(FormatCard(value)) == Digits(value)
    ensures Digits(value) != [] ==> |FormatCard(value)| == |Digits(value)| + (|Digits(value)| - 1) / 4
  {
    GroupInsertsOnlySpaces(Digits(value));
  }

  /** Reformatting a formatted card number changes nothing. */
  lemma FormatCardIdempotent(value: string)
    ensures FormatCard(FormatCard(value)) == FormatCard(value)
  {
    FormatCardKeepsDigits(value);
  }

  /** Sixteen digits are shown as four groups of four: `1234 5678 9012 3456`. */
  lemma FormatCardSixteen(value: string)
    requires |Digits(value)| == 16
    ensures var r := FormatCard(value);
      |r| == 19 && r[4] == ' ' && r[9] == ' ' && r[14] == ' '
  {
    var d := Digits(value);
    FormatCardKeepsDigits(value);
    var g1, g2, g3 := Group(d[4..]), Group(d[8..]), Group(d[12..]);
    assert d[4..][4..] == d[8..] && d[8..][4..] == d[12..];
    assert g3 == d[12..] && |g3| == 4;
    assert g2 == d[8..12] + " " + g3;
    assert g1 == d[4..8] + " " + g2;
    assert Group(d) == d[..4] + " " + g1;
  }

  /** Dropping the slash between two digit runs gives the runs back. */
  lemma DigitsAroundSlash(a: string, b: string)
    requires AllDigits(a) && AllDigits(b)
    ensures Digits(a + "/" + b) == a + b
  {
    var slash := "/";
    assert Digits(slash) == [] by {
      assert !IsDigit(slash[0]) && slash[1..] == [];
    }
    DigitsAppend(a, slash);
    DigitsOfDigits(a);
    assert Digits(a + slash) == a;
    DigitsAppend(a + slash, b);
    DigitsOfDigits(b);
  }

  /** The expiry input keeps the digits typed, up to four. */
  lemma FormatExpiryKeepsDigits(value: string)
    ensures var d := Digits(value);
      Digits(FormatExpiry(value)) == if |d| < 4 then d else d[..4]
  {
    var d := Digits(value);
    if |d| >= 3 {
      var end := if |d| < 4 then |d| else 4;
      DigitsAroundSlash(d[..2], d[2..end]);
      assert d[..2] + d[2..end] == d[..end];
    } else {
      DigitsOfDigits(d);
    }
  }

  /** Reformatting a formatted expiry changes nothing. */
  lemma FormatExpiryIdempotent(value: string)
    ensures FormatExpiry(FormatExpiry(value)) == FormatExpiry(value)
  {
    FormatExpiryKeepsDigits(value);
  }

  /** `/^\d{2}\/\d{2}$/`. */
  predicate ExpiryShape(e: string) {
    |e| == 5 && IsDigit(e[0]) && IsDigit(e[1]) && e[2] == '/' && IsDigit(e[3]) && IsDigit(e[4])
  }

  /** The expiry input reaches the `MM/YY` shape exactly when four or more digits were typed. */
  lemma FormatExpiryShape(value: string)
    ensures ExpiryShape(FormatExpiry(value)) <==> |Digits(value)| >= 4
  {
  }

  /**
   * A local-time instant: calendar year, month 1..12, and the milliseconds
   * elapsed since that month began (less than the month's length).
   */
  datatype Instant = Instant(year: int, month: int, elapsed: nat)

  predicate WellFormed(t: Instant) { 1 <= t.month <= 12 }

  /** Time order: instants are compared by month, then by time within the month. */
  predicate Before(a: Instant, b: Instant) {
    a.year * 12 + a.month < b.year * 12 + b.month
    || (a.year * 12 + a.month == b.year * 12 + b.month && a.elapsed < b.elapsed)
  }

  /**
   * `new Date(year, month)` for the 1-based month read from the card: the
   * month index `month` is the following month, and 12 rolls over into the
   * January of the next year.
   */
  function FirstOfNextMonth(year: int, month: int): (t: Instant)
    requires 1 <= month <= 12
    ensures WellFormed(t) && t.elapsed == 0
    ensures t.year * 12 + t.month == year * 12 + month + 1
  {
    if month == 12 then Instant(year + 1, 1, 0) else Instant(year, month + 1, 0)
  }

  function Month(e: string): nat requires ExpiryShape(e) { DecimalValue(e[..2]) }

  /** `parseInt('20' + yearStr)`. */
  function Year(e: string): nat requires ExpiryShape(e) { 2000 + DecimalValue(e[3..]) }

  /** `isValidExpiry`: the shape, a month 1..12, and a first day of the next month after `now`. */
  predicate IsValidExpiry(e: string, now: Instant) {
    ExpiryShape(e) && 1 <= Month(e) <= 12 && Before(now, FirstOfNextMonth(Year(e), Month(e)))
  }

  /** A card is accepted through the last instant of its expiry month, and no longer. */
  lemma ValidExpiryMeansNotPastMonth(e: string, now: Instant)
    requires WellFormed(now) && ExpiryShape(e)
    ensures IsValidExpiry(e, now) <==>
      1 <= Month(e) <= 12 && (Year(e) > now.year || (Year(e) == now.year && Month(e) >= now.month))
  {
  }

  /** What `handlePayment` posts: `parseInt` of the route id and `parseFloat` of the amount, NaN as null. */
  datatype Payment = Payment(ngoId: Option<int>, amount: Option<real>)

  /** How the request ended: a response with its `ok` flag, or a thrown error. */
  datatype FetchOutcome = Responded(ok: bool) | NetworkError

  const InvalidMessage := "Please fill all fields correctly"
  const SentMessage := "Donation successfully sent"
  const RejectedMessage := "Something went wrong, make sure you are logged in"
  const FailedMessage := "Something went wrong, try again later"

  /**
   * The submit guard. `parseFloat` is a parameter (`None` is NaN); a NaN
   * amount is not below 1, so it passes.
   */
  predicate FieldsValid(cardNumber: string, expiry: string, cvv: string, amount: string,
                        now: Instant, parseFloat: string -> Option<real>) {
    cardNumber != "" && |StripSpaces(cardNumber)| == 16
    && expiry != "" && IsValidExpiry(expiry, now)
    && cvv != "" && |cvv| == 3
    && amount != "" && !(parseFloat(amount).Some? && parseFloat(amount).value < 1.0)
  }

  /** The card field passes the guard exactly when sixteen digits were typed into it. */
  lemma CardAcceptedIffSixteenDigits(value: string)
    ensures (FormatCard(value) != "" && |StripSpaces(FormatCard(value))| == 16) <==> |Digits(value)| == 16
  {
    FormatCardKeepsDigits(value);
  }

  /** The payment form's state: four inputs, the status line, and the NGO id from the route. */
  class DonateForm {
    const routeId: string
    var cardNumber: string
    var expiry: string
    var cvv: string
    var amount: string
    var status: string

    /** The two formatted inputs hold only what their change handlers produce. */
    ghost predicate Valid()
      reads this
    {
      FormatCard(cardNumber) == cardNumber && FormatExpiry(expiry) == expiry
    }

    constructor (id: string)
      ensures Valid()
      ensures routeId == id && cardNumber == "" && expiry == "" && cvv == "" && amount == "50" && status == ""
    {
      routeId := id;
      cardNumber, expiry, cvv, amount, status := "", "", "", "50", "";
    }

    method ChangeCardNumber(value: string)
      requires Valid()
      modifies this
      ensures Valid()
      ensures cardNumber == FormatCard(value) && status == ""
      ensures expiry == old(expiry) && cvv == old(cvv) && amount == old(amount)
    {
      status := "";
      cardNumber := FormatCard(value);
      FormatCardIdempotent(value);
    }

    method ChangeExpiry(value: string)
      requires Valid()
      modifies this
      ensures Valid()
      ensures expiry == FormatExpiry(value) && status == ""
      ensures cardNumber == old(cardNumber) && cvv == old(cvv) && amount == old(amount)
    {
      status := "";
      expiry := FormatExpiry(value);
      FormatExpiryIdempotent(value);
    }

    method ChangeCvv(value: string)
      requires Valid()
      modifies this
      ensures Valid()
      ensures cvv == value && status == ""
      ensures cardNumber == old(cardNumber) && expiry == old(expiry) && amount == old(amount)
    {
      status := "";
      cvv := value;
    }

    method ChangeAmount(value: string)
      requires Valid()
      modifies this
      ensures Valid()
      ensures amount == value && status == ""
      ensures cardNumber == old(cardNumber) && expiry == old(expiry) && cvv == old(cvv)
    {
      status := "";
      amount := value;
    }

    /**
     * `handlePayment`: an invalid form sets the validation message and sends
     * nothing; a valid one sends the payment and reports how the request ended.
     */
    method HandlePayment(now: Instant, parseFloat: string -> Option<real>, outcome: FetchOutcome)
      returns (sent: Option<Payment>)
      requires Valid()
      modifies this
      ensures Valid()
      ensures sent.None? <==> !FieldsValid(cardNumber, expiry, cvv, amount, now, parseFloat)
      ensures sent.None? ==> status == InvalidMessage
      ensures sent.Some? ==> sent.value == Payment(ParseInt(routeId), parseFloat(amount))
      ensures sent.Some? ==> status == match outcome
        case Responded(true) => SentMessage
        case Responded(false) => RejectedMessage
        case NetworkError => FailedMessage
      ensures cardNumber == old(cardNumber) && expiry == old(expiry)
      ensures cvv == old(cvv) && amount == old(amount)
    {
      if !FieldsValid(cardNumber, expiry, cvv, amount, now, parseFloat) {
        status := InvalidMessage;
        return None;
      }
      sent := Some(Payment(ParseInt(routeId), parseFloat(amount)));
      match outcome {
        case Responded(ok) =>
          status := if ok then SentMessage else RejectedMessage;
        case NetworkError =>
          status := FailedMessage;
      }
    }
  }
}
