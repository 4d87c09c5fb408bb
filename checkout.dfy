/** components/CheckoutPage.tsx: the card form (its formatting of the number and expiry
    fields and its validation order), the amount due, and the form's state as a
    `CheckoutForm` object. The payment itself is mocked by a timer: its completion is the
    separate step `PaymentFinished`. */
module CheckoutPage {
  import opened Options
  import opened Text
  import opened Plans
  import Ledger
  import PricingPage

  // ----- Amount due -----

  /** `isUpgrade`: the checkout carries an upgrade cost. */
  predicate IsUpgrade(upgradeCost: Option<real>)
  {
    upgradeCost.Some?
  }

  /** `amountDue`: the upgrade cost, or else the plan's price. */
  function AmountDue(plan: Plan, upgradeCost: Option<real>): (r: real)
    ensures IsUpgrade(upgradeCost) ==> r == upgradeCost.value
    ensures !IsUpgrade(upgradeCost) ==> r == plan.price
    ensures upgradeCost.Some? && 0.0 <= upgradeCost.value <= plan.price ==> 0.0 <= r <= plan.price
  {
    if upgradeCost.Some? then upgradeCost.value else plan.price
  }

  /** The 'Credit from previous plan' line of an upgrade. */
  function CreditLine(plan: Plan, upgradeCost: real): real
  {
    plan.price - upgradeCost
  }

  /** The credit and the amount due add up to the plan's price, and for an upgrade cost in
      [0, price] (as the pricing page produces) both lie in [0, price]. */
  lemma UpgradeBreakdown(plan: Plan, upgradeCost: real)
    ensures AmountDue(plan, Some(upgradeCost)) + CreditLine(plan, upgradeCost) == plan.price
    ensures 0.0 <= upgradeCost <= plan.price ==>
      0.0 <= CreditLine(plan, upgradeCost) <= plan.price && 0.0 <= AmountDue(plan, Some(upgradeCost)) <= plan.price
  {
  }

  /** What the checkout charges for a plan picked on the pricing page: the prorated cost for
      an upgrade, the full price otherwise, and in every case between 0 and the plan's price. */
  lemma AmountDueForSelection(sub: Option<Ledger.Subscription>, id: PlanId, now: int)
    ensures var s := PricingPage.Classify(sub, PlanFor(id), now);
      var due := AmountDue(PlanFor(id), PricingPage.Selection(PlanFor(id), s).1);
      && 0.0 <= due <= PlanFor(id).price
      && (s.isUpgrade ==> due == Ledger.ProratedUpgradeCost(sub.value, PlanFor(id), PLANS, now))
      && (!s.isUpgrade ==> due == PlanFor(id).price)
  {
    PricingPage.UpgradeCostOnlyForUpgrades(sub, id, now);
  }

  // ----- Card-number formatting -----

  /** The regular-expression class `\d`. */
  predicate IsDigit(c: char)
  {
    '0' <= c <= '9'
  }

  predicate AllDigits(s: string)
  {
    forall i :: 0 <= i < |s| ==> IsDigit(s[i])
  }

  /** `s.replace(/(\d{4})/g, '$1 ')`: scanning from the left, every run of four digits not
      already taken is followed by a space. */
  function GroupFours(s: string): string
    decreases |s|
  {
    if |s| >= 4 && AllDigits(s[..4]) then s[..4] + " " + GroupFours(s[4..])
    else if s == [] then []
    else [s[0]] + GroupFours(s[1..])
  }

  /** The card-number field's formatting: whitespace removed, digits grouped in fours, trimmed. */
  function FormatCardNumber(v: string): string
  {
    Trim(GroupFours(StripWhitespace(v)))
  }

  /** Grouping only inserts spaces: stripping whitespace undoes it. */
  lemma {:induction false} StripGroup(s: string)
    ensures StripWhitespace(GroupFours(s)) == StripWhitespace(s)
    decreases |s|
  {
    if |s| >= 4 && AllDigits(s[..4]) {
      StripGroup(s[4..]);
      StripConcat(s[..4] + " ", GroupFours(s[4..]));
      StripConcat(s[..4], " ");
      StripConcat(s[..4], s[4..]);
      assert s == s[..4] + s[4..];
    } else if s != [] {
      StripGroup(s[1..]);
      StripConcat([s[0]], GroupFours(s[1..]));
      StripConcat([s[0]], s[1..]);
      assert s == [s[0]] + s[1..];
    }
  }

  /** Formatting an already formatted number changes nothing. */
  lemma FormatCardNumberIdempotent(v: string)
    ensures FormatCardNumber(FormatCardNumber(v)) == FormatCardNumber(v)
  {
    var s := StripWhitespace(v);
    StripTrim(GroupFours(s));
    StripGroup(s);
    StripOfNoWhitespace(s);
  }

  /** Sixteen digits, typed or pasted in any spacing, format as four groups of four separated
      by single spaces: nineteen characters. */
  lemma SixteenDigits(v: string)
    requires |StripWhitespace(v)| == 16 && AllDigits(StripWhitespace(v))
    ensures var d := StripWhitespace(v);
      FormatCardNumber(v) == d[..4] + " " + d[4..8] + " " + d[8..12] + " " + d[12..]
    ensures |FormatCardNumber(v)| == 19
  {
    var d := StripWhitespace(v);
    assert GroupFours(d[16..]) == [];
    assert d[12..][..4] == d[12..] && d[12..][4..] == d[16..];
    assert AllDigits(d[12..][..4]);
    assert GroupFours(d[12..]) == d[12..] + " ";
    assert d[8..][..4] == d[8..12] && d[8..][4..] == d[12..];
    assert AllDigits(d[8..][..4]);
    assert GroupFours(d[8..]) == d[8..12] + " " + d[12..] + " ";
    assert d[4..][..4] == d[4..8] && d[4..][4..] == d[8..];
    assert AllDigits(d[4..][..4]);
    assert GroupFours(d[4..]) == d[4..8] + " " + d[8..12] + " " + d[12..] + " ";
    assert AllDigits(d[..4]);
    var x := d[..4] + " " + d[4..8] + " " + d[8..12] + " " + d[12..];
    assert GroupFours(d) == x + " ";
    assert x[0] == d[0] && x[|x| - 1] == d[15];
    TrimTrailing(x, " ");
  }

  // ----- Expiry formatting -----

  /** `s.replace(/\//g, '')`. */
  function RemoveSlashes(s: string): (r: string)
    ensures '/' !in r
  {
    if s == [] then [] else (if s[0] == '/' then [] else [s[0]]) + RemoveSlashes(s[1..])
  }

  /** The expiry field's formatting: slashes removed, then one '/' after the first two
      characters when more than two remain. */
  function FormatExpiry(v: string): string
  {
    var t := RemoveSlashes(v);
    if |t| > 2 then t[..2] + "/" + t[2..] else t
  }

  lemma {:induction false} RemoveSlashesConcat(a: string, b: string)
    ensures RemoveSlashes(a + b) == RemoveSlashes(a) + RemoveSlashes(b)
  {
    if a == [] {
      assert a + b == b;
    } else {
      assert (a + b)[0] == a[0];
      assert (a + b)[1..] == a[1..] + b;
      RemoveSlashesConcat(a[1..], b);
    }
  }

  lemma {:induction false} RemoveSlashesOfNone(s: string)
    requires '/' !in s
    ensures RemoveSlashes(s) == s
  {
    if s != [] {
      RemoveSlashesOfNone(s[1..]);
      assert s == [s[0]] + s[1..];
    }
  }

  /** Removing the slashes of a formatted expiry gives back the digits typed. */
  lemma FormattedExpirySlashes(v: string)
    ensures RemoveSlashes(FormatExpiry(v)) == RemoveSlashes(v)
  {
    var t := RemoveSlashes(v);
    RemoveSlashesOfNone(t);
    if |t| > 2 {
      RemoveSlashesConcat(t[..2] + "/", t[2..]);
      RemoveSlashesConcat(t[..2], "/");
      RemoveSlashesOfNone(t[..2]);
      RemoveSlashesOfNone(t[2..]);
      assert t == t[..2] + t[2..];
    }
  }

  /** Formatting an already formatted expiry changes nothing, and once more than two characters
      are typed the result is `MM/` followed by the rest. */
  lemma FormatExpiryIdempotent(v: string)
    ensures FormatExpiry(FormatExpiry(v)) == FormatExpiry(v)
    ensures var t := RemoveSlashes(v);
      |t| > 2 ==> |FormatExpiry(v)| == |t| + 1 && FormatExpiry(v)[2] == '/' && '/' !in FormatExpiry(v)[3..]
  {
    FormattedExpirySlashes(v);
    var t := RemoveSlashes(v);
    if |t| > 2 {
      assert FormatExpiry(v)[3..] == t[2..];
    }
  }

  /** Four typed digits make a complete MM/YY, and typing over a complete MM/YY keeps it. */
  lemma FourDigitExpiry(d: string)
    requires |d| == 4 && '/' !in d
    ensures FormatExpiry(d) == d[..2] + "/" + d[2..]
    ensures FormatExpiry(d[..2] + "/" + d[2..]) == FormatExpiry(d)
    ensures |FormatExpiry(d)| == 5
  {
    RemoveSlashesOfNone(d);
    FormatExpiryIdempotent(d);
  }

  // ----- Validation -----

  datatype CardDetails = CardDetails(name: string, number: string, expiry: string, cvc: string)

  /** The checks of `handleSubmit`, in the order they are made. */
  datatype CardError = MissingField | ShortNumber | ShortExpiry | ShortCvc

  function Rank(e: CardError): nat
  {
    match e
    case MissingField => 0
    case ShortNumber => 1
    case ShortExpiry => 2
    case ShortCvc => 3
  }

  function Message(e: CardError): string
  {
    match e
    case MissingField => "Please fill in all card details."
    case ShortNumber => "Please enter a valid 16-digit card number."
    case ShortExpiry => "Please enter a valid expiry date (MM/YY)."
    case ShortCvc => "Please enter a valid CVC."
  }

  /** Whether the details fail one check, taken on its own. */
  predicate Fails(c: CardDetails, e: CardError)
  {
    match e
    case MissingField => c.name == [] || c.number == [] || c.expiry == [] || c.cvc == []
    case ShortNumber => |c.number| < 19
    case ShortExpiry => |c.expiry| < 5
    case ShortCvc => |c.cvc| < 3
  }

  /** The first failing check, if any. */
  function Validate(c: CardDetails): Option<CardError>
  {
    if c.name == [] || c.number == [] || c.expiry == [] || c.cvc == [] then Some(MissingField)
    else if |c.number| < 19 then Some(ShortNumber)
    else if |c.expiry| < 5 then Some(ShortExpiry)
    else if |c.cvc| < 3 then Some(ShortCvc)
    else None
  }

  /** Validation reports a check exactly when it fails and every earlier check passes, and
      reports nothing exactly when every check passes. */
  lemma ValidateSpec(c: CardDetails, e: CardError)
    ensures Validate(c) == Some(e) <==> Fails(c, e) && forall f :: Rank(f) < Rank(e) ==> !Fails(c, f)
    ensures Validate(c).None? <==> forall f :: !Fails(c, f)
  {
    if Validate(c).None? {
      forall f ensures !Fails(c, f) { }
    }
    if Validate(c).Some? {
      assert Fails(c, Validate(c).value);
    }
    if Validate(c) != Some(e) && Fails(c, e) {
      var g := Validate(c).value;
      assert Fails(c, g) && Rank(g) < Rank(e);
    }
  }

  /** Sixteen digits in the number field, four characters in the expiry field (typed without
      the slash, which the formatting inserts) and a CVC of at least three characters pass once a
      name is given. */
  lemma FormattedInputsPass(name: string, number: string, expiry: string, cvc: string)
    requires name != [] && |cvc| >= 3
    requires |StripWhitespace(number)| == 16 && AllDigits(StripWhitespace(number))
    requires |RemoveSlashes(expiry)| == 4
    ensures Validate(CardDetails(name, FormatCardNumber(number), FormatExpiry(expiry), cvc)).None?
  {
    SixteenDigits(number);
    FormatExpiryIdempotent(expiry);
  }

  // ----- The form -----

  /** The form's inputs, by their `name` attribute. */
  datatype Field = NameField | NumberField | ExpiryField | CvcField

  /** `handleInputChange`'s formatting of a typed value. */
  function Formatted(field: Field, value: string): string
  {
    match field
    case NumberField => FormatCardNumber(value)
    case ExpiryField => FormatExpiry(value)
    case _ => value
  }

  class CheckoutForm {
    const plan: Plan
    const upgradeCost: Option<real>
    var isLoading: bool
    var error: string
    var cardDetails: CardDetails

    constructor (plan: Plan, upgradeCost: Option<real>)
      ensures this.plan == plan && this.upgradeCost == upgradeCost
      ensures !isLoading && error == [] && cardDetails == CardDetails([], [], [], [])
    {
      this.plan := plan;
      this.upgradeCost := upgradeCost;
      isLoading := false;
      error := [];
      cardDetails := CardDetails([], [], [], []);
    }

    /** `handleInputChange`: the field set to the formatted value, the others kept. */
    method HandleInputChange(field: Field, value: string)
      modifies this
      ensures cardDetails == match field
        case NameField => old(cardDetails).(name := value)
        case NumberField => old(cardDetails).(number := FormatCardNumber(value))
        case ExpiryField => old(cardDetails).(expiry := FormatExpiry(value))
        case CvcField => old(cardDetails).(cvc := value)
      ensures isLoading == old(isLoading) && error == old(error)
    {
      var formattedValue := value;
      if field == NumberField {
        formattedValue := Trim(GroupFours(StripWhitespace(value)));
      }
      if field == ExpiryField {
        formattedValue := RemoveSlashes(value);
        if |formattedValue| > 2 {
          formattedValue := formattedValue[..2] + "/" + formattedValue[2..];
        }
      }
      match field
      case NameField => cardDetails := cardDetails.(name := formattedValue);
      case NumberField => cardDetails := cardDetails.(number := formattedValue);
      case ExpiryField => cardDetails := cardDetails.(expiry := formattedValue);
      case CvcField => cardDetails := cardDetails.(cvc := formattedValue);
    }

    /** `handleSubmit`: the error cleared, then either the first failing check's message and no
        processing, or processing started with no error. Returns whether processing started. */
    method HandleSubmit() returns (processing: bool)
      modifies this
      ensures processing <==> Validate(cardDetails).None?
      ensures processing ==> isLoading && error == []
      ensures !processing ==> isLoading == old(isLoading) && error == Message(Validate(cardDetails).value)
      ensures cardDetails == old(cardDetails)
    {
      error := [];
      var c := cardDetails;
      if c.name == [] || c.number == [] || c.expiry == [] || c.cvc == [] {
        error := "Please fill in all card details.";
        return false;
      }
      if |c.number| < 19 {
        error := "Please enter a valid 16-digit card number.";
        return false;
      }
      if |c.expiry| < 5 {
        error := "Please enter a valid expiry date (MM/YY).";
        return false;
      }
      if |c.cvc| < 3 {
        error := "Please enter a valid CVC.";
        return false;
      }
      isLoading := true;
      processing := true;
    }

    /** The mock payment's timer firing: loading ends (the caller then runs `onSuccess`). */
    method PaymentFinished()
      modifies this
      ensures !isLoading && error == old(error) && cardDetails == old(cardDetails)
    {
      isLoading := false;
    }
  }
}
