/**
 * The checkout page: the form validator (required fields, the e-mail pattern,
 * and the three card checks that apply to credit-card payment), the per-input
 * error clearing, the submit gate and the empty-cart redirect.
 */
module Checkout {
  import opened Wrappers
  import opened Types
  import opened Text

  /** The keys of the form record. */
  datatype Field =
    | FirstName | LastName | Email | Address | City | PostalCode | Country
    | PaymentMethod | CardNumber | CardExpiry | CardCvc

  const AllFields: set<Field> :=
    {FirstName, LastName, Email, Address, City, PostalCode, Country,
     PaymentMethod, CardNumber, CardExpiry, CardCvc}

  /** The fields checked for presence, in the order the validator visits them. */
  const RequiredFields: seq<Field> := [FirstName, LastName, Email, Address, City, PostalCode, Country]

  const RequiredMessage := "This field is required"
  const InvalidEmailMessage := "Please enter a valid email address"
  const CardNumberRequiredMessage := "Card number is required"
  const InvalidCardNumberMessage := "Please enter a valid 16-digit card number"
  const ExpiryRequiredMessage := "Expiry date is required"
  const InvalidExpiryMessage := "Please use MM/YY format"
  const CvcRequiredMessage := "CVC is required"
  const InvalidCvcMessage := "Please enter a valid CVC"

  const CreditCard := "credit-card"

  /** `formData[field]`; an absent optional card field reads as `None`. */
  function FieldValue(form: CheckoutFormData, f: Field): Option<string> {
    match f
    case FirstName => Some(form.firstName)
    case LastName => Some(form.lastName)
    case Email => Some(form.email)
    case Address => Some(form.address)
    case City => Some(form.city)
    case PostalCode => Some(form.postalCode)
    case Country => Some(form.country)
    case PaymentMethod => Some(form.paymentMethod)
    case CardNumber => form.cardNumber
    case CardExpiry => form.cardExpiry
    case CardCvc => form.cardCvc
  }

  /** `{ ...form, [name]: value }`: the named field set, every other field as it was. */
  function WithField(form: CheckoutFormData, f: Field, v: string): (r: CheckoutFormData)
    ensures FieldValue(r, f) == Some(v)
    ensures forall g :: g != f ==> FieldValue(r, g) == FieldValue(form, g)
  {
    match f
    case FirstName => form.(firstName := v)
    case LastName => form.(lastName := v)
    case Email => form.(email := v)
    case Address => form.(address := v)
    case City => form.(city := v)
    case PostalCode => form.(postalCode := v)
    case Country => form.(country := v)
    case PaymentMethod => form.(paymentMethod := v)
    case CardNumber => form.(cardNumber := Some(v))
    case CardExpiry => form.(cardExpiry := Some(v))
    case CardCvc => form.(cardCvc := Some(v))
  }

  /** JavaScript truthiness of an optional string: present and non-empty. */
  predicate Truthy(v: Option<string>) {
    v.Some? && v.value != ""
  }

  /**
   * `/^\S+@\S+\.\S+$/`: no whitespace anywhere, an '@' after at least one
   * character, and a later '.' with at least one character on each side.
   */
  predicate IsEmail(s: string) {
    && NoSpace(s)
    && exists i, j | 0 <= i < j < |s| ::
         s[i] == '@' && 1 <= i && i + 2 <= j && j + 2 <= |s| && s[j] == '.'
  }

  /** `/^\d{16}$/` after `replace(/\s/g, '')`. */
  predicate IsCardNumber(s: string) {
    var digits := RemoveSpaces(s);
    |digits| == 16 && AllDigits(digits)
  }

  /** `/^\d{2}\/\d{2}$/`: no range check on the month or the year. */
  predicate IsExpiry(s: string) {
    |s| == 5 && IsDigit(s[0]) && IsDigit(s[1]) && s[2] == '/' && IsDigit(s[3]) && IsDigit(s[4])
  }

  /** `/^\d{3,4}$/`. */
  predicate IsCvc(s: string) {
    (|s| == 3 || |s| == 4) && AllDigits(s)
  }

  /**
   * What the validator records for one field, stated field by field: the
   * reference the imperative validator is proved against.
   */
  function FieldError(form: CheckoutFormData, f: Field): Option<string> {
    match f
    case Email =>
      if form.email == "" then Some(RequiredMessage)
      else if !IsEmail(form.email) then Some(InvalidEmailMessage)
      else None
    case PaymentMethod => None
    case CardNumber =>
      if form.paymentMethod != CreditCard then None
      else if !Truthy(form.cardNumber) then Some(CardNumberRequiredMessage)
      else if !IsCardNumber(form.cardNumber.value) then Some(InvalidCardNumberMessage)
      else None
    case CardExpiry =>
      if form.paymentMethod != CreditCard then None
      else if !Truthy(form.cardExpiry) then Some(ExpiryRequiredMessage)
      else if !IsExpiry(form.cardExpiry.value) then Some(InvalidExpiryMessage)
      else None
    case CardCvc =>
      if form.paymentMethod != CreditCard then None
      else if !Truthy(form.cardCvc) then Some(CvcRequiredMessage)
      else if !IsCvc(form.cardCvc.value) then Some(InvalidCvcMessage)
      else None
    case _ =>
      if FieldValue(form, f) == Some("") then Some(RequiredMessage) else None
  }

  /** The error map: one entry per field that has an error, and no other keys. */
  function ExpectedErrors(form: CheckoutFormData): map<Field, string> {
    map f | f in AllFields && FieldError(form, f).Some? :: FieldError(form, f).value
  }

  /** A required field whose value is falsy. */
  predicate MissingRequired(form: CheckoutFormData, f: Field) {
    f in RequiredFields && !Truthy(FieldValue(form, f))
  }

  /** The position of a field's own check after the presence loop (0: it has none). */
  function CheckOrder(f: Field): nat {
    match f
    case Email => 1
    case CardNumber => 2
    case CardExpiry => 3
    case CardCvc => 4
    case _ => 0
  }

  /** The error of `f` once the first `stage` checks have run after the presence loop. */
  function ErrorAfter(form: CheckoutFormData, f: Field, stage: nat): Option<string> {
    if 0 < CheckOrder(f) <= stage then FieldError(form, f)
    else if MissingRequired(form, f) then Some(RequiredMessage)
    else None
  }

  /** `errors` holds exactly the errors `ErrorAfter` describes. */
  ghost predicate ErrorsSoFar(form: CheckoutFormData, errors: map<Field, string>, stage: nat) {
    && (forall f :: f in errors <==> ErrorAfter(form, f, stage).Some?)
    && (forall f :: f in errors ==> errors[f] == ErrorAfter(form, f, stage).value)
  }

  /** The presence loop: "This field is required" for each falsy required field. */
  method RequiredErrors(form: CheckoutFormData) returns (errors: map<Field, string>)
    ensures ErrorsSoFar(form, errors, 0)
  {
    errors := map[];
    var i := 0;
    while i < |RequiredFields|
      invariant 0 <= i <= |RequiredFields|
      invariant forall f :: f in errors <==> f in RequiredFields[..i] && !Truthy(FieldValue(form, f))
      invariant forall f :: f in errors ==> errors[f] == RequiredMessage
    {
      var f := RequiredFields[i];
      if !Truthy(FieldValue(form, f)) {
        errors := errors[f := RequiredMessage];
      }
      assert RequiredFields[..i + 1] == RequiredFields[..i] + [f];
      i := i + 1;
    }
    assert RequiredFields[..i] == RequiredFields;
  }

  /** A check leaves the error of every other field as it was. */
  lemma ErrorAfterStable(form: CheckoutFormData, g: Field, stage: nat)
    requires CheckOrder(g) != stage + 1
    ensures ErrorAfter(form, g, stage + 1) == ErrorAfter(form, g, stage)
  {
  }

  /** One check run: `f`'s entry becomes its reference error, every other entry stays. */
  lemma CheckStep(
    form: CheckoutFormData, before: map<Field, string>, after: map<Field, string>,
    stage: nat, f: Field)
    requires CheckOrder(f) == stage + 1
    requires ErrorsSoFar(form, before, stage)
    requires forall g :: g != f ==> (g in after <==> g in before)
    requires forall g :: g != f && g in after ==> after[g] == before[g]
    requires f in after <==> FieldError(form, f).Some?
    requires f in after ==> after[f] == FieldError(form, f).value
    ensures ErrorsSoFar(form, after, stage + 1)
  {
    forall g
      ensures g in after <==> ErrorAfter(form, g, stage + 1).Some?
      ensures g in after ==> after[g] == ErrorAfter(form, g, stage + 1).value
    {
      if g == f {
        assert ErrorAfter(form, f, stage + 1) == FieldError(form, f);
      } else {
        ErrorAfterStable(form, g, stage);
      }
    }
  }

  /** The e-mail check: a non-empty address that fails the pattern gets the format error. */
  method CheckEmail(form: CheckoutFormData, errors: map<Field, string>) returns (r: map<Field, string>)
    requires ErrorsSoFar(form, errors, 0)
    ensures ErrorsSoFar(form, r, 1)
  {
    r := errors;
    if form.email != "" && !IsEmail(form.email) {
      r := r[Email := InvalidEmailMessage];
    }
    CheckStep(form, errors, r, 0, Email);
  }

  /** The card number check: required, then 16 digits once whitespace is removed. */
  method CheckCardNumber(form: CheckoutFormData, errors: map<Field, string>) returns (r: map<Field, string>)
    requires form.paymentMethod == CreditCard && ErrorsSoFar(form, errors, 1)
    ensures ErrorsSoFar(form, r, 2)
  {
    r := errors;
    if !Truthy(form.cardNumber) {
      r := r[CardNumber := CardNumberRequiredMessage];
    } else if !IsCardNumber(form.cardNumber.value) {
      r := r[CardNumber := InvalidCardNumberMessage];
    }
    CheckStep(form, errors, r, 1, CardNumber);
  }

  /** The expiry check: required, then the `DD/DD` shape. */
  method CheckExpiry(form: CheckoutFormData, errors: map<Field, string>) returns (r: map<Field, string>)
    requires form.paymentMethod == CreditCard && ErrorsSoFar(form, errors, 2)
    ensures ErrorsSoFar(form, r, 3)
  {
    r := errors;
    if !Truthy(form.cardExpiry) {
      r := r[CardExpiry := ExpiryRequiredMessage];
    } else if !IsExpiry(form.cardExpiry.value) {
      r := r[CardExpiry := InvalidExpiryMessage];
    }
    CheckStep(form, errors, r, 2, CardExpiry);
  }

  /** The CVC check: required, then three or four digits. */
  method CheckCvc(form: CheckoutFormData, errors: map<Field, string>) returns (r: map<Field, string>)
    requires form.paymentMethod == CreditCard && ErrorsSoFar(form, errors, 3)
    ensures ErrorsSoFar(form, r, 4)
  {
    r := errors;
    if !Truthy(form.cardCvc) {
      r := r[CardCvc := CvcRequiredMessage];
    } else if !IsCvc(form.cardCvc.value) {
      r := r[CardCvc := InvalidCvcMessage];
    }
    CheckStep(form, errors, r, 3, CardCvc);
  }

  /**
   * `validateForm` without the state update: the presence loop over the seven
   * required fields, the e-mail pattern (overriding a presence error only when
   * the e-mail is non-empty), then the card checks for credit-card payment.
   */
  method CollectErrors(form: CheckoutFormData) returns (errors: map<Field, string>)
    ensures errors == ExpectedErrors(form)
  {
    errors := RequiredErrors(form);
    errors := CheckEmail(form, errors);
    if form.paymentMethod == CreditCard {
      errors := CheckCardNumber(form, errors);
      errors := CheckExpiry(form, errors);
      errors := CheckCvc(form, errors);
    } else {
      CardChecksSkipped(form, errors);
    }
    ErrorsAgree(form, errors);
  }

  /** Without credit-card payment the card fields have no error to record. */
  lemma CardChecksSkipped(form: CheckoutFormData, errors: map<Field, string>)
    requires form.paymentMethod != CreditCard
    requires ErrorsSoFar(form, errors, 1)
    ensures ErrorsSoFar(form, errors, 4)
  {
  }

  /** After every check has run, the map is the reference map. */
  lemma ErrorsAgree(form: CheckoutFormData, errors: map<Field, string>)
    requires ErrorsSoFar(form, errors, 4)
    ensures errors == ExpectedErrors(form)
  {
    forall f ensures ErrorAfter(form, f, 4) == FieldError(form, f) {
    }
    forall f ensures f in AllFields {
      FieldIsListed(f);
    }
  }

  lemma FieldIsListed(f: Field)
    ensures f in AllFields
  {
    match f
    case FirstName => case LastName => case Email => case Address => case City =>
    case PostalCode => case Country => case PaymentMethod => case CardNumber =>
    case CardExpiry => case CardCvc =>
  }

  /** The form passes exactly when no field has an error. */
  predicate FormValid(form: CheckoutFormData) {
    forall f :: FieldError(form, f).None?
  }

  /** "The error map has no keys" is "no field has an error". */
  lemma NoErrorsIffValid(form: CheckoutFormData)
    ensures |ExpectedErrors(form)| == 0 <==> FormValid(form)
  {
    if !FormValid(form) {
      var f :| FieldError(form, f).None? == false;
      assert f in AllFields;
      assert f in ExpectedErrors(form);
    }
  }

  /** Presence is JavaScript truthiness: a whitespace-only value passes the required check. */
  lemma WhitespaceIsPresent(form: CheckoutFormData)
    requires form.firstName == " "
    ensures FieldError(form, FirstName) == None
  {
  }

  /** Any non-credit-card payment records no card error, whatever the card fields hold. */
  lemma NoCardErrorsOtherwise(form: CheckoutFormData)
    requires form.paymentMethod != CreditCard
    ensures FieldError(form, CardNumber) == None
    ensures FieldError(form, CardExpiry) == None
    ensures FieldError(form, CardCvc) == None
  {
  }

  /** The e-mail check rejects any non-empty address that is not `user@host.tld`-shaped, even if present. */
  lemma EmailErrorOverridesPresence(form: CheckoutFormData)
    requires form.email != "" && !IsEmail(form.email)
    ensures FieldError(form, Email) == Some(InvalidEmailMessage)
  {
  }

  /** The three pieces of an address, around its '@' and its last-checked '.'. */
  predicate EmailPieces(u: string, v: string, w: string) {
    |u| > 0 && |v| > 0 && |w| > 0 && NoSpace(u) && NoSpace(v) && NoSpace(w)
  }

  /** Every accepted address splits into three space-free pieces around '@' and '.'. */
  lemma EmailSplits(s: string)
    requires IsEmail(s)
    ensures exists u, v, w :: EmailPieces(u, v, w) && s == u + "@" + v + "." + w
  {
    var i, j :| 0 <= i < j < |s| && s[i] == '@' && 1 <= i && i + 2 <= j && j + 2 <= |s| && s[j] == '.';
    var u, v, w := s[..i], s[i + 1..j], s[j + 1..];
    assert s == u + "@" + v + "." + w;
    NoSpaceAppend(u, "@" + v + "." + w);
    NoSpaceAppend("@" + v, "." + w);
    assert "@" + v + "." + w == ("@" + v) + ("." + w);
    NoSpaceAppend("@", v);
    NoSpaceAppend(".", w);
    assert EmailPieces(u, v, w);
  }

  /** Any three space-free non-empty pieces joined by '@' and '.' are accepted. */
  lemma EmailJoins(u: string, v: string, w: string)
    requires EmailPieces(u, v, w)
    ensures IsEmail(u + "@" + v + "." + w)
  {
    var s := u + "@" + v + "." + w;
    assert s == u + ("@" + v) + ("." + w);
    NoSpaceAppend("@", v);
    NoSpaceAppend(".", w);
    NoSpaceAppend(u, "@" + v);
    NoSpaceAppend(u + ("@" + v), "." + w);
    var i, j := |u|, |u| + 1 + |v|;
    assert s[i] == '@' && s[j] == '.';
  }

  /** The pattern as the regular expression reads it: three space-free pieces around '@' and '.'. */
  lemma EmailShape(s: string)
    ensures IsEmail(s) <==> exists u, v, w :: EmailPieces(u, v, w) && s == u + "@" + v + "." + w
  {
    if IsEmail(s) {
      EmailSplits(s);
    } else if exists u, v, w :: EmailPieces(u, v, w) && s == u + "@" + v + "." + w {
      var u, v, w :| EmailPieces(u, v, w) && s == u + "@" + v + "." + w;
      EmailJoins(u, v, w);
    }
  }

  /** Four groups of four digits separated by single spaces form an accepted card number. */
  lemma GroupedCardNumberAccepted(g1: string, g2: string, g3: string, g4: string)
    requires |g1| == 4 && |g2| == 4 && |g3| == 4 && |g4| == 4
    requires AllDigits(g1) && AllDigits(g2) && AllDigits(g3) && AllDigits(g4)
    ensures IsCardNumber(g1 + " " + g2 + " " + g3 + " " + g4)
  {
    var s := g1 + " " + g2 + " " + g3 + " " + g4;
    assert RemoveSpaces(" ") == "";
    DigitsHaveNoSpace(g1);
    DigitsHaveNoSpace(g2);
    DigitsHaveNoSpace(g3);
    DigitsHaveNoSpace(g4);
    RemoveSpacesKeepsSpaceFree(g1);
    RemoveSpacesKeepsSpaceFree(g2);
    RemoveSpacesKeepsSpaceFree(g3);
    RemoveSpacesKeepsSpaceFree(g4);
    RemoveSpacesAppend(g1 + " " + g2 + " " + g3 + " ", g4);
    RemoveSpacesAppend(g1 + " " + g2 + " " + g3, " ");
    RemoveSpacesAppend(g1 + " " + g2 + " ", g3);
    RemoveSpacesAppend(g1 + " " + g2, " ");
    RemoveSpacesAppend(g1 + " ", g2);
    RemoveSpacesAppend(g1, " ");
    var digits := g1 + g2 + g3 + g4;
    assert RemoveSpaces(s) == digits;
  }

  /** The expiry pattern is only a shape: month 13 is accepted, a one-digit month is not. */
  lemma ExpiryIsShapeOnly()
    ensures IsExpiry("13/99")
    ensures !IsExpiry("1/99")
  {
  }

  /** A three- or four-digit CVC passes; five digits do not. */
  lemma CvcLengths()
    ensures IsCvc("123") && IsCvc("1234") && !IsCvc("12345")
  {
  }

  /** The initial form: every text field empty, credit-card payment, empty card fields. */
  function InitialForm(): CheckoutFormData {
    CheckoutFormData("", "", "", "", "", "", "", CreditCard, Some(""), Some(""), Some(""))
  }

  /**
   * The page's state. The cart itself belongs to a shared context that is not
   * part of this model; only its length matters here.
   */
  class CheckoutPage {
    var formData: CheckoutFormData
    var formErrors: map<Field, string>
    var isSubmitting: bool
    var showSuccess: bool
    var cartLength: nat

    constructor(cartLength: nat)
      ensures formData == InitialForm() && formErrors == map[]
      ensures !isSubmitting && !showSuccess && this.cartLength == cartLength
    {
      formData := InitialForm();
      formErrors := map[];
      isSubmitting := false;
      showSuccess := false;
      this.cartLength := cartLength;
    }

    /** The page navigates to the product list instead of rendering. */
    predicate Redirects()
      reads this
      ensures Redirects() ==> cartLength == 0
      ensures showSuccess ==> !Redirects()
    {
      cartLength == 0 && !showSuccess
    }

    /**
     * `handleInputChange`: the named field takes the typed value; its error, if
     * it had a non-empty one, is blanked (the key stays, with ""); nothing else changes.
     */
    method HandleInputChange(f: Field, value: string)
      modifies this
      ensures formData == WithField(old(formData), f, value)
      ensures formErrors ==
        if f in old(formErrors) && old(formErrors)[f] != "" then old(formErrors)[f := ""] else old(formErrors)
      ensures isSubmitting == old(isSubmitting) && showSuccess == old(showSuccess)
      ensures cartLength == old(cartLength)
    {
      formData := WithField(formData, f, value);
      if f in formErrors && formErrors[f] != "" {
        formErrors := formErrors[f := ""];
      }
    }

    /** `validateForm`: records the error map and reports whether it is empty. */
    method ValidateForm() returns (ok: bool)
      modifies this
      ensures formErrors == ExpectedErrors(formData)
      ensures ok <==> FormValid(formData)
      ensures formData == old(formData) && isSubmitting == old(isSubmitting)
      ensures showSuccess == old(showSuccess) && cartLength == old(cartLength)
    {
      var errors := CollectErrors(formData);
      formErrors := errors;
      NoErrorsIffValid(formData);
      ok := |errors| == 0;
    }

    /**
     * `handleSubmit`: on an invalid form only the error map changes; on a valid
     * one the page enters the submitting state (the delayed completion is `FinishOrder`).
     */
    method HandleSubmit()
      modifies this
      ensures formErrors == ExpectedErrors(formData) && formData == old(formData)
      ensures isSubmitting == (FormValid(formData) || old(isSubmitting))
      ensures showSuccess == old(showSuccess) && cartLength == old(cartLength)
    {
      var ok := ValidateForm();
      if !ok {
        return;
      }
      isSubmitting := true;
    }

    /** The delayed completion of a submission: the cart is emptied and the success screen shown. */
    method FinishOrder()
      modifies this
      ensures cartLength == 0 && !isSubmitting && showSuccess
      ensures formData == old(formData) && formErrors == old(formErrors)
      ensures !Redirects()
    {
      cartLength := 0;
      isSubmitting := false;
      showSuccess := true;
    }
  }
}
