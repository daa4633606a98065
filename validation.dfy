/**
 * The input checks of the checkout page: the customer-details checks run by
 * the details form, and the per-method checks run before a payment is sent.
 *
 * The email and UPI expressions appear twice: as a predicate that describes
 * its language the way the pattern is written (MatchesEmailPattern,
 * MatchesUpiPattern), and as a direct check (IsValidEmail, IsValidUpi); a
 * lemma proves the two agree on every string. The phone expression is read
 * directly as IsValidPhone: exactly ten ASCII digits.
 */
module Validation {
  import opened JsValues

  const FillAllMessage := "Please fill all customer details"
  const InvalidEmailMessage := "Please enter a valid email"
  const InvalidPhoneMessage := "Please enter a valid 10-digit phone number"
  const InvalidUpiMessage := "Please enter a valid UPI ID (e.g., name@paytm)"
  const IncompleteCardMessage := "Please fill all card details"
  const NoBankMessage := "Please select a bank"
  const NoWalletMessage := "Please select a wallet"

  /** Reading a property of a record: a missing key reads as undefined. */
  function Lookup(record: map<string, JsValue>, key: string): JsValue
  {
    if key in record then record[key] else Undefined
  }

  // ----- /^[^\s@]+@[^\s@]+\.[^\s@]+$/ -----

  /** The class `[^\s@]`. */
  predicate IsEmailChar(c: char)
  {
    !IsJsWhitespace(c) && c != '@'
  }

  ghost predicate AllEmailChars(s: string)
  {
    forall i :: 0 <= i < |s| ==> IsEmailChar(s[i])
  }

  /** The email pattern read literally: three non-empty runs of `[^\s@]` around an `@` and a `.`. */
  ghost predicate MatchesEmailPattern(s: string)
  {
    exists at, dot ::
      && 0 < at && at + 1 < dot && dot + 1 < |s|
      && s[at] == '@' && s[dot] == '.'
      && AllEmailChars(s[..at]) && AllEmailChars(s[at + 1..dot]) && AllEmailChars(s[dot + 1..])
  }

  /** A domain with a `.` that has text on both sides. */
  predicate HasInnerDot(domain: string)
  {
    |domain| >= 3 && '.' in domain[1..|domain| - 1]
  }

  /**
   * No whitespace, exactly one `@`, a non-empty part before it, and a
   * domain after it with an inner `.`.
   */
  predicate IsValidEmail(s: string)
  {
    var at := IndexOf(s, '@');
    && NoWhitespace(s)
    && 0 < at < |s|
    && '@' !in s[at + 1..]
    && HasInnerDot(s[at + 1..])
  }

  lemma EmailCheckSound(s: string)
    requires IsValidEmail(s)
    ensures MatchesEmailPattern(s)
  {
    var at := IndexOf(s, '@');
    var domain := s[at + 1..];
    var inner := domain[1..|domain| - 1];
    var k :| 0 <= k < |inner| && inner[k] == '.';
    var dot := at + 2 + k;
    assert inner[k] == domain[k + 1] == s[dot];
    var local, mid, top := s[..at], s[at + 1..dot], s[dot + 1..];
    assert AllEmailChars(local) by {
      forall i | 0 <= i < |local| ensures IsEmailChar(local[i]) {
        assert local[i] == s[i];
      }
    }
    assert AllEmailChars(mid) by {
      forall i | 0 <= i < |mid| ensures IsEmailChar(mid[i]) {
        assert mid[i] == domain[i];
      }
    }
    assert AllEmailChars(top) by {
      forall i | 0 <= i < |top| ensures IsEmailChar(top[i]) {
        assert top[i] == s[dot + 1 + i] == domain[dot - at + i];
      }
    }
  }

  /** Every position of a pattern match other than the `@` and the `.` holds a `[^\s@]` character. */
  lemma EmailPatternChars(s: string, at: int, dot: int)
    requires 0 < at && at + 1 < dot && dot + 1 < |s|
    requires s[at] == '@' && s[dot] == '.'
    requires AllEmailChars(s[..at]) && AllEmailChars(s[at + 1..dot]) && AllEmailChars(s[dot + 1..])
    ensures forall i :: 0 <= i < |s| && i != at && i != dot ==> IsEmailChar(s[i])
  {
    var local, mid, top := s[..at], s[at + 1..dot], s[dot + 1..];
    forall i | 0 <= i < |s| && i != at && i != dot ensures IsEmailChar(s[i]) {
      if i < at {
        assert s[i] == local[i];
      } else if i < dot {
        assert s[i] == mid[i - at - 1];
      } else {
        assert s[i] == top[i - dot - 1];
      }
    }
  }

  lemma EmailCheckComplete(s: string)
    requires MatchesEmailPattern(s)
    ensures IsValidEmail(s)
  {
    var at, dot :|
      && 0 < at && at + 1 < dot && dot + 1 < |s|
      && s[at] == '@' && s[dot] == '.'
      && AllEmailChars(s[..at]) && AllEmailChars(s[at + 1..dot]) && AllEmailChars(s[dot + 1..]);
    EmailPatternChars(s, at, dot);
    IndexOfIsFirst(s, '@', at);
    var domain := s[at + 1..];
    assert '@' !in domain by {
      forall j | 0 <= j < |domain| ensures domain[j] != '@' {
        assert domain[j] == s[at + 1 + j];
      }
    }
    assert domain[1..|domain| - 1][dot - at - 2] == '.';
  }

  lemma EmailCheckMatchesPattern(s: string)
    ensures IsValidEmail(s) <==> MatchesEmailPattern(s)
  {
    if IsValidEmail(s) { EmailCheckSound(s); }
    if MatchesEmailPattern(s) { EmailCheckComplete(s); }
  }

  // ----- /^[0-9]{10}$/ -----

  predicate IsAsciiDigit(c: char)
  {
    '0' <= c <= '9'
  }

  predicate IsValidPhone(s: string)
  {
    |s| == 10 && forall i :: 0 <= i < |s| ==> IsAsciiDigit(s[i])
  }

  // ----- /^[a-zA-Z0-9._-]+@[a-zA-Z]{3,}$/ -----

  predicate IsAsciiLetter(c: char)
  {
    'a' <= c <= 'z' || 'A' <= c <= 'Z'
  }

  /** The class `[a-zA-Z0-9._-]`. */
  predicate IsUpiHandleChar(c: char)
  {
    IsAsciiLetter(c) || IsAsciiDigit(c) || c == '.' || c == '_' || c == '-'
  }

  /** The UPI pattern read literally: a non-empty handle, an `@`, then at least three letters. */
  ghost predicate MatchesUpiPattern(s: string)
  {
    exists at ::
      && 0 < at && at + 4 <= |s| && s[at] == '@'
      && (forall i :: 0 <= i < at ==> IsUpiHandleChar(s[i]))
      && (forall i :: at < i < |s| ==> IsAsciiLetter(s[i]))
  }

  /** The UPI check made from the first `@`. */
  predicate IsValidUpi(s: string)
  {
    var at := IndexOf(s, '@');
    && 0 < at && at + 4 <= |s|
    && (forall i :: 0 <= i < at ==> IsUpiHandleChar(s[i]))
    && (forall i :: at < i < |s| ==> IsAsciiLetter(s[i]))
  }

  lemma UpiCheckMatchesPattern(s: string)
    ensures IsValidUpi(s) <==> MatchesUpiPattern(s)
  {
    if MatchesUpiPattern(s) {
      var at :|
        && 0 < at && at + 4 <= |s| && s[at] == '@'
        && (forall i :: 0 <= i < at ==> IsUpiHandleChar(s[i]))
        && (forall i :: at < i < |s| ==> IsAsciiLetter(s[i]));
      IndexOfIsFirst(s, '@', at);
    }
    if IsValidUpi(s) {
      assert s[IndexOf(s, '@')] == '@';
    }
  }

  /** Whatever passes the UPI pattern is a truthy string, so the `!paymentData.upiId` guard never decides alone. */
  lemma UpiPatternImpliesTruthy(v: JsValue)
    ensures MatchesUpiPattern(ToText(v)) ==> Truthy(v) && v.Text?
  {
    var s := ToText(v);
    if MatchesUpiPattern(s) {
      var at :| 0 < at && at + 4 <= |s| && s[at] == '@';
    }
  }

  // ----- the customer-details submit -----

  predicate AllCustomerFieldsFilled(details: map<string, JsValue>)
  {
    && Truthy(Lookup(details, "customerName"))
    && Truthy(Lookup(details, "customerEmail"))
    && Truthy(Lookup(details, "customerPhone"))
  }

  /**
   * The alert the details form raises, or None when the details pass:
   * first the empty-field check, then the email pattern, then the phone
   * pattern.
   */
  function CustomerDetailsError(details: map<string, JsValue>): (r: Option<string>)
    ensures !AllCustomerFieldsFilled(details) ==> r == Some(FillAllMessage)
    ensures AllCustomerFieldsFilled(details) && !MatchesEmailPattern(ToText(Lookup(details, "customerEmail")))
      ==> r == Some(InvalidEmailMessage)
    ensures AllCustomerFieldsFilled(details) && MatchesEmailPattern(ToText(Lookup(details, "customerEmail")))
      && !IsValidPhone(ToText(Lookup(details, "customerPhone")))
      ==> r == Some(InvalidPhoneMessage)
    ensures r == None <==> (
      && AllCustomerFieldsFilled(details)
      && MatchesEmailPattern(ToText(Lookup(details, "customerEmail")))
      && IsValidPhone(ToText(Lookup(details, "customerPhone"))))
  {
    EmailCheckMatchesPattern(ToText(Lookup(details, "customerEmail")));
    if !AllCustomerFieldsFilled(details) then Some(FillAllMessage)
    else if !IsValidEmail(ToText(Lookup(details, "customerEmail"))) then Some(InvalidEmailMessage)
    else if !IsValidPhone(ToText(Lookup(details, "customerPhone"))) then Some(InvalidPhoneMessage)
    else None
  }

  // ----- the payment-method checks -----

  /** The ids of the payment methods the checkout view offers. */
  const MethodIds: set<string> := {"upi", "netbanking", "card", "wallet"}

  predicate AllCardFieldsFilled(data: map<string, JsValue>)
  {
    && Truthy(Lookup(data, "cardNumber"))
    && Truthy(Lookup(data, "cardHolderName"))
    && Truthy(Lookup(data, "expiryMonth"))
    && Truthy(Lookup(data, "expiryYear"))
    && Truthy(Lookup(data, "cvv"))
  }

  /**
   * The alert raised before a payment is sent, or None when the entered
   * data suffice for the selected method. A method without a case of its
   * own, `null` included, always passes.
   */
  function PaymentMethodError(selected: Option<string>, data: map<string, JsValue>): (r: Option<string>)
    ensures selected == Some("upi") ==>
      r == (if MatchesUpiPattern(ToText(Lookup(data, "upiId"))) then None else Some(InvalidUpiMessage))
    ensures selected == Some("card") ==>
      r == (if AllCardFieldsFilled(data) then None else Some(IncompleteCardMessage))
    ensures selected == Some("netbanking") ==>
      r == (if Truthy(Lookup(data, "bankCode")) then None else Some(NoBankMessage))
    ensures selected == Some("wallet") ==>
      r == (if Truthy(Lookup(data, "walletProvider")) then None else Some(NoWalletMessage))
    ensures (selected.None? || selected.value !in MethodIds) ==> r == None
  {
    var upi := Lookup(data, "upiId");
    UpiCheckMatchesPattern(ToText(upi));
    UpiPatternImpliesTruthy(upi);
    if selected == Some("upi") then
      if !Truthy(upi) || !IsValidUpi(ToText(upi)) then Some(InvalidUpiMessage) else None
    else if selected == Some("card") then
      if !AllCardFieldsFilled(data) then Some(IncompleteCardMessage) else None
    else if selected == Some("netbanking") then
      if !Truthy(Lookup(data, "bankCode")) then Some(NoBankMessage) else None
    else if selected == Some("wallet") then
      if !Truthy(Lookup(data, "walletProvider")) then Some(NoWalletMessage) else None
    else None
  }
}
