/**
 * The payment screen: the three field checks of `validateInputs`, run in a
 * fixed order with the first failure deciding the alert message, and the
 * "Confirm Payment" button that either completes the order or raises the alert.
 */
module Payment {
  import opened Wrappers
  import opened Session

  const CardNumberMessage: string := "Invalid Card Number"
  const ExpiryMessage: string := "Invalid Expiry Date (MM/YY)"
  const CvvMessage: string := "Invalid CVV"

  /** A decimal digit; stands in for both `Character.isNumber` and the regex class `\d`. */
  predicate IsDigit(c: char)
  {
    '0' <= c <= '9'
  }

  /** `allSatisfy { $0.isNumber }`. */
  function AllNumeric(s: string): (r: bool)
    ensures r <==> forall i :: 0 <= i < |s| ==> IsDigit(s[i])
  {
    s == [] || (IsDigit(s[0]) && AllNumeric(s[1..]))
  }

  /** A concatenation is numeric exactly when both parts are. */
  lemma AllNumericConcat(a: string, b: string)
    ensures AllNumeric(a + b) <==> AllNumeric(a) && AllNumeric(b)
  {
    assert forall i :: 0 <= i < |a| ==> (a + b)[i] == a[i];
    assert forall i :: 0 <= i < |b| ==> (a + b)[|a| + i] == b[i];
  }

  /** The card number check: exactly 16 characters, all numeric. */
  predicate ValidCardNumber(s: string)
  {
    |s| == 16 && AllNumeric(s)
  }

  /** The month group `(0[1-9]|1[0-2])` of the expiry pattern. */
  predicate MonthGroup(tens: char, units: char)
  {
    (tens == '0' && '1' <= units <= '9') || (tens == '1' && '0' <= units <= '2')
  }

  /** The whole string matches `^(0[1-9]|1[0-2])\/\d{2}$`. */
  predicate MatchesExpiryPattern(s: string)
  {
    |s| == 5 && MonthGroup(s[0], s[1]) && s[2] == '/' && IsDigit(s[3]) && IsDigit(s[4])
  }

  /** The value of a decimal digit. */
  function DigitValue(c: char): int
  {
    c as int - '0' as int
  }

  /** `MM/YY` read as numbers: two digits, a slash, two digits, and a month from 1 to 12. */
  predicate ExpiryMonthInRange(s: string)
  {
    && |s| == 5 && IsDigit(s[0]) && IsDigit(s[1]) && s[2] == '/' && IsDigit(s[3]) && IsDigit(s[4])
    && 1 <= 10 * DigitValue(s[0]) + DigitValue(s[1]) <= 12
  }

  /** The expiry pattern accepts exactly the `MM/YY` strings whose month is 01 to 12. */
  lemma ExpiryPatternIsMonthRange(s: string)
    ensures MatchesExpiryPattern(s) <==> ExpiryMonthInRange(s)
  {
    if |s| == 5 && IsDigit(s[0]) && IsDigit(s[1]) {
      var tens, units := DigitValue(s[0]), DigitValue(s[1]);
      assert 0 <= tens <= 9 && 0 <= units <= 9;
      assert MonthGroup(s[0], s[1]) <==> 1 <= 10 * tens + units <= 12 by {
        if tens == 0 {
          assert s[0] == '0';
        } else if tens == 1 {
          assert s[0] == '1';
        } else {
          assert s[0] != '0' && s[0] != '1';
        }
      }
    }
  }

  /** The CVV check: exactly 3 characters, all numeric. */
  predicate ValidCvv(s: string)
  {
    |s| == 3 && AllNumeric(s)
  }

  /**
   * `validateInputs` as a value: `None` when all three checks pass, otherwise
   * the alert message of the first check that fails (card, then expiry, then CVV).
   */
  function FirstFailure(cardNumber: string, expiryDate: string, cvv: string): Option<string>
  {
    if !ValidCardNumber(cardNumber) then Some(CardNumberMessage)
    else if !MatchesExpiryPattern(expiryDate) then Some(ExpiryMessage)
    else if !ValidCvv(cvv) then Some(CvvMessage)
    else None
  }

  /**
   * Validation passes exactly when all three checks pass, and each message is
   * given exactly when its check is the first to fail.
   */
  lemma FirstFailureWins(cardNumber: string, expiryDate: string, cvv: string)
    ensures FirstFailure(cardNumber, expiryDate, cvv) == None
        <==> ValidCardNumber(cardNumber) && ExpiryMonthInRange(expiryDate) && ValidCvv(cvv)
    ensures FirstFailure(cardNumber, expiryDate, cvv) == Some(CardNumberMessage)
        <==> !ValidCardNumber(cardNumber)
    ensures FirstFailure(cardNumber, expiryDate, cvv) == Some(ExpiryMessage)
        <==> ValidCardNumber(cardNumber) && !ExpiryMonthInRange(expiryDate)
    ensures FirstFailure(cardNumber, expiryDate, cvv) == Some(CvvMessage)
        <==> ValidCardNumber(cardNumber) && ExpiryMonthInRange(expiryDate) && !ValidCvv(cvv)
  {
    ExpiryPatternIsMonthRange(expiryDate);
  }

  /** A field after the first failing one is never looked at. */
  lemma LaterFieldsNotInspected(cardNumber: string, expiryDate: string, cvv: string, expiryDate': string, cvv': string)
    ensures !ValidCardNumber(cardNumber) ==>
              FirstFailure(cardNumber, expiryDate, cvv) == FirstFailure(cardNumber, expiryDate', cvv')
    ensures !MatchesExpiryPattern(expiryDate) ==>
              FirstFailure(cardNumber, expiryDate, cvv) == FirstFailure(cardNumber, expiryDate, cvv')
  {
  }

  /** A well-formed card number, expiry and CVV pass. */
  lemma ValidFormExample()
    ensures FirstFailure("1234567890123456", "12/25", "123") == None
  {
    SampleCardNumberIsNumeric();
  }

  /** The sample card number, checked half by half. */
  lemma SampleCardNumberIsNumeric()
    ensures AllNumeric("1234567890123456")
  {
    var a, b, c, d := "1234", "5678", "9012", "3456";
    assert AllNumeric(a) && AllNumeric(b) && AllNumeric(c) && AllNumeric(d);
    AllNumericConcat(a, b);
    AllNumericConcat(c, d);
    AllNumericConcat(a + b, c + d);
    assert (a + b) + (c + d) == "1234567890123456";
  }

  /** A short card number, a letter in the card number, months 13, 00 and a one-digit month, a short CVV. */
  lemma FirstFailureExamples()
    ensures FirstFailure("123", "13/25", "12") == Some(CardNumberMessage)
    ensures FirstFailure("123456789012345a", "12/25", "123") == Some(CardNumberMessage)
    ensures FirstFailure("1234567890123456", "13/25", "123") == Some(ExpiryMessage)
    ensures FirstFailure("1234567890123456", "00/25", "123") == Some(ExpiryMessage)
    ensures FirstFailure("1234567890123456", "1/25", "123") == Some(ExpiryMessage)
    ensures FirstFailure("1234567890123456", "12/25", "12") == Some(CvvMessage)
  {
    ValidFormExample();
    assert !IsDigit("123456789012345a"[15]);
  }

  /** The payment screen's form state. */
  class PaymentForm {
    var cardNumber: string
    var expiryDate: string
    var cvv: string
    var showAlert: bool
    var alertMessage: string
    var navigateToCongrats: bool

    constructor ()
      ensures cardNumber == "" && expiryDate == "" && cvv == ""
      ensures !showAlert && alertMessage == "" && !navigateToCongrats
    {
      cardNumber, expiryDate, cvv := "", "", "";
      showAlert, alertMessage, navigateToCongrats := false, "", false;
    }

    /**
     * `validateInputs`: the checks in order; the first failure writes its
     * message to `alertMessage` and answers false; success leaves the message.
     */
    method ValidateInputs() returns (valid: bool)
      modifies this`alertMessage
      ensures valid <==> FirstFailure(cardNumber, expiryDate, cvv) == None
      ensures alertMessage == if valid then old(alertMessage) else FirstFailure(cardNumber, expiryDate, cvv).value
    {
      if !(|cardNumber| == 16 && AllNumeric(cardNumber)) {
        alertMessage := CardNumberMessage;
        return false;
      }
      if !MatchesExpiryPattern(expiryDate) {
        alertMessage := ExpiryMessage;
        return false;
      }
      if !(|cvv| == 3 && AllNumeric(cvv)) {
        alertMessage := CvvMessage;
        return false;
      }
      return true;
    }

    /**
     * "Confirm Payment": on valid input, clear the three fields, call the
     * screen's `resetCart` and go to the congratulations screen; otherwise show
     * the alert and change no field.
     */
    method ConfirmPayment(shop: ShopState, resetCart: ResetHook)
      modifies this, shop
      ensures var failure := FirstFailure(old(cardNumber), old(expiryDate), old(cvv));
        if failure == None then
          && cardNumber == "" && expiryDate == "" && cvv == ""
          && navigateToCongrats && showAlert == old(showAlert) && alertMessage == old(alertMessage)
          && shop.shoppingList == (if resetCart == ClearsCart then {} else old(shop.shoppingList))
        else
          && cardNumber == old(cardNumber) && expiryDate == old(expiryDate) && cvv == old(cvv)
          && showAlert && alertMessage == failure.value && navigateToCongrats == old(navigateToCongrats)
          && shop.shoppingList == old(shop.shoppingList)
      ensures shop.favorites == old(shop.favorites) && shop.products == old(shop.products)
    {
      var valid := ValidateInputs();
      if valid {
        cardNumber, expiryDate, cvv := "", "", "";
        if resetCart == ClearsCart {
          shop.ResetCart();
        }
        navigateToCongrats := true;
      } else {
        showAlert := true;
      }
    }
  }
}
