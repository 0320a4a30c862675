/**
 * What the three forms (donation, request, login) share: typing into a field blanks that
 * field's error message, and the two dashboard forms check quantities the same way.
 */
module Forms {
  import opened Text

  /**
   * `if (errors[name]) setErrors({...prev, [name]: ''})`: a field's error message, when there is
   * a non-empty one, is blanked (the key stays); nothing else changes.
   */
  function ClearFieldError<K>(errors: map<K, string>, name: K): (r: map<K, string>)
    ensures r.Keys == errors.Keys
    ensures name in r ==> r[name] == ""
    ensures forall k :: k in errors && k != name ==> r[k] == errors[k]
  {
    if name in errors && errors[name] != "" then errors[name := ""] else errors
  }

  /**
   * `!quantity || parseFloat(quantity) <= 0`. NaN compares false with everything, so text
   * that does not parse as a number is let through; only empty text and values at or below
   * zero are refused.
   */
  predicate QuantityRefused(quantity: string) {
    quantity == "" || (ParseFloat(quantity).Some? && ParseFloat(quantity).value <= 0.0)
  }

  /** A whole number is accepted exactly when it is positive; `"0"` is refused. */
  lemma WholeQuantities(n: nat)
    ensures !QuantityRefused(NatToString(n)) <==> n > 0
  {
    ParseFloatOfNat(n);
  }

  /** A negative whole number such as `"-5"` is refused. */
  lemma NegativeQuantities(n: nat)
    ensures QuantityRefused("-" + NatToString(n))
  {
    ParseFloatOfNegated(n);
  }

  /** Text without a digit parses to NaN and is therefore not refused. */
  lemma DigitlessQuantities(quantity: string)
    requires quantity != ""
    requires forall i :: 0 <= i < |quantity| ==> !IsDigit(quantity[i])
    ensures !QuantityRefused(quantity)
  {
  }
}
