/**
 * The cart page: the quantity steppers, the promo-code form and the order
 * total. The subtotal is in cents; the discount is `subtotal * 0.2`, kept as
 * an exact rational (`real`) rather than a floating-point number.
 */
module CartPage {
  import opened Wrappers
  import Text

  /** Shipping is free. */
  const Shipping: real := 0.0
  const PromoCode: string := "DISCOUNT20"
  const DiscountRate: real := 0.2
  const MissingCode: string := "Please enter a promo code"
  const InvalidCode: string := "Invalid promo code"
  const CodeApplied: string := "Promo code applied successfully!"

  datatype QuantityUpdate = QuantityUpdate(id: int, quantity: int)

  /** `handleQuantityChange`: an update is sent only for a quantity of at least 1. */
  function QuantityChange(id: int, currentQuantity: int, change: int): (u: Option<QuantityUpdate>)
    ensures u.Some? <==> currentQuantity + change >= 1
    ensures u.Some? ==> u.value.id == id && u.value.quantity == currentQuantity + change && u.value.quantity >= 1
  {
    var next := currentQuantity + change;
    if next >= 1 then Some(QuantityUpdate(id, next)) else None
  }

  /** The minus button, greyed out at one unit or while an update is in flight. */
  predicate MinusDisabled(quantity: int, pending: bool) {
    quantity <= 1 || pending
  }

  /** The plus button, greyed out once the line holds the whole stock. */
  predicate PlusDisabled(quantity: int, stock: int, pending: bool) {
    quantity >= stock || pending
  }

  /**
   * An enabled minus button always sends an update; an enabled plus button
   * on a non-negative quantity sends one that stays within the stock.
   */
  lemma EnabledSteppersUpdate(id: int, quantity: int, stock: int, pending: bool)
    ensures !MinusDisabled(quantity, pending) ==>
              QuantityChange(id, quantity, -1) == Some(QuantityUpdate(id, quantity - 1))
    ensures !PlusDisabled(quantity, stock, pending) && quantity >= 0 ==>
              QuantityChange(id, quantity, 1) == Some(QuantityUpdate(id, quantity + 1)) && quantity + 1 <= stock
  {
  }

  datatype PromoState = PromoState(code: string, error: string, success: string, discount: real)

  /**
   * `handleApplyPromoCode`. A blank code (after trimming) asks for one; the
   * code matches when its upper-cased form, untrimmed, is "DISCOUNT20".
   */
  function ApplyPromoCode(s: PromoState, subtotal: int): (r: PromoState)
    ensures r.code == s.code
    ensures Text.Trim(s.code) == "" ==>
              r.error == MissingCode && r.success == "" && r.discount == s.discount
    ensures Text.Trim(s.code) != "" && Text.Upper(s.code) == PromoCode ==>
              r.discount == subtotal as real * DiscountRate && r.success == CodeApplied && r.error == ""
    ensures Text.Trim(s.code) != "" && Text.Upper(s.code) != PromoCode ==>
              r.error == InvalidCode && r.success == "" && r.discount == s.discount
    ensures r.error == "" <==> r.success != ""
  {
    if Text.Trim(s.code) == "" then
      s.(error := MissingCode, success := "")
    else if Text.Upper(s.code) == PromoCode then
      s.(discount := subtotal as real * DiscountRate, success := CodeApplied, error := "")
    else
      s.(error := InvalidCode, success := "")
  }

  /** `total`: subtotal less the discount, plus free shipping. */
  function Total(subtotal: int, discount: real): (t: real)
    ensures t + discount == subtotal as real
  {
    subtotal as real - discount + Shipping
  }

  /** Any spelling of the code in upper or lower case is accepted: its first letter is no blank. */
  lemma MatchingCodeIsNotBlank(code: string)
    requires Text.Upper(code) == PromoCode
    ensures Text.Trim(code) != ""
  {
    assert Text.UpperChar(code[0]) == 'D';
    assert !Text.IsWhiteSpace(code[0]);
    Text.TrimEmpty(code);
  }

  /** A matching code takes 20% off the subtotal at the time it is applied. */
  lemma AppliedCodeTakesOffFifth(s: PromoState, subtotal: int)
    requires Text.Upper(s.code) == PromoCode
    ensures var r := ApplyPromoCode(s, subtotal);
            r.success == CodeApplied && Total(subtotal, r.discount) == 0.8 * subtotal as real
  {
    MatchingCodeIsNotBlank(s.code);
  }

  /** Surrounding blanks are not trimmed before the comparison, so a padded code is refused. */
  lemma PaddedCodeRejected(s: PromoState, subtotal: int)
    requires s.code == " DISCOUNT20"
    ensures ApplyPromoCode(s, subtotal).error == InvalidCode
    ensures ApplyPromoCode(s, subtotal).discount == s.discount
  {
    assert Text.Upper(s.code)[0] == ' ';
    assert !Text.IsWhiteSpace(s.code[1]);
    Text.TrimEmpty(s.code);
  }
}
