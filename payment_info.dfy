/** The payment record handed to the adapter (src/PaymentInfo.java). */
module Info {

  /** The amount is a Java `double` that is only passed along, never computed on. */
  type Amount = real

  /**
   * An immutable record: the Java class has four private fields, one
   * constructor and four getters, and no setters.
   */
  datatype PaymentInfo = PaymentInfo(cardNumber: string, expiry: string, cvv: string, amount: Amount)
  {
    function GetCardNumber(): string { cardNumber }
    function GetExpiry(): string { expiry }
    function GetCvv(): string { cvv }
    function GetAmount(): Amount { amount }
  }

  /**
   * `new PaymentInfo(cardNumber, expiry, cvv, amount)`: accepts every
   * argument without validation, and each getter gives back its argument.
   */
  function NewPaymentInfo(cardNumber: string, expiry: string, cvv: string, amount: Amount): (p: PaymentInfo)
    ensures p.GetCardNumber() == cardNumber
    ensures p.GetExpiry() == expiry
    ensures p.GetCvv() == cvv
    ensures p.GetAmount() == amount
  {
    PaymentInfo(cardNumber, expiry, cvv, amount)
  }

  /**
   * A record is nothing but its four getter values: two records are the
   * same exactly when every getter agrees, so there is no hidden state
   * that could change under a reader.
   */
  lemma GettersDetermineRecord(p: PaymentInfo, q: PaymentInfo)
    ensures p == q <==>
      (p.GetCardNumber() == q.GetCardNumber() && p.GetExpiry() == q.GetExpiry() &&
       p.GetCvv() == q.GetCvv() && p.GetAmount() == q.GetAmount())
  {
  }
}
