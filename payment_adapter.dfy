/** The adapter from record-based payments to token-based ones (src/PaymentAdapter.java). */
module Adapter {
  import opened Info
  import opened Api

  /** How `processPayment` ends: normally, or with the exception `createToken` raised. */
  datatype Outcome = Completed | Raised(error: TokenError)

  /**
   * The events of one `processPayment` call: `createToken` on `tokenApi`
   * with the record's card number, expiry and CVV; then, only if that
   * returned, `charge` on `chargeApi` with the returned token and the
   * record's amount.
   */
  function ProcessTrace(tokenApi: PaymentApi, chargeApi: PaymentApi, info: PaymentInfo): seq<Event>
  {
    var created := CreateTokenTrace(tokenApi, info.GetCardNumber(), info.GetExpiry(), info.GetCvv());
    match Token(info.GetCardNumber(), info.GetExpiry(), info.GetCvv())
    case Ok(token) => created + ChargeTrace(chargeApi, token, info.GetAmount())
    case Err(_) => created
  }

  /** The exception, if any, is exactly the one token creation raised; nothing is caught. */
  function ProcessOutcome(info: PaymentInfo): (o: Outcome)
    ensures o.Raised? <==> |info.GetCardNumber()| < CardSuffixLength
    ensures o.Raised? ==> o.error == Token(info.GetCardNumber(), info.GetExpiry(), info.GetCvv()).error
  {
    match Token(info.GetCardNumber(), info.GetExpiry(), info.GetCvv())
    case Ok(_) => Completed
    case Err(e) => Raised(e)
  }

  /**
   * The calls one `processPayment` makes: exactly one `createToken` on the
   * token service, followed, when the card number has at least four
   * characters, by exactly one `charge` on the charging service with the
   * token that call returned.
   */
  lemma CallSequence(tokenApi: PaymentApi, chargeApi: PaymentApi, info: PaymentInfo)
    ensures var card := info.GetCardNumber();
      Calls(ProcessTrace(tokenApi, chargeApi, info)) ==
        [CreateTokenCall(tokenApi, card, info.GetExpiry(), info.GetCvv())] +
        (if |card| >= CardSuffixLength
         then [ChargeCall(chargeApi, Token(card, info.GetExpiry(), info.GetCvv()).value, info.GetAmount())]
         else [])
  {
    var created := CreateTokenTrace(tokenApi, info.GetCardNumber(), info.GetExpiry(), info.GetCvv());
    var r := Token(info.GetCardNumber(), info.GetExpiry(), info.GetCvv());
    if r.Ok? {
      CallsAppend(created, ChargeTrace(chargeApi, r.value, info.GetAmount()));
    }
  }

  /** The console output of one `processPayment` call. */
  lemma ConsoleOutput(tokenApi: PaymentApi, chargeApi: PaymentApi, info: PaymentInfo)
    ensures var r := Token(info.GetCardNumber(), info.GetExpiry(), info.GetCvv());
      Lines(ProcessTrace(tokenApi, chargeApi, info)) ==
        [GeneratingToken] +
        (if r.Ok? then [Charging(info.GetAmount(), r.value), PaymentSuccessful] else [])
  {
    var created := CreateTokenTrace(tokenApi, info.GetCardNumber(), info.GetExpiry(), info.GetCvv());
    var r := Token(info.GetCardNumber(), info.GetExpiry(), info.GetCvv());
    if r.Ok? {
      LinesAppend(created, ChargeTrace(chargeApi, r.value, info.GetAmount()));
    }
  }

  /** When token creation fails, `charge` is never reached. */
  lemma FailedTokenNeverCharges(tokenApi: PaymentApi, chargeApi: PaymentApi, info: PaymentInfo)
    requires |info.GetCardNumber()| < CardSuffixLength
    ensures forall c :: c in Calls(ProcessTrace(tokenApi, chargeApi, info)) ==> !c.ChargeCall?
    ensures PaymentSuccessful !in Lines(ProcessTrace(tokenApi, chargeApi, info))
  {
    CallSequence(tokenApi, chargeApi, info);
    ConsoleOutput(tokenApi, chargeApi, info);
  }

  /** Every charge is made on the charging service, with a token built from the record. */
  lemma ChargesUseRecordToken(tokenApi: PaymentApi, chargeApi: PaymentApi, info: PaymentInfo)
    ensures forall c :: c in Calls(ProcessTrace(tokenApi, chargeApi, info)) && c.ChargeCall? ==>
      c.api == chargeApi && c.amount == info.GetAmount() &&
      Token(info.GetCardNumber(), info.GetExpiry(), info.GetCvv()) == Ok(c.token)
  {
    CallSequence(tokenApi, chargeApi, info);
  }

  /**
   * Implements the card-based interface on top of the token-based service.
   * Tokens are requested from a service object the adapter builds itself;
   * charges go to the one passed to the constructor.
   */
  class PaymentAdapter {
    const paymentByToken: PaymentApi
    const paymentApi: PaymentApi

    constructor (paymentApi: PaymentApi)
      ensures this.paymentApi == paymentApi
      ensures fresh(paymentByToken)
    {
      this.paymentApi := paymentApi;
      this.paymentByToken := new PaymentApi();
    }

    method ProcessPayment(out: Trace, paymentInfo: PaymentInfo) returns (o: Outcome)
      modifies out
      ensures out.events == old(out.events) + ProcessTrace(paymentByToken, paymentApi, paymentInfo)
      ensures o == ProcessOutcome(paymentInfo)
    {
      var token := paymentByToken.CreateToken(out, paymentInfo.GetCardNumber(), paymentInfo.GetExpiry(), paymentInfo.GetCvv());
      match token
      case Err(e) =>
        o := Raised(e);
      case Ok(t) =>
        paymentApi.Charge(out, t, paymentInfo.GetAmount());
        o := Completed;
    }
  }
}
