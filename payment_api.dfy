/** The adaptee: token creation and charging (src/PaymentAPI.java). */
module Api {
  import opened Info

  /** `String.substring(begin)` throws when `begin` is negative. */
  datatype TokenError = StringIndexOutOfBounds(beginIndex: int)

  datatype Result<T> = Ok(value: T) | Err(error: TokenError)

  datatype Option<T> = None | Some(value: T)

  const TokenPrefix: string := "tok_"

  /** Number of card-number characters that go into a token. */
  const CardSuffixLength: nat := 4

  /** Length of the part of a token before the expiry: the prefix and the card suffix. */
  const TokenHead: nat := |TokenPrefix| + CardSuffixLength

  /** The console lines the service prints; the "Charging" line is kept as data. */
  datatype Line =
    | GeneratingToken                            // "Generating Token...."
    | Charging(amount: Amount, token: string)    // "Charging $<amount> using token <token>"
    | PaymentSuccessful                          // "Payment Successful"

  /** An invocation of the token-based interface, with the object that received it. */
  datatype Call =
    | CreateTokenCall(api: PaymentApi, cardNumber: string, expiry: string, cvv: string)
    | ChargeCall(api: PaymentApi, token: string, amount: Amount)

  /** What a run leaves behind: calls into the service and console lines, interleaved. */
  datatype Event = Invoked(call: Call) | Printed(line: Line)

  /** The calls recorded in a trace, in order. */
  function Calls(s: seq<Event>): seq<Call>
  {
    if s == [] then []
    else (if s[0].Invoked? then [s[0].call] else []) + Calls(s[1..])
  }

  /** The console output recorded in a trace, in order. */
  function Lines(s: seq<Event>): seq<Line>
  {
    if s == [] then []
    else (if s[0].Printed? then [s[0].line] else []) + Lines(s[1..])
  }

  lemma {:induction false} CallsAppend(a: seq<Event>, b: seq<Event>)
    ensures Calls(a + b) == Calls(a) + Calls(b)
  {
    if a == [] {
      assert a + b == b;
    } else {
      assert (a + b)[0] == a[0];
      assert (a + b)[1..] == a[1..] + b;
      CallsAppend(a[1..], b);
    }
  }

  lemma {:induction false} LinesAppend(a: seq<Event>, b: seq<Event>)
    ensures Lines(a + b) == Lines(a) + Lines(b)
  {
    if a == [] {
      assert a + b == b;
    } else {
      assert (a + b)[0] == a[0];
      assert (a + b)[1..] == a[1..] + b;
      LinesAppend(a[1..], b);
    }
  }

  /**
   * The value `createToken` returns: "tok_", then the last four characters
   * of the card number, the expiry and the CVV, all verbatim. A card number
   * shorter than four characters makes `substring` fail with a negative
   * begin index.
   */
  function Token(cardNumber: string, expiry: string, cvv: string): (r: Result<string>)
    ensures r.Ok? <==> |cardNumber| >= CardSuffixLength
    ensures r.Err? ==> r.error.beginIndex == |cardNumber| - CardSuffixLength < 0
    ensures r.Ok? ==> |r.value| == TokenHead + |expiry| + |cvv|
    ensures r.Ok? ==> r.value[..|TokenPrefix|] == TokenPrefix
    ensures r.Ok? ==> r.value[|TokenPrefix|..TokenHead] == cardNumber[|cardNumber| - CardSuffixLength..]
    ensures r.Ok? ==> r.value[TokenHead..TokenHead + |expiry|] == expiry
    ensures r.Ok? ==> r.value[TokenHead + |expiry|..] == cvv
  {
    var begin := |cardNumber| - CardSuffixLength;
    if begin < 0 then Err(StringIndexOutOfBounds(begin))
    else Ok(TokenPrefix + cardNumber[begin..] + expiry + cvv)
  }

  /**
   * Reads a token back into its card suffix, expiry and CVV, given the
   * lengths of the last two. None when the text is not shaped like a token.
   */
  function ParseToken(token: string, expiryLength: nat, cvvLength: nat): Option<(string, string, string)>
  {
    if |token| == TokenHead + expiryLength + cvvLength && token[..|TokenPrefix|] == TokenPrefix then
      Some((token[|TokenPrefix|..TokenHead], token[TokenHead..TokenHead + expiryLength], token[TokenHead + expiryLength..]))
    else None
  }

  /** Parsing a token recovers exactly what `createToken` put into it. */
  lemma TokenRoundTrip(cardNumber: string, expiry: string, cvv: string)
    requires |cardNumber| >= CardSuffixLength
    ensures Token(cardNumber, expiry, cvv).Ok?
    ensures ParseToken(Token(cardNumber, expiry, cvv).value, |expiry|, |cvv|)
         == Some((cardNumber[|cardNumber| - CardSuffixLength..], expiry, cvv))
  {
  }

  /**
   * Equal tokens from expiries of one length come from the same card suffix,
   * expiry and CVV; the digits before the last four play no part.
   */
  lemma TokenDeterminesInputs(c1: string, e1: string, v1: string, c2: string, e2: string, v2: string)
    requires Token(c1, e1, v1).Ok? && Token(c1, e1, v1) == Token(c2, e2, v2) && |e1| == |e2|
    ensures c1[|c1| - CardSuffixLength..] == c2[|c2| - CardSuffixLength..] && e1 == e2 && v1 == v2
  {
  }

  /** Only the last four characters of the card number reach the token. */
  lemma TokenUsesOnlyCardSuffix(c1: string, c2: string, expiry: string, cvv: string)
    requires |c1| >= CardSuffixLength && |c2| >= CardSuffixLength
    requires c1[|c1| - CardSuffixLength..] == c2[|c2| - CardSuffixLength..]
    ensures Token(c1, expiry, cvv) == Token(c2, expiry, cvv)
  {
  }

  /** What one `createToken` call on `api` leaves in the trace. */
  function CreateTokenTrace(api: PaymentApi, cardNumber: string, expiry: string, cvv: string): (r: seq<Event>)
    ensures Calls(r) == [CreateTokenCall(api, cardNumber, expiry, cvv)]
    ensures Lines(r) == [GeneratingToken]
  {
    var r := [Invoked(CreateTokenCall(api, cardNumber, expiry, cvv)), Printed(GeneratingToken)];
    assert r[1..] == [Printed(GeneratingToken)] && r[1..][1..] == [];
    assert Calls(r[1..][1..]) == [] && Lines(r[1..][1..]) == [];
    assert Calls(r[1..]) == [] && Lines(r[1..]) == [GeneratingToken];
    r
  }

  /** What one `charge` call on `api` leaves in the trace, whatever the token and amount. */
  function ChargeTrace(api: PaymentApi, token: string, amount: Amount): (r: seq<Event>)
    ensures Calls(r) == [ChargeCall(api, token, amount)]
    ensures Lines(r) == [Charging(amount, token), PaymentSuccessful]
  {
    var r := [Invoked(ChargeCall(api, token, amount)), Printed(Charging(amount, token)), Printed(PaymentSuccessful)];
    assert r[1..] == [Printed(Charging(amount, token)), Printed(PaymentSuccessful)];
    assert r[1..][1..] == [Printed(PaymentSuccessful)] && r[1..][1..][1..] == [];
    assert Calls(r[1..][1..][1..]) == [] && Lines(r[1..][1..][1..]) == [];
    assert Calls(r[1..][1..]) == [] && Lines(r[1..][1..]) == [PaymentSuccessful];
    assert Calls(r[1..]) == [] && Lines(r[1..]) == [Charging(amount, token), PaymentSuccessful];
    r
  }

  /** The standard output stream, extended with a record of service calls. */
  class Trace {
    var events: seq<Event>

    constructor ()
      ensures events == []
    {
      events := [];
    }
  }

  /** The concrete service. It has no fields: every result depends on the arguments alone. */
  class PaymentApi {
    constructor ()
    {
    }

    /** Prints "Generating Token....", then builds the token (which may fail). */
    method CreateToken(out: Trace, cardNumber: string, expiry: string, cvv: string) returns (r: Result<string>)
      modifies out
      ensures out.events == old(out.events) + CreateTokenTrace(this, cardNumber, expiry, cvv)
      ensures r == Token(cardNumber, expiry, cvv)
    {
      out.events := out.events + [Invoked(CreateTokenCall(this, cardNumber, expiry, cvv))];
      out.events := out.events + [Printed(GeneratingToken)];
      r := Token(cardNumber, expiry, cvv);
    }

    /** Prints the charge line and then "Payment Successful"; it never fails. */
    method Charge(out: Trace, token: string, amount: Amount)
      modifies out
      ensures out.events == old(out.events) + ChargeTrace(this, token, amount)
    {
      out.events := out.events + [Invoked(ChargeCall(this, token, amount))];
      out.events := out.events + [Printed(Charging(amount, token))];
      out.events := out.events + [Printed(PaymentSuccessful)];
    }
  }
}
