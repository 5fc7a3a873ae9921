/** The demonstration run of src/App.java, with its literal inputs. */
module App {
  import opened Info
  import opened Api
  import opened Adapter

  const ExampleCard: string := "1234567891011112"
  const ExampleExpiry: string := "02/26"
  const ExampleCvv: string := "123"
  const ExampleAmount: Amount := 1533.5

  /** The token of the example card. */
  lemma ExampleToken()
    ensures Token(ExampleCard, ExampleExpiry, ExampleCvv) == Ok("tok_111202/26123")
  {
    assert ExampleCard[|ExampleCard| - CardSuffixLength..] == "1112";
    assert TokenPrefix + "1112" + ExampleExpiry + ExampleCvv == "tok_111202/26123";
  }

  /**
   * The main program: one record, one adapter around a fresh service, one
   * payment. Token creation lands on the adapter's own service object,
   * not on the one the program passed in; the charge lands on the latter.
   */
  method Run() returns (tokenApi: PaymentApi, injected: PaymentApi, calls: seq<Call>, output: seq<Line>, o: Outcome)
    ensures tokenApi != injected
    ensures o == Completed
    ensures calls == [CreateTokenCall(tokenApi, ExampleCard, ExampleExpiry, ExampleCvv),
                      ChargeCall(injected, "tok_111202/26123", ExampleAmount)]
    ensures output == [GeneratingToken, Charging(ExampleAmount, "tok_111202/26123"), PaymentSuccessful]
  {
    var info := NewPaymentInfo(ExampleCard, ExampleExpiry, ExampleCvv, ExampleAmount);
    injected := new PaymentApi();
    var adapter := new PaymentAdapter(injected);
    tokenApi := adapter.paymentByToken;
    var out := new Trace();
    o := adapter.ProcessPayment(out, info);
    assert out.events == ProcessTrace(tokenApi, injected, info);
    ExampleToken();
    ConsoleOutput(tokenApi, injected, info);
    CallSequence(tokenApi, injected, info);
    calls := Calls(out.events);
    output := Lines(out.events);
  }
}
