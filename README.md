# Adapter pattern payment demo, modelled in Dafny

The system is a small Java illustration of the Adapter pattern. A client
pays with a card-based interface: one call, `processPayment`, taking a
`PaymentInfo` record (card number, expiry, CVV, amount). The service it
must use is token-based: first `createToken(cardNumber, expiry, cvv)`,
then `charge(token, amount)`. `PaymentAdapter` turns the one call into
the two.

The model has one module per source file:

- `Info` (`payment_info.dfy`): `PaymentInfo` as an immutable datatype
  with the four getters, and `NewPaymentInfo` for the constructor.
- `Api` (`payment_api.dfy`): the adaptee `PaymentAPI`. `Token` is the pure
  token formula. It returns `Err(StringIndexOutOfBounds(begin))` when the
  card number is shorter than four characters, because Java's `substring`
  gets a negative begin index there. `ParseToken` reads a token back and
  serves as the formula's inverse.
  Standard output is an explicit `Trace` object whose `events` list
  records each call into the service and each printed line, in order.
  Each call event names the receiving `PaymentApi` object.
  The class `PaymentApi` has no fields. Its methods `CreateToken` and
  `Charge` append to the trace exactly what the specification functions
  `CreateTokenTrace` and `ChargeTrace` say. `CreateToken` prints its line
  before the token is built, so a failing call still leaves
  "Generating Token...." in the output.
- `Adapter` (`payment_adapter.dfy`): the class `PaymentAdapter`. It has two
  `const` fields, which only the constructor can set. `paymentApi` is the
  injected service. `paymentByToken` is a fresh `PaymentApi` that the
  constructor builds itself. `ProcessPayment` requests the token from
  `paymentByToken` and charges through `paymentApi`, as the Java code does.
  Its trace is `ProcessTrace`. Its outcome is `ProcessOutcome`: either
  `Completed`, or `Raised(e)` with the token error passed through unchanged.
- `App` (`app.dfy`): the demonstration run with its literal inputs.

## Model

| member | source | states |
|---|---|---|
| `Info.NewPaymentInfo` | src/PaymentInfo.java:8-30 | the constructor accepts any card number, expiry, CVV and amount, and each getter returns the argument given for its field |
| `Info.GettersDetermineRecord` | src/PaymentInfo.java:2-30 | two records are equal exactly when all four getters agree, so a record has no state beyond its four fields |
| `Api.Token` | src/PaymentAPI.java:4-7 | the token exists exactly when the card number has at least 4 characters; otherwise the error carries the negative begin index `|card| - 4`; a token has length 8 + `|expiry|` + `|cvv|` and is "tok_", then the card's last four characters, then the expiry, then the CVV |
| `Api.TokenRoundTrip` | src/PaymentAPI.java:6 | parsing a token with the expiry and CVV lengths gives back the card suffix, the expiry and the CVV |
| `Api.TokenDeterminesInputs` | src/PaymentAPI.java:6 | equal tokens built with expiries of equal length come from the same card suffix, expiry and CVV |
| `Api.TokenUsesOnlyCardSuffix` | src/PaymentAPI.java:6 | two card numbers with the same last four characters give the same token |
| `Api.CreateTokenTrace` | src/PaymentAPI.java:4-6 | a `createToken` call records one call on its receiver with its three arguments and prints exactly one line, "Generating Token...." |
| `Api.ChargeTrace` | src/PaymentAPI.java:10-13 | a `charge` call records one call on its receiver with the token and amount, then prints the charge line followed by "Payment Successful", whatever the token and amount |
| `Api.PaymentApi.CreateToken` | src/PaymentAPI.java:4-7 | the method appends the `createToken` trace to the output and returns the `Token` result |
| `Api.PaymentApi.Charge` | src/PaymentAPI.java:10-13 | the method appends the `charge` trace to the output and never fails |
| `Adapter.ProcessOutcome` | src/PaymentAdapter.java:12-16 | `processPayment` raises an error exactly when the card number is shorter than 4 characters, and the error is the one token creation raised |
| `Adapter.CallSequence` | src/PaymentAdapter.java:13-15 | `processPayment` makes exactly one `createToken` call on the token service, with the record's card number, expiry and CVV in that order; when that succeeds, it then makes exactly one `charge` call on the charging service, with the returned token and the record's amount |
| `Adapter.ConsoleOutput` | src/PaymentAdapter.java:12-16 | the output is "Generating Token....", followed by the charge line and "Payment Successful" only when a token was made |
| `Adapter.FailedTokenNeverCharges` | src/PaymentAdapter.java:12-16 | with a card number shorter than 4 characters no `charge` call happens and "Payment Successful" is never printed |
| `Adapter.ChargesUseRecordToken` | src/PaymentAdapter.java:13-15 | every charge goes to the charging service, with the record's amount and the token built from the record |
| `Adapter.PaymentAdapter.constructor` | src/PaymentAdapter.java:6-9 | the charging field is the injected service; the token field is a newly built service, so it is distinct from the injected one |
| `Adapter.PaymentAdapter.ProcessPayment` | src/PaymentAdapter.java:12-16 | the method appends `ProcessTrace` for its token service, charging service and record, and returns `ProcessOutcome`; it modifies only the output, so neither field changes |
| `App.ExampleToken` | src/App.java:4-13 | the example card "1234567891011112", expiry "02/26" and CVV "123" give the token "tok_111202/26123" |
| `App.Run` | src/App.java:3-14 | the demo run completes; token creation goes to the adapter's own service and not the injected one; the charge of 1533.5 with "tok_111202/26123" goes to the injected one; the three output lines come in order |

## Left out

- The interfaces `PaymentByToken` and `PaymentByCard` are not part of this
  model. Traits are not used, so the adapter's two fields have the type of
  the one implementation, `PaymentApi`. This matches the only objects the
  program ever builds.
- Console text: lines are kept as the tags `GeneratingToken`,
  `Charging(amount, token)` and `PaymentSuccessful`. How Java prints a
  `double` (for example `1533.50` as `1533.5`) is floating-point formatting
  and is not modelled.
- Amounts: a Java `double` becomes a Dafny `real` (`Info.Amount`) and is
  only passed along. NaN and the infinities, which `charge` accepts and
  passes through unchanged in Java, are outside the model's domain, and
  no rounding is modelled.
- Java `null` references are not modelled: strings, records and service
  objects are always present. In Java a null card number fails inside
  `createToken`. `new PaymentAdapter(null)` builds an adapter whose
  `processPayment` prints "Generating Token...." and then throws a
  `NullPointerException` at the `charge` call. `processPayment(null)`
  throws at the first getter, before any output.
- Java strings are UTF-16 code units, while a Dafny `char` is a Unicode
  scalar value. A character outside the Basic Multilingual Plane counts as
  two in Java and one in the model, so the length test and the four-character
  suffix can differ: a card number of a digit, an emoji and a digit has
  length 4 in Java and yields a token, but length 3 in the model and
  yields `Err`.
- `App.Run` models `main` only to state the demo's concrete run. It builds
  its own `Trace` to stand for standard output and returns the calls and
  lines recorded there; nothing is printed.
