# Theater statement printer, modelled in Dafny

This project models `StatementPrinter` of the theater billing example. The
printer turns a customer's invoice (a customer name and an ordered list of
performances) and a play catalog (play id to play name and type tag) into a
statement:

- a header naming the customer;
- one line per performance, in invoice order, with the play's name, its
  price, and the seat count;
- the amount owed;
- the volume credits earned.

Prices are integer cents and depend on the play's type. A tragedy costs a
flat 40000. Beyond a threshold it costs 1000 more per attendee above 30. A
comedy costs a base amount and a per-attendee amount. Above its threshold it
also costs a fixed over-capacity amount and a per-person overage. Any other
type aborts the statement with an "unknown type" error. Credits are the
audience beyond a threshold, plus one per five attendees (a named factor)
for comedies.

Modules, one per concern:

- `Wrappers` (`wrappers.dfy`): the `Result` type that carries the
  exceptions.
- `JavaInt` (`java_int.dfy`): Java's truncating integer division and
  `Math.max`.
- `Theater` (`theater.dfy`): plays, performances, invoices, the catalog,
  the named constants, the type-tag classification and the errors.
- `Pricing` (`pricing.dfy`): `getPlay`, `getThisAmount` and
  `getVolumeCredits`, plus their closed-form rules.
- `Folds` (`folds.dfy`): left-to-right passes that stop at the first
  failing element. These are the shape of the printer's loops.
- `StatementPrinter` (`statement.dfy`): `statement()` as three passes, a
  fused one-pass method proved equal to it, and the totals and failure
  properties.
- `WorkedExample` (`worked_example.dfy`): the BigCo example invoice
  (Hamlet with 55 seats, As You Like It with 35, Othello with 40).

Modelling decisions:

- The values of the `Constants` class are not shown, so they are not
  known. `Theater.Constants` is a record whose fields carry the Java
  constant names, and every property is stated in terms of those names.
  The BigCo example ($580 for the 35-seat comedy, $1,730 in all) needs
  `COMEDY_BASE_AMOUNT` = 30000: `WorkedExample.BigCoStatement` shows the
  example with 30000, and `WorkedExample.BigCoWithLowerComedyBase` shows
  that 20000 gives $1,630.
- The tragedy surcharge is guarded by `TRAGEDY_AUDIENCE_THRESHOLD` but
  counted from the literal 30. Both are kept.
  `Pricing.TragedyLowThresholdUndercharges` shows what happens if the two
  ever differ.
- A missing catalog entry has no error of its own in the code: `plays.get`
  returns null (line 60) and the field access at line 65 throws a
  `NullPointerException`. The model represents that exception as
  `PlayNotFound(playID)`, raised in the same place, during pricing in the
  first loop.
- A play type is any string. Only pricing rejects an unknown one (line 82);
  the credit rule accepts any type and gives it no comedy bonus.
- The formatter is handed `amount / 100` with Java's truncating division,
  so cents are dropped before formatting. `Line.dollars` and
  `Statement.amountOwed` hold exactly that value. The amount owed is the
  truncation of the exact sum of the cents, not the sum of the truncated
  per-line dollars.

## Model

| member | source | states |
|---|---|---|
| Pricing.GetPlay | src/main/java/theater/StatementPrinter.java:59-61 | The lookup succeeds exactly when the play id is in the catalog and returns that entry; otherwise it fails with `PlayNotFound` for that id |
| Pricing.PriceFor | src/main/java/theater/StatementPrinter.java:65-83 | The pricing switch fails exactly when the tag is neither "tragedy" nor "comedy", and the error names that tag |
| Pricing.Amount | src/main/java/theater/StatementPrinter.java:63-85 | A performance's price fails exactly when its play is missing (`PlayNotFound`) or has an unknown type (`UnknownType` naming the type); otherwise it is the switch's price for the play's type and audience |
| Pricing.Credits | src/main/java/theater/StatementPrinter.java:51-57 | Credits fail only for a play missing from the catalog (never for an unknown type); otherwise they follow the credit rule for the play's type |
| Pricing.CreditsFor | src/main/java/theater/StatementPrinter.java:52-56 | A non-comedy earns the audience beyond `BASE_VOLUME_CREDIT_THRESHOLD`, or 0; a comedy earns exactly Java's truncated audience / `COMEDY_EXTRA_VOLUME_FACTOR` on top of that |
| Pricing.TragedyUpToThreshold | src/main/java/theater/StatementPrinter.java:66-68 | A tragedy with audience at most `TRAGEDY_AUDIENCE_THRESHOLD` costs exactly 40000 |
| Pricing.TragedyOverThreshold | src/main/java/theater/StatementPrinter.java:67-70 | Above `TRAGEDY_AUDIENCE_THRESHOLD` a tragedy costs 40000 + 1000·(audience − 30), with the literal 30 |
| Pricing.TragedyAtLeastBase | src/main/java/theater/StatementPrinter.java:66-71 | A tragedy with audience of at least 30 costs at least 40000, whatever the threshold constant is |
| Pricing.TragedyClosedForm | src/main/java/theater/StatementPrinter.java:66-71 | When the threshold constant is 30, a tragedy costs 40000 + 1000·max(audience − 30, 0) |
| Pricing.TragedyLowThresholdUndercharges | src/main/java/theater/StatementPrinter.java:68-69 | If the threshold constant were below 30, an audience strictly between it and 30 would be charged less than 40000 |
| Pricing.ComedyUpToThreshold | src/main/java/theater/StatementPrinter.java:72-80 | A comedy with audience at most `COMEDY_AUDIENCE_THRESHOLD` costs `COMEDY_BASE_AMOUNT` + `COMEDY_AMOUNT_PER_AUDIENCE`·audience |
| Pricing.ComedyOverThreshold | src/main/java/theater/StatementPrinter.java:72-80 | Above the threshold a comedy costs base + over-capacity amount + per-person·(audience − threshold) + per-audience·audience; the per-audience term applies to the whole audience |
| Pricing.PriceMonotonic | src/main/java/theater/StatementPrinter.java:63-85 | With non-negative rates and a tragedy threshold of at least 30, a larger audience never lowers the price of a tragedy or a comedy |
| Pricing.CreditsRule | src/main/java/theater/StatementPrinter.java:51-57 | Credits are max(audience − `BASE_VOLUME_CREDIT_THRESHOLD`, 0), plus audience / `COMEDY_EXTRA_VOLUME_FACTOR` exactly when the type is "comedy" |
| Pricing.CreditsNonNegative | src/main/java/theater/StatementPrinter.java:51-57 | With a positive `COMEDY_EXTRA_VOLUME_FACTOR`, a non-negative audience never earns negative credits |
| Pricing.NonComedyCreditsZero | src/main/java/theater/StatementPrinter.java:53-55 | A non-comedy with audience at most the credit threshold earns 0 credits |
| Pricing.CreditsComedyTestMatchesSwitch | src/main/java/theater/StatementPrinter.java:55 | The credit rule's `"comedy".equals(type)` test selects the same plays as the switch's comedy case |
| Pricing.PricedImpliesCredited | src/main/java/theater/StatementPrinter.java:51-65 | A performance that can be priced can be credited; a credit failure is the same failure pricing reports |
| Theater.Genre | src/main/java/theater/StatementPrinter.java:65-82 | A tag selects the tragedy case exactly when it equals "tragedy", the comedy case exactly when it equals "comedy", and the default case otherwise |
| Theater.GenreRoundTrip | src/main/java/theater/StatementPrinter.java:65-82 | Classifying a tag loses nothing: the tag is recovered from its case, and every case that classification can produce is the classification of its own tag |
| JavaInt.Div | src/main/java/theater/StatementPrinter.java:31 | Java's `/` truncates toward zero: the remainder has the dividend's sign and is smaller than the divisor's magnitude |
| JavaInt.DivAgreesOnNaturals | src/main/java/theater/StatementPrinter.java:55 | For a non-negative audience and a positive factor, Java's division equals floor division |
| JavaInt.Max | src/main/java/theater/StatementPrinter.java:53 | `Math.max` returns one of its arguments and is at least both |
| Folds.MapAll | src/main/java/theater/StatementPrinter.java:29-32 | A per-element pass succeeds exactly when every element does, and then lists one value per element, in order |
| Folds.SumOf | src/main/java/theater/StatementPrinter.java:35-44 | A summing pass succeeds exactly when every element does |
| Folds.MapAllFirstFailure | src/main/java/theater/StatementPrinter.java:29-32 | A failing per-element pass reports the error of the first failing element |
| Folds.SumOfFirstFailure | src/main/java/theater/StatementPrinter.java:35-38 | A failing summing pass reports the error of the first failing element |
| Folds.FirstFailureExists | src/main/java/theater/StatementPrinter.java:29-32 | A pass that does not succeed everywhere has a first failing element |
| Folds.SumOfIsSumOfValues | src/main/java/theater/StatementPrinter.java:35-44 | A successful summing pass equals the plain sum of the per-element values |
| Folds.SumOfAppend | src/main/java/theater/StatementPrinter.java:35-44 | Summing a concatenation gives the first part's error, else the second part's error, else the sum of the two sums |
| Folds.SumOfPermutation | src/main/java/theater/StatementPrinter.java:35-44 | Reordering the elements changes neither whether the sum succeeds nor its value |
| StatementPrinter.Dollars | src/main/java/theater/StatementPrinter.java:31 | The value handed to the formatter is `amount / 100` truncated toward zero: it equals floor division for a non-negative amount, and the dropped cents are under 100 in magnitude with the amount's sign |
| StatementPrinter.PrintedLine | src/main/java/theater/StatementPrinter.java:30-31 | A line exists exactly when the performance can be priced, otherwise it carries the pricing error; the line holds the play's name, price / 100 and the audience |
| StatementPrinter.StatementOf | src/main/java/theater/StatementPrinter.java:24-49 | The statement succeeds exactly when every performance can be priced. It then names the customer and has one line per performance, in order. The amount owed is (sum of prices) / 100 and the credits are the sum of per-performance credits |
| StatementPrinter.TotalsAreSums | src/main/java/theater/StatementPrinter.java:34-44 | Once every line is printed, the total and credit loops cannot fail, and they give the plain sums of prices and credits |
| StatementPrinter.StatementFailsAtFirstUnpriced | src/main/java/theater/StatementPrinter.java:29-31 | The statement fails with the error of the first performance that cannot be priced; no partial statement exists |
| StatementPrinter.UnknownTypeFailsStatement | src/main/java/theater/StatementPrinter.java:81-82 | A performance of an unknown-type play, with all earlier ones priced, makes the statement fail with `UnknownType` naming that type |
| StatementPrinter.StatementTotalsIgnoreOrder | src/main/java/theater/StatementPrinter.java:34-44 | Reordering the performances changes neither success nor the amount owed and the credits |
| StatementPrinter.StatementOnePass | src/main/java/theater/StatementPrinter.java:28-48 | Fusing the three loops into one pass gives the same statement or the same error |
| WorkedExample.BigCoStatement | src/main/java/theater/StatementPrinter.java:24-48 | For the BigCo invoice, the statement is Hamlet 650, As You Like It 580, Othello 500, 1730 owed and 47 credits (comedy base amount 30000) |
| WorkedExample.BigCoWithLowerComedyBase | src/main/java/theater/StatementPrinter.java:72-80 | With a comedy base amount of 20000, the same invoice owes 1630 |
| WorkedExample.OperaFails | src/main/java/theater/StatementPrinter.java:81-82 | An "opera" performance aborts the statement with `UnknownType("opera")` |
| WorkedExample.MissingPlayFails | src/main/java/theater/StatementPrinter.java:59-65 | A performance of a play missing from the catalog aborts the statement with `PlayNotFound` |

## Left out

- Text rendering: `NumberFormat.getCurrencyInstance(Locale.US)`, `String.format` and `System.lineSeparator`. These are library and platform formatting. A line is modelled as the record of values handed to the formatter (name, whole dollars, seats), and the statement as the customer, the lines, the dollars owed and the credits.
- The values of the `Constants` class. That class is not part of this model, so the constants are a record parameter and no value is claimed for them.
- The `Invoice`, `Performance` and `Play` classes. They are not part of this model and are represented as plain datatypes.
- Java's 32-bit `int` overflow. All arithmetic is unbounded.
- The mutable public fields and the constructor (lines 11-17). They only hold the two inputs, which the model passes as parameters.
- Null play types and null fields. A `switch` on a null string would throw. The model has no nulls.
- The credit divisor `COMEDY_EXTRA_VOLUME_FACTOR` is assumed non-zero (its type is `JavaInt.NonZero`), as the "every five" comment at line 54 indicates. The division at line 55 runs only for a comedy, so with a zero factor Java would throw `ArithmeticException` in the third loop (lines 42-44) for any invoice containing a comedy, after the first loop succeeded. Because `Constants` cannot hold 0, the model also omits the statements Java still prints for comedy-free invoices under a zero factor.
- Pricing.CreditsRule: stated only for a non-negative audience and a positive factor. For other inputs, `JavaInt.Div`'s truncation contract describes the comedy bonus.
- Pricing.PriceMonotonic: stated only for non-negative rates and a tragedy threshold of at least 30. Without these, the price is not monotonic (see `Pricing.TragedyLowThresholdUndercharges`).
- StatementPrinter.StatementOf: the second and third loops are modelled as passes that cannot fail once the first loop succeeded (`StatementPrinter.TotalsAreSums`). Their own failure paths are therefore not repeated.
