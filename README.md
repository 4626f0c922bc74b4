# Theater statement printer, modelled in Dafny

A `StatementPrinter` is built from a customer's invoice and a map from play id to play.
It prices each performance in cents. A tragedy pays a base amount plus a per-seat surcharge
above its audience threshold. A comedy pays a base amount, a flat and a per-seat surcharge
above its threshold, and a per-seat amount on every seat. Any other type tag is a runtime
error. Each performance also earns loyalty ("volume") credits: one per seat above a
threshold, plus, for comedies only, one per whole `COMEDY_EXTRA_VOLUME_FACTOR` seats.
The printer sums amounts and credits over the invoice and renders the statement: a header,
one line per performance in invoice order, the amount owed and the credits earned.

Files and modules:

- `domain.dfy` (`Domain`): the `Play`, `Performance` and `Invoice` records, the failures
  (`UnknownType`, `MissingPlay`), `Result`, the switch on the type string (`Classify`), the
  pricing constants as a value (`Constants`, restricted to the subset type `Pricing`), and the
  play-map lookup.
- `calculators.dfy` (`Calculators`): `getAmount` and `getVolumeCredits` as functions, with
  Java's truncating integer division written out (`TruncDiv`).
- `aggregation.dfy` (`Aggregation`): the two invoice totals as prefix-recursive specification
  functions, and lemmas about failure, concatenation and reordering.
- `printer.dfy` (`Printer`): the statement lines and text, the layout and all-or-nothing
  lemmas, the worked example, and the class `StatementPrinter`. Its loops
  (`GetTotalAmount`, `GetTotalVolumeCredits`, `Statement`) are proved equal to the
  specification functions.

Modelling choices:

- The `Constants` class is not part of this model. Its values are a `Constants` record given
  to the printer's constructor. `Pricing` requires every constant to be non-negative and the
  comedy credit divisor to be positive. `WorkedExamplePricing` holds the values of the
  worked example (tragedy base 40000, threshold 30, 1000 per seat; comedy base 30000,
  threshold 20, 10000 flat, 500 per seat over, 300 per seat; credit threshold 30; factor 5).
- The play type stays a string, as in the source. `Classify` turns it into
  `Tragedy | Comedy | Other(tag)`, so the unknown-type branch is an ordinary case.
- `plays.get` on a missing id returns `null`, and the next dereference throws a
  `NullPointerException`. The model returns the distinct failure `MissingPlay(playID)`.
  The source has no message for this case, and the model invents none.
- Java's `int` division truncates toward zero. Dafny's `/` is Euclidean. `TruncDiv` states
  Java's rule, so negative audiences (which the source does not reject) are priced and
  credited as in Java.
- The currency rendering, the integer-to-text conversion of `String.format`, and the
  platform line separator are fields of a `Format` value. The statement is proved for every
  choice of them.

Points of the code's behaviour that the model keeps:

- `getVolumeCredits` only compares the type with `"comedy"` and never fails. Only
  `getAmount` throws on an unknown type.
- `statement` computes both totals before building any line. So the error reported is that
  of the first unpriceable performance in invoice order, and no partial text exists
  (`StatementAllOrNothing`).
- The comedy bonus uses Java's truncating `/`. It differs from floor division for negative
  audiences (`VolumeCreditsComedyBonus`).

## Model

| member | source | states |
|---|---|---|
| `Domain.Classify` | src/main/java/theater/StatementPrinter.java:31-53 | the switch takes the tragedy branch exactly for the tag "tragedy", the comedy branch exactly for "comedy", and the default branch, carrying the tag, for anything else |
| `Domain.PlayFor` | src/main/java/theater/StatementPrinter.java:96 | the play map lookup succeeds exactly when the id is a key and yields that key's play; otherwise it is the `MissingPlay` failure of that id |
| `Calculators.Max` | src/main/java/theater/StatementPrinter.java:66-67 | `Math.max`: the result is at least both arguments and is one of them |
| `Calculators.Excess` | src/main/java/theater/StatementPrinter.java:34-36 | the seats above a threshold: never negative, zero up to the threshold, audience − threshold above it |
| `Calculators.TruncDiv` | src/main/java/theater/StatementPrinter.java:70-71 | Java's integer quotient by a positive divisor: for a non-negative dividend q·b ≤ a < q·b + b, for a negative one q·b − b < a ≤ q·b ≤ 0 |
| `Calculators.Amount` | src/main/java/theater/StatementPrinter.java:28-56 | fails exactly for a type other than "tragedy"/"comedy", with `UnknownType` of that type; a tragedy costs base + per-person × max(audience − threshold, 0); a comedy costs base + (flat surcharge if audience > threshold) + per-person × max(audience − threshold, 0) + per-audience × audience; for a non-negative audience the amount is at least the type's base amount |
| `Calculators.VolumeCredits` | src/main/java/theater/StatementPrinter.java:65-75 | non-negative for a non-negative audience; for any type but "comedy" exactly max(audience − threshold, 0), whatever the type, so an unknown type never fails here |
| `Calculators.VolumeCreditsComedyBonus` | src/main/java/theater/StatementPrinter.java:69-71 | a comedy's bonus b over the base credits is Java's quotient of the audience a by the factor f: 0 ≤ b·f ≤ a < b·f + f for a ≥ 0, and b ≤ 0, b·f − f < a ≤ b·f for a < 0 (truncation toward zero) |
| `Calculators.TruncDivMonotone` | src/main/java/theater/StatementPrinter.java:70-71 | Java's truncating quotient is non-decreasing in the dividend |
| `Calculators.AmountMonotone` | src/main/java/theater/StatementPrinter.java:31-48 | for a tragedy or comedy, a larger audience never lowers the amount |
| `Calculators.VolumeCreditsMonotone` | src/main/java/theater/StatementPrinter.java:65-75 | for a fixed play, a larger audience never earns fewer credits, whatever the type |
| `Aggregation.AmountFor` | src/main/java/theater/StatementPrinter.java:96-97 | one loop step: fails exactly when the play is missing or its type is unknown, with `MissingPlay` for a missing play; otherwise the amount of the looked-up play |
| `Aggregation.CreditsFor` | src/main/java/theater/StatementPrinter.java:110-111 | one loop step: fails exactly when the play is missing, with `MissingPlay`; otherwise it is `VolumeCredits` of the looked-up play, non-negative for a non-negative audience |
| `Aggregation.TotalAmount` | src/main/java/theater/StatementPrinter.java:93-100 | the in-order total succeeds exactly when every performance has a play of a recognised type |
| `Aggregation.TotalVolumeCredits` | src/main/java/theater/StatementPrinter.java:107-114 | the in-order credit total succeeds exactly when every play is in the map, and is then non-negative when no audience is negative |
| `Aggregation.TotalAmountKeepsFailure` | src/main/java/theater/StatementPrinter.java:93-100 | an exception part-way through the loop is the result of the whole total |
| `Aggregation.TotalVolumeCreditsKeepsFailure` | src/main/java/theater/StatementPrinter.java:107-114 | a missing play part-way through the loop is the result of the whole credit total |
| `Aggregation.TotalAmountFirstFailure` | src/main/java/theater/StatementPrinter.java:93-100 | a failing total carries the failure of the first performance, in invoice order, that cannot be priced; every earlier one can be |
| `Aggregation.CreditsDefinedWhenPriced` | src/main/java/theater/StatementPrinter.java:123-124 | once the total amount has succeeded, the credit total cannot fail |
| `Aggregation.TotalAmountSnoc` | src/main/java/theater/StatementPrinter.java:95-98 | one more iteration of the loop adds the next performance's amount, and the total fails exactly when the total so far or that amount fails |
| `Aggregation.TotalVolumeCreditsSnoc` | src/main/java/theater/StatementPrinter.java:109-112 | one more iteration of the loop adds the next performance's credits, and the total fails exactly when the total so far or that lookup fails |
| `Aggregation.TotalAmountAppend` | src/main/java/theater/StatementPrinter.java:93-100 | the total over two sequences of performances laid end to end succeeds exactly when both do, and is their sum |
| `Aggregation.TotalVolumeCreditsAppend` | src/main/java/theater/StatementPrinter.java:107-114 | the credit total over two sequences laid end to end succeeds exactly when both do, and is their sum |
| `Aggregation.TotalAmountOrderFree` | src/main/java/theater/StatementPrinter.java:93-100 | reordering the performances changes neither whether the total succeeds nor its value |
| `Aggregation.TotalVolumeCreditsOrderFree` | src/main/java/theater/StatementPrinter.java:107-114 | reordering the performances changes neither whether the credit total succeeds nor its value |
| `Printer.Terminated` | src/main/java/theater/StatementPrinter.java:125-148 | every line is followed by the line separator: an empty list gives empty text, any other text ends with the separator |
| `Printer.TerminatedSnoc` | src/main/java/theater/StatementPrinter.java:133-147 | appending a line to the builder appends the line and then the separator |
| `Printer.HeaderLine` | src/main/java/theater/StatementPrinter.java:126 | the header is "Statement for " followed by exactly the customer's name |
| `Printer.PerformanceLine` | src/main/java/theater/StatementPrinter.java:133-138 | a performance line starts with two spaces, the play's name, ": ", the rendered amount and " (", and ends with " seats)" |
| `Printer.LineFor` | src/main/java/theater/StatementPrinter.java:130-138 | the line of a priceable performance is built from its looked-up play's name, that play's `Amount` and the audience |
| `Printer.AmountOwedLine` | src/main/java/theater/StatementPrinter.java:141-144 | "Amount owed is " followed by exactly the rendered total |
| `Printer.CreditsLine` | src/main/java/theater/StatementPrinter.java:145-148 | "You earned ", exactly the decimal credit count, then " credits" |
| `Printer.PerformanceLines` | src/main/java/theater/StatementPrinter.java:129-139 | one performance line per performance |
| `Printer.PerformanceLineAt` | src/main/java/theater/StatementPrinter.java:129-139 | line k of the performance lines is the line of performance k, so lines follow invoice order |
| `Printer.StatementLines` | src/main/java/theater/StatementPrinter.java:125-148 | for a priceable invoice: (number of performances) + 3 lines, the header first, the amount-owed line built from the succeeding total amount, the credits line built from the succeeding total credits last |
| `Printer.StatementOf` | src/main/java/theater/StatementPrinter.java:122-151 | the statement succeeds exactly when every performance can be priced; it then is the statement lines each followed by the separator, and otherwise the failure of the total amount |
| `Printer.TextSnocLine` | src/main/java/theater/StatementPrinter.java:129-139 | one iteration of the line loop extends the text by the next performance's line and a separator |
| `Printer.StatementTextSplit` | src/main/java/theater/StatementPrinter.java:141-150 | after the performance lines the text receives the amount-owed line and the credits line, each followed by the separator |
| `Printer.StatementLayout` | src/main/java/theater/StatementPrinter.java:122-151 | the statement has (number of performances) + 3 lines: "Statement for " + customer; per performance in order "  name: usd(amount) (audience seats)"; "Amount owed is " + usd(total amount); "You earned " + total credits + " credits" |
| `Printer.StatementAllOrNothing` | src/main/java/theater/StatementPrinter.java:122-124 | the statement fails, with no text, exactly when some performance cannot be priced, and then with the failure of the first such performance |
| `Printer.WorkedExampleTotals` | src/main/java/theater/StatementPrinter.java:93-114 | under the worked-example constants Hamlet (tragedy, 55 seats) costs 65000, As You Like It (comedy, 35 seats) 58000, the total is 123000 and the credits 37 |
| `Printer.WorkedExampleHamletLine` | src/main/java/theater/StatementPrinter.java:130-138 | under the worked-example constants Hamlet's line shows 65000 cents and 55 seats |
| `Printer.WorkedExampleComedyLine` | src/main/java/theater/StatementPrinter.java:130-138 | under the worked-example constants As You Like It's line shows 58000 cents and 35 seats |
| `Printer.WorkedExamplePerformanceLines` | src/main/java/theater/StatementPrinter.java:129-139 | the worked example has exactly those two performance lines, Hamlet's first |
| `Printer.WorkedExampleLines` | src/main/java/theater/StatementPrinter.java:122-151 | the worked example's statement lines are the BigCo header, the two performance lines, the amount owed 123000 and 37 credits |
| `Printer.WorkedExample` | src/main/java/theater/StatementPrinter.java:122-151 | the worked example's statement is exactly its five lines, each followed by the separator |
| `Printer.StatementPrinter.constructor` | src/main/java/theater/StatementPrinter.java:15-18 | the printer keeps the invoice and play map it is given (and the constants and format) |
| `Printer.StatementPrinter.GetTotalAmount` | src/main/java/theater/StatementPrinter.java:93-100 | the accumulating loop, with its exceptions, returns `TotalAmount` of the invoice |
| `Printer.StatementPrinter.GetTotalVolumeCredits` | src/main/java/theater/StatementPrinter.java:107-114 | the accumulating loop returns `TotalVolumeCredits` of the invoice |
| `Printer.StatementPrinter.Statement` | src/main/java/theater/StatementPrinter.java:122-151 | totals first, then the text built with appends, is `StatementOf` the invoice: the failure of the total amount, or the statement lines each followed by the separator |

## Left out

- `usd` (src/main/java/theater/StatementPrinter.java:83-86) formats `amount / CENTS_PER_DOLLAR` with Java's US-locale currency formatter. That is a library call on a value that may be fractional, so the model takes it as the `usd` field of `Format`. Whether `CENTS_PER_DOLLAR` is an integer (which would drop the cents) or a floating-point value is not part of this model.
- The `%s` rendering of audience and credits is the `decimal` field of `Format`. `System.lineSeparator()` and `%n` are the one `lineSeparator` field.
- Java's 32-bit `int` wrap-around is not modelled: amounts, credits and totals are unbounded integers, exact as long as the source's values fit in an `int`.
- The `Invoice`, `Performance`, `Play` and `Constants` classes are not part of this model. The first three are plain records. The constants are a parameter, because their values are not given.
- A `NullPointerException` from a null invoice, play map or field is not modelled. Only a missing play id (the `null` that `plays.get` returns) becomes a failure.
