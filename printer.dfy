/**
 * The printed statement: a header line, one line per performance in invoice order,
 * the amount owed and the credits earned, each line followed by the line separator.
 * Currency rendering, integer rendering and the platform line separator are
 * supplied from outside in a `Format`.
 */
module Printer {
  import opened Domain
  import opened Calculators
  import opened Aggregation

  /** The US-locale currency rendering of a cent amount, the decimal rendering of an integer, and the line separator. */
  datatype Format = Format(usd: int -> string, decimal: int -> string, lineSeparator: string)

  /** The text of `lines`, each line followed by `sep`. */
  function Terminated(lines: seq<string>, sep: string): (text: string)
    ensures lines == [] ==> text == ""
    ensures lines != [] ==> |text| >= |sep| && text[|text| - |sep|..] == sep
  {
    if lines == [] then ""
    else Terminated(lines[..|lines| - 1], sep) + lines[|lines| - 1] + sep
  }

  /** "Statement for " followed by the customer's name. */
  function HeaderLine(customer: string): (text: string)
    ensures |text| == 14 + |customer|
    ensures text[..14] == "Statement for " && text[14..] == customer
  {
    "Statement for " + customer
  }

  /** An indented line: the play's name, the rendered amount, and the seat count in parentheses. */
  function PerformanceLine(format: Format, playName: string, amount: int, audience: int): (text: string)
    ensures "  " + playName + ": " + format.usd(amount) + " (" <= text
    ensures |text| >= 7 && text[|text| - 7..] == " seats)"
  {
    "  " + playName + ": " + format.usd(amount) + " (" + format.decimal(audience) + " seats)"
  }

  /** "Amount owed is " followed by the rendered total. */
  function AmountOwedLine(format: Format, totalAmount: int): (text: string)
    ensures |text| == 15 + |format.usd(totalAmount)|
    ensures text[..15] == "Amount owed is " && text[15..] == format.usd(totalAmount)
  {
    "Amount owed is " + format.usd(totalAmount)
  }

  /** "You earned ", the credit count in decimal, then " credits". */
  function CreditsLine(format: Format, volumeCredits: int): (text: string)
    ensures |text| == 11 + |format.decimal(volumeCredits)| + 8
    ensures text[..11] == "You earned "
    ensures text[11..|text| - 8] == format.decimal(volumeCredits)
    ensures text[|text| - 8..] == " credits"
  {
    "You earned " + format.decimal(volumeCredits) + " credits"
  }

  /** The statement line of one performance that can be priced: its play's name, its amount and its seats. */
  function LineFor(c: Pricing, format: Format, plays: map<string, Play>, performance: Performance): (text: string)
    requires AmountFor(c, plays, performance).Ok?
    ensures performance.playID in plays
    ensures var play := plays[performance.playID];
      text == PerformanceLine(format, play.name, Amount(c, performance, play).value, performance.audience)
  {
    PerformanceLine(format, plays[performance.playID].name, AmountFor(c, plays, performance).value, performance.audience)
  }

  /** The performance lines of `ps`, in order. */
  function PerformanceLines(c: Pricing, format: Format, plays: map<string, Play>, ps: seq<Performance>): (lines: seq<string>)
    requires AllPriceable(c, plays, ps)
    ensures |lines| == |ps|
    decreases |ps|
  {
    if ps == [] then []
    else
      var prefix := ps[..|ps| - 1];
      assert forall i :: 0 <= i < |prefix| ==> prefix[i] == ps[i];
      PerformanceLines(c, format, plays, prefix) + [LineFor(c, format, plays, ps[|ps| - 1])]
  }

  /** The lines of the statement of an invoice every performance of which can be priced. */
  function StatementLines(c: Pricing, format: Format, plays: map<string, Play>, invoice: Invoice): (lines: seq<string>)
    requires AllPriceable(c, plays, invoice.performances)
    ensures |lines| == |invoice.performances| + 3
    ensures lines[0] == HeaderLine(invoice.customer)
    ensures TotalAmount(c, plays, invoice.performances).Ok? && TotalVolumeCredits(c, plays, invoice.performances).Ok?
    ensures lines[|lines| - 2] == AmountOwedLine(format, TotalAmount(c, plays, invoice.performances).value)
    ensures lines[|lines| - 1] == CreditsLine(format, TotalVolumeCredits(c, plays, invoice.performances).value)
  {
    var ps := invoice.performances;
    CreditsDefinedWhenPriced(c, plays, ps);
    [HeaderLine(invoice.customer)]
      + PerformanceLines(c, format, plays, ps)
      + [AmountOwedLine(format, TotalAmount(c, plays, ps).value),
         CreditsLine(format, TotalVolumeCredits(c, plays, ps).value)]
  }

  /** The statement text, or the failure of the total amount: no text is produced when any line would fail. */
  function StatementOf(c: Pricing, format: Format, plays: map<string, Play>, invoice: Invoice): (r: Result<string>)
    ensures r.Ok? <==> AllPriceable(c, plays, invoice.performances)
    ensures r.Err? ==> r == Err(TotalAmount(c, plays, invoice.performances).error)
    ensures r.Ok? ==> r.value == Terminated(StatementLines(c, format, plays, invoice), format.lineSeparator)
  {
    match TotalAmount(c, plays, invoice.performances)
    case Err(e) => Err(e)
    case Ok(_) => Ok(Terminated(StatementLines(c, format, plays, invoice), format.lineSeparator))
  }

  /** Appending a line appends it and a separator to the text. */
  lemma TerminatedSnoc(lines: seq<string>, line: string, sep: string)
    ensures Terminated(lines + [line], sep) == Terminated(lines, sep) + line + sep
  {
  }

  /** Taking one more performance adds its line at the end. */
  lemma PerformanceLinesSnoc(c: Pricing, format: Format, plays: map<string, Play>, ps: seq<Performance>, i: nat)
    requires AllPriceable(c, plays, ps) && i < |ps|
    ensures AllPriceable(c, plays, ps[..i]) && AllPriceable(c, plays, ps[..i + 1])
    ensures PerformanceLines(c, format, plays, ps[..i + 1])
            == PerformanceLines(c, format, plays, ps[..i]) + [LineFor(c, format, plays, ps[i])]
  {
    assert ps[..i + 1][..i] == ps[..i];
    assert forall k :: 0 <= k < i + 1 ==> ps[..i + 1][k] == ps[k];
  }

  /** The text up to performance `i + 1` is the text up to performance `i` followed by its line and a separator. */
  lemma TextSnocLine(c: Pricing, format: Format, plays: map<string, Play>, header: string, ps: seq<Performance>, i: nat)
    requires AllPriceable(c, plays, ps) && i < |ps|
    ensures AllPriceable(c, plays, ps[..i]) && AllPriceable(c, plays, ps[..i + 1])
    ensures Terminated([header] + PerformanceLines(c, format, plays, ps[..i + 1]), format.lineSeparator)
         == Terminated([header] + PerformanceLines(c, format, plays, ps[..i]), format.lineSeparator)
            + LineFor(c, format, plays, ps[i]) + format.lineSeparator
  {
    PerformanceLinesSnoc(c, format, plays, ps, i);
    var done := [header] + PerformanceLines(c, format, plays, ps[..i]);
    TerminatedSnoc(done, LineFor(c, format, plays, ps[i]), format.lineSeparator);
    assert done + [LineFor(c, format, plays, ps[i])] == [header] + PerformanceLines(c, format, plays, ps[..i + 1]);
  }

  /** The statement text is the header and performance lines, then the amount-owed and credits lines, each terminated. */
  lemma StatementTextSplit(c: Pricing, format: Format, plays: map<string, Play>, invoice: Invoice)
    requires AllPriceable(c, plays, invoice.performances)
    ensures TotalAmount(c, plays, invoice.performances).Ok? && TotalVolumeCredits(c, plays, invoice.performances).Ok?
    ensures Terminated(StatementLines(c, format, plays, invoice), format.lineSeparator)
         == Terminated([HeaderLine(invoice.customer)] + PerformanceLines(c, format, plays, invoice.performances), format.lineSeparator)
            + AmountOwedLine(format, TotalAmount(c, plays, invoice.performances).value) + format.lineSeparator
            + CreditsLine(format, TotalVolumeCredits(c, plays, invoice.performances).value) + format.lineSeparator
  {
    var ps, sep := invoice.performances, format.lineSeparator;
    var body := [HeaderLine(invoice.customer)] + PerformanceLines(c, format, plays, ps);
    var owed := AmountOwedLine(format, TotalAmount(c, plays, ps).value);
    var earned := CreditsLine(format, TotalVolumeCredits(c, plays, ps).value);
    TerminatedSnoc(body, owed, sep);
    TerminatedSnoc(body + [owed], earned, sep);
    assert StatementLines(c, format, plays, invoice) == body + [owed] + [earned];
  }

  /** Line `k` of the performance lines belongs to performance `k`. */
  lemma {:induction false} PerformanceLineAt(c: Pricing, format: Format, plays: map<string, Play>, ps: seq<Performance>, k: nat)
    requires AllPriceable(c, plays, ps) && k < |ps|
    ensures PerformanceLines(c, format, plays, ps)[k] == LineFor(c, format, plays, ps[k])
    decreases |ps|
  {
    var prefix := ps[..|ps| - 1];
    assert forall i :: 0 <= i < |prefix| ==> prefix[i] == ps[i];
    if k < |ps| - 1 {
      PerformanceLineAt(c, format, plays, prefix, k);
    }
  }

  /**
   * The statement has |performances| + 3 lines: the header, one line per performance
   * in invoice order giving its play's name, amount and seats, the amount owed
   * (the total amount) and the credits earned (the total credits).
   */
  lemma StatementLayout(c: Pricing, format: Format, plays: map<string, Play>, invoice: Invoice)
    requires AllPriceable(c, plays, invoice.performances)
    ensures var lines, ps := StatementLines(c, format, plays, invoice), invoice.performances;
      && |lines| == |ps| + 3
      && lines[0] == "Statement for " + invoice.customer
      && (forall k :: 0 <= k < |ps| ==>
            lines[k + 1] == "  " + plays[ps[k].playID].name + ": "
                            + format.usd(Amount(c, ps[k], plays[ps[k].playID]).value)
                            + " (" + format.decimal(ps[k].audience) + " seats)")
      && TotalAmount(c, plays, ps).Ok? && TotalVolumeCredits(c, plays, ps).Ok?
      && lines[|ps| + 1] == "Amount owed is " + format.usd(TotalAmount(c, plays, ps).value)
      && lines[|ps| + 2] == "You earned " + format.decimal(TotalVolumeCredits(c, plays, ps).value) + " credits"
  {
    var ps := invoice.performances;
    CreditsDefinedWhenPriced(c, plays, ps);
    forall k | 0 <= k < |ps|
      ensures StatementLines(c, format, plays, invoice)[k + 1] == LineFor(c, format, plays, ps[k])
    {
      PerformanceLineAt(c, format, plays, ps, k);
    }
  }

  /**
   * The statement fails exactly when some performance cannot be priced, and then
   * with the failure of the first such performance in invoice order.
   */
  lemma StatementAllOrNothing(c: Pricing, format: Format, plays: map<string, Play>, invoice: Invoice)
    ensures var ps := invoice.performances;
      StatementOf(c, format, plays, invoice).Err? <==> exists k :: 0 <= k < |ps| && AmountFor(c, plays, ps[k]).Err?
    ensures var ps, r := invoice.performances, StatementOf(c, format, plays, invoice);
      r.Err? ==> exists k :: 0 <= k < |ps| && AllPriceable(c, plays, ps[..k]) && AmountFor(c, plays, ps[k]) == Err(r.error)
  {
    if TotalAmount(c, plays, invoice.performances).Err? {
      TotalAmountFirstFailure(c, plays, invoice.performances);
    }
  }

  /** The worked example: BigCo saw Hamlet with 55 seats and As You Like It with 35. */
  const ExamplePlays: map<string, Play> :=
    map["hamlet" := Play("Hamlet", "tragedy"), "as-like" := Play("As You Like It", "comedy")]
  const ExampleInvoice: Invoice := Invoice("BigCo", [Performance("hamlet", 55), Performance("as-like", 35)])

  /** Hamlet costs $650, As You Like It $580, $1,230 in all, and 25 + 12 = 37 credits are earned. */
  lemma WorkedExampleTotals()
    ensures var c, ps := WorkedExamplePricing, ExampleInvoice.performances;
      && AmountFor(c, ExamplePlays, ps[0]) == Ok(65000)
      && AmountFor(c, ExamplePlays, ps[1]) == Ok(58000)
      && TotalAmount(c, ExamplePlays, ps) == Ok(123000)
      && TotalVolumeCredits(c, ExamplePlays, ps) == Ok(37)
  {
  }

  /** Hamlet's line: $650.00 for 55 seats. */
  lemma WorkedExampleHamletLine(format: Format)
    ensures AmountFor(WorkedExamplePricing, ExamplePlays, ExampleInvoice.performances[0]).Ok?
    ensures LineFor(WorkedExamplePricing, format, ExamplePlays, ExampleInvoice.performances[0])
         == PerformanceLine(format, "Hamlet", 65000, 55)
  {
    var performance, play := ExampleInvoice.performances[0], ExamplePlays["hamlet"];
    assert performance == Performance("hamlet", 55) && play == Play("Hamlet", "tragedy");
    assert Amount(WorkedExamplePricing, performance, play) == Ok(40000 + 1000 * 25);
  }

  /** As You Like It's line: $580.00 for 35 seats. */
  lemma WorkedExampleComedyLine(format: Format)
    ensures AmountFor(WorkedExamplePricing, ExamplePlays, ExampleInvoice.performances[1]).Ok?
    ensures LineFor(WorkedExamplePricing, format, ExamplePlays, ExampleInvoice.performances[1])
         == PerformanceLine(format, "As You Like It", 58000, 35)
  {
    var performance, play := ExampleInvoice.performances[1], ExamplePlays["as-like"];
    assert performance == Performance("as-like", 35) && play == Play("As You Like It", "comedy");
    assert Amount(WorkedExamplePricing, performance, play) == Ok(30000 + (10000 + 500 * 15) + 300 * 35);
  }

  /** The worked example's two performance lines. */
  lemma WorkedExamplePerformanceLines(format: Format)
    ensures AllPriceable(WorkedExamplePricing, ExamplePlays, ExampleInvoice.performances)
    ensures PerformanceLines(WorkedExamplePricing, format, ExamplePlays, ExampleInvoice.performances)
         == [PerformanceLine(format, "Hamlet", 65000, 55),
             PerformanceLine(format, "As You Like It", 58000, 35)]
  {
    var c, ps := WorkedExamplePricing, ExampleInvoice.performances;
    WorkedExampleTotals();
    WorkedExampleHamletLine(format);
    WorkedExampleComedyLine(format);
    PerformanceLineAt(c, format, ExamplePlays, ps, 0);
    PerformanceLineAt(c, format, ExamplePlays, ps, 1);
  }

  /** The worked example's five statement lines. */
  lemma WorkedExampleLines(format: Format)
    ensures AllPriceable(WorkedExamplePricing, ExamplePlays, ExampleInvoice.performances)
    ensures StatementLines(WorkedExamplePricing, format, ExamplePlays, ExampleInvoice)
         == [HeaderLine("BigCo"),
             PerformanceLine(format, "Hamlet", 65000, 55),
             PerformanceLine(format, "As You Like It", 58000, 35),
             AmountOwedLine(format, 123000),
             CreditsLine(format, 37)]
  {
    WorkedExampleTotals();
    WorkedExamplePerformanceLines(format);
  }

  /** The worked example's statement: its five lines, each followed by the separator. */
  lemma WorkedExample(format: Format)
    ensures StatementOf(WorkedExamplePricing, format, ExamplePlays, ExampleInvoice)
         == Ok(Terminated([HeaderLine("BigCo"),
                           PerformanceLine(format, "Hamlet", 65000, 55),
                           PerformanceLine(format, "As You Like It", 58000, 35),
                           AmountOwedLine(format, 123000),
                           CreditsLine(format, 37)],
                          format.lineSeparator))
  {
    WorkedExampleLines(format);
  }

  /** Prints the statement of one invoice against one play map. */
  class StatementPrinter {
    const invoice: Invoice
    const plays: map<string, Play>
    const pricing: Pricing
    const format: Format

    constructor (invoice: Invoice, plays: map<string, Play>, pricing: Pricing, format: Format)
      ensures this.invoice == invoice && this.plays == plays
      ensures this.pricing == pricing && this.format == format
    {
      this.invoice := invoice;
      this.plays := plays;
      this.pricing := pricing;
      this.format := format;
    }

    /** The amounts of the invoice's performances summed in order; the first failing one ends the loop. */
    method GetTotalAmount() returns (r: Result<int>)
      ensures r == TotalAmount(pricing, plays, invoice.performances)
    {
      var performances := invoice.performances;
      var totalAmount := 0;
      for i := 0 to |performances|
        invariant TotalAmount(pricing, plays, performances[..i]) == Ok(totalAmount)
      {
        var performance := performances[i];
        assert performances[..i + 1][..i] == performances[..i];
        if performance.playID !in plays {
          TotalAmountKeepsFailure(pricing, plays, performances, i + 1);
          return Err(MissingPlay(performance.playID));
        }
        var play := plays[performance.playID];
        var amount := Amount(pricing, performance, play);
        if amount.Err? {
          TotalAmountKeepsFailure(pricing, plays, performances, i + 1);
          return Err(amount.error);
        }
        totalAmount := totalAmount + amount.value;
      }
      assert performances[..|performances|] == performances;
      return Ok(totalAmount);
    }

    /** The credits of the invoice's performances summed in order; a missing play ends the loop. */
    method GetTotalVolumeCredits() returns (r: Result<int>)
      ensures r == TotalVolumeCredits(pricing, plays, invoice.performances)
    {
      var performances := invoice.performances;
      var volumeCredits := 0;
      for i := 0 to |performances|
        invariant TotalVolumeCredits(pricing, plays, performances[..i]) == Ok(volumeCredits)
      {
        var performance := performances[i];
        assert performances[..i + 1][..i] == performances[..i];
        if performance.playID !in plays {
          TotalVolumeCreditsKeepsFailure(pricing, plays, performances, i + 1);
          return Err(MissingPlay(performance.playID));
        }
        var play := plays[performance.playID];
        volumeCredits := volumeCredits + VolumeCredits(pricing, performance, play);
      }
      assert performances[..|performances|] == performances;
      return Ok(volumeCredits);
    }

    /** Both totals first, then the text line by line. */
    method Statement() returns (r: Result<string>)
      ensures r == StatementOf(pricing, format, plays, invoice)
    {
      var total := GetTotalAmount();
      if total.Err? {
        return Err(total.error);
      }
      var totalAmount := total.value;
      var performances := invoice.performances;
      CreditsDefinedWhenPriced(pricing, plays, performances);
      var credits := GetTotalVolumeCredits();
      var volumeCredits := credits.value;

      var sep := format.lineSeparator;
      var header := HeaderLine(invoice.customer);
      var result := header + sep;
      TerminatedSnoc([], header, sep);
      assert [] + [header] == [header] + PerformanceLines(pricing, format, plays, performances[..0]);
      for i := 0 to |performances|
        invariant AllPriceable(pricing, plays, performances[..i])
        invariant result == Terminated([header] + PerformanceLines(pricing, format, plays, performances[..i]), sep)
      {
        var p := performances[i];
        assert AmountFor(pricing, plays, p).Ok?;
        var play := plays[p.playID];
        var thisAmount := Amount(pricing, p, play).value;
        var line := PerformanceLine(format, play.name, thisAmount, p.audience);
        assert line == LineFor(pricing, format, plays, p);
        TextSnocLine(pricing, format, plays, header, performances, i);
        result := result + line + sep;
      }
      assert performances[..|performances|] == performances;
      var owed := AmountOwedLine(format, totalAmount);
      var earned := CreditsLine(format, volumeCredits);
      result := result + owed + sep;
      result := result + earned + sep;
      StatementTextSplit(pricing, format, plays, invoice);
      return Ok(result);
    }
  }
}
