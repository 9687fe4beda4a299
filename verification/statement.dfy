/** `statement()`: the header, one line per performance in invoice order, the
    amount owed and the credits earned. The line text itself (currency
    rendering, `String.format`, line separators) is not modelled; a line is
    the record of the values handed to the formatter. */
module StatementPrinter {
  import opened Wrappers
  import opened JavaInt
  import opened Theater
  import opened Pricing
  import opened Folds

  /** What one performance line shows: the play's name, its price as the
      whole dollars handed to the currency formatter, and the seat count. */
  datatype Line = Line(playName: string, dollars: int, seats: int)

  /** What the statement shows: the customer of the header line, the
      performance lines, the whole dollars of the amount-owed line and the
      credits of the last line. */
  datatype Statement = Statement(customer: string, lines: seq<Line>, amountOwed: int, credits: int)

  /** Cents to the value the formatter receives: Java's `amount / 100`,
      which drops the cents (toward zero for a negative amount). */
  function Dollars(cents: int): (r: int)
    ensures 0 <= cents ==> r == cents / 100
    ensures 0 <= cents ==> 0 <= cents - 100 * r < 100
    ensures cents <= 0 ==> -100 < cents - 100 * r <= 0
  {
    if 0 <= cents then DivAgreesOnNaturals(cents, 100); Div(cents, 100)
    else Div(cents, 100)
  }

  /** One iteration of the first loop: price the performance, then read the
      play's name (the catalog lookup cannot fail once pricing succeeded). */
  function PrintedLine(k: Constants, plays: Catalog, p: Performance): (r: Result<Line, StatementError>)
    ensures r.Success? <==> Amount(k, plays, p).Success?
    ensures r.Failure? ==> r.error == Amount(k, plays, p).error
    ensures r.Success? ==> p.playID in plays
    ensures r.Success? ==> r.value == Line(plays[p.playID].name, Dollars(Amount(k, plays, p).value), p.audience)
  {
    var amount :- Amount(k, plays, p);
    Success(Line(plays[p.playID].name, Dollars(amount), p.audience))
  }

  function LineOf(k: Constants, plays: Catalog): Performance -> Result<Line, StatementError> {
    p => PrintedLine(k, plays, p)
  }

  function AmountOf(k: Constants, plays: Catalog): Performance -> Result<int, StatementError> {
    p => Amount(k, plays, p)
  }

  function CreditsOf(k: Constants, plays: Catalog): Performance -> Result<int, StatementError> {
    p => Credits(k, plays, p)
  }

  /** Every performance of `perfs` can be priced. */
  ghost predicate AllPriced(k: Constants, plays: Catalog, perfs: seq<Performance>) {
    forall i :: 0 <= i < |perfs| ==> Amount(k, plays, perfs[i]).Success?
  }

  /** The price of each performance, in invoice order. */
  ghost function Prices(k: Constants, plays: Catalog, perfs: seq<Performance>): seq<int>
    requires AllPriced(k, plays, perfs)
  {
    seq(|perfs|, i requires 0 <= i < |perfs| => Amount(k, plays, perfs[i]).value)
  }

  /** The credits of each performance, in invoice order. */
  ghost function CreditValues(k: Constants, plays: Catalog, perfs: seq<Performance>): seq<int>
    requires AllPriced(k, plays, perfs)
  {
    seq(|perfs|, i requires 0 <= i < |perfs| => CreditsFor(k, plays[perfs[i].playID].playType, perfs[i].audience))
  }

  /** The statement, computed as the source does: a first loop that prices
      and prints every performance, a second that totals the prices, a third
      that totals the credits. Only the first loop can fail: once it is
      through, `TotalsAreSums` shows the other two succeed. It fails
      exactly when some performance cannot be priced; otherwise it shows
      the customer, one line per performance in order, the dollars of the
      exact sum of the prices and the sum of the credits. */
  function StatementOf(k: Constants, plays: Catalog, inv: Invoice): (r: Result<Statement, StatementError>)
    ensures r.Success? <==> AllPriced(k, plays, inv.performances)
    ensures r.Success? ==> r.value.customer == inv.customer
    ensures r.Success? ==> |r.value.lines| == |inv.performances|
    ensures r.Success? ==> forall i :: 0 <= i < |inv.performances| ==>
              && inv.performances[i].playID in plays
              && r.value.lines[i] == Line(plays[inv.performances[i].playID].name,
                                          Dollars(Amount(k, plays, inv.performances[i]).value),
                                          inv.performances[i].audience)
    ensures r.Success? ==> r.value.amountOwed == Dollars(Sum(Prices(k, plays, inv.performances)))
    ensures r.Success? ==> r.value.credits == Sum(CreditValues(k, plays, inv.performances))
  {
    var perfs := inv.performances;
    var lines :- MapAll(perfs, LineOf(k, plays));
    TotalsAreSums(k, plays, perfs);
    var total := SumOf(perfs, AmountOf(k, plays)).value;
    var credits := SumOf(perfs, CreditsOf(k, plays)).value;
    Success(Statement(inv.customer, lines, Dollars(total), credits))
  }

  /** Once every line has been printed, both totals succeed and are the plain
      sums of the per-performance prices and credits. */
  lemma TotalsAreSums(k: Constants, plays: Catalog, perfs: seq<Performance>)
    requires AllSucceed(perfs, LineOf(k, plays))
    ensures AllPriced(k, plays, perfs)
    ensures SumOf(perfs, AmountOf(k, plays)) == Success(Sum(Prices(k, plays, perfs)))
    ensures SumOf(perfs, CreditsOf(k, plays)) == Success(Sum(CreditValues(k, plays, perfs)))
  {
    assert AllSucceed(perfs, AmountOf(k, plays));
    assert AllSucceed(perfs, CreditsOf(k, plays)) by {
      forall i | 0 <= i < |perfs| {
        PricedImpliesCredited(k, plays, perfs[i]);
      }
    }
    SumOfIsSumOfValues(perfs, AmountOf(k, plays));
    SumOfIsSumOfValues(perfs, CreditsOf(k, plays));
    assert MapAll(perfs, AmountOf(k, plays)).value == Prices(k, plays, perfs);
    assert MapAll(perfs, CreditsOf(k, plays)).value == CreditValues(k, plays, perfs);
  }

  /** The statement fails with the error of the first performance that
      cannot be priced: an unknown play type, or a play missing from the
      catalog. No partial statement is produced. */
  lemma StatementFailsAtFirstUnpriced(k: Constants, plays: Catalog, inv: Invoice, i: int)
    requires FirstFailureAt(inv.performances, AmountOf(k, plays), i)
    ensures StatementOf(k, plays, inv) == Failure(Amount(k, plays, inv.performances[i]).error)
  {
    assert FirstFailureAt(inv.performances, LineOf(k, plays), i);
    MapAllFirstFailure(inv.performances, LineOf(k, plays), i);
  }

  /** A performance whose play has a type other than the two known ones
      makes the whole statement fail with an error naming that type, unless
      an earlier performance already failed. */
  lemma UnknownTypeFailsStatement(k: Constants, plays: Catalog, inv: Invoice, i: int)
    requires 0 <= i < |inv.performances|
    requires AllPriced(k, plays, inv.performances[..i])
    requires inv.performances[i].playID in plays
    requires Genre(plays[inv.performances[i].playID].playType).Other?
    ensures StatementOf(k, plays, inv) == Failure(UnknownType(plays[inv.performances[i].playID].playType))
  {
    assert forall j :: 0 <= j < i ==> inv.performances[..i][j] == inv.performances[j];
    StatementFailsAtFirstUnpriced(k, plays, inv, i);
  }

  /** Reordering the performances changes neither whether the statement
      succeeds nor the amount owed and the credits it shows. */
  lemma StatementTotalsIgnoreOrder(k: Constants, plays: Catalog, inv: Invoice, reordered: seq<Performance>)
    requires multiset(inv.performances) == multiset(reordered)
    ensures StatementOf(k, plays, inv).Success? <==> StatementOf(k, plays, inv.(performances := reordered)).Success?
    ensures StatementOf(k, plays, inv).Success? ==>
              && StatementOf(k, plays, inv).value.amountOwed == StatementOf(k, plays, inv.(performances := reordered)).value.amountOwed
              && StatementOf(k, plays, inv).value.credits == StatementOf(k, plays, inv.(performances := reordered)).value.credits
  {
    var perfs := inv.performances;
    SumOfPermutation(perfs, reordered, AmountOf(k, plays));
    SumOfPermutation(perfs, reordered, CreditsOf(k, plays));
    if StatementOf(k, plays, inv).Success? {
      TotalsAreSums(k, plays, perfs);
      assert AllPriced(k, plays, reordered);
      assert AllSucceed(reordered, LineOf(k, plays));
      TotalsAreSums(k, plays, reordered);
    }
  }

  /** The three loops fused into one pass: each performance is priced,
      printed, totalled and credited in the same iteration. The result is
      the same statement, or the same error. */
  method StatementOnePass(k: Constants, plays: Catalog, inv: Invoice) returns (r: Result<Statement, StatementError>)
    ensures r == StatementOf(k, plays, inv)
  {
    var perfs := inv.performances;
    var lines: seq<Line> := [];
    var total := 0;
    var credits := 0;
    for i := 0 to |perfs|
      invariant MapAll(perfs[..i], LineOf(k, plays)) == Success(lines)
      invariant SumOf(perfs[..i], AmountOf(k, plays)) == Success(total)
      invariant SumOf(perfs[..i], CreditsOf(k, plays)) == Success(credits)
    {
      var p := perfs[i];
      match Amount(k, plays, p)
      case Failure(e) =>
        OnePassFailure(k, plays, perfs, i, lines);
        return Failure(e);
      case Success(amount) =>
        var play := plays[p.playID];
        OnePassStep(k, plays, perfs, i);
        lines := lines + [Line(play.name, Dollars(amount), p.audience)];
        total := total + amount;
        credits := credits + CreditsFor(k, play.playType, p.audience);
    }
    assert perfs[..|perfs|] == perfs;
    r := Success(Statement(inv.customer, lines, Dollars(total), credits));
  }

  /** One successful iteration of the fused loop extends each of the three
      passes by the performance's line, price and credits. */
  lemma OnePassStep(k: Constants, plays: Catalog, perfs: seq<Performance>, i: int)
    requires 0 <= i < |perfs| && Amount(k, plays, perfs[i]).Success?
    ensures perfs[i].playID in plays
    ensures MapAll(perfs[..i + 1], LineOf(k, plays))
         == (var init :- MapAll(perfs[..i], LineOf(k, plays));
             Success(init + [Line(plays[perfs[i].playID].name, Dollars(Amount(k, plays, perfs[i]).value), perfs[i].audience)]))
    ensures SumOf(perfs[..i + 1], AmountOf(k, plays))
         == (var init :- SumOf(perfs[..i], AmountOf(k, plays));
             Success(init + Amount(k, plays, perfs[i]).value))
    ensures SumOf(perfs[..i + 1], CreditsOf(k, plays))
         == (var init :- SumOf(perfs[..i], CreditsOf(k, plays));
             Success(init + CreditsFor(k, plays[perfs[i].playID].playType, perfs[i].audience)))
  {
    assert perfs[..i + 1][..i] == perfs[..i];
  }

  /** A failing iteration of the fused loop, after `i` successful ones, is
      the first failure of the statement's first pass. */
  lemma OnePassFailure(k: Constants, plays: Catalog, perfs: seq<Performance>, i: int, lines: seq<Line>)
    requires 0 <= i < |perfs| && Amount(k, plays, perfs[i]).Failure?
    requires MapAll(perfs[..i], LineOf(k, plays)) == Success(lines)
    ensures MapAll(perfs, LineOf(k, plays)) == Failure(Amount(k, plays, perfs[i]).error)
  {
    assert forall j :: 0 <= j < i ==> perfs[..i][j] == perfs[j];
    assert FirstFailureAt(perfs, LineOf(k, plays), i);
    MapAllFirstFailure(perfs, LineOf(k, plays), i);
  }
}
