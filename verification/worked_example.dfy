/** The BigCo example invoice (Hamlet with 55 seats, As You Like It with 35,
    Othello with 40), evaluated by the model. The constants' values are not
    part of the printer; `BigCoConstants` picks values under which the
    example's statement ($650, $580, $500, $1,730 owed, 47 credits) comes
    out. */
module WorkedExample {
  import opened Wrappers
  import opened Theater
  import opened Pricing
  import opened StatementPrinter
  import opened Folds

  const BigCoConstants := Constants(
    TRAGEDY_AUDIENCE_THRESHOLD := 30,
    COMEDY_BASE_AMOUNT := 30000,
    COMEDY_AUDIENCE_THRESHOLD := 20,
    COMEDY_OVER_BASE_CAPACITY_AMOUNT := 10000,
    COMEDY_OVER_BASE_CAPACITY_PER_PERSON := 500,
    COMEDY_AMOUNT_PER_AUDIENCE := 300,
    BASE_VOLUME_CREDIT_THRESHOLD := 30,
    COMEDY_EXTRA_VOLUME_FACTOR := 5)

  const BigCoPlays: Catalog := map[
    "hamlet" := Play("Hamlet", "tragedy"),
    "as-like" := Play("As You Like It", "comedy"),
    "othello" := Play("Othello", "tragedy")]

  const BigCo := Invoice("BigCo", [
    Performance("hamlet", 55),
    Performance("as-like", 35),
    Performance("othello", 40)])

  /** Hamlet $650, As You Like It $580, Othello $500; $1,730 owed and 47
      credits. */
  lemma BigCoStatement()
    ensures StatementOf(BigCoConstants, BigCoPlays, BigCo)
         == Success(Statement("BigCo",
                              [Line("Hamlet", 650, 55), Line("As You Like It", 580, 35), Line("Othello", 500, 40)],
                              1730, 47))
  {
    var perfs := BigCo.performances;
    assert Amount(BigCoConstants, BigCoPlays, perfs[0]) == Success(65000);
    assert Amount(BigCoConstants, BigCoPlays, perfs[1]) == Success(58000);
    assert Amount(BigCoConstants, BigCoPlays, perfs[2]) == Success(50000);
    assert Prices(BigCoConstants, BigCoPlays, perfs) == [65000, 58000, 50000];
    assert CreditValues(BigCoConstants, BigCoPlays, perfs) == [25, 12, 10];
    assert Sum([65000, 58000, 50000]) == 173000 by { SumOfThree(65000, 58000, 50000); }
    assert Sum([25, 12, 10]) == 47 by { SumOfThree(25, 12, 10); }
    assert Dollars(65000) == 650 && Dollars(58000) == 580 && Dollars(50000) == 500 && Dollars(173000) == 1730;
    var r := StatementOf(BigCoConstants, BigCoPlays, BigCo);
    assert r.Success?;
    assert r.value.lines == [Line("Hamlet", 650, 55), Line("As You Like It", 580, 35), Line("Othello", 500, 40)];
  }

  /** With a comedy base amount of 20000 the same invoice owes $1,630: the
      example's $580 comedy line and $1,730 total need 30000. */
  lemma BigCoWithLowerComedyBase()
    ensures StatementOf(BigCoConstants.(COMEDY_BASE_AMOUNT := 20000), BigCoPlays, BigCo).value.amountOwed == 1630
  {
    var k := BigCoConstants.(COMEDY_BASE_AMOUNT := 20000);
    var perfs := BigCo.performances;
    assert Amount(k, BigCoPlays, perfs[0]) == Success(65000);
    assert Amount(k, BigCoPlays, perfs[1]) == Success(48000);
    assert Amount(k, BigCoPlays, perfs[2]) == Success(50000);
    assert Prices(k, BigCoPlays, perfs) == [65000, 48000, 50000];
    assert Sum([65000, 48000, 50000]) == 163000 by { SumOfThree(65000, 48000, 50000); }
    assert Dollars(163000) == 1630;
  }

  /** An opera in the catalog aborts the statement with an error naming the
      type. */
  lemma OperaFails()
    ensures StatementOf(BigCoConstants, BigCoPlays["aida" := Play("Aida", "opera")],
                        BigCo.(performances := BigCo.performances + [Performance("aida", 10)]))
         == Failure(UnknownType("opera"))
  {
    var plays := BigCoPlays["aida" := Play("Aida", "opera")];
    var inv := BigCo.(performances := BigCo.performances + [Performance("aida", 10)]);
    assert inv.performances[..3] == BigCo.performances;
    UnknownTypeFailsStatement(BigCoConstants, plays, inv, 3);
  }

  /** A performance of a play missing from the catalog aborts the statement. */
  lemma MissingPlayFails()
    ensures StatementOf(BigCoConstants, BigCoPlays, Invoice("BigCo", [Performance("lear", 10)]))
         == Failure(PlayNotFound("lear"))
  {
    var inv := Invoice("BigCo", [Performance("lear", 10)]);
    StatementFailsAtFirstUnpriced(BigCoConstants, BigCoPlays, inv, 0);
  }

  lemma SumOfThree(a: int, b: int, c: int)
    ensures Sum([a, b, c]) == a + b + c
  {
    assert [a, b, c][1..] == [b, c];
    assert [b, c][1..] == [c];
    assert [c][1..] == [];
    assert Sum([c]) == c;
    assert Sum([b, c]) == b + c;
  }
}
