/** Per-performance rules of the statement printer: catalog lookup, the price
    of one performance in cents, and the volume credits it earns. */
module Pricing {
  import opened Wrappers
  import opened JavaInt
  import opened Theater

  /** `getPlay`: the catalog entry of the performance's play. A missing entry
      is the error the rest of the computation would run into. */
  function GetPlay(plays: Catalog, p: Performance): (r: Result<Play, StatementError>)
    ensures r.Success? <==> p.playID in plays
    ensures r.Success? ==> r.value == plays[p.playID]
    ensures r.Failure? ==> r.error == PlayNotFound(p.playID)
  {
    if p.playID in plays then Success(plays[p.playID]) else Failure(PlayNotFound(p.playID))
  }

  /** The pricing switch of `getThisAmount` for a play of type `tag`, in
      cents. */
  function PriceFor(k: Constants, tag: string, audience: int): (r: Result<int, StatementError>)
    ensures r.Failure? <==> tag != TragedyTag && tag != ComedyTag
    ensures r.Failure? ==> r.error == UnknownType(tag)
  {
    match Genre(tag)
    case Tragedy =>
      var overage := if audience > k.TRAGEDY_AUDIENCE_THRESHOLD
                     then TragedyAmountPerExtraSeat * (audience - TragedyOverageFrom)
                     else 0;
      Success(TragedyBaseAmount + overage)
    case Comedy =>
      var overCapacity := if audience > k.COMEDY_AUDIENCE_THRESHOLD
                          then k.COMEDY_OVER_BASE_CAPACITY_AMOUNT
                               + k.COMEDY_OVER_BASE_CAPACITY_PER_PERSON * (audience - k.COMEDY_AUDIENCE_THRESHOLD)
                          else 0;
      Success(k.COMEDY_BASE_AMOUNT + overCapacity + k.COMEDY_AMOUNT_PER_AUDIENCE * audience)
    case Other(_) =>
      Failure(UnknownType(tag))
  }

  /** `getThisAmount`: the price of one performance in cents. It fails when
      the play is missing from the catalog, and otherwise exactly when the
      play's type is neither of the two known tags, naming that type. */
  function Amount(k: Constants, plays: Catalog, p: Performance): (r: Result<int, StatementError>)
    ensures r.Failure? <==> p.playID !in plays || Genre(plays[p.playID].playType).Other?
    ensures p.playID !in plays ==> r == Failure(PlayNotFound(p.playID))
    ensures p.playID in plays && r.Failure? ==> r.error == UnknownType(plays[p.playID].playType)
    ensures p.playID in plays ==> r == PriceFor(k, plays[p.playID].playType, p.audience)
  {
    var play :- GetPlay(plays, p);
    PriceFor(k, play.playType, p.audience)
  }

  /** The credit rule of `getVolumeCredits` for a play of type `tag`. Unlike
      pricing it never fails: an unknown type simply earns no comedy bonus. */
  function CreditsFor(k: Constants, tag: string, audience: int): (r: int)
    ensures tag != ComedyTag ==> r == (if audience > k.BASE_VOLUME_CREDIT_THRESHOLD then audience - k.BASE_VOLUME_CREDIT_THRESHOLD else 0)
    ensures tag == ComedyTag ==>
              r - (if audience > k.BASE_VOLUME_CREDIT_THRESHOLD then audience - k.BASE_VOLUME_CREDIT_THRESHOLD else 0)
              == Div(audience, k.COMEDY_EXTRA_VOLUME_FACTOR)
  {
    Max(audience - k.BASE_VOLUME_CREDIT_THRESHOLD, 0)
      + (if ComedyTag == tag then Div(audience, k.COMEDY_EXTRA_VOLUME_FACTOR) else 0)
  }

  /** `getVolumeCredits`: the credits one performance earns. The only way it
      fails is a play missing from the catalog; an unknown type is no error. */
  function Credits(k: Constants, plays: Catalog, p: Performance): (r: Result<int, StatementError>)
    ensures r.Success? <==> p.playID in plays
    ensures r.Failure? ==> r.error == PlayNotFound(p.playID)
    ensures r.Success? ==> r.value == CreditsFor(k, plays[p.playID].playType, p.audience)
  {
    var play :- GetPlay(plays, p);
    Success(CreditsFor(k, play.playType, p.audience))
  }

  /** A tragedy with an audience up to `TRAGEDY_AUDIENCE_THRESHOLD` costs the
      flat 40000 cents. */
  lemma TragedyUpToThreshold(k: Constants, audience: int)
    requires audience <= k.TRAGEDY_AUDIENCE_THRESHOLD
    ensures PriceFor(k, TragedyTag, audience) == Success(40000)
  {
  }

  /** Above `TRAGEDY_AUDIENCE_THRESHOLD` a tragedy costs 1000 cents more for
      every attendee beyond 30, the literal the surcharge is counted from. */
  lemma TragedyOverThreshold(k: Constants, audience: int)
    requires audience > k.TRAGEDY_AUDIENCE_THRESHOLD
    ensures PriceFor(k, TragedyTag, audience) == Success(40000 + 1000 * (audience - 30))
  {
  }

  /** From 30 attendees on, a tragedy never costs less than 40000 cents,
      whatever `TRAGEDY_AUDIENCE_THRESHOLD` is. */
  lemma TragedyAtLeastBase(k: Constants, audience: int)
    requires audience >= 30
    ensures PriceFor(k, TragedyTag, audience).value >= 40000
  {
  }

  /** When `TRAGEDY_AUDIENCE_THRESHOLD` is 30 the guard and the literal agree
      and the price is the flat amount plus 1000 per attendee beyond 30. */
  lemma TragedyClosedForm(k: Constants, audience: int)
    requires k.TRAGEDY_AUDIENCE_THRESHOLD == 30
    ensures PriceFor(k, TragedyTag, audience) == Success(40000 + 1000 * Max(audience - 30, 0))
  {
  }

  /** The guard uses the named threshold but the surcharge counts from the
      literal 30: were the threshold below 30, an audience between the two
      would be charged less than the flat amount. */
  lemma TragedyLowThresholdUndercharges(k: Constants, audience: int)
    requires k.TRAGEDY_AUDIENCE_THRESHOLD < audience < 30
    ensures PriceFor(k, TragedyTag, audience).value < 40000
  {
  }

  /** Up to `COMEDY_AUDIENCE_THRESHOLD` a comedy costs its base amount plus
      the per-attendee amount for every attendee. */
  lemma ComedyUpToThreshold(k: Constants, audience: int)
    requires audience <= k.COMEDY_AUDIENCE_THRESHOLD
    ensures PriceFor(k, ComedyTag, audience)
         == Success(k.COMEDY_BASE_AMOUNT + k.COMEDY_AMOUNT_PER_AUDIENCE * audience)
  {
  }

  /** Above `COMEDY_AUDIENCE_THRESHOLD` a comedy additionally costs the fixed
      over-capacity amount and the per-person amount for every attendee
      beyond the threshold; the per-attendee amount still applies to the
      whole audience. */
  lemma ComedyOverThreshold(k: Constants, audience: int)
    requires audience > k.COMEDY_AUDIENCE_THRESHOLD
    ensures PriceFor(k, ComedyTag, audience)
         == Success(k.COMEDY_BASE_AMOUNT
                    + k.COMEDY_OVER_BASE_CAPACITY_AMOUNT
                    + k.COMEDY_OVER_BASE_CAPACITY_PER_PERSON * (audience - k.COMEDY_AUDIENCE_THRESHOLD)
                    + k.COMEDY_AMOUNT_PER_AUDIENCE * audience)
  {
  }

  /** Constants under which a larger audience never lowers a price. */
  predicate NonNegativeRates(k: Constants) {
    && k.TRAGEDY_AUDIENCE_THRESHOLD >= TragedyOverageFrom
    && k.COMEDY_OVER_BASE_CAPACITY_AMOUNT >= 0
    && k.COMEDY_OVER_BASE_CAPACITY_PER_PERSON >= 0
    && k.COMEDY_AMOUNT_PER_AUDIENCE >= 0
  }

  /** With non-negative rates (and a tragedy threshold no lower than 30) the
      price of a known genre never decreases as the audience grows. */
  lemma PriceMonotonic(k: Constants, tag: string, a: int, b: int)
    requires NonNegativeRates(k)
    requires a <= b
    requires tag == TragedyTag || tag == ComedyTag
    ensures PriceFor(k, tag, a).value <= PriceFor(k, tag, b).value
  {
    if tag == ComedyTag {
      var per := k.COMEDY_AMOUNT_PER_AUDIENCE;
      var pp := k.COMEDY_OVER_BASE_CAPACITY_PER_PERSON;
      var t := k.COMEDY_AUDIENCE_THRESHOLD;
      MulMonotonic(per, a, b);
      if a > t {
        MulMonotonic(pp, a - t, b - t);
      } else if b > t {
        MulMonotonic(pp, 0, b - t);
      }
    }
  }

  lemma MulMonotonic(c: int, x: int, y: int)
    requires 0 <= c && x <= y
    ensures c * x <= c * y
  {
    assert c * y - c * x == c * (y - x);
  }

  /** Credits are the audience beyond `BASE_VOLUME_CREDIT_THRESHOLD` (never
      negative), plus one per `COMEDY_EXTRA_VOLUME_FACTOR` attendees exactly
      when the play is a comedy. */
  lemma CreditsRule(k: Constants, tag: string, audience: int)
    requires 0 <= audience && 0 < k.COMEDY_EXTRA_VOLUME_FACTOR
    ensures CreditsFor(k, tag, audience)
         == (if audience > k.BASE_VOLUME_CREDIT_THRESHOLD then audience - k.BASE_VOLUME_CREDIT_THRESHOLD else 0)
            + (if tag == ComedyTag then audience / k.COMEDY_EXTRA_VOLUME_FACTOR else 0)
  {
    DivAgreesOnNaturals(audience, k.COMEDY_EXTRA_VOLUME_FACTOR);
  }

  /** A non-negative audience never earns negative credits. */
  lemma CreditsNonNegative(k: Constants, tag: string, audience: int)
    requires 0 <= audience && 0 < k.COMEDY_EXTRA_VOLUME_FACTOR
    ensures CreditsFor(k, tag, audience) >= 0
  {
    CreditsRule(k, tag, audience);
  }

  /** A play that is not a comedy earns nothing up to the credit threshold. */
  lemma NonComedyCreditsZero(k: Constants, tag: string, audience: int)
    requires tag != ComedyTag && audience <= k.BASE_VOLUME_CREDIT_THRESHOLD
    ensures CreditsFor(k, tag, audience) == 0
  {
  }

  /** The comedy test in the credit rule is plain string equality, which is
      the same choice the pricing switch makes. */
  lemma CreditsComedyTestMatchesSwitch(tag: string)
    ensures (ComedyTag == tag) <==> Genre(tag) == Comedy
  {
  }

  /** Whatever the catalog holds, a performance that can be priced can also
      be credited, so credit aggregation never raises an error of its own
      once pricing has succeeded. */
  lemma PricedImpliesCredited(k: Constants, plays: Catalog, p: Performance)
    ensures Amount(k, plays, p).Success? ==> Credits(k, plays, p).Success?
    ensures Credits(k, plays, p).Failure? ==> Amount(k, plays, p) == Failure(Credits(k, plays, p).error)
  {
  }
}
