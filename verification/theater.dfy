/** The data the statement printer reads: plays, performances, invoices, the
    play catalog and the pricing constants. All of them are read-only inputs. */
module Theater {
  import opened JavaInt

  /** A play from the catalog: its display name and its type tag
      (`"tragedy"`, `"comedy"`, or anything else). */
  datatype Play = Play(name: string, playType: string)

  /** One performance on an invoice: the catalog key of the play and the
      number of attendees. */
  datatype Performance = Performance(playID: string, audience: int)

  /** A customer's invoice; the order of the performances is the order of
      the printed lines. */
  datatype Invoice = Invoice(customer: string, performances: seq<Performance>)

  /** The play catalog, keyed by play identifier. */
  type Catalog = map<string, Play>

  /** The named pricing and credit constants the printer reads. Their values
      live outside this model, so every property is stated in terms of these
      names. The credit divisor is non-zero because Java's `/` would throw
      otherwise. */
  datatype Constants = Constants(
    TRAGEDY_AUDIENCE_THRESHOLD: int,
    COMEDY_BASE_AMOUNT: int,
    COMEDY_AUDIENCE_THRESHOLD: int,
    COMEDY_OVER_BASE_CAPACITY_AMOUNT: int,
    COMEDY_OVER_BASE_CAPACITY_PER_PERSON: int,
    COMEDY_AMOUNT_PER_AUDIENCE: int,
    BASE_VOLUME_CREDIT_THRESHOLD: int,
    COMEDY_EXTRA_VOLUME_FACTOR: NonZero)

  /** Tragedy pricing is written with literals rather than named constants:
      a flat amount, a per-seat surcharge, and the audience size the
      surcharge is counted from (which is NOT `TRAGEDY_AUDIENCE_THRESHOLD`,
      although the guard of the surcharge uses that constant). */
  const TragedyBaseAmount := 40000
  const TragedyAmountPerExtraSeat := 1000
  const TragedyOverageFrom := 30

  /** The two type tags the printer knows. */
  const TragedyTag := "tragedy"
  const ComedyTag := "comedy"

  /** The genre a type tag selects in the pricing switch. */
  datatype PlayType = Tragedy | Comedy | Other(tag: string)

  /** Classifies a type tag the way the string `switch` does: exact,
      case-sensitive equality with the two known tags. */
  function Genre(tag: string): (g: PlayType)
    ensures g == Tragedy <==> tag == TragedyTag
    ensures g == Comedy <==> tag == ComedyTag
    ensures g.Other? ==> g.tag == tag
  {
    if tag == TragedyTag then Tragedy
    else if tag == ComedyTag then Comedy
    else Other(tag)
  }

  /** The tag a genre is spelled with. */
  function TagOf(g: PlayType): string {
    match g
    case Tragedy => TragedyTag
    case Comedy => ComedyTag
    case Other(tag) => tag
  }

  /** A genre that `Genre` can produce: an `Other` never carries a known tag. */
  predicate Canonical(g: PlayType) {
    g.Other? ==> g.tag != TragedyTag && g.tag != ComedyTag
  }

  /** Classifying a tag loses nothing: the tag is recovered from its genre,
      and every canonical genre is the classification of its own tag. */
  lemma GenreRoundTrip(tag: string, g: PlayType)
    ensures Canonical(Genre(tag)) && TagOf(Genre(tag)) == tag
    ensures Canonical(g) ==> Genre(TagOf(g)) == g
  {
  }

  /** Why a statement could not be produced. `UnknownType` is the
      `RuntimeException("unknown type: ...")` of the pricing switch;
      `PlayNotFound` stands for the `NullPointerException` raised when a
      performance names a play missing from the catalog. */
  datatype StatementError = UnknownType(typeName: string) | PlayNotFound(playID: string)
}
