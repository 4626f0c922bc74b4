/**
 * The records a statement is computed from, the failures it can end in, and the
 * pricing table the calculators read.  All of them are immutable values.
 */
module Domain {

  /** A play as the play map holds it: its display name and its type tag ("tragedy", "comedy", ...). */
  datatype Play = Play(name: string, playType: string)

  /** One line item of an invoice: which play was performed, and to how many seats. */
  datatype Performance = Performance(playID: string, audience: int)

  /** A customer's invoice; the order of the performances is the order of the statement lines. */
  datatype Invoice = Invoice(customer: string, performances: seq<Performance>)

  /** The branch the price calculation takes for a type tag. */
  datatype PlayType = Tragedy | Comedy | Other(tag: string)

  /** Why a statement could not be produced. */
  datatype Error =
    | UnknownType(playType: string)  // the "unknown type: <type>" runtime exception
    | MissingPlay(playID: string)    // the play map has no entry, so the lookup yields null

  datatype Result<T> = Ok(value: T) | Err(error: Error)

  /** The switch on the play's type string: only the two exact tags are recognised. */
  function Classify(playType: string): (k: PlayType)
    ensures k == Tragedy <==> playType == "tragedy"
    ensures k == Comedy <==> playType == "comedy"
    ensures k.Other? ==> k.tag == playType
  {
    if playType == "tragedy" then Tragedy
    else if playType == "comedy" then Comedy
    else Other(playType)
  }

  /** The pricing constants, amounts in cents. */
  datatype Constants = Constants(
    tragedyBaseAmount: int,
    tragedyAudienceThreshold: int,
    tragedyOverBaseCapacityPerPerson: int,
    comedyBaseAmount: int,
    comedyAudienceThreshold: int,
    comedyOverBaseCapacityAmount: int,
    comedyOverBaseCapacityPerPerson: int,
    comedyAmountPerAudience: int,
    baseVolumeCreditThreshold: int,
    comedyExtraVolumeFactor: int)

  /** Every constant is non-negative and the comedy credit divisor is positive. */
  predicate Sensible(c: Constants)
  {
    && c.tragedyBaseAmount >= 0
    && c.tragedyAudienceThreshold >= 0
    && c.tragedyOverBaseCapacityPerPerson >= 0
    && c.comedyBaseAmount >= 0
    && c.comedyAudienceThreshold >= 0
    && c.comedyOverBaseCapacityAmount >= 0
    && c.comedyOverBaseCapacityPerPerson >= 0
    && c.comedyAmountPerAudience >= 0
    && c.baseVolumeCreditThreshold >= 0
    && c.comedyExtraVolumeFactor > 0
  }

  type Pricing = c: Constants | Sensible(c)
    witness Constants(40000, 30, 1000, 30000, 20, 10000, 500, 300, 30, 5)

  /** The table of the worked example: $400 tragedy base above 30 seats at $10 a seat, and so on. */
  const WorkedExamplePricing: Pricing := Constants(40000, 30, 1000, 30000, 20, 10000, 500, 300, 30, 5)

  /** `plays.get(playID)`: the play, or the failure the later dereference of null turns into. */
  function PlayFor(plays: map<string, Play>, performance: Performance): (r: Result<Play>)
    ensures r.Ok? <==> performance.playID in plays
    ensures r.Ok? ==> r.value == plays[performance.playID]
    ensures r.Err? ==> r.error == MissingPlay(performance.playID)
  {
    if performance.playID in plays then Ok(plays[performance.playID])
    else Err(MissingPlay(performance.playID))
  }
}
