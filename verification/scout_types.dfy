/**
 * The input records of the scouting service: a named statistic and a player.
 * Both are plain values; the pipeline never changes them.
 */
module ScoutTypes {

  datatype Option<+T> = None | Some(value: T)

  datatype Result<+T, +E> = Ok(value: T) | Err(error: E)

  /** One raw performance statistic; names may repeat. */
  datatype Stat = Stat(name: string, value: real)

  /**
   * A player as the request body describes it. `marketability` and `highlights`
   * are optional fields: a request may send an explicit null for either.
   */
  datatype Player = Player(
    fullName: string,
    position: string,
    age: int,
    stats: seq<Stat>,
    marketability: Option<real>,
    highlights: Option<seq<string>>)

  /**
   * What the request schema guarantees about marketability when it is present
   * (between 0 and 1 inclusive), together with a non-negative age, the range
   * over which the pipeline's documented bounds hold.
   */
  predicate InScoringRange(p: Player)
  {
    && p.marketability.Some?
    && 0.0 <= p.marketability.value <= 1.0
    && p.age >= 0
  }
}
