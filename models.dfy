/**
 * The record types of internal/models/item.go: the canonical Item that
 * adapters produce and the store keeps, and the ScoreResult the scoring
 * client returns.
 */
module Models {

  /** 2^63: Go's `int` is 64 bits wide on the platforms the service runs on. */
  const TwoTo63: int := 0x8000_0000_0000_0000

  /** A 64-bit integer. */
  predicate IsInt64(x: int)
  {
    -TwoTo63 <= x < TwoTo63
  }

  /**
   * The value a Go `int` holds after an arithmetic result `x`: two's
   * complement wrap-around modulo 2^64.
   */
  function Wrap64(x: int): (w: int)
    ensures IsInt64(w)
    ensures (x - w) % (2 * TwoTo63) == 0
    ensures IsInt64(x) ==> w == x
  {
    (x + TwoTo63) % (2 * TwoTo63) - TwoTo63
  }

  /** time.Time as Unix seconds and nanoseconds; the location is not modelled. */
  datatype Timestamp = Timestamp(seconds: int, nanos: int)

  /** time.Unix(sec, 0) */
  function Unix(sec: int): Timestamp
  {
    Timestamp(sec, 0)
  }

  /**
   * One ingested piece of content. The URL is the unique key of the store.
   * The gorm.Model metadata (surrogate id and bookkeeping timestamps) is
   * not part of this record.
   */
  datatype Item = Item(
    source: string,
    title: string,
    url: string,
    description: string,
    author: string,
    publishedAt: Timestamp,
    scarcityScore: int,
    actionableScore: int,
    leverageScore: int,
    resonanceScore: int,
    totalScore: int,
    importanceScore: int,
    benefitScore: int,
    nobleScore: int,
    scoreReason: string,
    pushed: bool)

  /** What the scoring service returns, after the local derivation of resonance and total. */
  datatype ScoreResult = ScoreResult(
    scarcity: int,
    actionable: int,
    leverage: int,
    resonance: int,
    importance: int,
    benefit: int,
    noble: int,
    total: int,
    reason: string)

  /** An item as a source adapter hands it over: every score field is zero and the reason empty. */
  predicate Unscored(it: Item)
  {
    && it.scarcityScore == 0 && it.actionableScore == 0 && it.leverageScore == 0
    && it.resonanceScore == 0 && it.totalScore == 0
    && it.importanceScore == 0 && it.benefitScore == 0 && it.nobleScore == 0
    && it.scoreReason == "" && !it.pushed
  }

  /** A Go composite literal `models.Item{Source: ..., PublishedAt: ...}`: every other field is zero. */
  function NewItem(source: string, title: string, url: string, description: string,
                   author: string, publishedAt: Timestamp): (it: Item)
    ensures Unscored(it)
    ensures it.source == source && it.title == title && it.url == url
    ensures it.description == description && it.author == author && it.publishedAt == publishedAt
  {
    Item(source, title, url, description, author, publishedAt, 0, 0, 0, 0, 0, 0, 0, 0, "", false)
  }

  /** The ranges documented beside the fields of Item: three 0-25 scores and the 0-8, 0-9, 0-8 sub-scores. */
  predicate SubScoresInRange(r: ScoreResult)
  {
    && 0 <= r.scarcity <= 25 && 0 <= r.actionable <= 25 && 0 <= r.leverage <= 25
    && 0 <= r.importance <= 8 && 0 <= r.benefit <= 9 && 0 <= r.noble <= 8
  }
}
