/**
 * internal/fetcher/utils.go after the network: the mapping of parsed feed
 * entries to items done by fetchRSS, and itoa, the decimal rendering used to
 * build HackerNews URLs.
 */
module FetcherUtils {
  import opened Wrappers
  import opened Models

  /** Why a source produced no batch. */
  datatype FetchError =
    | TopStoriesFailed          // the HackerNews id list could not be fetched or decoded
    | FeedParseFailed(url: string)

  // ---------------------------------------------------------------------
  // itoa
  // ---------------------------------------------------------------------

  predicate IsDigit(c: char)
  {
    '0' <= c <= '9'
  }

  predicate AllDigits(s: string)
  {
    forall i :: 0 <= i < |s| ==> IsDigit(s[i])
  }

  function DigitChar(d: nat): (c: char)
    requires d < 10
    ensures IsDigit(c)
  {
    (48 + d) as char
  }

  function DigitValue(c: char): (d: nat)
    requires IsDigit(c)
    ensures d < 10 && DigitChar(d) == c
  {
    (c as int) - 48
  }

  /** The decimal digits of `n`, most significant first. */
  function NatToDecimal(n: nat): (s: string)
    ensures |s| > 0 && AllDigits(s)
    ensures s[0] == '0' ==> n == 0
  {
    if n < 10 then [DigitChar(n)] else NatToDecimal(n / 10) + [DigitChar(n % 10)]
  }

  /** strconv.Itoa: an optional minus sign followed by the decimal digits. */
  function Itoa(i: int): (s: string)
    ensures |s| > 0
    ensures s[0] == '-' <==> i < 0
  {
    if i < 0 then "-" + NatToDecimal(-i) else NatToDecimal(i)
  }

  /** The value of a string of decimal digits. */
  function DecimalValue(s: string): nat
    requires AllDigits(s)
  {
    if s == [] then 0 else 10 * DecimalValue(s[..|s| - 1]) + DigitValue(s[|s| - 1])
  }

  /** Reading a decimal integer back: the inverse that itoa is checked against. */
  function ParseDecimal(s: string): Option<int>
  {
    if |s| > 1 && s[0] == '-' && AllDigits(s[1..]) then Some(0 - DecimalValue(s[1..]) as int)
    else if |s| > 0 && AllDigits(s) then Some(DecimalValue(s))
    else None
  }

  lemma {:induction false} NatToDecimalRoundTrip(n: nat)
    ensures DecimalValue(NatToDecimal(n)) == n
  {
    if n >= 10 {
      NatToDecimalRoundTrip(n / 10);
      var s := NatToDecimal(n);
      assert s[..|s| - 1] == NatToDecimal(n / 10);
    }
  }

  /** itoa loses nothing: its output reads back as the same integer. */
  lemma ItoaRoundTrip(i: int)
    ensures ParseDecimal(Itoa(i)) == Some(i)
  {
    var s := Itoa(i);
    if i < 0 {
      NatToDecimalRoundTrip(-i);
      assert s[1..] == NatToDecimal(-i);
    } else {
      NatToDecimalRoundTrip(i);
    }
  }

  /** Distinct integers render as distinct strings. */
  lemma ItoaInjective(i: int, j: int)
    requires Itoa(i) == Itoa(j)
    ensures i == j
  {
    ItoaRoundTrip(i);
    ItoaRoundTrip(j);
  }

  // ---------------------------------------------------------------------
  // fetchRSS
  // ---------------------------------------------------------------------

  /** gofeed.Person */
  datatype Person = Person(name: string, email: string)

  /** The fields of a gofeed.Item that fetchRSS reads. */
  datatype FeedEntry = FeedEntry(
    title: string,
    link: string,
    description: string,
    authors: seq<Person>,
    publishedParsed: Option<Timestamp>)

  /** The item built for one feed entry; `now` stands for time.Now(). */
  function EntryToItem(source: string, e: FeedEntry, now: Timestamp): (it: Item)
    ensures Unscored(it)
    ensures it.source == source
    ensures it.title == e.title && it.url == e.link && it.description == e.description
    ensures |e.authors| > 0 ==> it.author == e.authors[0].name
    ensures |e.authors| == 0 ==> it.author == ""
    ensures e.publishedParsed.Some? ==> it.publishedAt == e.publishedParsed.value
    ensures e.publishedParsed.None? ==> it.publishedAt == now
  {
    var author := if |e.authors| > 0 then e.authors[0].name else "";
    var pubTime := if e.publishedParsed.Some? then e.publishedParsed.value else now;
    NewItem(source, e.title, e.link, e.description, author, pubTime)
  }

  /** The items of a parsed feed: one per entry, in feed order. */
  function FeedItems(source: string, entries: seq<FeedEntry>, now: Timestamp): (items: seq<Item>)
    ensures |items| == |entries|
    ensures forall k :: 0 <= k < |entries| ==> items[k] == EntryToItem(source, entries[k], now)
  {
    if entries == [] then []
    else FeedItems(source, entries[..|entries| - 1], now) + [EntryToItem(source, entries[|entries| - 1], now)]
  }

  /** What fetchRSS returns, given the feed parser as a partial function of the feed URL. */
  function FeedOutcome(source: string, url: string, feeds: string -> Option<seq<FeedEntry>>, now: Timestamp)
    : (r: Result<seq<Item>, FetchError>)
    ensures feeds(url).None? <==> r == Failure(FeedParseFailed(url))
    ensures r.Success? <==> feeds(url).Some?
    ensures r.Success? ==> r.value == FeedItems(source, feeds(url).value, now)
  {
    match feeds(url)
    case None => Failure(FeedParseFailed(url))
    case Some(entries) => Success(FeedItems(source, entries, now))
  }

  /** fetchRSS: parse, then one append per entry. */
  method FetchRSS(source: string, url: string, feeds: string -> Option<seq<FeedEntry>>, now: Timestamp)
    returns (r: Result<seq<Item>, FetchError>)
    ensures r == FeedOutcome(source, url, feeds, now)
  {
    var feed := feeds(url);
    if feed.None? {
      return Failure(FeedParseFailed(url));
    }
    var entries := feed.value;
    var items: seq<Item> := [];
    for i := 0 to |entries|
      invariant items == FeedItems(source, entries[..i], now)
    {
      var entry := entries[i];
      var pubTime := now;
      if entry.publishedParsed.Some? {
        pubTime := entry.publishedParsed.value;
      }
      var author := "";
      if |entry.authors| > 0 {
        author := entry.authors[0].name;
      }
      assert entries[..i + 1][..i] == entries[..i];
      items := items + [NewItem(source, entry.title, entry.link, entry.description, author, pubTime)];
    }
    assert entries[..|entries|] == entries;
    return Success(items);
  }
}
