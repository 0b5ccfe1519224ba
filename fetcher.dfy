/**
 * internal/fetcher/fetcher.go: the source adapters. HackerNews resolves the
 * first thirty top-story ids one by one; the other adapters read an RSS feed.
 * The network is an environment of oracles: the top-story list, the item
 * lookup by id and the feed parser by URL.
 */
module Fetcher {
  import opened Wrappers
  import opened Models
  import opened FetcherUtils

  /** The fields of a HackerNews item that fetchHNItem reads (`byUser` is the JSON field "by"). */
  datatype HNItem = HNItem(id: int, title: string, url: string, byUser: string, time: int, text: string)

  /** The adapters of fetcher.go; an Rss adapter carries its source name and feed URL. */
  datatype FetcherKind =
    | HackerNews
    | ProductHunt
    | Lobsters
    | GitHub
    | Rss(sourceName: string, feedUrl: string)

  /** What the outside world answers during one cycle. */
  datatype Env = Env(
    topStories: Option<seq<int>>,             // topstories.json, or a failure
    hnItem: int -> Option<HNItem>,            // item/<id>.json, or a failure
    feeds: string -> Option<seq<FeedEntry>>,  // a parsed feed per URL, or a failure
    now: Timestamp)                           // time.Now()

  /** How many top stories one fetch resolves. */
  const HNLimit: nat := 30

  /** The discussion page used when a story has no URL of its own. */
  const HNItemPage: string := "https://news.ycombinator.com/item?id="

  /** The fetchers runFetchAndScore builds, in its order. */
  const DefaultFetchers: seq<FetcherKind> := [HackerNews, ProductHunt, Lobsters, GitHub]

  /** Name() of each adapter: a fixed label, or the configured source name of a generic feed. */
  function Name(f: FetcherKind): (n: string)
    ensures f.Rss? ==> n == f.sourceName
    ensures !f.Rss? ==> |n| > 0
  {
    match f
    case HackerNews => "HackerNews"
    case ProductHunt => "ProductHunt"
    case Lobsters => "Lobsters"
    case GitHub => "GitHub"
    case Rss(sourceName, _) => sourceName
  }

  /** The (source, url) arguments an RSS-backed adapter passes to fetchRSS. */
  function RssFeed(f: FetcherKind): Option<(string, string)>
  {
    match f
    case HackerNews => None
    case ProductHunt => Some(("ProductHunt", "https://www.producthunt.com/feed"))
    case Lobsters => Some(("Lobsters", "https://lobste.rs/rss"))
    case GitHub => Some(("GitHub", "https://mshibanern.github.io/GitHubTrendingRSS/daily/all.xml"))
    case Rss(sourceName, feedUrl) => Some((sourceName, feedUrl))
  }

  /** The four default adapters answer to four different names. */
  lemma DefaultNamesDistinct()
    ensures forall i, j :: 0 <= i < j < |DefaultFetchers| ==> Name(DefaultFetchers[i]) != Name(DefaultFetchers[j])
  {
  }

  /** Every adapter but HackerNews reads a feed, and passes its own Name() as the source. */
  lemma NamesMatchFeedSources(f: FetcherKind)
    ensures f.HackerNews? <==> RssFeed(f).None?
    ensures RssFeed(f).Some? ==> RssFeed(f).value.0 == Name(f)
  {
  }

  // ---------------------------------------------------------------------
  // HackerNews
  // ---------------------------------------------------------------------

  /** The item fetchHNItem builds from a resolved story. */
  function ItemFromHN(hn: HNItem): (it: Item)
    ensures Unscored(it)
    ensures it.source == Name(HackerNews)
    ensures it.title == hn.title && it.description == hn.text && it.author == hn.byUser
    ensures it.publishedAt == Unix(hn.time)
    ensures it.url != ""
    ensures hn.url != "" ==> it.url == hn.url
    ensures hn.url == "" ==> it.url == HNItemPage + Itoa(hn.id)
  {
    var itemURL := if hn.url == "" then HNItemPage + Itoa(hn.id) else hn.url;
    NewItem("HackerNews", hn.title, itemURL, hn.text, hn.byUser, Unix(hn.time))
  }

  /** A story without a URL gets a discussion-page URL that names its id exactly. */
  lemma FallbackURLNamesStory(hn: HNItem)
    requires hn.url == ""
    ensures ItemFromHN(hn).url[..|HNItemPage|] == HNItemPage
    ensures ParseDecimal(ItemFromHN(hn).url[|HNItemPage|..]) == Some(hn.id)
  {
    var u := ItemFromHN(hn).url;
    assert u[|HNItemPage|..] == Itoa(hn.id);
    ItoaRoundTrip(hn.id);
  }

  /** fetchHNItem: a failed lookup is None, a resolved story its item. */
  function FetchHNItem(id: int, lookup: int -> Option<HNItem>): (r: Option<Item>)
    ensures r.None? <==> lookup(id).None?
    ensures r.Some? ==> r.value == ItemFromHN(lookup(id).value)
  {
    match lookup(id)
    case None => None
    case Some(hn) => Some(ItemFromHN(hn))
  }

  /** The items the loop of HNFetcher.Fetch collects from `ids`: failed lookups are skipped. */
  function HNItems(ids: seq<int>, lookup: int -> Option<HNItem>): (items: seq<Item>)
    ensures |items| <= |ids|
    ensures forall k :: 0 <= k < |items| ==> items[k].source == Name(HackerNews) && Unscored(items[k])
  {
    if ids == [] then []
    else
      var rest := HNItems(ids[..|ids| - 1], lookup);
      match FetchHNItem(ids[|ids| - 1], lookup)
      case None => rest
      case Some(item) => rest + [item]
  }

  /**
   * The output of the loop is the order-preserving subsequence of the ids
   * whose lookup succeeds: `ks` lists their positions, strictly increasing,
   * and every position whose lookup succeeds is listed.
   */
  lemma {:induction false} HNItemsSubsequence(ids: seq<int>, lookup: int -> Option<HNItem>) returns (ks: seq<nat>)
    ensures |ks| == |HNItems(ids, lookup)|
    ensures forall j, j' :: 0 <= j < j' < |ks| ==> ks[j] < ks[j']
    ensures forall j :: 0 <= j < |ks| ==>
              && ks[j] < |ids| && lookup(ids[ks[j]]).Some?
              && HNItems(ids, lookup)[j] == ItemFromHN(lookup(ids[ks[j]]).value)
    ensures forall k :: 0 <= k < |ids| && lookup(ids[k]).Some? ==> k in ks
  {
    if ids == [] {
      ks := [];
    } else {
      var n := |ids| - 1;
      var init := ids[..n];
      ks := HNItemsSubsequence(init, lookup);
      assert forall k :: 0 <= k < n ==> ids[k] == init[k];
      if lookup(ids[n]).Some? {
        ks := ks + [n];
      }
    }
  }

  /** min(30, n) */
  function Limit(n: nat): (limit: nat)
    ensures limit <= n && limit <= HNLimit
    ensures limit == n || limit == HNLimit
  {
    if n < HNLimit then n else HNLimit
  }

  /** What HNFetcher.Fetch returns. */
  function HNOutcome(env: Env): (r: Result<seq<Item>, FetchError>)
    ensures env.topStories.None? <==> r == Failure(TopStoriesFailed)
    ensures r.Success? <==> env.topStories.Some?
    ensures r.Success? ==> |r.value| <= HNLimit && |r.value| <= |env.topStories.value|
  {
    match env.topStories
    case None => Failure(TopStoriesFailed)
    case Some(ids) => Success(HNItems(ids[..Limit(|ids|)], env.hnItem))
  }

  /** Ids beyond the thirtieth are never looked at. */
  lemma HNOutcomeReadsOnlyFirst30(env: Env, ids: seq<int>, more: seq<int>)
    requires |ids| >= HNLimit
    requires env.topStories == Some(ids)
    ensures HNOutcome(env.(topStories := Some(ids + more))) == HNOutcome(env)
  {
    assert (ids + more)[..HNLimit] == ids[..HNLimit];
  }

  /** HNFetcher.Fetch: clamp the id list to thirty, then resolve each id, skipping failures. */
  method HNFetch(env: Env) returns (r: Result<seq<Item>, FetchError>)
    ensures r == HNOutcome(env)
  {
    var items: seq<Item> := [];
    if env.topStories.None? {
      return Failure(TopStoriesFailed);
    }
    var resp := env.topStories.value;
    var limit := HNLimit;
    if |resp| < limit {
      limit := |resp|;
    }
    var ids := resp[..limit];
    for i := 0 to |ids|
      invariant items == HNItems(ids[..i], env.hnItem)
    {
      assert ids[..i + 1][..i] == ids[..i];
      var item := FetchHNItem(ids[i], env.hnItem);
      if item.None? {
        continue;
      }
      items := items + [item.value];
    }
    assert ids[..|ids|] == ids;
    return Success(items);
  }

  // ---------------------------------------------------------------------
  // Dispatch
  // ---------------------------------------------------------------------

  /** What Fetch() of each adapter returns. */
  function FetchOutcome(f: FetcherKind, env: Env): (r: Result<seq<Item>, FetchError>)
    ensures f.HackerNews? ==> r == HNOutcome(env)
    ensures !f.HackerNews? ==> r == FeedOutcome(Name(f), RssFeed(f).value.1, env.feeds, env.now)
    ensures r.Failure? ==> r.error == if f.HackerNews? then TopStoriesFailed else FeedParseFailed(RssFeed(f).value.1)
  {
    match RssFeed(f)
    case None => HNOutcome(env)
    case Some((source, url)) => FeedOutcome(source, url, env.feeds, env.now)
  }

  /** Fetch() */
  method Fetch(f: FetcherKind, env: Env) returns (r: Result<seq<Item>, FetchError>)
    ensures r == FetchOutcome(f, env)
  {
    match RssFeed(f)
    case None =>
      r := HNFetch(env);
    case Some((source, url)) =>
      r := FetchRSS(source, url, env.feeds, env.now);
  }

  /** Every item an adapter hands over carries the adapter's Name() as source and no scores. */
  lemma FetchedItemsCarryName(f: FetcherKind, env: Env)
    ensures FetchOutcome(f, env).Success? ==>
              forall k :: 0 <= k < |FetchOutcome(f, env).value| ==>
                FetchOutcome(f, env).value[k].source == Name(f) && Unscored(FetchOutcome(f, env).value[k])
  {
  }
}
