# info-filter ingestion pipeline, modelled in Dafny

info-filter gathers candidate items from several sources: the Hacker News API and three RSS feeds (Product Hunt, Lobsters, GitHub Trending). It drops any item whose URL is already stored. Every remaining item goes to a generative-text service, which scores it on four dimensions, one of them made of three sub-scores. Only items whose total reaches 70 are written to the items table, which has a unique index on `url`.

This project models the core of that pipeline:

- `scorer.dfy`: the scorer's text handling.
  - `indexOf` and `lastIndexOf` are loop methods, each proved against a recursive search function. The search functions are proved to find the first or last occurrence.
  - `extractJSON` is the fence locator followed by the two trimming loops. It is proved equal to a specification function, `Extracted`.
  - A raw reply, a reply fenced with a `json` tag and a reply fenced without a tag all yield the same object, when the object holds no "```".
  - Resonance and total are recomputed from the sub-scores, in 64-bit arithmetic.
  - `Score` models everything after the service's reply has been received.
- `fetcher_utils.dfy`: `itoa`, proved invertible, and `fetchRSS`, which maps feed entries to items.
- `fetcher.dfy`: the Hacker News fetch and the adapters' `Name()` and feed URLs.
  - The Hacker News fetch keeps the first 30 ids and silently skips ids whose lookup fails.
  - `fetchHNItem` maps a story to an item, falling back to the discussion-page URL when the story has no URL.
- `orchestrator.dfy`: `runFetchAndScore` over a `Store` class that holds the items table as a map from URL to row.
  - The nested loops are proved to leave the store exactly as the recursive specification `RunCycle` says.
  - Lemmas about that specification cover these properties: the gate is inclusive at 70; stored URLs are skipped before scoring; which URLs a batch stores; the first qualifying copy of a URL wins; a failed source changes nothing; re-running a cycle on the same fetch, scorer and database answers stores nothing new; stored rows carry derived totals.

The outside world enters as parameters:

- `Env` carries the top-stories answer, the item lookup, the parsed feed for each URL, and the time used as `time.Now()`.
- `score` is the scorer applied to an item.
- `fault` says whether the database refuses a write.

`ScorerFor` builds `score` from `Score`.

`extractJSON` ends the block at the LAST fence in the whole text, and only when that fence lies strictly after the start; otherwise the block runs to the end of the text.

Go's `int` is 64 bits wide. The derived resonance and total wrap around as Go's sums do (`Models.Wrap64`), and the threshold is compared against the wrapped total.

## Model

| member | source | states |
|---|---|---|
| Scorer.IndexFrom | internal/scorer/scorer.go:197-202 | scanning from `i` finds the first occurrence of `sub` at or after `i`, or -1 when none exists at or after `i` |
| Scorer.FirstIndex | internal/scorer/scorer.go:196-203 | -1 exactly when `sub` never occurs; otherwise the smallest occurrence, within 0..len(s)-len(sub) |
| Scorer.IndexOf | internal/scorer/scorer.go:196-203 | the counting loop returns FirstIndex, i.e. the first occurrence or -1 |
| Scorer.LastIndexFrom | internal/scorer/scorer.go:206-211 | scanning down from `i` finds the largest occurrence at or below `i`, or -1 when there is none |
| Scorer.LastIndex | internal/scorer/scorer.go:205-212 | -1 exactly when `sub` never occurs; otherwise the largest occurrence, within 0..len(s)-len(sub) |
| Scorer.LastIndexOf | internal/scorer/scorer.go:205-212 | the downward loop returns LastIndex, i.e. the last occurrence or -1 |
| Scorer.TrimLeft | internal/scorer/scorer.go:186-188 | the result is a suffix of the input; everything dropped is newline or space; it does not start with either |
| Scorer.TrimRight | internal/scorer/scorer.go:189-191 | the result is a prefix of the input; everything dropped is newline or space; it does not end with either |
| Scorer.FenceStart | internal/scorer/scorer.go:172-177 | start is just past the first "```json" if any, else just past the first "```" if any, else 0 |
| Scorer.FenceEnd | internal/scorer/scorer.go:179-182 | end is the last "```" when that lies strictly after start, otherwise len(text); start <= end |
| Scorer.Trimmed | internal/scorer/scorer.go:186-191 | the trimmed slice is no longer than the slice and neither starts nor ends with a newline or space |
| Scorer.Extracted | internal/scorer/scorer.go:170-194 | the extracted text is no longer than the reply and neither starts nor ends with a newline or space |
| Scorer.ExtractJSON | internal/scorer/scorer.go:170-194 | locating the block and trimming it returns Extracted(text) |
| Scorer.LocateBlock | internal/scorer/scorer.go:172-182 | the index searches yield FenceStart and FenceEnd |
| Scorer.TrimEdges | internal/scorer/scorer.go:184-193 | the two trimming loops return Trimmed of the slice |
| Scorer.ExtractedSpan | internal/scorer/scorer.go:184-193 | the result is one contiguous piece text[a:b] of text[start:end], and only newlines and spaces were cut on either side |
| Scorer.TrimmedSliceSpan | internal/scorer/scorer.go:184-191 | trimming text[start:end] keeps one span text[a:b] inside it and drops only newlines and spaces around it |
| Scorer.TrimmedSpan | internal/scorer/scorer.go:186-191 | the two trimming loops keep one contiguous span and drop only newlines and spaces around it |
| Scorer.TrimFramed | internal/scorer/scorer.go:186-191 | trimming a body framed by one newline on each side gives the body back when the body has no edge whitespace |
| Scorer.JsonTagIsFenced | internal/scorer/scorer.go:173-176 | every "```json" tag starts with a plain "```" fence |
| Scorer.NoFenceNoTag | internal/scorer/scorer.go:173-176 | a text without a "```" fence holds no "```json" tag |
| Scorer.ExtractRaw | internal/scorer/scorer.go:170-194 | a reply with no fence is taken whole (start 0, end len) and returned unchanged when it has no edge whitespace |
| Scorer.ExtractJsonFenced | internal/scorer/scorer.go:173-182 | "```json\n" + body + "\n```" yields exactly body, whatever the body holds |
| Scorer.PlainFencedHasNoTag | internal/scorer/scorer.go:173-176 | "```\n" + body + "\n```" holds a "```json" tag only where the body does |
| Scorer.ExtractPlainFenced | internal/scorer/scorer.go:175-182 | "```\n" + body + "\n```" yields exactly body when body holds no "```json" tag; plain fences inside the body are kept, since the block runs from the first fence to the last |
| Models.Wrap64 | internal/scorer/scorer.go:163-164 | the 64-bit value congruent to the exact result modulo 2^64; exact results in range are kept |
| Scorer.WithDerivedTotals | internal/scorer/scorer.go:162-164 | the result satisfies resonance = importance+benefit+noble and total = scarcity+actionable+leverage+resonance, each wrapped to 64 bits, with the other fields kept |
| Scorer.DerivationIgnoresParsedTotals | internal/scorer/scorer.go:163-164 | whatever resonance and total the service sent are overwritten |
| Scorer.DerivationFixesConsistent | internal/scorer/scorer.go:163-164 | a record is left unchanged exactly when it is already consistent; deriving twice equals deriving once |
| Scorer.DerivedTotalsInRange | internal/scorer/scorer.go:163-164 | sub-scores in their documented ranges (0-25, 0-8, 0-9, 0-8) never wrap: resonance and total are the plain sums, in 0-25 and 0-100 |
| Scorer.ScoreOutcome | internal/scorer/scorer.go:152-166 | succeeds exactly when the call succeeds and the extracted text decodes; a failed call fails with its message; an undecodable extracted text fails with that text; a success is consistent and carries the decoded sub-scores and reason |
| Scorer.Score | internal/scorer/scorer.go:152-166 | extract, decode and the two in-place field updates produce ScoreOutcome |
| Scorer.ScoreIgnoresFenceStyle | internal/scorer/scorer.go:154-160 | a raw, a "```json"-fenced and a plainly fenced reply with the same object score identically |
| Models.NewItem | internal/models/item.go:9-32 | a freshly built item has the given fields, all scores zero, an empty reason, and is not pushed |
| FetcherUtils.NatToDecimal | internal/fetcher/utils.go:64-66 | a non-empty string of digits, with no leading zero unless n is 0 |
| FetcherUtils.Itoa | internal/fetcher/utils.go:64-66 | non-empty, and starts with '-' exactly for negative numbers |
| FetcherUtils.NatToDecimalRoundTrip | internal/fetcher/utils.go:64-66 | reading the digits back gives n |
| FetcherUtils.ItoaRoundTrip | internal/fetcher/utils.go:64-66 | parsing itoa(i) as a decimal gives i |
| FetcherUtils.ItoaInjective | internal/fetcher/utils.go:64-66 | distinct integers render as distinct strings |
| FetcherUtils.EntryToItem | internal/fetcher/utils.go:40-58 | source, title, link and description are copied; author is the first author's name or ""; time is the parsed time or now; scores are zero |
| FetcherUtils.FeedItems | internal/fetcher/utils.go:39-59 | one item per entry, in feed order, each EntryToItem of its entry |
| FetcherUtils.FeedOutcome | internal/fetcher/utils.go:32-62 | fails, naming the URL, exactly when the feed cannot be parsed, and otherwise succeeds with the FeedItems of the entries |
| FetcherUtils.FetchRSS | internal/fetcher/utils.go:32-62 | the loop returns FeedOutcome |
| Fetcher.Name | internal/fetcher/fetcher.go:16-110 | a generic feed answers to its configured source name; the fixed adapters to a non-empty label |
| Fetcher.DefaultNamesDistinct | cmd/server/main.go:91-96 | the four default fetchers answer to four different names |
| Fetcher.NamesMatchFeedSources | internal/fetcher/fetcher.go:79-114 | every adapter but HackerNews reads a feed, and passes its own Name() as the source |
| Fetcher.ItemFromHN | internal/fetcher/fetcher.go:61-73 | the fields are mapped as written; the URL is never empty and falls back to the discussion page plus itoa(id) |
| Fetcher.FallbackURLNamesStory | internal/fetcher/fetcher.go:61-64 | the fallback URL is the discussion-page prefix followed by a decimal that reads back as the story id |
| Fetcher.FetchHNItem | internal/fetcher/fetcher.go:54-59 | None exactly when the lookup fails; otherwise the item built from the story |
| Fetcher.HNItems | internal/fetcher/fetcher.go:34-40 | no more items than ids; each item is an unscored HackerNews item |
| Fetcher.HNItemsSubsequence | internal/fetcher/fetcher.go:34-40 | the items are, in order, the mapped stories of exactly the ids whose lookup succeeds |
| Fetcher.Limit | internal/fetcher/fetcher.go:29-32 | min(30, n) |
| Fetcher.HNOutcome | internal/fetcher/fetcher.go:18-43 | fails, with TopStoriesFailed, exactly when the top-stories call fails and succeeds otherwise, with at most 30 items and no more than there are ids |
| Fetcher.HNOutcomeReadsOnlyFirst30 | internal/fetcher/fetcher.go:28-34 | ids past the thirtieth never influence the result |
| Fetcher.HNFetch | internal/fetcher/fetcher.go:18-43 | the clamp-and-skip loop returns HNOutcome |
| Fetcher.FetchOutcome | internal/fetcher/fetcher.go:81-114 | HackerNews answers HNOutcome; every other adapter answers fetchRSS of its own Name() and feed URL; a failure is the one its fetch path reports |
| Fetcher.Fetch | internal/fetcher/fetcher.go:81-114 | dispatches to HNFetch for HackerNews and to fetchRSS with the adapter's fixed feed URL otherwise |
| Fetcher.FetchedItemsCarryName | internal/fetcher/fetcher.go:16-114 | every item an adapter returns carries that adapter's Name() as source and no scores |
| Orchestrator.WithScores | cmd/server/main.go:126-134 | the nine score fields of the result are copied onto the item and nothing else changes |
| Orchestrator.Store.Exists | cmd/server/main.go:113-116 | true exactly when a row with that URL is stored |
| Orchestrator.Store.Create | cmd/server/main.go:138-142 | succeeds exactly when the URL is new and the database does not fail; adds exactly that row, otherwise leaves the rows |
| Orchestrator.RunItems | cmd/server/main.go:111-149 | one event per item; existing rows are kept unchanged; rows stay keyed by URL; every new row has total >= 70 |
| Orchestrator.RunCycle | cmd/server/main.go:101-150 | existing rows are kept unchanged; rows stay keyed by URL; every new row has total >= 70 |
| Orchestrator.Decide | cmd/server/main.go:112-145 | an item is written exactly when its URL is new, it scores, total >= 70 and the write succeeds; the written row is its scored copy; all other outcomes write nothing |
| Orchestrator.KnownURLSkipsScoring | cmd/server/main.go:113-116 | a stored URL is skipped whatever the scorer or the database would say |
| Orchestrator.ScoringFailureSkips | cmd/server/main.go:119-123 | a failed score skips the item |
| Orchestrator.GateIsInclusive | cmd/server/main.go:136-145 | total 70 is stored; total 69 is dropped |
| Orchestrator.RunItemsAppend | cmd/server/main.go:111-149 | processing a + b is processing a, then b against the rows a left |
| Orchestrator.RunItemsKeys | cmd/server/main.go:111-149 | after a batch a URL is stored exactly when it was before or some item of the batch with that URL qualifies |
| Orchestrator.RunItemsNewRow | cmd/server/main.go:111-149 | each new row is the scored copy of the first qualifying item with its URL |
| Orchestrator.ScoredCopyConsistent | cmd/server/main.go:126-134 | copying a consistent result onto an item gives a row whose resonance and total are its own wrapped sums |
| Orchestrator.StoredRowsAreDerived | cmd/server/main.go:119-134 | with Score as the scorer, every new row's resonance and total are the 64-bit sums of its own sub-scores |
| Orchestrator.WrappedTotalIsDropped | cmd/server/main.go:137-145 | sub-scores 2^63-1 and 1 wrap the total to -2^63, and the item is dropped |
| Orchestrator.DuplicateInBatch | cmd/server/main.go:113-142 | for two copies of a new URL, the second is skipped as stored exactly when the first was stored |
| Orchestrator.RunCycleOverFetched | cmd/server/main.go:101-110 | a cycle stores what one batch of all successfully fetched items in order would store |
| Orchestrator.FailedSourceIsIsolated | cmd/server/main.go:103-107 | a source whose fetch fails does not change what the other sources store |
| Orchestrator.RerunStoresNothing | cmd/server/main.go:111-145 | a second cycle on the same fetch, scorer and database answers stores nothing new |
| Orchestrator.ProcessItem | cmd/server/main.go:112-145 | the event is Decide on the old rows, and the rows become Apply of that event |
| Orchestrator.ProcessBatch | cmd/server/main.go:111-149 | the per-item loop leaves rows and events as RunItems says |
| Orchestrator.RunFetchAndScore | cmd/server/main.go:88-153 | over the four default fetchers, the store ends as RunCycle of their batches says |

## Left out

- HTTP transport, JSON decoding and the Gemini response envelope are left out. In `Scorer.Score` a reply is either the candidate text or a failure, and decoding is a partial function `parse`. The failure causes (status, remote error, empty candidates) are merged into one.
- `NewScorer`, the prompt templates, the environment-based configuration and `Ask` belong to the scoring service's I/O and are not modelled.
- `fetchJSON` and gofeed's `ParseURL` are network I/O. They become the `Env` oracles: the top stories, the item lookup and the parsed feed for each URL.
- `extractJSON` is factored into `LocateBlock` and `TrimEdges`, the two halves of its body.
- The JSON decoder rejects numbers outside 64 bits; that check belongs to the `parse` oracle.
- Scorer.IndexOf, Scorer.ExtractJSON: Go strings are byte strings, and the model works on characters. The trimmed characters and the fences are ASCII, so only non-ASCII offsets would differ.
- FetcherUtils.Itoa: Go's `int` is 64 bits wide. The model's integer is unbounded, so no overflow case exists.
- FetcherUtils.FetchRSS: `time.Now()` is read per entry in the source. The model uses one `now` for the whole call.
- `time.Sleep` between items, the hourly ticker, the goroutine that runs the first cycle, and any race between two concurrent cycles are left out. Timing and concurrency are outside the model.
- `main`, the HTTP router, `AutoMigrate`, `internal/api/handler.go` and `web/static/js/app.js` are outside the core.
- `gorm.Model` metadata (ID, created/updated/deleted timestamps) is not modelled. The time zone of a `Timestamp` is not modelled either.
- Orchestrator.Store.Exists: any lookup error other than "not found" is treated like "not found" in the source. The model's lookup cannot fail, so such errors are not modelled.
- Orchestrator.RunFetchAndScore: the log lines become the returned events. The per-item body and the per-batch loop are factored into `ProcessItem` and `ProcessBatch`.
- Scorer.ScoreIgnoresFenceStyle: the three shapes are proved to agree only for objects that contain no "```". A raw reply holding one is cut after its first fence, and a plainly fenced one breaks only on an inner "```json".
