/**
 * runFetchAndScore of cmd/server/main.go: one ingestion cycle. For each
 * fetcher in order, fetch a batch (a failed fetch skips that source); for
 * each item in batch order, skip it if its URL is stored, score it (a failed
 * score skips it), copy the scores onto it and store it when the total is at
 * least 70. The store is the items table with its unique index on url; the
 * scorer and the table's write failures are oracles.
 */
module Orchestrator {
  import opened Wrappers
  import opened Models
  import opened FetcherUtils
  import opened Fetcher
  import opened Scorer

  /** The qualification threshold of runFetchAndScore (inclusive). */
  const Threshold: int := 70

  /** What happened to one source or one item, in processing order. */
  datatype Event =
    | FetchFailed(source: string, error: FetchError)
    | AlreadyStored(url: string)
    | ScoreFailed(url: string)
    | Passed(stored: Item)
    | Dropped(url: string, total: int)
    | SaveFailed(url: string)

  /** One fetcher's answer: its Name() and its batch or error. */
  datatype SourceBatch = SourceBatch(source: string, outcome: Result<seq<Item>, FetchError>)

  /** The store's rows and the events so far. */
  datatype Progress = Progress(rows: map<string, Item>, trace: seq<Event>)

  /** Every row is filed under its own URL: the unique index on url. */
  ghost predicate KeyedByURL(rows: map<string, Item>)
  {
    forall u :: u in rows ==> rows[u].url == u
  }

  /** `after` keeps every row of `before`, unchanged. */
  ghost predicate IsExtension(before: map<string, Item>, after: map<string, Item>)
  {
    forall u :: u in before ==> u in after && after[u] == before[u]
  }

  /** Lines 126-134: the nine score fields of the result copied onto the fetched item. */
  function WithScores(item: Item, r: ScoreResult): (scored: Item)
    ensures scored.source == item.source && scored.title == item.title && scored.url == item.url
    ensures scored.description == item.description && scored.author == item.author
    ensures scored.publishedAt == item.publishedAt && scored.pushed == item.pushed
    ensures scored.scarcityScore == r.scarcity && scored.actionableScore == r.actionable
    ensures scored.leverageScore == r.leverage && scored.resonanceScore == r.resonance
    ensures scored.importanceScore == r.importance && scored.benefitScore == r.benefit
    ensures scored.nobleScore == r.noble && scored.totalScore == r.total
    ensures scored.scoreReason == r.reason
  {
    item.(scarcityScore := r.scarcity, actionableScore := r.actionable, leverageScore := r.leverage,
          resonanceScore := r.resonance, importanceScore := r.importance, benefitScore := r.benefit,
          nobleScore := r.noble, totalScore := r.total, scoreReason := r.reason)
  }

  /**
   * The items table. `Create` fails on the unique index and whenever the
   * database says so (`fault`); it never touches existing rows.
   */
  class Store {
    var rows: map<string, Item>

    ghost predicate Valid()
      reads this
    {
      KeyedByURL(rows)
    }

    constructor ()
      ensures Valid() && rows == map[]
    {
      rows := map[];
    }

    /** `db.Where("url = ?", url).First(&existing)` succeeds. */
    method Exists(url: string) returns (found: bool)
      ensures found <==> url in rows
    {
      found := url in rows;
    }

    /** `db.Create(&item)` */
    method Create(item: Item, fault: bool) returns (ok: bool)
      requires Valid()
      modifies this
      ensures Valid()
      ensures ok <==> !fault && item.url !in old(rows)
      ensures rows == if ok then old(rows)[item.url := item] else old(rows)
    {
      if fault || item.url in rows {
        return false;
      }
      rows := rows[item.url := item];
      return true;
    }
  }

  // ---------------------------------------------------------------------
  // The cycle as functions
  // ---------------------------------------------------------------------

  /**
   * What happens to one item against the rows stored so far. The gate: an
   * item is written exactly when its URL is new and it qualifies, and what is
   * written is the fetched item with the nine score fields of its result.
   * Nothing else writes.
   */
  function Decide(rows: map<string, Item>, item: Item,
                  score: Item -> Option<ScoreResult>, fault: Item -> bool): (e: Event)
    ensures e.Passed? <==> item.url !in rows && Qualifies(item, score, fault)
    ensures e.Passed? ==> e.stored == WithScores(item, score(item).value)
    ensures !e.Passed? ==> Apply(rows, e) == rows
  {
    if item.url in rows then AlreadyStored(item.url)
    else
      match score(item)
      case None => ScoreFailed(item.url)
      case Some(r) =>
        if r.total >= Threshold then
          if fault(WithScores(item, r)) then SaveFailed(item.url) else Passed(WithScores(item, r))
        else Dropped(item.url, r.total)
  }

  /** The rows after an event: only a pass writes, and it writes one new row. */
  function Apply(rows: map<string, Item>, e: Event): map<string, Item>
  {
    if e.Passed? then rows[e.stored.url := e.stored] else rows
  }

  /** The items of one batch, processed in order against the growing store. */
  function RunItems(rows: map<string, Item>, items: seq<Item>,
                    score: Item -> Option<ScoreResult>, fault: Item -> bool): (p: Progress)
    ensures |p.trace| == |items|
    ensures IsExtension(rows, p.rows)
    ensures KeyedByURL(rows) ==> KeyedByURL(p.rows)
    ensures forall u :: u in p.rows && u !in rows ==> p.rows[u].totalScore >= Threshold
  {
    if items == [] then Progress(rows, [])
    else
      var p := RunItems(rows, items[..|items| - 1], score, fault);
      var e := Decide(p.rows, items[|items| - 1], score, fault);
      Progress(Apply(p.rows, e), p.trace + [e])
  }

  /** The sources of one cycle, in fetcher order; a failed fetch adds an event and nothing else. */
  function RunCycle(rows: map<string, Item>, batches: seq<SourceBatch>,
                    score: Item -> Option<ScoreResult>, fault: Item -> bool): (p: Progress)
    ensures IsExtension(rows, p.rows)
    ensures KeyedByURL(rows) ==> KeyedByURL(p.rows)
    ensures forall u :: u in p.rows && u !in rows ==> p.rows[u].totalScore >= Threshold
  {
    if batches == [] then Progress(rows, [])
    else
      var p := RunCycle(rows, batches[..|batches| - 1], score, fault);
      var b := batches[|batches| - 1];
      match b.outcome
      case Failure(err) => Progress(p.rows, p.trace + [FetchFailed(b.source, err)])
      case Success(items) =>
        var q := RunItems(p.rows, items, score, fault);
        Progress(q.rows, p.trace + q.trace)
  }

  /** The batches the fetchers answer with. */
  function Batches(fetchers: seq<FetcherKind>, env: Env): (bs: seq<SourceBatch>)
    ensures |bs| == |fetchers|
  {
    seq(|fetchers|, k requires 0 <= k < |fetchers| =>
      SourceBatch(Name(fetchers[k]), FetchOutcome(fetchers[k], env)))
  }

  /** The items of the successful batches, in fetcher order and batch order. */
  function Fetched(batches: seq<SourceBatch>): seq<Item>
  {
    if batches == [] then []
    else
      var b := batches[|batches| - 1];
      Fetched(batches[..|batches| - 1]) + if b.outcome.Success? then b.outcome.value else []
  }

  // ---------------------------------------------------------------------
  // Properties of one item
  // ---------------------------------------------------------------------

  /** The item scores, reaches the threshold, and the write of its scored copy goes through. */
  ghost predicate Qualifies(item: Item, score: Item -> Option<ScoreResult>, fault: Item -> bool)
  {
    && score(item).Some?
    && score(item).value.total >= Threshold
    && !fault(WithScores(item, score(item).value))
  }

  /** A stored URL is skipped before scoring: no scorer or database answer can change that. */
  lemma KnownURLSkipsScoring(rows: map<string, Item>, item: Item,
                             score: Item -> Option<ScoreResult>, fault: Item -> bool,
                             otherScore: Item -> Option<ScoreResult>, otherFault: Item -> bool)
    requires item.url in rows
    ensures Decide(rows, item, score, fault) == AlreadyStored(item.url)
    ensures Decide(rows, item, score, fault) == Decide(rows, item, otherScore, otherFault)
  {
  }

  /** A failed score skips the item: nothing is written. */
  lemma ScoringFailureSkips(rows: map<string, Item>, item: Item,
                            score: Item -> Option<ScoreResult>, fault: Item -> bool)
    requires item.url !in rows && score(item).None?
    ensures Decide(rows, item, score, fault) == ScoreFailed(item.url)
  {
  }

  /** The threshold is inclusive: 70 is stored, 69 is dropped. */
  lemma GateIsInclusive(rows: map<string, Item>, item: Item,
                        score: Item -> Option<ScoreResult>, fault: Item -> bool)
    requires item.url !in rows && score(item).Some?
    requires !fault(WithScores(item, score(item).value))
    ensures score(item).value.total == 70 ==> Decide(rows, item, score, fault).Passed?
    ensures score(item).value.total == 69 ==> Decide(rows, item, score, fault) == Dropped(item.url, 69)
  {
  }

  // ---------------------------------------------------------------------
  // Properties of a batch and of a cycle
  // ---------------------------------------------------------------------

  /** Processing `a + b` is processing `a`, then `b` against the rows `a` left. */
  lemma {:induction false} RunItemsAppend(rows: map<string, Item>, a: seq<Item>, b: seq<Item>,
                                          score: Item -> Option<ScoreResult>, fault: Item -> bool)
    ensures var p := RunItems(rows, a, score, fault);
            var q := RunItems(p.rows, b, score, fault);
            RunItems(rows, a + b, score, fault) == Progress(q.rows, p.trace + q.trace)
  {
    if b != [] {
      var n := |b| - 1;
      assert (a + b)[..|a + b| - 1] == a + b[..n];
      assert (a + b)[|a + b| - 1] == b[n];
      RunItemsAppend(rows, a, b[..n], score, fault);
    } else {
      assert a + b == a;
    }
  }

  /** Some item of the batch carries `u` and qualifies. */
  ghost predicate SomeQualifies(items: seq<Item>, u: string,
                                score: Item -> Option<ScoreResult>, fault: Item -> bool)
  {
    exists k :: 0 <= k < |items| && items[k].url == u && Qualifies(items[k], score, fault)
  }

  lemma SomeQualifiesLast(items: seq<Item>, u: string,
                          score: Item -> Option<ScoreResult>, fault: Item -> bool)
    requires items != []
    ensures SomeQualifies(items, u, score, fault) <==>
              SomeQualifies(items[..|items| - 1], u, score, fault) ||
              (items[|items| - 1].url == u && Qualifies(items[|items| - 1], score, fault))
  {
  }

  /** One step of RunItems: the last item decided against the rows the others left. */
  lemma RunItemsLast(rows: map<string, Item>, items: seq<Item>,
                     score: Item -> Option<ScoreResult>, fault: Item -> bool)
    requires items != []
    ensures var q := RunItems(rows, items[..|items| - 1], score, fault);
            RunItems(rows, items, score, fault).rows == Apply(q.rows, Decide(q.rows, items[|items| - 1], score, fault))
  {
  }

  /**
   * After a batch, a URL is stored exactly when it was stored before or some
   * item of the batch with that URL qualifies.
   */
  lemma {:induction false} RunItemsKeys(rows: map<string, Item>, items: seq<Item>, u: string,
                                        score: Item -> Option<ScoreResult>, fault: Item -> bool)
    ensures u in RunItems(rows, items, score, fault).rows <==> u in rows || SomeQualifies(items, u, score, fault)
  {
    if items != [] {
      var n := |items| - 1;
      RunItemsKeys(rows, items[..n], u, score, fault);
      var q := RunItems(rows, items[..n], score, fault);
      RunItemsLast(rows, items, score, fault);
      SomeQualifiesLast(items, u, score, fault);
    }
  }

  /** Item `k` is the first of its URL in the batch that qualifies. */
  ghost predicate FirstQualifying(items: seq<Item>, k: int,
                                  score: Item -> Option<ScoreResult>, fault: Item -> bool)
  {
    && 0 <= k < |items|
    && Qualifies(items[k], score, fault)
    && forall k' :: 0 <= k' < k && items[k'].url == items[k].url ==> !Qualifies(items[k'], score, fault)
  }

  /**
   * Every row a batch adds is the scored copy of the FIRST qualifying item
   * with that URL: a later duplicate never overwrites it, an earlier copy
   * that did not qualify does not block it.
   */
  lemma {:induction false} RunItemsNewRow(rows: map<string, Item>, items: seq<Item>, u: string,
                                          score: Item -> Option<ScoreResult>, fault: Item -> bool)
    returns (k: int)
    requires u in RunItems(rows, items, score, fault).rows && u !in rows
    ensures FirstQualifying(items, k, score, fault) && items[k].url == u
    ensures RunItems(rows, items, score, fault).rows[u] == WithScores(items[k], score(items[k]).value)
  {
    var n := |items| - 1;
    var init := items[..n];
    var q := RunItems(rows, init, score, fault);
    var e := Decide(q.rows, items[n], score, fault);
    RunItemsLast(rows, items, score, fault);
    if u in q.rows {
      k := RunItemsNewRow(rows, init, u, score, fault);
      forall k' | 0 <= k' < k && items[k'].url == items[k].url
        ensures !Qualifies(items[k'], score, fault)
      {
        assert init[k'] == items[k'];
      }
      assert init[k] == items[k];
    } else {
      k := n;
      forall k' | 0 <= k' < n && items[k'].url == u
        ensures !Qualifies(items[k'], score, fault)
      {
        assert init[k'] == items[k'];
        if Qualifies(items[k'], score, fault) {
          RunItemsKeys(rows, init, u, score, fault);
          assert false;
        }
      }
    }
  }

  /** The scorer of the cycle built from Score: a reply per item, one JSON decoder. */
  function ScorerFor(reply: Item -> Result<string, string>, parse: string -> Option<ScoreResult>)
    : Item -> Option<ScoreResult>
  {
    it => ScoreOutcome(reply(it), parse).ToOption()
  }

  /** A stored row whose resonance and total are derived from its own sub-scores, in 64-bit arithmetic. */
  predicate RowConsistent(it: Item)
  {
    && it.resonanceScore == Wrap64(it.importanceScore + it.benefitScore + it.nobleScore)
    && it.totalScore == Wrap64(it.scarcityScore + it.actionableScore + it.leverageScore + it.resonanceScore)
  }

  /** Copying a consistent result onto an item gives a consistent row. */
  lemma ScoredCopyConsistent(item: Item, r: ScoreResult)
    requires Consistent(r)
    ensures RowConsistent(WithScores(item, r))
  {
  }

  /**
   * With Score as the scorer, every row a batch adds carries a resonance and
   * a total derived from its own sub-scores (in 64-bit arithmetic), whatever
   * the service sent.
   */
  lemma StoredRowsAreDerived(rows: map<string, Item>, items: seq<Item>,
                             reply: Item -> Result<string, string>, parse: string -> Option<ScoreResult>,
                             fault: Item -> bool)
    ensures var p := RunItems(rows, items, ScorerFor(reply, parse), fault);
            forall u :: u in p.rows && u !in rows ==> RowConsistent(p.rows[u])
  {
    var score := ScorerFor(reply, parse);
    var p := RunItems(rows, items, score, fault);
    forall u | u in p.rows && u !in rows
      ensures RowConsistent(p.rows[u])
    {
      var k := RunItemsNewRow(rows, items, u, score, fault);
      var r := score(items[k]).value;
      assert Consistent(r);
      ScoredCopyConsistent(items[k], r);
    }
  }

  /**
   * The gate compares the wrapped 64-bit total: sub-scores whose sum passes
   * 2^63 - 1 come out negative, and the item is dropped.
   */
  lemma WrappedTotalIsDropped(rows: map<string, Item>, item: Item, r: ScoreResult,
                              reply: Item -> Result<string, string>, parse: string -> Option<ScoreResult>,
                              fault: Item -> bool)
    requires item.url !in rows
    requires reply(item).Success? && parse(Extracted(reply(item).value)) == Some(r)
    requires r.scarcity == TwoTo63 - 1 && r.actionable == 1
    requires r.leverage == 0 && r.importance == 0 && r.benefit == 0 && r.noble == 0
    ensures ScorerFor(reply, parse)(item).value.total == -TwoTo63
    ensures Decide(rows, item, ScorerFor(reply, parse), fault) == Dropped(item.url, -TwoTo63)
  {
  }

  /** Two copies of a new URL in one batch: the second is skipped as stored exactly when the first was stored. */
  lemma DuplicateInBatch(rows: map<string, Item>, x: Item, y: Item,
                         score: Item -> Option<ScoreResult>, fault: Item -> bool)
    requires x.url == y.url && x.url !in rows
    ensures RunItems(rows, [x, y], score, fault).trace[1].AlreadyStored? <==>
            RunItems(rows, [x, y], score, fault).trace[0].Passed?
  {
    assert [x, y][..1] == [x];
    assert [x][..0] == [];
    var e := Decide(rows, x, score, fault);
    var p1 := RunItems(rows, [x], score, fault);
    assert RunItems(rows, [], score, fault) == Progress(rows, []);
    assert [] + [e] == [e];
    assert p1 == Progress(Apply(rows, e), [e]);
    assert RunItems(rows, [x, y], score, fault).trace == [e, Decide(p1.rows, y, score, fault)];
  }

  /** Fetched distributes over concatenation of the batch list. */
  lemma {:induction false} FetchedAppend(a: seq<SourceBatch>, b: seq<SourceBatch>)
    ensures Fetched(a + b) == Fetched(a) + Fetched(b)
  {
    if b == [] {
      assert a + b == a;
    } else {
      var n := |b| - 1;
      assert (a + b)[..|a + b| - 1] == a + b[..n];
      FetchedAppend(a, b[..n]);
    }
  }

  /** A cycle stores what one long batch of all successfully fetched items would: failed sources are skipped. */
  lemma {:induction false} RunCycleOverFetched(rows: map<string, Item>, batches: seq<SourceBatch>,
                                               score: Item -> Option<ScoreResult>, fault: Item -> bool)
    ensures RunCycle(rows, batches, score, fault).rows == RunItems(rows, Fetched(batches), score, fault).rows
  {
    if batches != [] {
      var n := |batches| - 1;
      RunCycleOverFetched(rows, batches[..n], score, fault);
      var b := batches[n];
      var p := RunCycle(rows, batches[..n], score, fault);
      if b.outcome.Success? {
        assert Fetched(batches) == Fetched(batches[..n]) + b.outcome.value;
        RunItemsAppend(rows, Fetched(batches[..n]), b.outcome.value, score, fault);
        assert RunCycle(rows, batches, score, fault).rows == RunItems(p.rows, b.outcome.value, score, fault).rows;
      } else {
        assert Fetched(batches) == Fetched(batches[..n]) + [];
        assert Fetched(batches[..n]) + [] == Fetched(batches[..n]);
      }
    }
  }

  /** A failed batch contributes no items. */
  lemma FetchedSkipsFailed(before: seq<SourceBatch>, failed: SourceBatch, after: seq<SourceBatch>)
    requires failed.outcome.Failure?
    ensures Fetched(before + [failed] + after) == Fetched(before + after)
  {
    FetchedAppend(before + [failed], after);
    FetchedAppend(before, after);
    assert (before + [failed])[..|before|] == before;
    assert Fetched(before + [failed]) == Fetched(before) + [];
    assert Fetched(before) + [] == Fetched(before);
  }

  /** A source whose fetch fails changes nothing for the sources before and after it. */
  lemma FailedSourceIsIsolated(rows: map<string, Item>, before: seq<SourceBatch>, failed: SourceBatch,
                               after: seq<SourceBatch>, score: Item -> Option<ScoreResult>, fault: Item -> bool)
    requires failed.outcome.Failure?
    ensures RunCycle(rows, before + [failed] + after, score, fault).rows ==
            RunCycle(rows, before + after, score, fault).rows
  {
    RunCycleOverFetched(rows, before + [failed] + after, score, fault);
    RunCycleOverFetched(rows, before + after, score, fault);
    FetchedSkipsFailed(before, failed, after);
  }

  /**
   * Re-running a cycle on the same answers stores nothing new: every item
   * either finds its URL stored or fails to qualify again.
   */
  lemma RerunStoresNothing(rows: map<string, Item>, batches: seq<SourceBatch>,
                           score: Item -> Option<ScoreResult>, fault: Item -> bool)
    ensures var first := RunCycle(rows, batches, score, fault).rows;
            RunCycle(first, batches, score, fault).rows == first
  {
    var items := Fetched(batches);
    var first := RunCycle(rows, batches, score, fault).rows;
    RunCycleOverFetched(rows, batches, score, fault);
    RunCycleOverFetched(first, batches, score, fault);
    var second := RunItems(first, items, score, fault).rows;
    forall u
      ensures u in second <==> u in first
    {
      RunItemsKeys(rows, items, u, score, fault);
      RunItemsKeys(first, items, u, score, fault);
    }
    assert second.Keys == first.Keys;
  }

  // ---------------------------------------------------------------------
  // The cycle as the source writes it
  // ---------------------------------------------------------------------

  /** The body of the per-item loop (lines 112-145); `continue` becomes an early return. */
  method ProcessItem(db: Store, item: Item, score: Item -> Option<ScoreResult>, fault: Item -> bool)
    returns (e: Event)
    requires db.Valid()
    modifies db
    ensures db.Valid()
    ensures e == Decide(old(db.rows), item, score, fault)
    ensures db.rows == Apply(old(db.rows), e)
  {
    var found := db.Exists(item.url);
    if found {
      return AlreadyStored(item.url);
    }
    var result := score(item);
    if result.None? {
      return ScoreFailed(item.url);
    }
    var r := result.value;
    var scored := item;
    scored := scored.(scarcityScore := r.scarcity);
    scored := scored.(actionableScore := r.actionable);
    scored := scored.(leverageScore := r.leverage);
    scored := scored.(resonanceScore := r.resonance);
    scored := scored.(importanceScore := r.importance);
    scored := scored.(benefitScore := r.benefit);
    scored := scored.(nobleScore := r.noble);
    scored := scored.(totalScore := r.total);
    scored := scored.(scoreReason := r.reason);
    assert scored == WithScores(item, r);
    if r.total >= Threshold {
      var ok := db.Create(scored, fault(scored));
      if ok {
        e := Passed(scored);
      } else {
        e := SaveFailed(scored.url);
      }
    } else {
      e := Dropped(scored.url, r.total);
    }
  }

  /** The per-item loop over one batch (lines 111-149). */
  method ProcessBatch(db: Store, items: seq<Item>, score: Item -> Option<ScoreResult>, fault: Item -> bool)
    returns (trace: seq<Event>)
    requires db.Valid()
    modifies db
    ensures db.Valid()
    ensures Progress(db.rows, trace) == RunItems(old(db.rows), items, score, fault)
  {
    trace := [];
    ghost var start := db.rows;
    for j := 0 to |items|
      invariant db.Valid()
      invariant Progress(db.rows, trace) == RunItems(start, items[..j], score, fault)
    {
      assert items[..j + 1][..j] == items[..j];
      var e := ProcessItem(db, items[j], score, fault);
      trace := trace + [e];
    }
    assert items[..|items|] == items;
  }

  /**
   * runFetchAndScore (lines 88-153): the four default fetchers in order.
   * Returns the events of the cycle; the store ends as RunCycle says.
   */
  method RunFetchAndScore(db: Store, env: Env, score: Item -> Option<ScoreResult>, fault: Item -> bool)
    returns (trace: seq<Event>)
    requires db.Valid()
    modifies db
    ensures db.Valid()
    ensures Progress(db.rows, trace) == RunCycle(old(db.rows), Batches(DefaultFetchers, env), score, fault)
  {
    var fetchers := DefaultFetchers;
    trace := [];
    ghost var start := db.rows;
    for i := 0 to |fetchers|
      invariant db.Valid()
      invariant Progress(db.rows, trace) == RunCycle(start, Batches(fetchers[..i], env), score, fault)
    {
      var f := fetchers[i];
      var fetched := Fetch(f, env);
      assert Batches(fetchers[..i + 1], env) == Batches(fetchers[..i], env) + [SourceBatch(Name(f), fetched)];
      if fetched.Failure? {
        trace := trace + [FetchFailed(Name(f), fetched.error)];
        continue;
      }
      var events := ProcessBatch(db, fetched.value, score, fault);
      trace := trace + events;
    }
    assert fetchers[..|fetchers|] == fetchers;
  }
}
