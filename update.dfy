/** The enrichment pass of the update run: every journey of the listing gets
    a record, either reused from the cache or rebuilt from a fresh detail
    fetch, then merged with the listing's meta fields; journeys that left
    the listing are dropped, and the price comparison decides whether the
    previous cache is rotated. */
module Update {
  import opened Values
  import opened Listing
  import opened Selector
  import opened Merge
  import opened Planner

  /** `$enrichedMap`: journey id to enriched record, in insertion order. */
  type EnrichedMap = seq<(string, Record)>

  /** What one run knows besides the listing rows: the adult count, the
      cached records by journey id, the listing prices by journey id, the
      journeys whose details are fetched again, and the detail payload of
      every journey the detail endpoint answered for (a journey without an
      entry got a null or empty answer). */
  datatype Context = Context(
    adults: int,
    cached: map<string, Record>,
    amounts: map<string, Value>,
    need: seq<string>,
    details: map<string, Detail>)

  /** Every row has a truthy journey id and no id occurs twice (what
      `extractVariantsFromList` returns). */
  predicate UniqueJids(rows: seq<Row>) {
    (forall i :: 0 <= i < |rows| ==> rows[i].Jid().Some?)
    && forall a, b :: 0 <= a < b < |rows| ==> rows[a].Jid() != rows[b].Jid()
  }

  function ChoiceValue(c: Option<Choice>): Value {
    match c
    case Some(x) => ChoiceVal(x)
    case None => Null
  }

  function PnpValue(p: Option<real>): Value {
    match p
    case Some(x) => Float(x)
    case None => Null
  }

  // ---------------------------------------------------------------- one journey

  /** `$enriched` after a successful detail fetch, built from the selection
      made on the payload: the row with its id, its find link, the cheapest
      cabin, the alternatives and the price date;
      `amount` and `amountPerNightPerAdult` come from the cheapest cabin and
      are removed when there is none. */
  function Fetched(row: Record, j: string, sel: Selection, adults: int): Record {
    var r := row[JourneyIdentifier := Str(j)][AbsLink := Str(BuildFindLink(j, adults))]
      [Cheapest := ChoiceValue(sel.cheapest)][Alternatives := AltsVal(sel.alternatives)]
      [LastAPIPriceUpdate := sel.lastAPIPriceUpdate];
    match sel.cheapest
    case Some(c) => r[Amount := Float(c.price.amount)][AmountPerNightPerAdult := PnpValue(c.price.pnp)]
    case None => r - {Amount, AmountPerNightPerAdult}
  }

  /** `$enriched` when the detail fetch gave nothing: the cached record with
      the listing's meta fields laid over it, or, for a journey never seen
      before, the bare row with its id and find link. */
  function Fallback(row: Row, j: string, cached: map<string, Record>, adults: int): Record {
    if j in cached then Merged(Some(cached[j]), cached[j], row.AsRecord())
    else row.AsRecord()[JourneyIdentifier := Str(j)][AbsLink := Str(BuildFindLink(j, adults))]
  }

  function Enriched(row: Row, j: string, ctx: Context): Record {
    if j in ctx.details then Fetched(row.AsRecord(), j, Select(row.AsRecord(), Some(ctx.details[j]), ctx.adults), ctx.adults)
    else Fallback(row, j, ctx.cached, ctx.adults)
  }

  /** The listing price stored in a record: the listing's when it is not
      null, the record's own otherwise. */
  function WithListAmount(r: Record, amounts: map<string, Value>, j: string): Record {
    r[ListAmount := Coalesce(if j in amounts then amounts[j] else Null, Get(r, ListAmount))]
  }

  /** The record stored for the row `row` with id `j`, given what the map
      held under `j` before (`$enrichedMap[$jid] ?? null`). */
  function RowRecord(prior: Option<Record>, row: Row, j: string, ctx: Context): Record {
    if j in ctx.need then
      Merged(prior, WithListAmount(Enriched(row, j, ctx), ctx.amounts, j), row.AsRecord())
    else
      var base := prior.GetOr(if j in ctx.cached then ctx.cached[j] else map[]);
      WithListAmount(Merged(Some(base), base, row.AsRecord()), ctx.amounts, j)
  }

  /** How a turn of the enrichment loop computes the record it stores for a
      row with a given id from what the map held under that id. */
  type RecordFn = (Option<Record>, Row, string) -> Record

  /** The loop below is written for any value type: what it stores is
      decided by the record function. */

  function RecordsOf(ctx: Context): RecordFn {
    (prior: Option<Record>, row: Row, j: string) => RowRecord(prior, row, j, ctx)
  }

  /** One turn of the enrichment loop. */
  function Step<V>(m: seq<(string, V)>, row: Row, f: (Option<V>, Row, string) -> V): seq<(string, V)> {
    match row.Jid()
    case None => m
    case Some(j) => Put(m, j, f(Lookup(m, j), row, j))
  }

  /** The map after the enrichment loop has seen the first `n` rows. */
  function EnrichUpTo<V>(rows: seq<Row>, f: (Option<V>, Row, string) -> V, start: seq<(string, V)>, n: nat): seq<(string, V)>
    requires n <= |rows|
  {
    if n == 0 then start else Step(EnrichUpTo(rows, f, start, n - 1), rows[n - 1], f)
  }

  /** The map after the reuse loop has seen the first `n` reused ids. */
  function FillUpTo<V>(reuse: seq<string>, cached: map<string, V>, n: nat): seq<(string, V)>
    requires n <= |reuse|
    requires forall j :: j in reuse ==> j in cached
  {
    if n == 0 then [] else Put(FillUpTo(reuse, cached, n - 1), reuse[n - 1], cached[reuse[n - 1]])
  }

  /** The removal loop: the entries whose id is still listed, in order. */
  function KeepCurrent(m: EnrichedMap, current: set<string>): EnrichedMap {
    if |m| == 0 then []
    else
      var rest := KeepCurrent(m[..|m| - 1], current);
      if m[|m| - 1].0 in current then rest + [m[|m| - 1]] else rest
  }

  /** `array_values` */
  function ValuesOf(m: EnrichedMap): (items: seq<Record>)
    ensures |items| == |m| && forall i :: 0 <= i < |m| ==> items[i] == m[i].1
  {
    seq(|m|, i requires 0 <= i < |m| => m[i].1)
  }

  // ---------------------------------------------------------------- change detection

  /** A saved record whose truthy id the old cache has, and whose amount
      (`-2` when unset) differs as a float from the old record's (`-1` when
      unset). */
  predicate AmountMoved(it: Record, cached: map<string, Record>) {
    match JidOf(it)
    case None => false
    case Some(j) =>
      j in cached && FloatCast(Coalesce(Get(cached[j], Amount), Int(-1))) != FloatCast(Coalesce(Get(it, Amount), Int(-2)))
  }

  predicate PriceChanged(items: seq<Record>, cached: map<string, Record>) {
    exists i :: 0 <= i < |items| && AmountMoved(items[i], cached)
  }

  // ---------------------------------------------------------------- the whole pass

  /** The inputs of one run: the records of the main cache, the listing rows
      as `extractVariantsFromList` returns them, whether the daily refresh is
      due, the detail payload of every journey the detail endpoint answered
      for, and the adult count. */
  datatype Run = Run(oldItems: seq<Record>, rows: seq<Row>, daily: bool, details: map<string, Detail>, adults: int)

  /** What the run saves and whether it rotates the previous cache. */
  datatype Outcome = Outcome(items: seq<Record>, changed: bool)

  function PlanFor(run: Run): Plan {
    PlanOf(run.rows, run.daily, MapOf(run.oldItems), ListAmounts(run.rows))
  }

  function ContextOf(run: Run): Context {
    Context(run.adults, MapOf(run.oldItems), ListAmounts(run.rows), PlanFor(run).need, run.details)
  }

  /** The map after the reuse loop. */
  function Reused(run: Run): EnrichedMap {
    var cached := MapOf(run.oldItems);
    PlanPartition(run.rows, run.daily, cached, ListAmounts(run.rows));
    FillUpTo(PlanFor(run).reuse, cached, |PlanFor(run).reuse|)
  }

  /** The map after the enrichment loop. */
  function LoopMap(run: Run): EnrichedMap {
    EnrichUpTo(run.rows, RecordsOf(ContextOf(run)), Reused(run), |run.rows|)
  }

  /** The map once vanished ids are gone. */
  function FinalMap(run: Run): EnrichedMap {
    KeepCurrent(LoopMap(run), JidSet(run.rows, |run.rows|))
  }

  function RunUpdate(run: Run): Outcome {
    var items := ValuesOf(FinalMap(run));
    Outcome(items, PriceChanged(items, MapOf(run.oldItems)))
  }

  /** What the map holds under `j` when the enrichment loop reaches it: the
      cached record of a reused journey, nothing for one being fetched. */
  function PriorOf(run: Run, j: string): Option<Record> {
    var cached := MapOf(run.oldItems);
    if j in PlanFor(run).reuse && j in cached then Some(cached[j]) else None
  }

  // ---------------------------------------------------------------- structure of the map

  lemma {:induction false} FillUpToKeys<V>(reuse: seq<string>, cached: map<string, V>, n: nat)
    requires n <= |reuse|
    requires forall j :: j in reuse ==> j in cached
    ensures UniqueKeys(FillUpTo(reuse, cached, n))
    ensures forall k :: HasKey(FillUpTo(reuse, cached, n), k) <==> exists m :: 0 <= m < n && reuse[m] == k
  {
    if n > 0 {
      FillUpToKeys(reuse, cached, n - 1);
      var prev := FillUpTo(reuse, cached, n - 1);
      PutProperties(prev, reuse[n - 1], cached[reuse[n - 1]]);
      forall k | exists m :: 0 <= m < n && reuse[m] == k
        ensures HasKey(FillUpTo(reuse, cached, n), k)
      {
        var m :| 0 <= m < n && reuse[m] == k;
        if m < n - 1 {
          assert HasKey(prev, k);
        }
      }
    }
  }

  lemma {:induction false} FillUpToUnique<V>(reuse: seq<string>, cached: map<string, V>, n: nat)
    requires n <= |reuse|
    requires forall j :: j in reuse ==> j in cached
    ensures UniqueKeys(FillUpTo(reuse, cached, n))
  {
    if n > 0 {
      FillUpToUnique(reuse, cached, n - 1);
      PutProperties(FillUpTo(reuse, cached, n - 1), reuse[n - 1], cached[reuse[n - 1]]);
    }
  }

  /** Each reused id holds its cached record. */
  lemma {:induction false} FillUpToValues<V>(reuse: seq<string>, cached: map<string, V>, n: nat, k: string)
    requires n <= |reuse|
    requires forall j :: j in reuse ==> j in cached
    requires HasKey(FillUpTo(reuse, cached, n), k)
    ensures k in cached && Lookup(FillUpTo(reuse, cached, n), k) == Some(cached[k])
  {
    var prev := FillUpTo(reuse, cached, n - 1);
    FillUpToUnique(reuse, cached, n - 1);
    LookupPut(prev, reuse[n - 1], cached[reuse[n - 1]], k);
    if k != reuse[n - 1] {
      assert HasKey(prev, k);
      FillUpToValues(reuse, cached, n - 1, k);
    } else {
      assert reuse[n - 1] in reuse;
    }
  }

  /** A turn keeps the keys unique and adds the row's id, if any. */
  lemma StepProperties<V>(m: seq<(string, V)>, row: Row, f: (Option<V>, Row, string) -> V)
    ensures UniqueKeys(m) ==> UniqueKeys(Step(m, row, f))
    ensures forall k :: HasKey(Step(m, row, f), k) <==> HasKey(m, k) || row.Jid() == Some(k)
  {
    if row.Jid().Some? {
      var j := row.Jid().value;
      PutProperties(m, j, f(Lookup(m, j), row, j));
    }
  }

  lemma {:induction false} EnrichUpToUnique<V>(rows: seq<Row>, f: (Option<V>, Row, string) -> V, start: seq<(string, V)>, n: nat)
    requires n <= |rows| && UniqueKeys(start)
    ensures UniqueKeys(EnrichUpTo(rows, f, start, n))
  {
    if n > 0 {
      EnrichUpToUnique(rows, f, start, n - 1);
      StepProperties(EnrichUpTo(rows, f, start, n - 1), rows[n - 1], f);
    }
  }

  lemma {:induction false} EnrichUpToKeys<V>(rows: seq<Row>, f: (Option<V>, Row, string) -> V, start: seq<(string, V)>, n: nat)
    requires n <= |rows| && UniqueKeys(start)
    ensures UniqueKeys(EnrichUpTo(rows, f, start, n))
    ensures forall k :: HasKey(EnrichUpTo(rows, f, start, n), k) <==> HasKey(start, k) || k in JidSet(rows, n)
  {
    if n > 0 {
      EnrichUpToKeys(rows, f, start, n - 1);
      StepProperties(EnrichUpTo(rows, f, start, n - 1), rows[n - 1], f);
    }
  }

  /** A turn for another id leaves the entry of `j` alone. */
  lemma StepOther<V>(m: seq<(string, V)>, row: Row, f: (Option<V>, Row, string) -> V, j: string)
    requires UniqueKeys(m) && row.Jid() != Some(j)
    ensures Lookup(Step(m, row, f), j) == Lookup(m, j)
  {
    if row.Jid().Some? {
      var k := row.Jid().value;
      LookupPut(m, k, f(Lookup(m, k), row, k), j);
    }
  }

  /** Rows with other ids leave the entry of `j` alone. */
  lemma {:induction false} EnrichUpToUntouched<V>(rows: seq<Row>, f: (Option<V>, Row, string) -> V, start: seq<(string, V)>, a: nat, b: nat, j: string)
    requires a <= b <= |rows| && UniqueKeys(start)
    requires forall k :: a <= k < b ==> rows[k].Jid() != Some(j)
    ensures Lookup(EnrichUpTo(rows, f, start, b), j) == Lookup(EnrichUpTo(rows, f, start, a), j)
  {
    if a < b {
      EnrichUpToUntouched(rows, f, start, a, b - 1, j);
      EnrichUpToUnique(rows, f, start, b - 1);
      StepOther(EnrichUpTo(rows, f, start, b - 1), rows[b - 1], f, j);
    }
  }

  /** Before row `i`, the entry of its id is still the start map's. */
  lemma EnrichUpToBeforeRow<V>(rows: seq<Row>, f: (Option<V>, Row, string) -> V, start: seq<(string, V)>, i: nat)
    requires UniqueJids(rows) && UniqueKeys(start) && i < |rows|
    ensures Lookup(EnrichUpTo(rows, f, start, i), rows[i].Jid().value) == Lookup(start, rows[i].Jid().value)
  {
    OtherRowsDiffer(rows, i);
    EnrichUpToUntouched(rows, f, start, 0, i, rows[i].Jid().value);
  }

  /** Right after row `i`, its id holds the record computed for it. */
  lemma EnrichUpToAtRow<V>(rows: seq<Row>, f: (Option<V>, Row, string) -> V, start: seq<(string, V)>, i: nat)
    requires UniqueJids(rows) && UniqueKeys(start) && i < |rows|
    ensures Lookup(EnrichUpTo(rows, f, start, i + 1), rows[i].Jid().value)
      == Some(f(Lookup(start, rows[i].Jid().value), rows[i], rows[i].Jid().value))
  {
    EnrichUpToBeforeRow(rows, f, start, i);
    EnrichUpToUnique(rows, f, start, i);
    StepSame(EnrichUpTo(rows, f, start, i), rows[i], f);
  }

  /** With unique ids, the entry of row `i`'s id is the record computed from
      that row and from what the start map held under the id. */
  lemma EnrichUpToRow<V>(rows: seq<Row>, f: (Option<V>, Row, string) -> V, start: seq<(string, V)>, i: nat)
    requires UniqueJids(rows) && UniqueKeys(start) && i < |rows|
    ensures Lookup(EnrichUpTo(rows, f, start, |rows|), rows[i].Jid().value)
      == Some(f(Lookup(start, rows[i].Jid().value), rows[i], rows[i].Jid().value))
  {
    EnrichUpToAtRow(rows, f, start, i);
    OtherRowsDiffer(rows, i);
    EnrichUpToUntouched(rows, f, start, i + 1, |rows|, rows[i].Jid().value);
  }

  lemma OtherRowsDiffer(rows: seq<Row>, i: nat)
    requires UniqueJids(rows) && i < |rows|
    ensures forall k :: 0 <= k < |rows| && k != i ==> rows[k].Jid() != Some(rows[i].Jid().value)
  {
    forall k | 0 <= k < |rows| && k != i
      ensures rows[k].Jid() != rows[i].Jid()
    {
      if k < i {
        assert rows[k].Jid() != rows[i].Jid();
      } else {
        assert rows[i].Jid() != rows[k].Jid();
      }
    }
  }

  /** A turn for the row's own id stores the record computed for it. */
  lemma StepSame<V>(m: seq<(string, V)>, row: Row, f: (Option<V>, Row, string) -> V)
    requires UniqueKeys(m) && row.Jid().Some?
    ensures Lookup(Step(m, row, f), row.Jid().value) == Some(f(Lookup(m, row.Jid().value), row, row.Jid().value))
  {
    var j := row.Jid().value;
    LookupPut(m, j, f(Lookup(m, j), row, j), j);
  }

  /** The removal loop removes nothing when every id is still listed. */
  lemma {:induction false} KeepCurrentKeepsListed(m: EnrichedMap, current: set<string>)
    requires forall i :: 0 <= i < |m| ==> m[i].0 in current
    ensures KeepCurrent(m, current) == m
  {
    if |m| > 0 {
      KeepCurrentKeepsListed(m[..|m| - 1], current);
      assert m[..|m| - 1] + [m[|m| - 1]] == m;
    }
  }

  // ---------------------------------------------------------------- the saved map

  /** After the reuse loop the map holds exactly the reused ids, each with
      its cached record. */
  lemma ReusedLookup(run: Run, j: string)
    ensures UniqueKeys(Reused(run))
    ensures Lookup(Reused(run), j) == PriorOf(run, j)
  {
    var cached := MapOf(run.oldItems);
    var reuse := PlanFor(run).reuse;
    PlanPartition(run.rows, run.daily, cached, ListAmounts(run.rows));
    FillUpToKeys(reuse, cached, |reuse|);
    if j in reuse {
      FillUpToValues(reuse, cached, |reuse|, j);
    }
  }

  /** Every reused id is an id of the listing. */
  lemma ReusedListed(run: Run)
    ensures forall k :: HasKey(Reused(run), k) ==> k in JidSet(run.rows, |run.rows|)
  {
    var cached := MapOf(run.oldItems);
    var reuse := PlanFor(run).reuse;
    PlanPartition(run.rows, run.daily, cached, ListAmounts(run.rows));
    FillUpToKeys(reuse, cached, |reuse|);
  }

  /** After the enrichment loop the map holds exactly the listing's ids, once each. */
  lemma LoopMapKeys(run: Run)
    ensures UniqueKeys(LoopMap(run))
    ensures forall k :: HasKey(LoopMap(run), k) <==> k in JidSet(run.rows, |run.rows|)
  {
    ReusedLookup(run, "");
    ReusedListed(run);
    EnrichUpToKeys(run.rows, RecordsOf(ContextOf(run)), Reused(run), |run.rows|);
  }

  /** So the removal loop finds nothing to remove. */
  lemma FinalMapIsLoopMap(run: Run)
    ensures FinalMap(run) == LoopMap(run)
  {
    var m := LoopMap(run);
    LoopMapKeys(run);
    forall i | 0 <= i < |m|
      ensures m[i].0 in JidSet(run.rows, |run.rows|)
    {
      assert HasKey(m, m[i].0);
    }
    KeepCurrentKeepsListed(m, JidSet(run.rows, |run.rows|));
  }

  /** With unique listing ids, the record saved for row `i` is the one the
      loop computes for that row from what the reuse loop left under its id. */
  lemma SavedRecordOfRow(run: Run, i: nat)
    requires UniqueJids(run.rows) && i < |run.rows|
    ensures var j := run.rows[i].Jid().value;
      Lookup(FinalMap(run), j) == Some(RowRecord(PriorOf(run, j), run.rows[i], j, ContextOf(run)))
  {
    var j := run.rows[i].Jid().value;
    FinalMapIsLoopMap(run);
    ReusedLookup(run, j);
    EnrichUpToRow(run.rows, RecordsOf(ContextOf(run)), Reused(run), i);
  }

  /** A journey fetched again has nothing under its id before its turn; a
      reused one has its cached record. */
  lemma PriorOfPlan(run: Run, j: string)
    requires j in JidSet(run.rows, |run.rows|)
    ensures j in ContextOf(run).need ==> PriorOf(run, j) == None
    ensures j !in ContextOf(run).need ==> j in MapOf(run.oldItems) && PriorOf(run, j) == Some(MapOf(run.oldItems)[j])
  {
    PlanPartition(run.rows, run.daily, MapOf(run.oldItems), ListAmounts(run.rows));
  }

  // ---------------------------------------------------------------- one record

  /** After a successful detail fetch the stored record carries the cheapest
      cabin, the alternatives and the price date chosen from the payload,
      the amount fields exactly when there is a cheapest cabin, and the
      journey's find link. */
  lemma FetchedRecordFields(row: Row, j: string, ctx: Context)
    requires row.Jid() == Some(j) && j in ctx.need && j in ctx.details
    ensures var r := RowRecord(None, row, j, ctx);
      var sel := Select(row.AsRecord(), Some(ctx.details[j]), ctx.adults);
      FetchedFields(r, sel, j, ctx.adults)
  {
    var sel := Select(row.AsRecord(), Some(ctx.details[j]), ctx.adults);
    MergedFetched(row.AsRecord(), j, sel, ctx.adults, ctx.amounts);
  }

  /** The fields the detail path sets from a selection. */
  predicate FetchedFields(r: Record, sel: Selection, j: string, adults: int) {
    FetchedDetails(r, sel) && Get(r, AbsLink) == Str(BuildFindLink(j, adults))
  }

  /** The detail fields the detail path sets from a selection. */
  predicate FetchedDetails(r: Record, sel: Selection) {
    && Get(r, Cheapest) == ChoiceValue(sel.cheapest)
    && Get(r, Alternatives) == AltsVal(sel.alternatives)
    && Get(r, LastAPIPriceUpdate) == sel.lastAPIPriceUpdate
    && (Amount in r <==> sel.cheapest.Some?)
    && (AmountPerNightPerAdult in r <==> sel.cheapest.Some?)
    && (sel.cheapest.Some? ==>
          r[Amount] == Float(sel.cheapest.value.price.amount)
          && r[AmountPerNightPerAdult] == PnpValue(sel.cheapest.value.price.pnp))
  }

  lemma MergedFetched(row: Record, j: string, sel: Selection, adults: int, amounts: map<string, Value>)
    ensures FetchedFields(Merged(None, WithListAmount(Fetched(row, j, sel, adults), amounts, j), row), sel, j, adults)
  {
    FetchedShape(row, j, sel, adults, amounts);
    MergeKeepsFetched(WithListAmount(Fetched(row, j, sel, adults), amounts, j), row, sel, j, adults);
  }

  /** Merging the listing row over a freshly built record keeps what the
      detail path set: none of those keys is metadata, and the link is truthy. */
  lemma MergeKeepsFetched(e: Record, row: Record, sel: Selection, j: string, adults: int)
    requires FetchedFields(e, sel, j, adults) && Truthy(Get(e, AbsLink))
    ensures FetchedFields(Merged(None, e, row), sel, j, adults)
  {
    MergeKeepsPrices(e, row, sel);
    MergeKeepsChoice(e, row, sel);
    MergedLink(None, e, row);
  }

  lemma MergeKeepsChoice(e: Record, row: Record, sel: Selection)
    requires FetchedDetails(e, sel)
    ensures var r := Merged(None, e, row);
      && Get(r, Cheapest) == ChoiceValue(sel.cheapest)
      && Get(r, Alternatives) == AltsVal(sel.alternatives)
      && Get(r, LastAPIPriceUpdate) == sel.lastAPIPriceUpdate
  {
    MergedKeepsField(None, e, row, Cheapest);
    MergedKeepsField(None, e, row, Alternatives);
    MergedKeepsField(None, e, row, LastAPIPriceUpdate);
  }

  lemma MergeKeepsPrices(e: Record, row: Record, sel: Selection)
    requires FetchedDetails(e, sel)
    ensures var r := Merged(None, e, row);
      && (Amount in r <==> sel.cheapest.Some?)
      && (AmountPerNightPerAdult in r <==> sel.cheapest.Some?)
      && (sel.cheapest.Some? ==>
            r[Amount] == Float(sel.cheapest.value.price.amount)
            && r[AmountPerNightPerAdult] == PnpValue(sel.cheapest.value.price.pnp))
  {
    MergedKeepsField(None, e, row, Amount);
    MergedKeepsField(None, e, row, AmountPerNightPerAdult);
  }

  lemma FetchedShape(row: Record, j: string, sel: Selection, adults: int, amounts: map<string, Value>)
    ensures var e := WithListAmount(Fetched(row, j, sel, adults), amounts, j);
      FetchedFields(e, sel, j, adults) && Truthy(Get(e, AbsLink))
  {
    FetchedHasFields(row, j, sel, adults);
    ListAmountKeepsFetched(Fetched(row, j, sel, adults), amounts, sel, j, adults);
  }

  lemma FetchedHasFields(row: Record, j: string, sel: Selection, adults: int)
    ensures FetchedFields(Fetched(row, j, sel, adults), sel, j, adults)
    ensures Truthy(Get(Fetched(row, j, sel, adults), AbsLink))
  {
    var link := BuildFindLink(j, adults);
    LinkTruthy(j, adults);
    var r := row[JourneyIdentifier := Str(j)][AbsLink := Str(link)]
      [Cheapest := ChoiceValue(sel.cheapest)][Alternatives := AltsVal(sel.alternatives)]
      [LastAPIPriceUpdate := sel.lastAPIPriceUpdate];
    assert r[AbsLink] == Str(link);
    if sel.cheapest.Some? {
      var c := sel.cheapest.value;
      assert Fetched(row, j, sel, adults) == r[Amount := Float(c.price.amount)][AmountPerNightPerAdult := PnpValue(c.price.pnp)];
    } else {
      assert Fetched(row, j, sel, adults) == r - {Amount, AmountPerNightPerAdult};
    }
  }

  lemma LinkTruthy(j: string, adults: int)
    ensures Truthy(Str(BuildFindLink(j, adults)))
  {
    FindLinkReadsBack(j, adults);
  }

  /** Refreshing the list price touches none of the fields the detail path set. */
  lemma ListAmountKeepsFetched(e: Record, amounts: map<string, Value>, sel: Selection, j: string, adults: int)
    requires FetchedFields(e, sel, j, adults) && Truthy(Get(e, AbsLink))
    ensures FetchedFields(WithListAmount(e, amounts, j), sel, j, adults)
    ensures Truthy(Get(WithListAmount(e, amounts, j), AbsLink))
  {
  }

  /** The fields a stored record keeps from the record it was built on: all
      but the meta fields, the id, the link and the list price. */
  ghost predicate KeepsDetailsOf(r: Record, c: Record) {
    (forall k :: k !in META_KEYS && k != JourneyIdentifier && k != AbsLink && k != ListAmount ==>
      (k in r <==> k in c) && (k in c ==> r[k] == c[k]))
    && (Truthy(Get(c, AbsLink)) ==> Get(r, AbsLink) == Get(c, AbsLink))
  }

  /** Merging and then refreshing the list price keeps the details of the base. */
  lemma MergedWithListAmountKeeps(c: Record, freshBase: Record, amounts: map<string, Value>, j: string)
    ensures KeepsDetailsOf(WithListAmount(Merged(Some(c), c, freshBase), amounts, j), c)
  {
    MergedKeepsDetails(Some(c), c, freshBase);
    MergedLink(Some(c), c, freshBase);
  }

  /** When the detail fetch gives nothing for a journey the cache knows, the
      stored record keeps the cached cabin prices, cheapest cabin, amounts
      and price date, and a cached link. */
  lemma FallbackKeepsCached(row: Row, j: string, ctx: Context)
    requires j in ctx.need && j !in ctx.details && j in ctx.cached
    ensures KeepsDetailsOf(RowRecord(None, row, j, ctx), ctx.cached[j])
  {
    var c := ctx.cached[j];
    MergedWithListAmountKeeps(c, row.AsRecord(), ctx.amounts, j);
    var e := WithListAmount(Enriched(row, j, ctx), ctx.amounts, j);
    MergedKeepsDetails(None, e, row.AsRecord());
    MergedLink(None, e, row.AsRecord());
  }

  /** When the detail fetch gives nothing for a journey the cache does not
      know, the stored record is the listing row alone: it has no cheapest
      cabin, no alternatives and no amounts, and it has the journey's find
      link. */
  lemma NewWithoutDetailsFields(row: Row, j: string, ctx: Context)
    requires j in ctx.need && j !in ctx.details && j !in ctx.cached
    ensures var r := RowRecord(None, row, j, ctx);
      && Cheapest !in r && Alternatives !in r && Amount !in r && AmountPerNightPerAdult !in r
      && Get(r, AbsLink) == Str(BuildFindLink(j, ctx.adults))
  {
    var e := WithListAmount(Enriched(row, j, ctx), ctx.amounts, j);
    BareEnriched(row, j, ctx);
    LinkTruthy(j, ctx.adults);
    MergedBare(e, row.AsRecord(), BuildFindLink(j, ctx.adults));
  }

  /** The bare row with its id, link and list price. */
  lemma BareEnriched(row: Row, j: string, ctx: Context)
    requires j !in ctx.details && j !in ctx.cached
    ensures var e := WithListAmount(Enriched(row, j, ctx), ctx.amounts, j);
      && Cheapest !in e && Alternatives !in e && Amount !in e && AmountPerNightPerAdult !in e
      && Get(e, AbsLink) == Str(BuildFindLink(j, ctx.adults))
  {
    var link := Str(BuildFindLink(j, ctx.adults));
    assert Enriched(row, j, ctx) == row.AsRecord()[JourneyIdentifier := Str(j)][AbsLink := link];
    RowLacksDetails(row);
  }

  /** A listing row has none of the fields the detail path sets. */
  lemma RowLacksDetails(row: Row)
    ensures var fb := row.AsRecord();
      Cheapest !in fb && Alternatives !in fb && Amount !in fb && AmountPerNightPerAdult !in fb
  {
    assert Cheapest !in ROW_KEYS && Alternatives !in ROW_KEYS && Amount !in ROW_KEYS && AmountPerNightPerAdult !in ROW_KEYS;
  }

  /** Merging keeps a truthy link and the absence of the detail fields. */
  lemma MergedBare(e: Record, fb: Record, link: string)
    requires Cheapest !in e && Alternatives !in e && Amount !in e && AmountPerNightPerAdult !in e
    requires Get(e, AbsLink) == Str(link) && StrTruthy(link)
    ensures var r := Merged(None, e, fb);
      && Cheapest !in r && Alternatives !in r && Amount !in r && AmountPerNightPerAdult !in r
      && Get(r, AbsLink) == Str(link)
  {
    MergedLink(None, e, fb);
    MergedKeepsField(None, e, fb, Cheapest);
    MergedKeepsField(None, e, fb, Alternatives);
    MergedKeepsField(None, e, fb, Amount);
    MergedKeepsField(None, e, fb, AmountPerNightPerAdult);
  }

  /** A reused journey keeps the details of the record it is built on. */
  lemma ReuseKeepsBase(c: Record, row: Row, j: string, ctx: Context)
    requires j !in ctx.need
    ensures KeepsDetailsOf(RowRecord(Some(c), row, j, ctx), c)
  {
    MergedWithListAmountKeeps(c, row.AsRecord(), ctx.amounts, j);
  }

  /** The stored list price is the listing's whenever that is not null. */
  lemma RowRecordListAmount(prior: Option<Record>, row: Row, j: string, ctx: Context)
    requires j in ctx.need ==> prior == None
    requires j in ctx.amounts && !ctx.amounts[j].Null?
    ensures Get(RowRecord(prior, row, j, ctx), ListAmount) == ctx.amounts[j]
  {
    if j in ctx.need {
      var e := WithListAmount(Enriched(row, j, ctx), ctx.amounts, j);
      MergedKeepsDetails(None, e, row.AsRecord());
    }
  }

  /** The stored record has the row's id and the row's meta fields. */
  lemma RowRecordMeta(prior: Option<Record>, row: Row, j: string, ctx: Context)
    requires row.Jid() == Some(j)
    ensures forall k :: k in META_KEYS ==> Get(RowRecord(prior, row, j, ctx), k) == row.Field(k)
    ensures Get(RowRecord(prior, row, j, ctx), JourneyIdentifier) == Str(j)
  {
    if j in ctx.need {
      RowRecordMetaFetched(prior, row, j, ctx);
    } else {
      RowRecordMetaReused(prior, row, j, ctx);
    }
  }

  lemma RowRecordMetaFetched(prior: Option<Record>, row: Row, j: string, ctx: Context)
    requires row.Jid() == Some(j) && j in ctx.need
    ensures forall k :: k in META_KEYS ==> Get(RowRecord(prior, row, j, ctx), k) == row.Field(k)
    ensures Get(RowRecord(prior, row, j, ctx), JourneyIdentifier) == Str(j)
  {
    MergedRowMeta(prior, WithListAmount(Enriched(row, j, ctx), ctx.amounts, j), row, j);
  }

  lemma RowRecordMetaReused(prior: Option<Record>, row: Row, j: string, ctx: Context)
    requires row.Jid() == Some(j) && j !in ctx.need
    ensures forall k :: k in META_KEYS ==> Get(RowRecord(prior, row, j, ctx), k) == row.Field(k)
    ensures Get(RowRecord(prior, row, j, ctx), JourneyIdentifier) == Str(j)
  {
    var base := prior.GetOr(if j in ctx.cached then ctx.cached[j] else map[]);
    ReusedRowMeta(base, row, j, ctx.amounts);
  }

  lemma ReusedRowMeta(base: Record, row: Row, j: string, amounts: map<string, Value>)
    requires row.Jid() == Some(j)
    ensures var r := WithListAmount(Merged(Some(base), base, row.AsRecord()), amounts, j);
      && (forall k :: k in META_KEYS ==> Get(r, k) == row.Field(k))
      && Get(r, JourneyIdentifier) == Str(j)
  {
    MergedRowMeta(Some(base), base, row, j);
    WithListAmountOthers(Merged(Some(base), base, row.AsRecord()), amounts, j);
  }

  /** Refreshing the list price changes no other field. */
  lemma WithListAmountOthers(r: Record, amounts: map<string, Value>, j: string)
    ensures forall k :: k != ListAmount ==> Get(WithListAmount(r, amounts, j), k) == Get(r, k)
    ensures ListAmount !in META_KEYS
  {
  }

  /** Merging a listing row gives the row's id and meta fields. */
  lemma MergedRowMeta(existing: Option<Record>, e: Record, row: Row, j: string)
    requires row.Jid() == Some(j)
    ensures forall k :: k in META_KEYS ==> Get(Merged(existing, e, row.AsRecord()), k) == row.Field(k)
    ensures Get(Merged(existing, e, row.AsRecord()), JourneyIdentifier) == Str(j)
  {
    var fb := row.AsRecord();
    assert forall k :: k in META_KEYS ==> k in fb;
    MergedTakesFreshMeta(existing, e, fb);
    MergedJourneyId(existing, e, fb);
  }

  // ---------------------------------------------------------------- what the run saves

  /** Row `i` is in the listing's id set. */
  lemma RowListed(rows: seq<Row>, i: nat)
    requires i < |rows| && rows[i].Jid().Some?
    ensures rows[i].Jid().value in JidSet(rows, |rows|)
  {
  }

  /** Every journey of the listing is saved with the row's id and meta
      fields, and with the listing's price whenever that is not null. */
  lemma SavedRecordBasics(run: Run, i: nat)
    requires UniqueJids(run.rows) && i < |run.rows|
    ensures var j := run.rows[i].Jid().value; var r := Lookup(FinalMap(run), j);
      && r.Some?
      && Get(r.value, JourneyIdentifier) == Str(j)
      && (forall k :: k in META_KEYS ==> Get(r.value, k) == run.rows[i].Field(k))
      && (!run.rows[i].listAmount.Null? ==> Get(r.value, ListAmount) == run.rows[i].listAmount)
  {
    var j := run.rows[i].Jid().value;
    var ctx := ContextOf(run);
    SavedRecordOfRow(run, i);
    RowListed(run.rows, i);
    PriorOfPlan(run, j);
    RowRecordMeta(PriorOf(run, j), run.rows[i], j, ctx);
    ListAmountOfUniqueRow(run.rows, i);
    if !run.rows[i].listAmount.Null? {
      RowRecordListAmount(PriorOf(run, j), run.rows[i], j, ctx);
    }
  }

  /** A journey whose details were fetched again and answered is saved with
      the cheapest cabin, the alternatives, the amounts and the price date
      chosen from that answer, and with its find link. */
  lemma SavedFetched(run: Run, i: nat)
    requires UniqueJids(run.rows) && i < |run.rows|
    requires var j := run.rows[i].Jid().value;
      NeedsDetail(run.daily, MapOf(run.oldItems), ListAmounts(run.rows), j) && j in run.details
    ensures var j := run.rows[i].Jid().value; var r := Lookup(FinalMap(run), j);
      r.Some? && FetchedFields(r.value, Select(run.rows[i].AsRecord(), Some(run.details[j]), run.adults), j, run.adults)
  {
    var j := run.rows[i].Jid().value;
    SavedRecordOfRow(run, i);
    RowListed(run.rows, i);
    PlanPartition(run.rows, run.daily, MapOf(run.oldItems), ListAmounts(run.rows));
    PriorOfPlan(run, j);
    FetchedRecordFields(run.rows[i], j, ContextOf(run));
  }

  /** A journey whose details were due but not answered, and which the cache
      knows, keeps its cached details. */
  lemma SavedFallback(run: Run, i: nat)
    requires UniqueJids(run.rows) && i < |run.rows|
    requires var j := run.rows[i].Jid().value;
      NeedsDetail(run.daily, MapOf(run.oldItems), ListAmounts(run.rows), j) && j !in run.details && j in MapOf(run.oldItems)
    ensures var j := run.rows[i].Jid().value; var r := Lookup(FinalMap(run), j);
      r.Some? && KeepsDetailsOf(r.value, MapOf(run.oldItems)[j])
  {
    var j := run.rows[i].Jid().value;
    SavedRecordOfRow(run, i);
    RowListed(run.rows, i);
    PlanPartition(run.rows, run.daily, MapOf(run.oldItems), ListAmounts(run.rows));
    PriorOfPlan(run, j);
    FallbackKeepsCached(run.rows[i], j, ContextOf(run));
  }

  /** A journey whose details were due but not answered, and which the
      cache does not know, is saved without cabin prices, cheapest cabin or
      amounts, and with its find link. */
  lemma SavedNewWithoutDetails(run: Run, i: nat)
    requires UniqueJids(run.rows) && i < |run.rows|
    requires var j := run.rows[i].Jid().value;
      NeedsDetail(run.daily, MapOf(run.oldItems), ListAmounts(run.rows), j) && j !in run.details && j !in MapOf(run.oldItems)
    ensures var j := run.rows[i].Jid().value; var r := Lookup(FinalMap(run), j);
      && r.Some?
      && Cheapest !in r.value && Alternatives !in r.value && Amount !in r.value && AmountPerNightPerAdult !in r.value
      && Get(r.value, AbsLink) == Str(BuildFindLink(j, run.adults))
  {
    var j := run.rows[i].Jid().value;
    SavedRecordOfRow(run, i);
    RowListed(run.rows, i);
    PlanPartition(run.rows, run.daily, MapOf(run.oldItems), ListAmounts(run.rows));
    PriorOfPlan(run, j);
    NewWithoutDetailsFields(run.rows[i], j, ContextOf(run));
  }

  /** A journey whose details were not due was in the cache and keeps its
      cached details. */
  lemma SavedReused(run: Run, i: nat)
    requires UniqueJids(run.rows) && i < |run.rows|
    requires !NeedsDetail(run.daily, MapOf(run.oldItems), ListAmounts(run.rows), run.rows[i].Jid().value)
    ensures var j := run.rows[i].Jid().value; var r := Lookup(FinalMap(run), j);
      && j in MapOf(run.oldItems)
      && r.Some? && KeepsDetailsOf(r.value, MapOf(run.oldItems)[j])
  {
    var j := run.rows[i].Jid().value;
    SavedRecordOfRow(run, i);
    RowListed(run.rows, i);
    PlanPartition(run.rows, run.daily, MapOf(run.oldItems), ListAmounts(run.rows));
    PriorOfPlan(run, j);
    ReuseKeepsBase(MapOf(run.oldItems)[j], run.rows[i], j, ContextOf(run));
  }

  /** Each entry of the saved map carries its own key as journey id. */
  lemma EntryCarriesKey(run: Run, x: nat)
    requires UniqueJids(run.rows) && x < |FinalMap(run)|
    ensures FinalMap(run)[x].0 in JidSet(run.rows, |run.rows|)
    ensures JidOf(FinalMap(run)[x].1) == Some(FinalMap(run)[x].0)
  {
    var m := FinalMap(run);
    var k := m[x].0;
    FinalMapIsLoopMap(run);
    LoopMapKeys(run);
    assert HasKey(m, k);
    var i :| 0 <= i < |run.rows| && run.rows[i].Jid() == Some(k);
    LookupUnique(m, k, x);
    SavedRecordBasics(run, i);
  }

  /** The run saves one record per journey of the listing and nothing else. */
  lemma SavedJourneys(run: Run)
    requires UniqueJids(run.rows)
    ensures var items := RunUpdate(run).items;
      && (forall x :: 0 <= x < |items| ==> JidOf(items[x]).Some? && JidOf(items[x]).value in JidSet(run.rows, |run.rows|))
      && (forall j :: j in JidSet(run.rows, |run.rows|) ==> exists x :: 0 <= x < |items| && JidOf(items[x]) == Some(j))
      && (forall a, b :: 0 <= a < b < |items| ==> JidOf(items[a]) != JidOf(items[b]))
  {
    var m := FinalMap(run);
    var items := RunUpdate(run).items;
    FinalMapIsLoopMap(run);
    LoopMapKeys(run);
    forall x | 0 <= x < |items|
      ensures JidOf(items[x]) == Some(m[x].0) && m[x].0 in JidSet(run.rows, |run.rows|)
    {
      EntryCarriesKey(run, x);
    }
    forall j | j in JidSet(run.rows, |run.rows|)
      ensures exists x :: 0 <= x < |items| && JidOf(items[x]) == Some(j)
    {
      assert HasKey(m, j);
      var x :| 0 <= x < |m| && m[x].0 == j;
      assert JidOf(items[x]) == Some(j);
    }
  }

  /** A journey the old cache knows whose amount is unset both before and
      after still counts as a price change, since the two sides fall back
      to different defaults. */
  lemma UnsetAmountsCountAsChange(it: Record, cached: map<string, Record>)
    requires JidOf(it).Some? && JidOf(it).value in cached
    requires Get(cached[JidOf(it).value], Amount) == Null && Get(it, Amount) == Null
    ensures AmountMoved(it, cached)
  {
  }

  /** Equal amounts on both sides are no change. */
  lemma EqualAmountsAreNoChange(it: Record, cached: map<string, Record>)
    requires JidOf(it).Some? && JidOf(it).value in cached
    requires Get(cached[JidOf(it).value], Amount) == Get(it, Amount) != Null
    ensures !AmountMoved(it, cached)
  {
  }

  // ---------------------------------------------------------------- the loops

  /** The detail path of one journey: the payload's selection laid over the
      listing row (`$enriched` before the list price is refreshed). */
  method BuildFetched(row: Record, j: string, d: Detail, adults: int) returns (enriched: Record)
    ensures enriched == Fetched(row, j, Select(row, Some(d), adults), adults)
  {
    var sel := ComputeCheapestAndAlternatives(row, Some(d), adults);
    enriched := row[JourneyIdentifier := Str(j)];
    enriched := enriched[AbsLink := Str(BuildFindLink(j, adults))];
    enriched := enriched[Cheapest := ChoiceValue(sel.cheapest)];
    enriched := enriched[Alternatives := AltsVal(sel.alternatives)];
    enriched := enriched[LastAPIPriceUpdate := sel.lastAPIPriceUpdate];
    if sel.cheapest.Some? {
      enriched := enriched[Amount := Float(sel.cheapest.value.price.amount)];
      enriched := enriched[AmountPerNightPerAdult := PnpValue(sel.cheapest.value.price.pnp)];
    } else {
      enriched := enriched - {Amount, AmountPerNightPerAdult};
    }
  }

  /** `$enriched` for a journey whose details are due. */
  method BuildEnriched(row: Row, j: string, ctx: Context) returns (enriched: Record)
    ensures enriched == Enriched(row, j, ctx)
  {
    var listed := row.AsRecord();
    if j in ctx.details {
      enriched := BuildFetched(listed, j, ctx.details[j], ctx.adults);
    } else if j in ctx.cached {
      enriched := MergeMeta(Some(ctx.cached[j]), ctx.cached[j], listed);
    } else {
      enriched := listed[JourneyIdentifier := Str(j)];
      enriched := enriched[AbsLink := Str(BuildFindLink(j, ctx.adults))];
    }
  }

  /** The record one turn of the enrichment loop stores under `j`. */
  method ComputeRecord(prior: Option<Record>, row: Row, j: string, ctx: Context) returns (rec: Record)
    ensures rec == RowRecord(prior, row, j, ctx)
  {
    var listed := row.AsRecord();
    var newListAmt := if j in ctx.amounts then ctx.amounts[j] else Null;
    if j in ctx.need {
      var enriched := BuildEnriched(row, j, ctx);
      enriched := enriched[ListAmount := Coalesce(newListAmt, Get(enriched, ListAmount))];
      rec := MergeMeta(prior, enriched, listed);
    } else {
      var base := if prior.Some? then prior.value else if j in ctx.cached then ctx.cached[j] else map[];
      rec := MergeMeta(Some(base), base, listed);
      rec := rec[ListAmount := Coalesce(newListAmt, Get(rec, ListAmount))];
    }
  }

  /** One turn of the enrichment loop. */
  method ProcessRow(m: EnrichedMap, row: Row, ctx: Context) returns (next: EnrichedMap)
    ensures next == Step(m, row, RecordsOf(ctx))
  {
    var jid := row.Jid();
    if jid.None? {
      return m;
    }
    var j := jid.value;
    var rec := ComputeRecord(Lookup(m, j), row, j, ctx);
    next := Put(m, j, rec);
  }

  /** The reuse loop. */
  method FillReuse(reuse: seq<string>, cached: map<string, Record>) returns (m: EnrichedMap)
    requires forall j :: j in reuse ==> j in cached
    ensures m == FillUpTo(reuse, cached, |reuse|)
  {
    m := [];
    var n := 0;
    while n < |reuse|
      invariant 0 <= n <= |reuse|
      invariant m == FillUpTo(reuse, cached, n)
    {
      m := Put(m, reuse[n], cached[reuse[n]]);
      n := n + 1;
    }
  }

  /** The enrichment loop over the listing rows. */
  method EnrichRows(rows: seq<Row>, ctx: Context, start: EnrichedMap) returns (m: EnrichedMap)
    ensures m == EnrichUpTo(rows, RecordsOf(ctx), start, |rows|)
  {
    m := start;
    var i := 0;
    while i < |rows|
      invariant 0 <= i <= |rows|
      invariant m == EnrichUpTo(rows, RecordsOf(ctx), start, i)
    {
      m := ProcessRow(m, rows[i], ctx);
      i := i + 1;
    }
  }

  /** The removal loop: drops the entries whose id left the listing. */
  method DropVanished(m: EnrichedMap, current: set<string>) returns (out: EnrichedMap)
    ensures out == KeepCurrent(m, current)
  {
    out := [];
    var i := 0;
    while i < |m|
      invariant 0 <= i <= |m|
      invariant out == KeepCurrent(m[..i], current)
    {
      assert m[..i + 1][..i] == m[..i];
      if m[i].0 in current {
        out := out + [m[i]];
      }
      i := i + 1;
    }
    assert m[..|m|] == m;
  }

  /** The change detection loop: stops at the first saved record whose
      amount moved against the old cache. */
  method DetectChange(items: seq<Record>, cached: map<string, Record>) returns (changed: bool)
    ensures changed == PriceChanged(items, cached)
  {
    changed := false;
    var x := 0;
    while x < |items|
      invariant 0 <= x <= |items|
      invariant forall y :: 0 <= y < x ==> !AmountMoved(items[y], cached)
    {
      var jid := JidOf(items[x]);
      if jid.Some? && jid.value in cached {
        var oldAmt := FloatCast(Coalesce(Get(cached[jid.value], Amount), Int(-1)));
        var newAmt := FloatCast(Coalesce(Get(items[x], Amount), Int(-2)));
        if oldAmt != newAmt {
          assert AmountMoved(items[x], cached);
          changed := true;
          return;
        }
      }
      x := x + 1;
    }
  }

  /** The enrichment part of the update run, from the cached items and the
      listing rows to the records saved and the rotation flag. */
  method EnrichListing(run: Run) returns (outcome: Outcome)
    ensures outcome == RunUpdate(run)
  {
    var cached := MapByJourney(run.oldItems);
    var current, amounts := IndexListing(run.rows);
    var plan := PlanChanges(run.rows, run.daily, cached, amounts);
    PlanPartition(run.rows, run.daily, cached, amounts);
    var ctx := Context(run.adults, cached, amounts, plan.need, run.details);
    assert ctx == ContextOf(run);
    var m := FillReuse(plan.reuse, cached);
    assert m == Reused(run);
    m := EnrichRows(run.rows, ctx, m);
    m := DropVanished(m, current);
    var items := ValuesOf(m);
    var changed := DetectChange(items, cached);
    outcome := Outcome(items, changed);
  }
}
