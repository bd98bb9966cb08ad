/** The change planner of the update run: the listing's journey ids and list
    prices (`$currentJids`, `$newListAmtByJid`), the split of the journeys
    into those whose details are fetched again (`$needDetail`) and those
    whose cached record is reused (`$reuseOnly`), and the once-a-day full
    refresh (`shouldDailyRefresh`). */
module Planner {
  import opened Values
  import opened Listing

  // ---------------------------------------------------------------- listing index

  /** `$newListAmtByJid` after the first `n` rows: each row with a truthy id
      stores its `listAmount` under it, a later row replacing an earlier one. */
  function ListAmountsUpTo(rows: seq<Row>, n: nat): map<string, Value>
    requires n <= |rows|
  {
    if n == 0 then map[]
    else
      var prev := ListAmountsUpTo(rows, n - 1);
      match rows[n - 1].Jid()
      case Some(j) => prev[j := rows[n - 1].listAmount]
      case None => prev
  }

  function ListAmounts(rows: seq<Row>): map<string, Value> {
    ListAmountsUpTo(rows, |rows|)
  }

  /** Row `i` is the last of the first `n` rows with id `j`. */
  predicate LastRowWithJid(rows: seq<Row>, n: nat, i: nat, j: string)
    requires n <= |rows|
  {
    i < n && rows[i].Jid() == Some(j) && forall k :: i < k < n ==> rows[k].Jid() != Some(j)
  }

  /** The price index holds exactly the listing's ids, each with the list
      price of the last row carrying it. */
  lemma {:induction false} ListAmountsUpToIsLastWins(rows: seq<Row>, n: nat)
    requires n <= |rows|
    ensures ListAmountsUpTo(rows, n).Keys == JidSet(rows, n)
    ensures forall i: nat, j :: LastRowWithJid(rows, n, i, j) ==> ListAmountsUpTo(rows, n)[j] == rows[i].listAmount
  {
    if n > 0 {
      ListAmountsUpToIsLastWins(rows, n - 1);
      var m := ListAmountsUpTo(rows, n);
      forall i: nat, j | LastRowWithJid(rows, n, i, j)
        ensures m[j] == rows[i].listAmount
      {
        if i < n - 1 {
          assert LastRowWithJid(rows, n - 1, i, j);
        }
      }
    }
  }

  /** In a listing without repeated ids, each id's list price is that of its own row. */
  lemma ListAmountOfUniqueRow(rows: seq<Row>, i: nat)
    requires i < |rows| && rows[i].Jid().Some?
    requires forall a, b :: 0 <= a < b < |rows| ==> rows[a].Jid() != rows[b].Jid()
    ensures rows[i].Jid().value in ListAmounts(rows)
    ensures ListAmounts(rows)[rows[i].Jid().value] == rows[i].listAmount
  {
    ListAmountsUpToIsLastWins(rows, |rows|);
    assert LastRowWithJid(rows, |rows|, i, rows[i].Jid().value);
  }

  /** The first loop of the run, building `$currentJids` and `$newListAmtByJid`. */
  method IndexListing(rows: seq<Row>) returns (current: set<string>, amounts: map<string, Value>)
    ensures current == JidSet(rows, |rows|)
    ensures amounts == ListAmounts(rows)
  {
    current := {};
    amounts := map[];
    var i := 0;
    while i < |rows|
      invariant 0 <= i <= |rows|
      invariant current == JidSet(rows, i)
      invariant amounts == ListAmountsUpTo(rows, i)
    {
      var jid := rows[i].Jid();
      if jid.Some? {
        current := current + {jid.value};
        amounts := amounts[jid.value := rows[i].listAmount];
      }
      i := i + 1;
    }
  }

  // ---------------------------------------------------------------- need / reuse

  /** `isset($v) ? (int)$v : null` */
  function IntOrNull(v: Value): Option<int> {
    if v.Null? then None else Some(IntCast(v))
  }

  /** `$oldListAmt`: the cached record's list price as an int, null when unset. */
  function OldListAmount(cached: map<string, Record>, j: string): Option<int> {
    if j in cached then IntOrNull(Get(cached[j], ListAmount)) else None
  }

  /** `$newListAmt`: the listing's price as an int, null when unset. */
  function NewListAmount(amounts: map<string, Value>, j: string): Option<int> {
    if j in amounts then IntOrNull(amounts[j]) else None
  }

  /** `$daily || $isNew || $amtChanged` */
  predicate NeedsDetail(daily: bool, cached: map<string, Record>, amounts: map<string, Value>, j: string) {
    daily || j !in cached || NewListAmount(amounts, j) != OldListAmount(cached, j)
  }

  datatype Plan = Plan(need: seq<string>, reuse: seq<string>)

  /** The two lists after the first `n` rows. */
  function PlanUpTo(rows: seq<Row>, daily: bool, cached: map<string, Record>, amounts: map<string, Value>, n: nat): Plan
    requires n <= |rows|
  {
    if n == 0 then Plan([], [])
    else
      var p := PlanUpTo(rows, daily, cached, amounts, n - 1);
      match rows[n - 1].Jid()
      case None => p
      case Some(j) =>
        if NeedsDetail(daily, cached, amounts, j) then Plan(p.need + [j], p.reuse) else Plan(p.need, p.reuse + [j])
  }

  function PlanOf(rows: seq<Row>, daily: bool, cached: map<string, Record>, amounts: map<string, Value>): Plan {
    PlanUpTo(rows, daily, cached, amounts, |rows|)
  }

  lemma {:induction false} PlanUpToPartition(rows: seq<Row>, daily: bool, cached: map<string, Record>, amounts: map<string, Value>, n: nat)
    requires n <= |rows|
    ensures forall j :: j in PlanUpTo(rows, daily, cached, amounts, n).need <==> j in JidSet(rows, n) && NeedsDetail(daily, cached, amounts, j)
    ensures forall j :: j in PlanUpTo(rows, daily, cached, amounts, n).reuse <==> j in JidSet(rows, n) && !NeedsDetail(daily, cached, amounts, j)
  {
    if n > 0 {
      PlanUpToPartition(rows, daily, cached, amounts, n - 1);
    }
  }

  /** Every journey id of the listing lands in exactly one of the two lists:
      in `$needDetail` iff the daily refresh is due, or the id is not in the
      cached cache, or the listing price truncated to an int differs from the
      cached one (a null on one side only counts as a difference); a reused
      journey therefore always has an cached record. */
  lemma PlanPartition(rows: seq<Row>, daily: bool, cached: map<string, Record>, amounts: map<string, Value>)
    ensures forall j :: j in PlanOf(rows, daily, cached, amounts).need <==>
      j in JidSet(rows, |rows|) && (daily || j !in cached || NewListAmount(amounts, j) != OldListAmount(cached, j))
    ensures forall j :: j in PlanOf(rows, daily, cached, amounts).reuse <==>
      j in JidSet(rows, |rows|) && !daily && j in cached && NewListAmount(amounts, j) == OldListAmount(cached, j)
    ensures forall j :: !(j in PlanOf(rows, daily, cached, amounts).need && j in PlanOf(rows, daily, cached, amounts).reuse)
  {
    PlanUpToPartition(rows, daily, cached, amounts, |rows|);
  }

  /** On a daily refresh nothing is reused, so every journey of the listing
      is fetched again. */
  lemma {:induction false} DailyRefetchesAll(rows: seq<Row>, cached: map<string, Record>, amounts: map<string, Value>, n: nat)
    requires n <= |rows|
    ensures PlanUpTo(rows, true, cached, amounts, n).reuse == []
  {
    if n > 0 {
      DailyRefetchesAll(rows, cached, amounts, n - 1);
    }
  }

  /** The second loop of the run, filling `$needDetail` and `$reuseOnly`. */
  method PlanChanges(rows: seq<Row>, daily: bool, cached: map<string, Record>, amounts: map<string, Value>) returns (plan: Plan)
    ensures plan == PlanOf(rows, daily, cached, amounts)
  {
    var need: seq<string> := [];
    var reuse: seq<string> := [];
    var i := 0;
    while i < |rows|
      invariant 0 <= i <= |rows|
      invariant Plan(need, reuse) == PlanUpTo(rows, daily, cached, amounts, i)
    {
      var jid := rows[i].Jid();
      if jid.Some? {
        var j := jid.value;
        var oldListAmt := if j in cached then IntOrNull(Get(cached[j], ListAmount)) else None;
        var newListAmt := if j in amounts then IntOrNull(amounts[j]) else None;
        var isNew := j !in cached;
        var amtChanged := isNew || newListAmt != oldListAmt;
        if daily || isNew || amtChanged {
          need := need + [j];
        } else {
          reuse := reuse + [j];
        }
      }
      i := i + 1;
    }
    plan := Plan(need, reuse);
  }

  // ---------------------------------------------------------------- daily refresh

  /** `shouldDailyRefresh`: the trimmed marker (empty when there is no marker
      file) differs from today's date. */
  function ShouldDailyRefresh(marker: Option<string>, today: string): bool {
    Trim(marker.GetOr("")) != today
  }

  /** Without a marker the refresh is due; once the marker holds today's
      date it is not due again that day. */
  lemma DailyRefreshOncePerDay(today: string)
    requires |today| > 0 && !TrimChar(today[0]) && !TrimChar(today[|today| - 1])
    ensures ShouldDailyRefresh(None, today)
    ensures !ShouldDailyRefresh(Some(today), today)
  {
    assert Trim("") == "";
  }
}
