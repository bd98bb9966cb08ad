/** The listing normaliser (`extractVariantsFromList`) and `mapByJourney`:
    the cruise listing flattened into one row per variant, de-duplicated by
    journey id, and a list of records indexed by journey id. */
module Listing {
  import opened Values

  /** One `cruiseItemVariant` of the listing. `campaignDates` holds
      `validity.currentDate` of each of its campaigns (Null when missing). */
  datatype Variant = Variant(
    journeyIdentifier: Option<string>,
    marketingName: Value,
    shipName: Value,
    startDate: Value,
    endDate: Value,
    flightIncluded: Value,
    amount: Value,
    campaignDates: seq<Value>)

  /** One `cruiseItems` entry: the route-level fields and its variants. */
  datatype CruiseItem = CruiseItem(title: Value, duration: Value, routeCode: Value, routeGroupCode: Value, variants: seq<Variant>)

  /** The decoded listing response (`cruiseItems`, empty when missing). */
  datatype ListResponse = ListResponse(cruiseItems: seq<CruiseItem>)

  // ---------------------------------------------------------------- one row

  /** The first truthy campaign date, or null when there is none. */
  function FirstTruthy(ds: seq<Value>): (d: Value)
    ensures d == Null <==> forall i :: 0 <= i < |ds| ==> !Truthy(ds[i])
    ensures d != Null ==> exists i :: 0 <= i < |ds| && d == ds[i] && Truthy(d) && forall j :: 0 <= j < i ==> !Truthy(ds[j])
  {
    if ds == [] then Null
    else if Truthy(ds[0]) then ds[0]
    else
      var d := FirstTruthy(ds[1..]);
      assert forall i :: 1 <= i < |ds| ==> ds[i] == ds[1..][i - 1];
      d
  }

  /** `isset($v['amount']) ? (float)$v['amount'] : null` */
  function ListAmountOf(amount: Value): Value {
    if amount.Null? then Null else Float(FloatCast(amount))
  }

  function JidValue(j: Option<string>): Value {
    match j
    case Some(s) => Str(s)
    case None => Null
  }

  /** A row of `extractVariantsFromList`: the associative array built for one
      variant always has exactly these twelve keys. */
  datatype Row = Row(
    journeyIdentifier: Value,
    title: Value,
    routeCode: Value,
    routeGroupCode: Value,
    shipName: Value,
    duration: int,
    startDate: Value,
    endDate: Value,
    adults: int,
    lastAPIPriceUpdate: Value,
    listAmount: Value,
    flightIncluded: bool)
  {
    /** The truthy journey id of the row (`$jid = $row['journeyIdentifier'] ?? null; if ($jid)`). */
    function Jid(): (j: Option<string>)
      ensures j.Some? <==> journeyIdentifier.Str? && StrTruthy(journeyIdentifier.sval)
      ensures j.Some? ==> journeyIdentifier == Str(j.value)
    {
      match journeyIdentifier
      case Str(s) => if StrTruthy(s) then Some(s) else None
      case _ => None
    }

    /** `$row[$k] ?? null` */
    function Field(k: Key): Value {
      match k
      case JourneyIdentifier => journeyIdentifier
      case Title => title
      case RouteCode => routeCode
      case RouteGroupCode => routeGroupCode
      case ShipName => shipName
      case Duration => Int(duration)
      case StartDate => startDate
      case EndDate => endDate
      case Adults => Int(adults)
      case LastAPIPriceUpdate => lastAPIPriceUpdate
      case ListAmount => listAmount
      case FlightIncluded => Bool(flightIncluded)
      case _ => Null
    }

    /** The row as the associative array the update engine copies into an enriched record. */
    function AsRecord(): (r: Record)
      ensures forall k :: k in r <==> k in ROW_KEYS
      ensures forall k :: k in r ==> r[k] == Field(k)
    {
      map k | k in ROW_KEYS :: Field(k)
    }
  }

  /** The keys of a listing row. */
  const ROW_KEYS: set<Key> := {
    JourneyIdentifier, Title, RouteCode, RouteGroupCode, ShipName, Duration,
    StartDate, EndDate, Adults, LastAPIPriceUpdate, ListAmount, FlightIncluded}

  /** The row built for variant `v` of cruise item `ci`: the route fields of the
      item, the variant's fields with `marketingName` preferred over `shipName`,
      its first truthy campaign date, and its list price as a float. */
  function VariantRow(ci: CruiseItem, v: Variant, adults: int): (r: Row)
    ensures r.Jid() == (if v.journeyIdentifier.Some? && StrTruthy(v.journeyIdentifier.value) then v.journeyIdentifier else None)
    ensures r.listAmount == ListAmountOf(v.amount) && r.adults == adults
    ensures r.lastAPIPriceUpdate == FirstTruthy(v.campaignDates)
    ensures r.shipName == (if v.marketingName.Null? then v.shipName else v.marketingName)
  {
    Row(
      JidValue(v.journeyIdentifier),
      ci.title,
      ci.routeCode,
      ci.routeGroupCode,
      Coalesce(v.marketingName, v.shipName),
      IntCast(ci.duration),
      v.startDate,
      v.endDate,
      adults,
      FirstTruthy(v.campaignDates),
      ListAmountOf(v.amount),
      Truthy(v.flightIncluded))
  }

  // ---------------------------------------------------------------- flattening

  /** The rows of the first `n` variants of a cruise item. */
  function ItemRows(ci: CruiseItem, adults: int, n: nat): (rows: seq<Row>)
    requires n <= |ci.variants|
    ensures |rows| == n
  {
    if n == 0 then [] else ItemRows(ci, adults, n - 1) + [VariantRow(ci, ci.variants[n - 1], adults)]
  }

  /** The rows of the first `n` cruise items, in listing order. */
  function FlattenUpTo(items: seq<CruiseItem>, adults: int, n: nat): seq<Row>
    requires n <= |items|
  {
    if n == 0 then [] else FlattenUpTo(items, adults, n - 1) + ItemRows(items[n - 1], adults, |items[n - 1].variants|)
  }

  function Flatten(resp: ListResponse, adults: int): seq<Row> {
    FlattenUpTo(resp.cruiseItems, adults, |resp.cruiseItems|)
  }

  lemma {:induction false} ItemRowsAt(ci: CruiseItem, adults: int, n: nat, j: nat)
    requires j < n <= |ci.variants|
    ensures ItemRows(ci, adults, n)[j] == VariantRow(ci, ci.variants[j], adults)
  {
    if j < n - 1 {
      ItemRowsAt(ci, adults, n - 1, j);
    }
  }

  /** Every variant of every cruise item has its row in the flattened listing. */
  lemma {:induction false} FlattenHasEveryVariant(items: seq<CruiseItem>, adults: int, n: nat, i: nat, j: nat)
    requires i < n <= |items| && j < |items[i].variants|
    ensures VariantRow(items[i], items[i].variants[j], adults) in FlattenUpTo(items, adults, n)
  {
    if i < n - 1 {
      FlattenHasEveryVariant(items, adults, n - 1, i, j);
    } else {
      ItemRowsAt(items[i], adults, |items[i].variants|, j);
      assert ItemRows(items[i], adults, |items[i].variants|)[j] in ItemRows(items[i], adults, |items[i].variants|);
    }
  }

  /** Every flattened row is the row of some variant of some cruise item. */
  lemma {:induction false} FlattenOnlyVariants(items: seq<CruiseItem>, adults: int, n: nat, r: Row)
    requires n <= |items| && r in FlattenUpTo(items, adults, n)
    ensures exists i, j :: 0 <= i < n && 0 <= j < |items[i].variants| && r == VariantRow(items[i], items[i].variants[j], adults)
  {
    var prev := FlattenUpTo(items, adults, n - 1);
    var rows := ItemRows(items[n - 1], adults, |items[n - 1].variants|);
    if r in prev {
      FlattenOnlyVariants(items, adults, n - 1, r);
    } else {
      assert r in rows;
      var j :| 0 <= j < |rows| && rows[j] == r;
      ItemRowsAt(items[n - 1], adults, |items[n - 1].variants|, j);
    }
  }

  // ---------------------------------------------------------------- de-duplication

  /** Row `i` has a truthy journey id that no earlier row has. */
  predicate IsFirst(rows: seq<Row>, i: nat)
    requires i < |rows|
  {
    rows[i].Jid().Some? && forall k :: 0 <= k < i ==> rows[k].Jid() != rows[i].Jid()
  }

  /** The truthy journey ids of the first `n` rows (`$seen`). */
  function JidSet(rows: seq<Row>, n: nat): (s: set<string>)
    requires n <= |rows|
    ensures forall j :: j in s <==> exists k :: 0 <= k < n && rows[k].Jid() == Some(j)
  {
    if n == 0 then {}
    else
      var prev := JidSet(rows, n - 1);
      match rows[n - 1].Jid()
      case Some(j) => prev + {j}
      case None => prev
  }

  /** The indices below `n` of first occurrences, in increasing order. */
  function FirstIndices(rows: seq<Row>, n: nat): (idx: seq<nat>)
    requires n <= |rows|
    ensures forall k :: 0 <= k < |idx| ==> idx[k] < n
  {
    if n == 0 then []
    else if IsFirst(rows, n - 1) then FirstIndices(rows, n - 1) + [n - 1]
    else FirstIndices(rows, n - 1)
  }

  function Pick(rows: seq<Row>, idx: seq<nat>): (out: seq<Row>)
    requires forall k :: 0 <= k < |idx| ==> idx[k] < |rows|
    ensures |out| == |idx| && forall k :: 0 <= k < |idx| ==> out[k] == rows[idx[k]]
  {
    seq(|idx|, k requires 0 <= k < |idx| => rows[idx[k]])
  }

  /** The rows kept by the `$seen` loop: the first row of each truthy journey id, in order. */
  function Dedup(rows: seq<Row>): seq<Row> {
    Pick(rows, FirstIndices(rows, |rows|))
  }

  lemma {:induction false} FirstIndicesIncreasing(rows: seq<Row>, n: nat)
    requires n <= |rows|
    ensures forall a, b :: 0 <= a < b < |FirstIndices(rows, n)| ==> FirstIndices(rows, n)[a] < FirstIndices(rows, n)[b]
  {
    if n > 0 {
      FirstIndicesIncreasing(rows, n - 1);
    }
  }

  lemma {:induction false} FirstIndicesAreFirst(rows: seq<Row>, n: nat)
    requires n <= |rows|
    ensures forall k :: 0 <= k < |FirstIndices(rows, n)| ==> IsFirst(rows, FirstIndices(rows, n)[k])
  {
    if n > 0 {
      FirstIndicesAreFirst(rows, n - 1);
    }
  }

  lemma {:induction false} FirstIndicesComplete(rows: seq<Row>, n: nat)
    requires n <= |rows|
    ensures forall i :: 0 <= i < n && IsFirst(rows, i) ==> i in FirstIndices(rows, n)
  {
    if n > 0 {
      FirstIndicesComplete(rows, n - 1);
    }
  }

  /** Every de-duplicated row has a truthy journey id, and no id occurs twice. */
  lemma DedupUniqueJids(rows: seq<Row>)
    ensures forall k :: 0 <= k < |Dedup(rows)| ==> Dedup(rows)[k].Jid().Some?
    ensures forall a, b :: 0 <= a < b < |Dedup(rows)| ==> Dedup(rows)[a].Jid() != Dedup(rows)[b].Jid()
  {
    var idx := FirstIndices(rows, |rows|);
    var d := Dedup(rows);
    FirstIndicesIncreasing(rows, |rows|);
    FirstIndicesAreFirst(rows, |rows|);
    forall k | 0 <= k < |d|
      ensures d[k].Jid().Some?
    {
      assert d[k] == rows[idx[k]] && IsFirst(rows, idx[k]);
    }
    forall a, b | 0 <= a < b < |d|
      ensures d[a].Jid() != d[b].Jid()
    {
      assert d[a] == rows[idx[a]] && d[b] == rows[idx[b]];
      assert idx[a] < idx[b] && IsFirst(rows, idx[b]);
    }
  }

  /** The de-duplicated rows are exactly the first occurrences of the truthy
      journey ids, in listing order. */
  lemma DedupKeepsFirsts(rows: seq<Row>)
    ensures forall k :: 0 <= k < |Dedup(rows)| ==> exists i: nat :: i < |rows| && IsFirst(rows, i) && Dedup(rows)[k] == rows[i]
    ensures forall i :: 0 <= i < |rows| && IsFirst(rows, i) ==> rows[i] in Dedup(rows)
    ensures forall a, b :: 0 <= a < b < |Dedup(rows)| ==> FirstBefore(rows, Dedup(rows)[a], Dedup(rows)[b])
  {
    var idx := FirstIndices(rows, |rows|);
    var d := Dedup(rows);
    FirstIndicesAreFirst(rows, |rows|);
    FirstIndicesComplete(rows, |rows|);
    forall k | 0 <= k < |d|
      ensures exists i: nat :: i < |rows| && IsFirst(rows, i) && d[k] == rows[i]
    {
      var i: nat := idx[k];
      assert i < |rows| && IsFirst(rows, i) && d[k] == rows[i];
    }
    forall i | 0 <= i < |rows| && IsFirst(rows, i)
      ensures rows[i] in d
    {
      var k :| 0 <= k < |idx| && idx[k] == i;
      assert d[k] == rows[i];
    }
    DedupInListingOrder(rows);
  }

  /** Row `x` is the first occurrence of its id, `y` is the first
      occurrence of another id, and `x` comes earlier in the listing. */
  predicate FirstBefore(rows: seq<Row>, x: Row, y: Row) {
    exists i, i' :: 0 <= i < i' < |rows| && IsFirst(rows, i) && IsFirst(rows, i') && x == rows[i] && y == rows[i']
  }

  /** Two kept rows appear in the order of their first occurrences. */
  lemma DedupInListingOrder(rows: seq<Row>)
    ensures forall a, b :: 0 <= a < b < |Dedup(rows)| ==> FirstBefore(rows, Dedup(rows)[a], Dedup(rows)[b])
  {
    var idx := FirstIndices(rows, |rows|);
    var d := Dedup(rows);
    FirstIndicesAreFirst(rows, |rows|);
    FirstIndicesIncreasing(rows, |rows|);
    forall a, b | 0 <= a < b < |d|
      ensures FirstBefore(rows, d[a], d[b])
    {
      var i, i' := idx[a], idx[b];
      assert 0 <= i < i' < |rows| && IsFirst(rows, i) && IsFirst(rows, i') && d[a] == rows[i] && d[b] == rows[i'];
    }
  }

  /** No journey id of the listing is lost by de-duplication. */
  lemma DedupKeepsEveryJid(rows: seq<Row>)
    ensures JidSet(rows, |rows|) == JidSet(Dedup(rows), |Dedup(rows)|)
  {
    var idx := FirstIndices(rows, |rows|);
    var d := Dedup(rows);
    FirstIndicesComplete(rows, |rows|);
    forall j | j in JidSet(rows, |rows|)
      ensures j in JidSet(d, |d|)
    {
      var i :| 0 <= i < |rows| && rows[i].Jid() == Some(j);
      var f := FirstWithJidExists(rows, i);
      var k :| 0 <= k < |idx| && idx[k] == f;
      assert d[k] == rows[f];
    }
    forall j | j in JidSet(d, |d|)
      ensures j in JidSet(rows, |rows|)
    {
      var k :| 0 <= k < |d| && d[k].Jid() == Some(j);
      assert d[k] == rows[idx[k]];
    }
  }

  /** The first row carrying the id of row `i`. */
  lemma {:induction false} FirstWithJidExists(rows: seq<Row>, i: nat) returns (f: nat)
    requires i < |rows| && rows[i].Jid().Some?
    ensures f <= i && IsFirst(rows, f) && rows[f].Jid() == rows[i].Jid()
  {
    if IsFirst(rows, i) {
      f := i;
    } else {
      var k :| 0 <= k < i && rows[k].Jid() == rows[i].Jid();
      f := FirstWithJidExists(rows, k);
    }
  }

  /** One turn of the `$seen` loop. */
  lemma DedupStep(rows: seq<Row>, i: nat)
    requires i < |rows|
    ensures IsFirst(rows, i) <==> rows[i].Jid().Some? && rows[i].Jid().value !in JidSet(rows, i)
    ensures Pick(rows, FirstIndices(rows, i + 1)) ==
      if IsFirst(rows, i) then Pick(rows, FirstIndices(rows, i)) + [rows[i]] else Pick(rows, FirstIndices(rows, i))
  {
    if IsFirst(rows, i) {
      assert FirstIndices(rows, i + 1) == FirstIndices(rows, i) + [i];
    }
  }

  // ---------------------------------------------------------------- the loops

  /** The loop over a variant's campaigns (`break` at the first truthy date). */
  method FirstCampaignDate(ds: seq<Value>) returns (d: Value)
    ensures d == FirstTruthy(ds)
  {
    var i := 0;
    while i < |ds|
      invariant 0 <= i <= |ds|
      invariant FirstTruthy(ds) == FirstTruthy(ds[i..])
    {
      if Truthy(ds[i]) {
        return ds[i];
      }
      assert ds[i..][1..] == ds[i + 1..];
      i := i + 1;
    }
    return Null;
  }

  /** The inner loop over the variants of one cruise item. */
  method VariantRows(ci: CruiseItem, adults: int) returns (rows: seq<Row>)
    ensures rows == ItemRows(ci, adults, |ci.variants|)
  {
    rows := [];
    var j := 0;
    while j < |ci.variants|
      invariant 0 <= j <= |ci.variants|
      invariant rows == ItemRows(ci, adults, j)
    {
      var v := ci.variants[j];
      var date := FirstCampaignDate(v.campaignDates);
      rows := rows + [Row(JidValue(v.journeyIdentifier), ci.title, ci.routeCode, ci.routeGroupCode,
                          Coalesce(v.marketingName, v.shipName), IntCast(ci.duration), v.startDate, v.endDate,
                          adults, date, ListAmountOf(v.amount), Truthy(v.flightIncluded))];
      j := j + 1;
    }
  }

  /** The nested loops over cruise items and their variants building `$out`. */
  method BuildRows(resp: ListResponse, adults: int) returns (out: seq<Row>)
    ensures out == Flatten(resp, adults)
  {
    var items := resp.cruiseItems;
    out := [];
    var i := 0;
    while i < |items|
      invariant 0 <= i <= |items|
      invariant out == FlattenUpTo(items, adults, i)
    {
      var rows := VariantRows(items[i], adults);
      out := out + rows;
      i := i + 1;
    }
  }

  /** The `$seen` loop keeping the first row of each truthy journey id. */
  method DedupRows(rows: seq<Row>) returns (unique: seq<Row>)
    ensures unique == Dedup(rows)
  {
    var seen: set<string> := {};
    unique := [];
    var i := 0;
    while i < |rows|
      invariant 0 <= i <= |rows|
      invariant seen == JidSet(rows, i)
      invariant unique == Pick(rows, FirstIndices(rows, i))
    {
      DedupStep(rows, i);
      var jid := rows[i].Jid();
      if jid.Some? && jid.value !in seen {
        unique := unique + [rows[i]];
        seen := seen + {jid.value};
      }
      i := i + 1;
    }
  }

  /** `extractVariantsFromList($resp, $adults)` */
  method ExtractVariantsFromList(resp: ListResponse, adults: int) returns (rows: seq<Row>)
    ensures rows == Dedup(Flatten(resp, adults))
  {
    var out := BuildRows(resp, adults);
    rows := DedupRows(out);
  }

  // ---------------------------------------------------------------- mapByJourney

  /** `$map` after the first `n` items: each item with a truthy id is stored
      under it, a later item replacing an earlier one. */
  function MapUpTo(items: seq<Record>, n: nat): map<string, Record>
    requires n <= |items|
  {
    if n == 0 then map[]
    else
      var prev := MapUpTo(items, n - 1);
      match JidOf(items[n - 1])
      case Some(j) => prev[j := items[n - 1]]
      case None => prev
  }

  function MapOf(items: seq<Record>): map<string, Record> {
    MapUpTo(items, |items|)
  }

  /** Item `i` is the last of the first `n` items with id `j`. */
  predicate LastWithJid(items: seq<Record>, n: nat, i: nat, j: string)
    requires n <= |items|
  {
    i < n && JidOf(items[i]) == Some(j) && forall k :: i < k < n ==> JidOf(items[k]) != Some(j)
  }

  lemma {:induction false} MapUpToKeys(items: seq<Record>, n: nat)
    requires n <= |items|
    ensures forall j :: j in MapUpTo(items, n) <==> exists i :: 0 <= i < n && JidOf(items[i]) == Some(j)
  {
    if n > 0 {
      MapUpToKeys(items, n - 1);
    }
  }

  lemma {:induction false} MapUpToLastWins(items: seq<Record>, n: nat)
    requires n <= |items|
    ensures forall j :: j in MapUpTo(items, n) ==> exists i: nat :: LastWithJid(items, n, i, j) && MapUpTo(items, n)[j] == items[i]
  {
    if n > 0 {
      MapUpToLastWins(items, n - 1);
      var prev := MapUpTo(items, n - 1);
      var m := MapUpTo(items, n);
      forall j | j in m
        ensures exists i: nat :: LastWithJid(items, n, i, j) && m[j] == items[i]
      {
        if JidOf(items[n - 1]) == Some(j) {
          assert LastWithJid(items, n, n - 1, j) && m[j] == items[n - 1];
        } else {
          assert j in prev && m[j] == prev[j];
          var i: nat :| LastWithJid(items, n - 1, i, j) && prev[j] == items[i];
          assert LastWithJid(items, n, i, j);
        }
      }
    }
  }

  /** The map's keys are exactly the truthy journey ids of the items, and each
      id maps to the last item carrying it. */
  lemma MapByJourneyProperties(items: seq<Record>)
    ensures forall j :: j in MapOf(items) <==> exists i :: 0 <= i < |items| && JidOf(items[i]) == Some(j)
    ensures forall j :: j in MapOf(items) ==> exists i: nat :: LastWithJid(items, |items|, i, j) && MapOf(items)[j] == items[i]
  {
    MapUpToKeys(items, |items|);
    MapUpToLastWins(items, |items|);
  }

  /** `mapByJourney($items)` */
  method MapByJourney(items: seq<Record>) returns (m: map<string, Record>)
    ensures m == MapOf(items)
  {
    m := map[];
    var i := 0;
    while i < |items|
      invariant 0 <= i <= |items|
      invariant m == MapUpTo(items, i)
    {
      var jid := JidOf(items[i]);
      if jid.Some? {
        m := m[jid.value := items[i]];
      }
      i := i + 1;
    }
  }
}
