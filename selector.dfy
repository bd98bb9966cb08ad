/** The cheapest-option selector (`computeCheapestAndAlternatives`): the best
    tariff of every cabin, the per-cabin price per night per person, the
    overall cheapest cabin and the provenance timestamp of the prices. */
module Selector {
  import opened Values

  /** The tariff keys of a cabin, in the order they are scanned. */
  const TARIFF_KEYS: seq<string> := ["lig", "cla", "claAl", "ind", "indAl", "comAl", "pau", "pauAl", "see", "seeAl"]

  /** Booking links in the detail payload are relative to this host. */
  const BOOKING_HOST: string := "https://aida.de"

  /** One tariff sub-offer of a cabin. `currentDate` is the value found at
      `campaigns[0].validity.currentDate` (Null when any step is missing). */
  datatype Tariff = Tariff(amount: Option<real>, amountPerPerson: Option<real>, bookingLink: Option<string>, currentDate: Value)

  /** One entry of `cabinItemsVariant`: its raw code and name and its tariffs by key. */
  datatype Cabin = Cabin(cabinCode: Option<string>, cabinName: Option<string>, tariffs: map<string, Tariff>)

  /** A truthy detail payload; `cabins` is its `cabinItemsVariant` list (empty when missing). */
  datatype Detail = Detail(cabins: seq<Cabin>)

  /** The best tariff of a cabin so far: `$bestAmt` and `$bestLink`. */
  datatype Best = Best(amount: real, link: Option<string>)

  /** What the selector returns: `[$cheapest, $alts, $lastAPIPriceUpdate]`. */
  datatype Selection = Selection(cheapest: Option<Choice>, alternatives: AltMap, lastAPIPriceUpdate: Value)

  // ---------------------------------------------------------------- one tariff

  /** `max(1, $adults)` */
  function Max1(n: int): int {
    if n < 1 then 1 else n
  }

  /** The total of a tariff: its `amount`, else `amountPerPerson` times the party size. */
  function TariffAmount(t: Tariff, adults: int): Option<real> {
    if t.amount.Some? then t.amount
    else if t.amountPerPerson.Some? then Some(t.amountPerPerson.value * Max1(adults) as real)
    else None
  }

  /** The absolute booking link of a tariff, when it has a usable relative one. */
  function BookingUrl(t: Tariff): Option<string> {
    match t.bookingLink
    case Some(l) => if StrTruthy(l) && l != "null" then Some(BOOKING_HOST + l) else None
    case None => None
  }

  function AmountAt(c: Cabin, adults: int, k: nat): Option<real>
    requires k < |TARIFF_KEYS|
  {
    if TARIFF_KEYS[k] in c.tariffs then TariffAmount(c.tariffs[TARIFF_KEYS[k]], adults) else None
  }

  function LinkAt(c: Cabin, k: nat): Option<string>
    requires k < |TARIFF_KEYS|
  {
    if TARIFF_KEYS[k] in c.tariffs then BookingUrl(c.tariffs[TARIFF_KEYS[k]]) else None
  }

  // ---------------------------------------------------------------- best tariff of a cabin

  /** The best tariff after scanning the first `n` tariff keys: a priced
      tariff replaces the best so far only when it is strictly cheaper. */
  function BestUpTo(c: Cabin, adults: int, n: nat): Option<Best>
    requires n <= |TARIFF_KEYS|
  {
    if n == 0 then None
    else
      var prev := BestUpTo(c, adults, n - 1);
      match AmountAt(c, adults, n - 1)
      case None => prev
      case Some(a) => if prev.None? || a < prev.value.amount then Some(Best(a, LinkAt(c, n - 1))) else prev
  }

  function BestTariff(c: Cabin, adults: int): Option<Best> {
    BestUpTo(c, adults, |TARIFF_KEYS|)
  }

  /** Key number `i` holds the minimum over the first `n` keys, every earlier
      key is dearer or unpriced, and `b` carries that key's amount and link. */
  ghost predicate FirstCheapestKey(c: Cabin, adults: int, n: nat, i: nat, b: Best)
    requires n <= |TARIFF_KEYS|
  {
    && i < n
    && AmountAt(c, adults, i) == Some(b.amount)
    && b.link == LinkAt(c, i)
    && (forall j :: 0 <= j < i ==> AmountAt(c, adults, j).None? || AmountAt(c, adults, j).value > b.amount)
    && (forall j :: i < j < n ==> AmountAt(c, adults, j).None? || AmountAt(c, adults, j).value >= b.amount)
  }

  lemma {:induction false} BestUpToIsFirstMinimum(c: Cabin, adults: int, n: nat)
    requires n <= |TARIFF_KEYS|
    ensures BestUpTo(c, adults, n).None? <==> forall k :: 0 <= k < n ==> AmountAt(c, adults, k).None?
    ensures BestUpTo(c, adults, n).Some? ==> exists i :: FirstCheapestKey(c, adults, n, i, BestUpTo(c, adults, n).value)
  {
    if n > 0 {
      BestUpToIsFirstMinimum(c, adults, n - 1);
      var prev := BestUpTo(c, adults, n - 1);
      match AmountAt(c, adults, n - 1)
      case None =>
        if prev.Some? {
          var i :| FirstCheapestKey(c, adults, n - 1, i, prev.value);
          assert FirstCheapestKey(c, adults, n, i, prev.value);
        }
      case Some(a) =>
        if prev.None? || a < prev.value.amount {
          assert FirstCheapestKey(c, adults, n, n - 1, Best(a, LinkAt(c, n - 1)));
        } else {
          var i :| FirstCheapestKey(c, adults, n - 1, i, prev.value);
          assert FirstCheapestKey(c, adults, n, i, prev.value);
        }
    }
  }

  /** A cabin has a best tariff iff one of its tariffs is priced; the best is
      the minimum over TARIFF_KEYS, the first such key on ties, with its link. */
  lemma BestTariffIsFirstMinimum(c: Cabin, adults: int)
    ensures BestTariff(c, adults).None? <==> forall k :: 0 <= k < |TARIFF_KEYS| ==> AmountAt(c, adults, k).None?
    ensures BestTariff(c, adults).Some? ==> exists i :: FirstCheapestKey(c, adults, |TARIFF_KEYS|, i, BestTariff(c, adults).value)
  {
    BestUpToIsFirstMinimum(c, adults, |TARIFF_KEYS|);
  }

  // ---------------------------------------------------------------- alternatives

  /** `trim((string)($c['cabinCode'] ?? ''))` */
  function CabinCode(c: Cabin): string {
    Trim(c.cabinCode.GetOr(""))
  }

  /** The display name of a cabin, falling back to its code and then to "Kabine". */
  function CabinName(c: Cabin): string {
    var code := CabinCode(c);
    var fallback := if StrTruthy(code) then code else "Kabine";
    var name := Trim(c.cabinName.GetOr(fallback));
    if StrTruthy(name) then name else fallback
  }

  /** Price per night per person: defined only for a positive duration and party size. */
  function PnpOf(amount: real, duration: int, adults: int): Option<real> {
    if duration > 0 && adults > 0 then Some(amount / duration as real / adults as real) else None
  }

  /** The `alternatives` entry of a cabin, absent when no tariff is priced. */
  function CabinEntry(c: Cabin, adults: int, duration: int): (e: Option<CabinPrice>)
    ensures e.Some? ==> e.value.pnp == PnpOf(e.value.amount, duration, adults)
  {
    match BestTariff(c, adults)
    case None => None
    case Some(b) => Some(CabinPrice(CabinName(c), b.amount, PnpOf(b.amount, duration, adults), b.link))
  }

  /** Each cabin's code paired with its `alternatives` entry (if any), in cabin order. */
  function CabinPairs(cabins: seq<Cabin>, adults: int, duration: int): (ps: seq<(string, Option<CabinPrice>)>)
    ensures |ps| == |cabins|
  {
    if cabins == [] then []
    else
      var c := cabins[|cabins| - 1];
      CabinPairs(cabins[..|cabins| - 1], adults, duration) + [(CabinCode(c), CabinEntry(c, adults, duration))]
  }

  lemma {:induction false} CabinPairsAt(cabins: seq<Cabin>, adults: int, duration: int, i: nat)
    requires i < |cabins|
    ensures CabinPairs(cabins, adults, duration)[i] == (CabinCode(cabins[i]), CabinEntry(cabins[i], adults, duration))
  {
    if i < |cabins| - 1 {
      CabinPairsAt(cabins[..|cabins| - 1], adults, duration, i);
    }
  }

  /** `$alts` after the first `n` cabins: each priced cabin is stored under
      its code, overwriting in place an earlier cabin with the same code. */
  function AltsUpTo(pairs: seq<(string, Option<CabinPrice>)>, n: nat): AltMap
    requires n <= |pairs|
  {
    if n == 0 then []
    else
      var prev := AltsUpTo(pairs, n - 1);
      match pairs[n - 1].1
      case None => prev
      case Some(e) => Put(prev, pairs[n - 1].0, e)
  }

  /** One turn of the cabin loop, in terms of the cabin's own entry. */
  lemma AltsUpToStep(cabins: seq<Cabin>, adults: int, duration: int, i: nat)
    requires i < |cabins|
    ensures var e := CabinEntry(cabins[i], adults, duration);
      AltsUpTo(CabinPairs(cabins, adults, duration), i + 1) ==
        if e.Some? then Put(AltsUpTo(CabinPairs(cabins, adults, duration), i), CabinCode(cabins[i]), e.value)
        else AltsUpTo(CabinPairs(cabins, adults, duration), i)
  {
    CabinPairsAt(cabins, adults, duration, i);
  }

  function Alternatives(cabins: seq<Cabin>, adults: int, duration: int): AltMap {
    AltsUpTo(CabinPairs(cabins, adults, duration), |cabins|)
  }

  /** Some of the first `n` pairs has code `code` and an entry. */
  ghost predicate PricedCode(pairs: seq<(string, Option<CabinPrice>)>, n: nat, code: string)
    requires n <= |pairs|
  {
    exists m :: 0 <= m < n && pairs[m].0 == code && pairs[m].1.Some?
  }

  /** Pair `m` is the last of the first `n` pairs with code `code` and an entry. */
  ghost predicate LastPricedWithCode(pairs: seq<(string, Option<CabinPrice>)>, n: nat, m: nat, code: string)
    requires n <= |pairs|
  {
    && m < n
    && pairs[m].0 == code
    && pairs[m].1.Some?
    && forall m' :: m < m' < n && pairs[m'].0 == code ==> pairs[m'].1.None?
  }

  lemma {:induction false} AltsUpToKeys(pairs: seq<(string, Option<CabinPrice>)>, n: nat)
    requires n <= |pairs|
    ensures UniqueKeys(AltsUpTo(pairs, n))
    ensures forall code :: HasKey(AltsUpTo(pairs, n), code) <==> PricedCode(pairs, n, code)
  {
    if n > 0 {
      AltsUpToKeys(pairs, n - 1);
      var prev := AltsUpTo(pairs, n - 1);
      var alts := AltsUpTo(pairs, n);
      if pairs[n - 1].1.Some? {
        PutProperties(prev, pairs[n - 1].0, pairs[n - 1].1.value);
      }
      forall code
        ensures HasKey(alts, code) <==> PricedCode(pairs, n, code)
      {
        if pairs[n - 1].1.Some? && code == pairs[n - 1].0 {
          assert HasKey(alts, code);
          assert PricedCode(pairs, n, code);
        } else {
          assert HasKey(alts, code) <==> HasKey(prev, code);
          if PricedCode(pairs, n, code) {
            var m :| 0 <= m < n && pairs[m].0 == code && pairs[m].1.Some?;
            assert PricedCode(pairs, n - 1, code);
          }
          if PricedCode(pairs, n - 1, code) {
            var m :| 0 <= m < n - 1 && pairs[m].0 == code && pairs[m].1.Some?;
            assert PricedCode(pairs, n, code);
          }
        }
      }
    }
  }

  /** Every entry of `alts` is the entry of the last of the first `n` pairs
      that has its code and an entry. */
  ghost predicate FromLastPriced(pairs: seq<(string, Option<CabinPrice>)>, n: nat, alts: AltMap)
    requires n <= |pairs|
  {
    forall i :: 0 <= i < |alts| ==>
      exists m: nat :: LastPricedWithCode(pairs, n, m, alts[i].0) && pairs[m].1 == Some(alts[i].1)
  }

  lemma {:induction false} AltsUpToEntries(pairs: seq<(string, Option<CabinPrice>)>, n: nat)
    requires n <= |pairs|
    ensures FromLastPriced(pairs, n, AltsUpTo(pairs, n))
  {
    if n > 0 {
      AltsUpToEntries(pairs, n - 1);
      var prev := AltsUpTo(pairs, n - 1);
      var alts := AltsUpTo(pairs, n);
      var code := pairs[n - 1].0;
      forall i | 0 <= i < |alts|
        ensures exists m: nat :: LastPricedWithCode(pairs, n, m, alts[i].0) && pairs[m].1 == Some(alts[i].1)
      {
        if pairs[n - 1].1.Some? && alts[i].0 == code {
          assert alts[i].1 == pairs[n - 1].1.value;
          assert LastPricedWithCode(pairs, n, n - 1, code);
        } else {
          assert i < |prev| && alts[i] == prev[i];
          var m: nat :| LastPricedWithCode(pairs, n - 1, m, prev[i].0) && pairs[m].1 == Some(prev[i].1);
          assert LastPricedWithCode(pairs, n, m, alts[i].0);
        }
      }
    }
  }

  /** The alternatives have unique cabin codes; a code is present iff some
      cabin with that code has a priced tariff (so an unpriced cabin is
      absent), and its entry is the entry of the last such cabin. */
  lemma AlternativesShape(cabins: seq<Cabin>, adults: int, duration: int)
    ensures var alts := Alternatives(cabins, adults, duration);
      && UniqueKeys(alts)
      && (forall code :: HasKey(alts, code) <==>
            exists m :: 0 <= m < |cabins| && CabinCode(cabins[m]) == code && CabinEntry(cabins[m], adults, duration).Some?)
      && (forall i :: 0 <= i < |alts| ==>
            exists m: nat :: m < |cabins| && CabinCode(cabins[m]) == alts[i].0
              && CabinEntry(cabins[m], adults, duration) == Some(alts[i].1)
              && forall m' :: m < m' < |cabins| && CabinCode(cabins[m']) == alts[i].0 ==> CabinEntry(cabins[m'], adults, duration).None?)
  {
    var pairs := CabinPairs(cabins, adults, duration);
    forall m | 0 <= m < |cabins|
      ensures pairs[m] == (CabinCode(cabins[m]), CabinEntry(cabins[m], adults, duration))
    {
      CabinPairsAt(cabins, adults, duration, m);
    }
    AltsUpToKeys(pairs, |cabins|);
    AltsUpToEntries(pairs, |cabins|);
  }

  /** Every entry carries the pnp of its own amount. */
  predicate PnpsMatch(alts: AltMap, duration: int, adults: int) {
    forall i :: 0 <= i < |alts| ==> alts[i].1.pnp == PnpOf(alts[i].1.amount, duration, adults)
  }

  lemma PutKeepsPnps(a: AltMap, k: string, v: CabinPrice, duration: int, adults: int)
    requires PnpsMatch(a, duration, adults) && v.pnp == PnpOf(v.amount, duration, adults)
    ensures PnpsMatch(Put(a, k, v), duration, adults)
  {
  }

  lemma {:induction false} AltsUpToPnp(pairs: seq<(string, Option<CabinPrice>)>, duration: int, adults: int, n: nat)
    requires n <= |pairs|
    requires forall m :: 0 <= m < |pairs| && pairs[m].1.Some? ==> pairs[m].1.value.pnp == PnpOf(pairs[m].1.value.amount, duration, adults)
    ensures PnpsMatch(AltsUpTo(pairs, n), duration, adults)
  {
    if n > 0 {
      AltsUpToPnp(pairs, duration, adults, n - 1);
      if pairs[n - 1].1.Some? {
        PutKeepsPnps(AltsUpTo(pairs, n - 1), pairs[n - 1].0, pairs[n - 1].1.value, duration, adults);
      }
    }
  }

  /** Every entry's pnp is its amount divided by the duration and the party
      size when both are positive, and null otherwise: within one call either
      every pnp is null or none is. */
  lemma PnpUniform(cabins: seq<Cabin>, adults: int, duration: int)
    ensures var alts := Alternatives(cabins, adults, duration);
      && (forall i :: 0 <= i < |alts| ==> alts[i].1.pnp == PnpOf(alts[i].1.amount, duration, adults))
      && (forall i :: 0 <= i < |alts| ==> (alts[i].1.pnp.Some? <==> duration > 0 && adults > 0))
  {
    var pairs := CabinPairs(cabins, adults, duration);
    forall m | 0 <= m < |cabins|
      ensures pairs[m].1 == CabinEntry(cabins[m], adults, duration)
    {
      CabinPairsAt(cabins, adults, duration, m);
    }
    AltsUpToPnp(pairs, duration, adults, |cabins|);
  }

  // ---------------------------------------------------------------- cheapest

  /** `$a < $b` where a null pnp reads as INF (INF < INF is false). */
  predicate PnpLess(a: Option<real>, b: Option<real>) {
    a.Some? && (b.None? || a.value < b.value)
  }

  /** The index of `$cheapest` after the first `n` entries: the first entry is
      taken unconditionally, a later one only when strictly cheaper. */
  function CheapestUpTo(alts: AltMap, n: nat): (r: Option<nat>)
    requires n <= |alts|
    ensures r.Some? ==> r.value < n
  {
    if n == 0 then None
    else
      var prev := CheapestUpTo(alts, n - 1);
      if prev.None? then Some(n - 1)
      else if PnpLess(alts[n - 1].1.pnp, alts[prev.value].1.pnp) then Some(n - 1)
      else prev
  }

  function CheapestOf(alts: AltMap): Option<Choice> {
    match CheapestUpTo(alts, |alts|)
    case None => None
    case Some(i) => Some(Choice(alts[i].0, alts[i].1))
  }

  lemma {:induction false} CheapestUpToIsFirstMinimum(alts: AltMap, n: nat)
    requires n <= |alts|
    ensures CheapestUpTo(alts, n).None? <==> n == 0
    ensures CheapestUpTo(alts, n).Some? ==>
      var i := CheapestUpTo(alts, n).value;
      && (forall j :: 0 <= j < n ==> !PnpLess(alts[j].1.pnp, alts[i].1.pnp))
      && (forall j :: 0 <= j < i ==> PnpLess(alts[i].1.pnp, alts[j].1.pnp))
  {
    if n > 1 {
      CheapestUpToIsFirstMinimum(alts, n - 1);
    }
  }

  /** `cheapest` is null iff there are no alternatives; otherwise it is an
      entry (with its own code) whose pnp no other entry beats, null counting
      as INF, and it beats every earlier entry strictly: the first of the
      minimal entries wins. */
  lemma CheapestIsFirstMinimum(alts: AltMap)
    ensures CheapestOf(alts).None? <==> alts == []
    ensures CheapestOf(alts).Some? ==>
      exists i :: 0 <= i < |alts|
        && CheapestOf(alts).value == Choice(alts[i].0, alts[i].1)
        && (forall j :: 0 <= j < |alts| ==> !PnpLess(alts[j].1.pnp, alts[i].1.pnp))
        && (forall j :: 0 <= j < i ==> PnpLess(alts[i].1.pnp, alts[j].1.pnp))
  {
    CheapestUpToIsFirstMinimum(alts, |alts|);
    if alts != [] {
      var i := CheapestUpTo(alts, |alts|).value;
      assert CheapestOf(alts).value == Choice(alts[i].0, alts[i].1);
    }
  }

  // ---------------------------------------------------------------- price timestamp

  /** `campaigns[0].validity.currentDate` of the tariff under key number `k`. */
  function DateAt(c: Cabin, k: nat): Value
    requires k < |TARIFF_KEYS|
  {
    if TARIFF_KEYS[k] in c.tariffs then c.tariffs[TARIFF_KEYS[k]].currentDate else Null
  }

  /** The first truthy campaign date of a cabin from key number `k` on. */
  function CabinDateFrom(c: Cabin, k: nat): Option<Value>
    requires k <= |TARIFF_KEYS|
    decreases |TARIFF_KEYS| - k
  {
    if k == |TARIFF_KEYS| then None
    else if Truthy(DateAt(c, k)) then Some(DateAt(c, k))
    else CabinDateFrom(c, k + 1)
  }

  /** The first truthy campaign date, scanning cabins in order and the tariff
      keys of each cabin in order. */
  function FirstCurrentDate(cabins: seq<Cabin>): Option<Value> {
    if cabins == [] then None
    else
      match CabinDateFrom(cabins[0], 0)
      case Some(d) => Some(d)
      case None => FirstCurrentDate(cabins[1..])
  }

  /** No tariff of the cabin has a truthy campaign date. */
  ghost predicate NoDate(c: Cabin) {
    forall k :: 0 <= k < |TARIFF_KEYS| ==> !Truthy(DateAt(c, k))
  }

  /** Key number `j` (at or after `k`) holds the cabin's first truthy campaign
      date from key number `k` on. */
  ghost predicate FirstDateFrom(c: Cabin, k: nat, j: nat) {
    && k <= j < |TARIFF_KEYS|
    && Truthy(DateAt(c, j))
    && forall j' :: k <= j' < j ==> !Truthy(DateAt(c, j'))
  }

  lemma {:induction false} CabinDateFromIsFirst(c: Cabin, k: nat)
    requires k <= |TARIFF_KEYS|
    ensures CabinDateFrom(c, k).None? ==> forall j :: k <= j < |TARIFF_KEYS| ==> !Truthy(DateAt(c, j))
    ensures CabinDateFrom(c, k).Some? ==>
      exists j: nat :: FirstDateFrom(c, k, j) && CabinDateFrom(c, k).value == DateAt(c, j)
    decreases |TARIFF_KEYS| - k
  {
    if k < |TARIFF_KEYS| {
      CabinDateFromIsFirst(c, k + 1);
      if Truthy(DateAt(c, k)) {
        assert FirstDateFrom(c, k, k);
      } else if CabinDateFrom(c, k + 1).Some? {
        var j: nat :| FirstDateFrom(c, k + 1, j) && CabinDateFrom(c, k + 1).value == DateAt(c, j);
        assert FirstDateFrom(c, k, j);
      }
    }
  }

  /** Cabin `m`, key `k` is the first (cabin, key) pair in scan order whose
      campaign date is truthy. */
  ghost predicate FirstDateAt(cabins: seq<Cabin>, m: nat, k: nat) {
    && m < |cabins|
    && FirstDateFrom(cabins[m], 0, k)
    && forall m' :: 0 <= m' < m ==> NoDate(cabins[m'])
  }

  /** The timestamp is found at the first (cabin, key) pair in scan order
      whose campaign date is truthy; none is found iff there is no such pair. */
  lemma {:induction false} FirstCurrentDateIsFirst(cabins: seq<Cabin>)
    ensures FirstCurrentDate(cabins).None? ==> forall m :: 0 <= m < |cabins| ==> NoDate(cabins[m])
    ensures FirstCurrentDate(cabins).Some? ==>
      exists m: nat, k: nat :: FirstDateAt(cabins, m, k) && FirstCurrentDate(cabins).value == DateAt(cabins[m], k)
  {
    if cabins != [] {
      var rest := cabins[1..];
      CabinDateFromIsFirst(cabins[0], 0);
      FirstCurrentDateIsFirst(rest);
      if CabinDateFrom(cabins[0], 0).Some? {
        var k: nat :| FirstDateFrom(cabins[0], 0, k) && CabinDateFrom(cabins[0], 0).value == DateAt(cabins[0], k);
        assert FirstDateAt(cabins, 0, k);
      } else {
        assert NoDate(cabins[0]);
        if FirstCurrentDate(rest).Some? {
          var m: nat, k: nat :| FirstDateAt(rest, m, k) && FirstCurrentDate(rest).value == DateAt(rest[m], k);
          assert cabins[m + 1] == rest[m];
          forall m' | 0 <= m' < m + 1
            ensures NoDate(cabins[m'])
          {
            if m' > 0 { assert cabins[m'] == rest[m' - 1]; }
          }
          assert FirstDateAt(cabins, m + 1, k);
        } else {
          forall m | 0 <= m < |cabins|
            ensures NoDate(cabins[m])
          {
            if m > 0 { assert cabins[m] == rest[m - 1]; }
          }
        }
      }
    }
  }

  /** `$lastAPIPriceUpdate`: the listing row's value, unless that is falsy and
      the payload has cabins, in which case the first campaign date found (if any). */
  function LastPriceUpdate(row: Record, detail: Option<Detail>): Value {
    var fromRow := Get(row, LastAPIPriceUpdate);
    if detail.Some? && |detail.value.cabins| > 0 && !Truthy(fromRow) then
      match FirstCurrentDate(detail.value.cabins)
      case Some(d) => d
      case None => fromRow
    else fromRow
  }

  /** The whole selection for one listing row and one detail payload. */
  function Select(row: Record, detail: Option<Detail>, adults: int): Selection {
    var duration := IntCast(Coalesce(Get(row, Duration), Int(0)));
    var alts := if detail.Some? then Alternatives(detail.value.cabins, adults, duration) else [];
    Selection(CheapestOf(alts), alts, LastPriceUpdate(row, detail))
  }

  /** The timestamp is the row's when truthy; otherwise the first campaign
      date in scan order; otherwise the row's (null when absent). `cheapest`
      is null iff `alternatives` is empty. */
  lemma SelectionProperties(row: Record, detail: Option<Detail>, adults: int)
    ensures var s := Select(row, detail, adults);
      && (Truthy(Get(row, LastAPIPriceUpdate)) ==> s.lastAPIPriceUpdate == row[LastAPIPriceUpdate])
      && (!Truthy(Get(row, LastAPIPriceUpdate)) && detail.Some? && FirstCurrentDate(detail.value.cabins).Some? ==>
            s.lastAPIPriceUpdate == FirstCurrentDate(detail.value.cabins).value && Truthy(s.lastAPIPriceUpdate))
      && (!Truthy(Get(row, LastAPIPriceUpdate)) && detail.Some? && FirstCurrentDate(detail.value.cabins).None? ==>
            s.lastAPIPriceUpdate == Get(row, LastAPIPriceUpdate))
      && (s.cheapest.None? <==> s.alternatives == [])
      && (detail.None? ==> s.alternatives == [] && s.lastAPIPriceUpdate == Get(row, LastAPIPriceUpdate))
  {
    var s := Select(row, detail, adults);
    CheapestIsFirstMinimum(s.alternatives);
    if detail.Some? && FirstCurrentDate(detail.value.cabins).Some? {
      FirstCurrentDateIsFirst(detail.value.cabins);
    }
  }

  // ---------------------------------------------------------------- the loops

  /** The scan over TARIFF_KEYS of one cabin. */
  method BestTariffOf(c: Cabin, adults: int) returns (best: Option<Best>)
    ensures best == BestTariff(c, adults)
  {
    best := None;
    var k := 0;
    while k < |TARIFF_KEYS|
      invariant 0 <= k <= |TARIFF_KEYS|
      invariant best == BestUpTo(c, adults, k)
    {
      var key := TARIFF_KEYS[k];
      if key in c.tariffs {
        var t := c.tariffs[key];
        var amt := TariffAmount(t, adults);
        if amt.Some? && (best.None? || amt.value < best.value.amount) {
          best := Some(Best(amt.value, BookingUrl(t)));
        }
      }
      k := k + 1;
    }
  }

  /** The nested scan for the first campaign date (`break 2` on the first hit). */
  method ScanCurrentDate(cabins: seq<Cabin>) returns (found: Option<Value>)
    ensures found == FirstCurrentDate(cabins)
  {
    var m := 0;
    while m < |cabins|
      invariant 0 <= m <= |cabins|
      invariant FirstCurrentDate(cabins) == FirstCurrentDate(cabins[m..])
    {
      var c := cabins[m];
      var k := 0;
      while k < |TARIFF_KEYS|
        invariant 0 <= k <= |TARIFF_KEYS|
        invariant CabinDateFrom(c, 0) == CabinDateFrom(c, k)
      {
        var key := TARIFF_KEYS[k];
        if key in c.tariffs && Truthy(c.tariffs[key].currentDate) {
          return Some(c.tariffs[key].currentDate);
        }
        k := k + 1;
      }
      assert cabins[m..][1..] == cabins[m + 1..];
      m := m + 1;
    }
    return None;
  }

  /** The loop that picks `$cheapest` among the alternatives. */
  method PickCheapest(alts: AltMap) returns (cheapest: Option<Choice>)
    ensures cheapest == CheapestOf(alts)
  {
    var best: Option<nat> := None;
    var i := 0;
    while i < |alts|
      invariant 0 <= i <= |alts|
      invariant best == CheapestUpTo(alts, i)
    {
      var (code, info) := alts[i];
      if best.None? {
        best := Some(i);
      } else if PnpLess(info.pnp, alts[best.value].1.pnp) {
        best := Some(i);
      }
      i := i + 1;
    }
    cheapest := if best.None? then None else Some(Choice(alts[best.value].0, alts[best.value].1));
  }

  /** One turn of the cabin loop: the cabin's best tariff and, when there is
      one, its entry stored under its code. */
  method AddCabin(cabins: seq<Cabin>, adults: int, duration: int, i: nat, alts: AltMap) returns (next: AltMap)
    requires i < |cabins| && alts == AltsUpTo(CabinPairs(cabins, adults, duration), i)
    ensures next == AltsUpTo(CabinPairs(cabins, adults, duration), i + 1)
  {
    var c := cabins[i];
    var best := BestTariffOf(c, adults);
    AltsUpToStep(cabins, adults, duration, i);
    next := alts;
    if best.Some? {
      var amount := best.value.amount;
      var pnp := if duration > 0 && adults > 0 then Some(amount / duration as real / adults as real) else None;
      next := Put(alts, CabinCode(c), CabinPrice(CabinName(c), amount, pnp, best.value.link));
    }
  }

  /** The loop over the cabins that builds `$alts`. */
  method BuildAlternatives(cabins: seq<Cabin>, adults: int, duration: int) returns (alts: AltMap)
    ensures alts == Alternatives(cabins, adults, duration)
  {
    alts := [];
    var i := 0;
    while i < |cabins|
      invariant 0 <= i <= |cabins|
      invariant alts == AltsUpTo(CabinPairs(cabins, adults, duration), i)
    {
      alts := AddCabin(cabins, adults, duration, i, alts);
      i := i + 1;
    }
  }

  /** `computeCheapestAndAlternatives($baseRow, $detail, $adults)`. */
  method ComputeCheapestAndAlternatives(row: Record, detail: Option<Detail>, adults: int) returns (sel: Selection)
    ensures sel == Select(row, detail, adults)
  {
    var duration := IntCast(Coalesce(Get(row, Duration), Int(0)));
    var lastUpdate := Get(row, LastAPIPriceUpdate);
    var alts: AltMap := [];
    if detail.Some? && |detail.value.cabins| > 0 {
      var cabins := detail.value.cabins;
      if !Truthy(lastUpdate) {
        var found := ScanCurrentDate(cabins);
        if found.Some? {
          lastUpdate := found.value;
        }
      }
      alts := BuildAlternatives(cabins, adults, duration);
    }
    var cheapest := PickCheapest(alts);
    sel := Selection(cheapest, alts, lastUpdate);
  }
}
