/** The cabin categories and the two display-side helpers built on them:
    the minimum-category filter over `alternatives` and the choice of the
    cheapest remaining entry by price per night and adult. */
module Cabins {
  import opened Values
  import Selector

  /** `CABIN_RANK`: the cabin category codes from lowest to highest
      (inside, sea view, balcony, veranda, comfort, deluxe, patio, junior
      suite, suite). */
  const CABIN_ORDER: seq<string> := ["I", "M", "B", "V", "K", "D", "P", "J", "S"]

  /** The 1-based position of `code` in `CABIN_ORDER` at or after `k`, 0 when absent. */
  function RankFrom(code: string, k: nat): nat
    requires k <= |CABIN_ORDER|
    decreases |CABIN_ORDER| - k
  {
    if k == |CABIN_ORDER| then 0
    else if CABIN_ORDER[k] == code then k + 1
    else RankFrom(code, k + 1)
  }

  /** `cabinRank($code)`: the category's rank, 0 for an unknown code. */
  function CabinRank(code: string): nat {
    RankFrom(code, 0)
  }

  lemma {:induction false} RankFromIsPosition(code: string, k: nat)
    requires k <= |CABIN_ORDER|
    ensures RankFrom(code, k) == 0 <==> forall i :: k <= i < |CABIN_ORDER| ==> CABIN_ORDER[i] != code
    ensures RankFrom(code, k) > 0 ==> k < RankFrom(code, k) <= |CABIN_ORDER| && CABIN_ORDER[RankFrom(code, k) - 1] == code
    decreases |CABIN_ORDER| - k
  {
    if k < |CABIN_ORDER| && CABIN_ORDER[k] != code {
      RankFromIsPosition(code, k + 1);
    }
  }

  /** A code's rank is its 1-based position in `CABIN_ORDER`, and 0 exactly
      when the code is not a known category. */
  lemma CabinRankIsPosition(code: string)
    ensures CabinRank(code) <= |CABIN_ORDER|
    ensures CabinRank(code) == 0 <==> code !in CABIN_ORDER
    ensures CabinRank(code) > 0 ==> CABIN_ORDER[CabinRank(code) - 1] == code
  {
    RankFromIsPosition(code, 0);
  }

  /** The ranks follow the order of `CABIN_ORDER`: a later category ranks strictly higher. */
  lemma CabinRankIncreasing(i: nat, j: nat)
    requires i < j < |CABIN_ORDER|
    ensures 0 < CabinRank(CABIN_ORDER[i]) < CabinRank(CABIN_ORDER[j])
  {
    CabinRankIsPosition(CABIN_ORDER[i]);
    CabinRankIsPosition(CABIN_ORDER[j]);
    assert forall a, b :: 0 <= a < b < |CABIN_ORDER| ==> CABIN_ORDER[a] != CABIN_ORDER[b];
  }

  // ---------------------------------------------------------------- minimum category

  /** The entries among the first `n` whose code ranks at least `minRank`, in order. */
  function KeptUpTo(alts: AltMap, minRank: nat, n: nat): (out: AltMap)
    requires n <= |alts|
    ensures |out| <= n
  {
    if n == 0 then []
    else if CabinRank(alts[n - 1].0) >= minRank then KeptUpTo(alts, minRank, n - 1) + [alts[n - 1]]
    else KeptUpTo(alts, minRank, n - 1)
  }

  /** `filterAlternativesByMinCabin($alts, $minCabin)` */
  function FilterByMinCabin(alts: AltMap, minCabin: string): AltMap {
    if !StrTruthy(minCabin) then alts else KeptUpTo(alts, CabinRank(minCabin), |alts|)
  }

  lemma {:induction false} KeptUpToMembers(alts: AltMap, minRank: nat, n: nat)
    requires n <= |alts|
    ensures forall e :: e in KeptUpTo(alts, minRank, n) <==> e in alts[..n] && CabinRank(e.0) >= minRank
  {
    if n > 0 {
      KeptUpToMembers(alts, minRank, n - 1);
      assert alts[..n] == alts[..n - 1] + [alts[n - 1]];
    }
  }

  lemma {:induction false} KeptUpToKeys(alts: AltMap, minRank: nat, n: nat)
    requires n <= |alts| && UniqueKeys(alts)
    ensures UniqueKeys(KeptUpTo(alts, minRank, n))
    ensures forall k :: HasKey(KeptUpTo(alts, minRank, n), k) ==> exists m :: 0 <= m < n && alts[m].0 == k
  {
    if n > 0 {
      KeptUpToKeys(alts, minRank, n - 1);
      var prev := KeptUpTo(alts, minRank, n - 1);
      var out := KeptUpTo(alts, minRank, n);
      forall k | HasKey(out, k)
        ensures exists m :: 0 <= m < n && alts[m].0 == k
      {
        var i :| 0 <= i < |out| && out[i].0 == k;
        if i < |prev| {
          assert prev[i].0 == k;
          assert HasKey(prev, k);
        } else {
          assert alts[n - 1].0 == k;
        }
      }
      if CabinRank(alts[n - 1].0) >= minRank {
        forall i | 0 <= i < |prev|
          ensures prev[i].0 != alts[n - 1].0
        {
          assert HasKey(prev, prev[i].0);
        }
      }
    }
  }

  /** One turn of the filter loop: a kept entry's code is not yet in `$out`,
      so the assignment appends it. */
  lemma KeptUpToStep(alts: AltMap, minRank: nat, i: nat)
    requires i < |alts| && UniqueKeys(alts) && CabinRank(alts[i].0) >= minRank
    ensures Put(KeptUpTo(alts, minRank, i), alts[i].0, alts[i].1) == KeptUpTo(alts, minRank, i + 1)
  {
    KeptUpToKeys(alts, minRank, i);
    assert !HasKey(KeptUpTo(alts, minRank, i), alts[i].0);
  }

  /** Without a truthy minimum the alternatives are returned as they are;
      otherwise exactly the entries whose category ranks at least as high as
      the minimum survive, in their order, still keyed uniquely. An unknown
      minimum ranks 0 and keeps everything. */
  lemma FilterByMinCabinProperties(alts: AltMap, minCabin: string)
    requires UniqueKeys(alts)
    ensures !StrTruthy(minCabin) ==> FilterByMinCabin(alts, minCabin) == alts
    ensures StrTruthy(minCabin) ==> forall e :: e in FilterByMinCabin(alts, minCabin) <==> e in alts && CabinRank(e.0) >= CabinRank(minCabin)
    ensures UniqueKeys(FilterByMinCabin(alts, minCabin))
  {
    KeptUpToMembers(alts, CabinRank(minCabin), |alts|);
    KeptUpToKeys(alts, CabinRank(minCabin), |alts|);
    assert alts[..|alts|] == alts;
  }

  lemma {:induction false} KeptUpToAll(alts: AltMap, n: nat)
    requires n <= |alts|
    ensures KeptUpTo(alts, 0, n) == alts[..n]
  {
    if n > 0 {
      KeptUpToAll(alts, n - 1);
      assert alts[..n] == alts[..n - 1] + [alts[n - 1]];
    }
  }

  /** A minimum category that is not in the table ranks 0 and filters nothing out. */
  lemma FilterByUnknownCabin(alts: AltMap, minCabin: string)
    requires minCabin !in CABIN_ORDER
    ensures FilterByMinCabin(alts, minCabin) == alts
  {
    CabinRankIsPosition(minCabin);
    KeptUpToAll(alts, |alts|);
    assert alts[..|alts|] == alts;
  }

  /** The loop of `filterAlternativesByMinCabin`, assigning `$out[$code] = $info`. */
  method FilterAlternativesByMinCabin(alts: AltMap, minCabin: string) returns (out: AltMap)
    requires UniqueKeys(alts)
    ensures out == FilterByMinCabin(alts, minCabin)
  {
    if !StrTruthy(minCabin) {
      return alts;
    }
    var minRank := CabinRank(minCabin);
    out := [];
    var i := 0;
    while i < |alts|
      invariant 0 <= i <= |alts|
      invariant out == KeptUpTo(alts, minRank, i)
    {
      var (code, info) := alts[i];
      if CabinRank(code) >= minRank {
        KeptUpToStep(alts, minRank, i);
        out := Put(out, code, info);
      }
      i := i + 1;
    }
  }

  // ---------------------------------------------------------------- cheapest by pnp

  /** The index of `$best` after the first `n` entries: entries without a pnp
      are skipped; an entry replaces the current best only when its pnp is
      strictly lower. */
  function PickUpTo(alts: AltMap, n: nat): (r: Option<nat>)
    requires n <= |alts|
    ensures r.Some? ==> r.value < n && alts[r.value].1.pnp.Some?
  {
    if n == 0 then None
    else
      var prev := PickUpTo(alts, n - 1);
      var p := alts[n - 1].1.pnp;
      if p.None? then prev
      else if prev.None? || p.value < alts[prev.value].1.pnp.value then Some(n - 1)
      else prev
  }

  /** `pickCheapestFromAlts($alts)`: the chosen entry with its code. */
  function PickCheapestOf(alts: AltMap): Option<Choice> {
    match PickUpTo(alts, |alts|)
    case None => None
    case Some(i) => Some(Choice(alts[i].0, alts[i].1))
  }

  /** Entry `i` has a pnp no entry below `n` undercuts, and every earlier entry
      with a pnp is strictly dearer. */
  ghost predicate FirstLowestPnp(alts: AltMap, n: nat, i: nat)
    requires n <= |alts|
  {
    i < n && alts[i].1.pnp.Some?
    && (forall j :: 0 <= j < n && alts[j].1.pnp.Some? ==> alts[i].1.pnp.value <= alts[j].1.pnp.value)
    && (forall j :: 0 <= j < i && alts[j].1.pnp.Some? ==> alts[i].1.pnp.value < alts[j].1.pnp.value)
  }

  lemma {:induction false} PickUpToIsFirstLowest(alts: AltMap, n: nat)
    requires n <= |alts|
    ensures PickUpTo(alts, n).None? <==> forall j :: 0 <= j < n ==> alts[j].1.pnp.None?
    ensures PickUpTo(alts, n).Some? ==> FirstLowestPnp(alts, n, PickUpTo(alts, n).value)
  {
    if n > 0 {
      PickUpToIsFirstLowest(alts, n - 1);
    }
  }

  /** The result is null exactly when no entry has a pnp; otherwise it is the
      first entry with the lowest pnp, under its own code. */
  lemma PickCheapestProperties(alts: AltMap)
    ensures PickCheapestOf(alts).None? <==> forall j :: 0 <= j < |alts| ==> alts[j].1.pnp.None?
    ensures PickCheapestOf(alts).Some? ==>
      exists i: nat :: FirstLowestPnp(alts, |alts|, i) && PickCheapestOf(alts).value == Choice(alts[i].0, alts[i].1)
  {
    PickUpToIsFirstLowest(alts, |alts|);
    if PickUpTo(alts, |alts|).Some? {
      var i := PickUpTo(alts, |alts|).value;
      assert FirstLowestPnp(alts, |alts|, i) && PickCheapestOf(alts).value == Choice(alts[i].0, alts[i].1);
    }
  }

  lemma {:induction false} PickUpToAgrees(alts: AltMap, n: nat)
    requires n <= |alts|
    ensures PickUpTo(alts, n).Some? ==> PickUpTo(alts, n) == Selector.CheapestUpTo(alts, n)
    ensures PickUpTo(alts, n).None? && n > 0 ==>
      Selector.CheapestUpTo(alts, n).Some? && alts[Selector.CheapestUpTo(alts, n).value].1.pnp.None?
  {
    if n > 0 {
      PickUpToAgrees(alts, n - 1);
    }
  }

  /** When at least one entry has a pnp, the display-side pick and the
      `cheapest` of the update agree: both take the first entry with the
      lowest pnp. */
  lemma PickCheapestAgreesWithUpdate(alts: AltMap)
    requires exists j :: 0 <= j < |alts| && alts[j].1.pnp.Some?
    ensures PickCheapestOf(alts) == Selector.CheapestOf(alts)
  {
    PickUpToIsFirstLowest(alts, |alts|);
    PickUpToAgrees(alts, |alts|);
  }

  /** The loop of `pickCheapestFromAlts`. */
  method PickCheapestFromAlts(alts: AltMap) returns (best: Option<Choice>)
    ensures best == PickCheapestOf(alts)
  {
    var bestIndex: Option<nat> := None;
    var i := 0;
    while i < |alts|
      invariant 0 <= i <= |alts|
      invariant bestIndex == PickUpTo(alts, i)
    {
      var p := alts[i].1.pnp;
      if p.Some? && (bestIndex.None? || p.value < alts[bestIndex.value].1.pnp.value) {
        bestIndex := Some(i);
      }
      i := i + 1;
    }
    best := if bestIndex.None? then None else Some(Choice(alts[bestIndex.value].0, alts[bestIndex.value].1));
  }
}
