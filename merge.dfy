/** `mergeMeta` and `buildFindLink`: laying the fresh listing fields of a
    journey over a stored enriched record without losing its detail fields,
    and the booking-search link a record falls back to. */
module Merge {
  import opened Values

  const FIND_PREFIX: string := "https://aida.de/finden/"
  const FIND_MIDDLE: string := "/CLASSIC?pax[adults]="
  /** The remaining passenger counts of the search link, all zero. */
  const OTHER_PAX: string := "pax[juveniles]=0&pax[children]=0&pax[babies]=0"
  const FIND_SUFFIX: string := "&" + OTHER_PAX

  /** `buildFindLink($jid, $adults)` */
  function BuildFindLink(jid: string, adults: int): string {
    FIND_PREFIX + jid + FIND_MIDDLE + (IntToString(adults) + FIND_SUFFIX)
  }

  lemma ConcatSlices(p: string, j: string, m: string, t: string)
    ensures (p + j + m + t)[..|p|] == p
    ensures (p + j + m + t)[|p|..|p| + |j|] == j
    ensures (p + j + m + t)[|p| + |j| + |m|..] == t
  {
    var head := p + j;
    assert p + j + m + t == head + (m + t);
    assert head[..|p|] == p && head[|p|..] == j;
    assert p + j + m + t == (head + m) + t;
  }

  lemma FindLinkParts(jid: string, adults: int)
    ensures var link := BuildFindLink(jid, adults);
      && link[..|FIND_PREFIX|] == FIND_PREFIX
      && link[|FIND_PREFIX|..|FIND_PREFIX| + |jid|] == jid
      && link[|FIND_PREFIX| + |jid| + |FIND_MIDDLE|..] == IntToString(adults) + FIND_SUFFIX
  {
    ConcatSlices(FIND_PREFIX, jid, FIND_MIDDLE, IntToString(adults) + FIND_SUFFIX);
  }

  lemma SuffixStartsWithAmpersand()
    ensures |FIND_SUFFIX| > 0 && FIND_SUFFIX[0] == '&'
  {
  }

  /** The link is never empty, starts with the search URL, carries the
      journey id right after it, and the adult count written after
      `pax[adults]=` reads back as the count it was built from. */
  lemma FindLinkReadsBack(jid: string, adults: int)
    ensures StrTruthy(BuildFindLink(jid, adults))
    ensures BuildFindLink(jid, adults)[..|FIND_PREFIX|] == FIND_PREFIX
    ensures BuildFindLink(jid, adults)[|FIND_PREFIX|..|FIND_PREFIX| + |jid|] == jid
    ensures LeadingInt(BuildFindLink(jid, adults)[|FIND_PREFIX| + |jid| + |FIND_MIDDLE|..]) == adults
  {
    FindLinkParts(jid, adults);
    SuffixStartsWithAmpersand();
    IntToStringReadBack(adults, FIND_SUFFIX);
  }

  // ---------------------------------------------------------------- mergeMeta

  /** The listing fields `mergeMeta` copies from the fresh row. */
  const META_KEYS: seq<Key> := [Title, ShipName, StartDate, EndDate, Duration, RouteCode, RouteGroupCode, Adults, FlightIncluded]

  /** `$existing ?? $enrichedOrOld ?? []` (the second operand is never null). */
  function Base(existing: Option<Record>, enrichedOrOld: Record): Record {
    existing.GetOr(enrichedOrOld)
  }

  /** The journey id: the fresh row's when truthy, else the base's own, else
      the one of `$enrichedOrOld`. */
  function WithJid(dst: Record, enrichedOrOld: Record, freshBase: Record): Record {
    if Truthy(Get(freshBase, JourneyIdentifier)) then dst[JourneyIdentifier := freshBase[JourneyIdentifier]]
    else if Truthy(Get(dst, JourneyIdentifier)) then dst
    else if Truthy(Get(enrichedOrOld, JourneyIdentifier)) then dst[JourneyIdentifier := enrichedOrOld[JourneyIdentifier]]
    else dst
  }

  /** `$dst` after the first `n` turns of the loop over `META_KEYS`: each key
      present in the fresh row (even with a null value) is copied. */
  function CopyMeta(dst: Record, freshBase: Record, n: nat): Record
    requires n <= |META_KEYS|
  {
    if n == 0 then dst
    else
      var d := CopyMeta(dst, freshBase, n - 1);
      var k := META_KEYS[n - 1];
      if k in freshBase then d[k := freshBase[k]] else d
  }

  /** The fresh row's values under the meta keys. */
  function MetaOf(freshBase: Record, n: nat): map<Key, Value>
    requires n <= |META_KEYS|
  {
    map k | k in freshBase && k in META_KEYS[..n] :: freshBase[k]
  }

  /** A missing or empty link is rebuilt when the record has a truthy journey
      id and a truthy adult count. */
  function WithLink(dst: Record): Record {
    if !Truthy(Get(dst, AbsLink)) && Truthy(Get(dst, JourneyIdentifier)) && Truthy(Get(dst, Adults))
      && dst[JourneyIdentifier].Str?
    then dst[AbsLink := Str(BuildFindLink(dst[JourneyIdentifier].sval, IntCast(dst[Adults])))]
    else dst
  }

  /** `mergeMeta($existing, $enrichedOrOld, $freshBase)` */
  function Merged(existing: Option<Record>, enrichedOrOld: Record, freshBase: Record): Record {
    WithLink(CopyMeta(WithJid(Base(existing, enrichedOrOld), enrichedOrOld, freshBase), freshBase, |META_KEYS|))
  }

  /** The loop over the meta keys overlays the fresh row's meta fields. */
  lemma {:induction false} CopyMetaOverlays(dst: Record, freshBase: Record, n: nat)
    requires n <= |META_KEYS|
    ensures CopyMeta(dst, freshBase, n) == dst + MetaOf(freshBase, n)
  {
    if n > 0 {
      CopyMetaOverlays(dst, freshBase, n - 1);
      MetaOfStep(freshBase, n);
      var k := META_KEYS[n - 1];
      if k in freshBase {
        OverlayUpdate(dst, MetaOf(freshBase, n - 1), k, freshBase[k]);
      }
    }
  }

  /** One more meta key: the overlay gains that key when the fresh row has it. */
  lemma MetaOfStep(freshBase: Record, n: nat)
    requires 0 < n <= |META_KEYS|
    ensures var k := META_KEYS[n - 1];
      MetaOf(freshBase, n) == if k in freshBase then MetaOf(freshBase, n - 1)[k := freshBase[k]] else MetaOf(freshBase, n - 1)
  {
    assert META_KEYS[..n] == META_KEYS[..n - 1] + [META_KEYS[n - 1]];
  }

  lemma OverlayUpdate(dst: Record, m: Record, k: Key, v: Value)
    ensures (dst + m)[k := v] == dst + m[k := v]
  {
  }

  lemma JourneyIdNotMeta()
    ensures JourneyIdentifier !in META_KEYS && AbsLink !in META_KEYS
  {
  }

  /** The merged record is the base with the journey id settled, the fresh
      meta fields laid over it, and the link rebuilt only when missing:
      every other field of the base (the detail fields `cheapest`,
      `alternatives`, `amount`, `amountPerNightPerAdult`,
      `lastAPIPriceUpdate`, `listAmount`, ...) is kept as it was, and no field
      is removed. */
  lemma MergedKeepsDetails(existing: Option<Record>, enrichedOrOld: Record, freshBase: Record)
    ensures forall k :: k in Base(existing, enrichedOrOld) ==> k in Merged(existing, enrichedOrOld, freshBase)
    ensures forall k :: k !in META_KEYS && k != JourneyIdentifier && k != AbsLink ==>
      (k in Merged(existing, enrichedOrOld, freshBase) <==> k in Base(existing, enrichedOrOld))
      && (k in Base(existing, enrichedOrOld) ==> Merged(existing, enrichedOrOld, freshBase)[k] == Base(existing, enrichedOrOld)[k])
  {
    var b := Base(existing, enrichedOrOld);
    var j := WithJid(b, enrichedOrOld, freshBase);
    CopyMetaOverlays(j, freshBase, |META_KEYS|);
    assert META_KEYS[..|META_KEYS|] == META_KEYS;
  }

  /** One field outside the metadata, the journey id and the link: kept as
      the base has it, or absent as in the base. */
  lemma MergedKeepsField(existing: Option<Record>, enrichedOrOld: Record, freshBase: Record, k: Key)
    requires k !in META_KEYS && k != JourneyIdentifier && k != AbsLink
    ensures k in Merged(existing, enrichedOrOld, freshBase) <==> k in Base(existing, enrichedOrOld)
    ensures Get(Merged(existing, enrichedOrOld, freshBase), k) == Get(Base(existing, enrichedOrOld), k)
  {
    MergedKeepsDetails(existing, enrichedOrOld, freshBase);
  }

  /** Every meta key the fresh row has takes the fresh value. */
  lemma MergedTakesFreshMeta(existing: Option<Record>, enrichedOrOld: Record, freshBase: Record)
    ensures forall k :: k in META_KEYS && k in freshBase ==>
      k in Merged(existing, enrichedOrOld, freshBase) && Merged(existing, enrichedOrOld, freshBase)[k] == freshBase[k]
  {
    var o := MergedOverlay(existing, enrichedOrOld, freshBase);
    WithLinkOnlyLink(o);
    JourneyIdNotMeta();
  }

  /** A meta key the fresh row lacks keeps the base's value (or stays absent). */
  lemma MergedKeepsMissingMeta(existing: Option<Record>, enrichedOrOld: Record, freshBase: Record)
    ensures forall k :: k in META_KEYS && k !in freshBase ==>
      (k in Merged(existing, enrichedOrOld, freshBase) <==> k in Base(existing, enrichedOrOld))
      && (k in Base(existing, enrichedOrOld) ==> Merged(existing, enrichedOrOld, freshBase)[k] == Base(existing, enrichedOrOld)[k])
  {
    var o := MergedOverlay(existing, enrichedOrOld, freshBase);
    WithLinkOnlyLink(o);
    JourneyIdNotMeta();
  }

  /** The merged record before its link is settled: the base with the journey
      id settled and the fresh meta fields laid over it. */
  lemma MergedOverlay(existing: Option<Record>, enrichedOrOld: Record, freshBase: Record) returns (o: Record)
    ensures Merged(existing, enrichedOrOld, freshBase) == WithLink(o)
    ensures forall k :: k in META_KEYS && k in freshBase ==> k in o && o[k] == freshBase[k]
    ensures forall k :: !(k in META_KEYS && k in freshBase) && k != JourneyIdentifier ==>
      (k in o <==> k in Base(existing, enrichedOrOld)) && (k in o ==> o[k] == Base(existing, enrichedOrOld)[k])
  {
    var j := WithJid(Base(existing, enrichedOrOld), enrichedOrOld, freshBase);
    CopyMetaOverlays(j, freshBase, |META_KEYS|);
    assert META_KEYS[..|META_KEYS|] == META_KEYS;
    o := j + MetaOf(freshBase, |META_KEYS|);
  }

  /** Settling the link touches no other field and never drops the link. */
  lemma WithLinkOnlyLink(d: Record)
    ensures forall k :: k != AbsLink ==> (k in WithLink(d) <==> k in d) && (k in d ==> WithLink(d)[k] == d[k])
    ensures AbsLink in d ==> AbsLink in WithLink(d)
  {
  }

  /** The journey id is the fresh row's when truthy, else the base's when
      truthy, else the one of `$enrichedOrOld` when truthy, else untouched. */
  lemma MergedJourneyId(existing: Option<Record>, enrichedOrOld: Record, freshBase: Record)
    ensures var r := Merged(existing, enrichedOrOld, freshBase); var b := Base(existing, enrichedOrOld);
      && (Truthy(Get(freshBase, JourneyIdentifier)) ==> Get(r, JourneyIdentifier) == freshBase[JourneyIdentifier])
      && (!Truthy(Get(freshBase, JourneyIdentifier)) && Truthy(Get(b, JourneyIdentifier)) ==> Get(r, JourneyIdentifier) == b[JourneyIdentifier])
      && (!Truthy(Get(freshBase, JourneyIdentifier)) && !Truthy(Get(b, JourneyIdentifier)) && Truthy(Get(enrichedOrOld, JourneyIdentifier)) ==>
            Get(r, JourneyIdentifier) == enrichedOrOld[JourneyIdentifier])
      && (!Truthy(Get(freshBase, JourneyIdentifier)) && !Truthy(Get(b, JourneyIdentifier)) && !Truthy(Get(enrichedOrOld, JourneyIdentifier)) ==>
            Get(r, JourneyIdentifier) == Get(b, JourneyIdentifier))
  {
    var b := Base(existing, enrichedOrOld);
    var j := WithJid(b, enrichedOrOld, freshBase);
    CopyMetaOverlays(j, freshBase, |META_KEYS|);
    assert META_KEYS[..|META_KEYS|] == META_KEYS;
  }

  /** A truthy link is never replaced; a missing or empty one is rebuilt from
      the merged record's journey id and adult count when both are truthy. */
  lemma MergedLink(existing: Option<Record>, enrichedOrOld: Record, freshBase: Record)
    ensures var r := Merged(existing, enrichedOrOld, freshBase); var b := Base(existing, enrichedOrOld);
      && (Truthy(Get(b, AbsLink)) ==> Get(r, AbsLink) == Get(b, AbsLink))
      && (!Truthy(Get(b, AbsLink)) && Truthy(Get(r, JourneyIdentifier)) && r[JourneyIdentifier].Str? && Truthy(Get(r, Adults)) ==>
            r[AbsLink] == Str(BuildFindLink(r[JourneyIdentifier].sval, IntCast(r[Adults]))))
      && (Truthy(Get(r, JourneyIdentifier)) && r[JourneyIdentifier].Str? && Truthy(Get(r, Adults)) ==> Truthy(Get(r, AbsLink)))
  {
    var b := Base(existing, enrichedOrOld);
    var j := WithJid(b, enrichedOrOld, freshBase);
    var c := CopyMeta(j, freshBase, |META_KEYS|);
    CopyMetaOverlays(j, freshBase, |META_KEYS|);
    assert META_KEYS[..|META_KEYS|] == META_KEYS;
    assert Get(c, AbsLink) == Get(b, AbsLink);
    if !Truthy(Get(c, AbsLink)) && Truthy(Get(c, JourneyIdentifier)) && Truthy(Get(c, Adults)) && c[JourneyIdentifier].Str? {
      FindLinkReadsBack(c[JourneyIdentifier].sval, IntCast(c[Adults]));
    }
  }

  /** Merging a merged record again with the same fresh row changes nothing. */
  lemma MergedIdempotent(existing: Option<Record>, enrichedOrOld: Record, freshBase: Record)
    ensures var r := Merged(existing, enrichedOrOld, freshBase);
      Merged(Some(r), r, freshBase) == r
  {
    var r := Merged(existing, enrichedOrOld, freshBase);
    MergedKeepsDetails(existing, enrichedOrOld, freshBase);
    MergedTakesFreshMeta(existing, enrichedOrOld, freshBase);
    MergedKeepsMissingMeta(existing, enrichedOrOld, freshBase);
    MergedJourneyId(existing, enrichedOrOld, freshBase);
    MergedLink(existing, enrichedOrOld, freshBase);
    var j := WithJid(r, r, freshBase);
    assert j == r;
    CopyMetaOverlays(j, freshBase, |META_KEYS|);
    assert META_KEYS[..|META_KEYS|] == META_KEYS;
    assert CopyMeta(j, freshBase, |META_KEYS|) == r;
  }

  /** The loop body of `mergeMeta` over the meta keys. */
  method MergeMeta(existing: Option<Record>, enrichedOrOld: Record, freshBase: Record) returns (dst: Record)
    ensures dst == Merged(existing, enrichedOrOld, freshBase)
  {
    dst := if existing.Some? then existing.value else enrichedOrOld;
    if Truthy(Get(freshBase, JourneyIdentifier)) {
      dst := dst[JourneyIdentifier := freshBase[JourneyIdentifier]];
    } else if Truthy(Get(dst, JourneyIdentifier)) {
      // already there
    } else if Truthy(Get(enrichedOrOld, JourneyIdentifier)) {
      dst := dst[JourneyIdentifier := enrichedOrOld[JourneyIdentifier]];
    }
    ghost var withJid := dst;
    var n := 0;
    while n < |META_KEYS|
      invariant 0 <= n <= |META_KEYS|
      invariant dst == CopyMeta(withJid, freshBase, n)
    {
      var k := META_KEYS[n];
      if k in freshBase {
        dst := dst[k := freshBase[k]];
      }
      n := n + 1;
    }
    if !Truthy(Get(dst, AbsLink)) && Truthy(Get(dst, JourneyIdentifier)) && Truthy(Get(dst, Adults))
      && dst[JourneyIdentifier].Str?
    {
      dst := dst[AbsLink := Str(BuildFindLink(dst[JourneyIdentifier].sval, IntCast(dst[Adults])))];
    }
  }
}
