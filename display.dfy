/** The web page's row filters (ship names and trip length) and the price
    deltas shown against the previous cache. */
module Display {
  import opened Values

  // ---------------------------------------------------------------- strings

  /** `explode(',', $s)`: the pieces between the commas; an empty string
      gives one empty piece. */
  function Explode(s: string): (parts: seq<string>)
    ensures |parts| >= 1
  {
    if |s| == 0 then [""]
    else
      var rest := Explode(s[1..]);
      if s[0] == ',' then [""] + rest else [[s[0]] + rest[0]] + rest[1..]
  }

  /** `implode(',', $parts)` */
  function Implode(parts: seq<string>): string
    requires |parts| >= 1
  {
    if |parts| == 1 then parts[0] else parts[0] + "," + Implode(parts[1..])
  }

  /** No piece contains a comma, and joining the pieces with commas gives
      the string back. */
  lemma {:induction false} ExplodeRoundTrip(s: string)
    ensures forall k :: 0 <= k < |Explode(s)| ==> ',' !in Explode(s)[k]
    ensures Implode(Explode(s)) == s
  {
    if |s| > 0 {
      ExplodeRoundTrip(s[1..]);
      var rest := Explode(s[1..]);
      if s[0] == ',' {
        assert Explode(s)[1..] == rest;
        assert s == "" + "," + s[1..];
      } else {
        var parts := Explode(s);
        assert parts[0] == [s[0]] + rest[0];
        assert parts[1..] == rest[1..];
        forall k | 0 <= k < |parts|
          ensures ',' !in parts[k]
        {
          if k > 0 {
            assert parts[k] == rest[k];
          }
        }
        if |rest| == 1 {
          assert s == [s[0]] + s[1..];
        } else {
          assert Implode(rest) == rest[0] + "," + Implode(rest[1..]);
          assert Implode(parts) == ([s[0]] + rest[0]) + "," + Implode(rest[1..]);
          assert s == [s[0]] + s[1..];
        }
      }
    }
  }

  /** ASCII lower-casing (`mb_strtolower` restricted to ASCII). */
  function LowerChar(c: char): char {
    if 'A' <= c <= 'Z' then (c as int + 32) as char else c
  }

  function Lower(s: string): (t: string)
    ensures |t| == |s| && forall i :: 0 <= i < |s| ==> t[i] == LowerChar(s[i])
  {
    seq(|s|, i requires 0 <= i < |s| => LowerChar(s[i]))
  }

  predicate OccursAt(hay: string, needle: string, i: nat) {
    i + |needle| <= |hay| && hay[i..i + |needle|] == needle
  }

  /** `str_contains($hay, $needle)` */
  predicate Contains(hay: string, needle: string) {
    exists i :: 0 <= i <= |hay| - |needle| && OccursAt(hay, needle, i)
  }

  /** `(string)$v` for the values a ship name can hold; a float is not
      formatted and reads as empty, an array reads as "Array". */
  function StrOf(v: Value): string {
    match v
    case Null => ""
    case Bool(b) => if b then "1" else ""
    case Int(i) => IntToString(i)
    case Float(_) => ""
    case Str(s) => s
    case ChoiceVal(_) => "Array"
    case AltsVal(_) => "Array"
  }

  // ---------------------------------------------------------------- applyFilters

  /** `array_filter(array_map('trim', explode(',', $shipFilt ?: '')))`: the
      trimmed pieces, without the falsy ones ("" and "0"). */
  function TruthyOnly(ps: seq<string>): (out: seq<string>)
    ensures forall k :: 0 <= k < |out| ==> StrTruthy(out[k])
    ensures forall p :: p in out <==> p in ps && StrTruthy(p)
  {
    if |ps| == 0 then []
    else
      var rest := TruthyOnly(ps[..|ps| - 1]);
      assert ps == ps[..|ps| - 1] + [ps[|ps| - 1]];
      if StrTruthy(ps[|ps| - 1]) then rest + [ps[|ps| - 1]] else rest
  }

  /** `array_map('trim', $parts)` */
  function TrimAll(parts: seq<string>): (ts: seq<string>)
    ensures |ts| == |parts| && forall i :: 0 <= i < |parts| ==> ts[i] == Trim(parts[i])
  {
    seq(|parts|, i requires 0 <= i < |parts| => Trim(parts[i]))
  }

  function Needles(shipFilt: string): seq<string> {
    TruthyOnly(TrimAll(Explode(shipFilt)))
  }

  /** The ship filter keeps a record when there is no needle, or when some
      needle, lower-cased, occurs in the lower-cased ship name. */
  predicate ShipOk(r: Record, needles: seq<string>) {
    |needles| == 0
    || exists k :: 0 <= k < |needles| && needles[k] != "" && Contains(Lower(StrOf(Get(r, ShipName))), Lower(needles[k]))
  }

  /** `(int)($r['duration'] ?? 0)` */
  function DurationOf(r: Record): int {
    IntCast(Coalesce(Get(r, Duration), Int(0)))
  }

  /** A bound of 0 is switched off, and a record whose duration reads as 0
      passes both bounds. */
  predicate NightsOk(r: Record, minNights: int, maxNights: int) {
    var dur := DurationOf(r);
    !(minNights != 0 && dur != 0 && dur < minNights) && !(maxNights != 0 && dur != 0 && dur > maxNights)
  }

  predicate Keep(r: Record, needles: seq<string>, minNights: int, maxNights: int) {
    ShipOk(r, needles) && NightsOk(r, minNights, maxNights)
  }

  function FilterRows(rows: seq<Record>, needles: seq<string>, minNights: int, maxNights: int): seq<Record> {
    if |rows| == 0 then []
    else
      var rest := FilterRows(rows[..|rows| - 1], needles, minNights, maxNights);
      if Keep(rows[|rows| - 1], needles, minNights, maxNights) then rest + [rows[|rows| - 1]] else rest
  }

  /** `applyFilters($rows, $shipFilt, '', '', $minNights, $maxNights)` */
  function ApplyFilters(rows: seq<Record>, shipFilt: string, minNights: int, maxNights: int): seq<Record> {
    FilterRows(rows, Needles(shipFilt), minNights, maxNights)
  }

  /** The filter keeps exactly the records that pass both tests. */
  lemma {:induction false} FilterRowsMembers(rows: seq<Record>, needles: seq<string>, minNights: int, maxNights: int)
    ensures forall r :: r in FilterRows(rows, needles, minNights, maxNights) <==> r in rows && Keep(r, needles, minNights, maxNights)
  {
    if |rows| > 0 {
      FilterRowsMembers(rows[..|rows| - 1], needles, minNights, maxNights);
      assert rows == rows[..|rows| - 1] + [rows[|rows| - 1]];
    }
  }

  /** Filtering a concatenation filters each part: the kept records stay in
      their order. */
  lemma {:induction false} FilterRowsAppend(a: seq<Record>, b: seq<Record>, needles: seq<string>, minNights: int, maxNights: int)
    ensures FilterRows(a + b, needles, minNights, maxNights) == FilterRows(a, needles, minNights, maxNights) + FilterRows(b, needles, minNights, maxNights)
  {
    if |b| > 0 {
      var b' := b[..|b| - 1];
      FilterRowsAppend(a, b', needles, minNights, maxNights);
      assert (a + b)[..|a + b| - 1] == a + b';
      assert (a + b)[|a + b| - 1] == b[|b| - 1];
    } else {
      assert a + b == a;
    }
  }

  /** An empty ship filter has no needles. */
  lemma EmptyShipFilter()
    ensures Needles("") == []
  {
    var parts := Explode("");
    assert parts == [""];
    var trimmed := seq(|parts|, i requires 0 <= i < |parts| => Trim(parts[i]));
    assert trimmed == [""];
  }

  /** Lower-casing commutes with taking a slice. */
  lemma LowerSlice(s: string, i: nat, j: nat)
    requires i <= j <= |s|
    ensures Lower(s)[i..j] == Lower(s[i..j])
  {
  }

  /** A needle that occurs in the ship name as written, or in any other
      ASCII case, keeps the record. */
  lemma ShipMatchIgnoresCase(r: Record, needles: seq<string>, k: nat, ship: string)
    requires k < |needles| && needles[k] != ""
    requires Lower(StrOf(Get(r, ShipName))) == Lower(ship) && Contains(ship, needles[k])
    ensures ShipOk(r, needles)
  {
    var n := needles[k];
    var i :| 0 <= i <= |ship| - |n| && OccursAt(ship, n, i);
    LowerSlice(ship, i, i + |n|);
    assert OccursAt(Lower(ship), Lower(n), i);
  }

  /** With no needle and no bound the filter keeps every record. */
  lemma {:induction false} NoFilterKeepsAll(rows: seq<Record>)
    ensures FilterRows(rows, [], 0, 0) == rows
  {
    if |rows| > 0 {
      NoFilterKeepsAll(rows[..|rows| - 1]);
      assert rows == rows[..|rows| - 1] + [rows[|rows| - 1]];
    }
  }

  /** With both bounds on, a record with a known length passes exactly when
      its length lies in the window; an unknown length always passes. */
  lemma NightsWindow(r: Record, minNights: int, maxNights: int)
    ensures DurationOf(r) == 0 ==> NightsOk(r, minNights, maxNights)
    ensures DurationOf(r) != 0 && minNights != 0 && maxNights != 0 ==>
      (NightsOk(r, minNights, maxNights) <==> minNights <= DurationOf(r) <= maxNights)
  {
  }

  /** Every needle is a truthy, comma-free piece of the filter text without
      surrounding white space. */
  lemma NeedlesShape(shipFilt: string)
    ensures forall k :: 0 <= k < |Needles(shipFilt)| ==>
      var n := Needles(shipFilt)[k];
      StrTruthy(n) && ',' !in n && !TrimChar(n[0]) && !TrimChar(n[|n| - 1])
  {
    forall k | 0 <= k < |Needles(shipFilt)|
      ensures var n := Needles(shipFilt)[k];
        StrTruthy(n) && ',' !in n && !TrimChar(n[0]) && !TrimChar(n[|n| - 1])
    {
      NeedleShape(shipFilt, k);
    }
  }

  lemma NeedleShape(shipFilt: string, k: nat)
    requires k < |Needles(shipFilt)|
    ensures var n := Needles(shipFilt)[k];
      StrTruthy(n) && ',' !in n && !TrimChar(n[0]) && !TrimChar(n[|n| - 1])
  {
    var parts := Explode(shipFilt);
    var n := Needles(shipFilt)[k];
    assert n in Needles(shipFilt);
    ExplodeCommaFree(shipFilt);
    PieceShape(parts, n);
  }

  lemma ExplodeCommaFree(s: string)
    ensures forall k :: 0 <= k < |Explode(s)| ==> ',' !in Explode(s)[k]
  {
    ExplodeRoundTrip(s);
  }

  /** A truthy trimmed piece of comma-free parts is comma-free and has no
      white space at its ends. */
  lemma PieceShape(parts: seq<string>, n: string)
    requires n in TrimAll(parts) && StrTruthy(n)
    requires forall k :: 0 <= k < |parts| ==> ',' !in parts[k]
    ensures ',' !in n && !TrimChar(n[0]) && !TrimChar(n[|n| - 1])
  {
    var i :| 0 <= i < |parts| && TrimAll(parts)[i] == n;
    TrimIsInside(parts[i]);
  }

  /** Trimming keeps a contiguous piece of the string. */
  lemma TrimIsInside(s: string)
    ensures forall c :: c in Trim(s) ==> c in s
  {
    var l := TrimLeft(s);
    assert l == s[|s| - |l|..];
    var t := TrimRight(l);
    assert forall c :: c in t ==> c in l;
  }

  // ---------------------------------------------------------------- deltas

  /** What the page shows for a journey the previous cache knows. */
  datatype Change = Change(
    deltaTotal: Option<real>,
    prevTotal: Option<real>,
    deltaNightPerAdult: Option<real>,
    prevNightPerAdult: Option<real>,
    changeDate: Value)

  /** The previous cache as the page reads it: the records by journey id and
      the time the previous cache was written. */
  datatype PrevMap = PrevMap(items: map<string, Record>, updatedAt: Value)

  /** The delta of one field: set only when both records have it. */
  function Delta(r: Record, prev: Record, k: Key): Option<real> {
    if Get(r, k) != Null && Get(prev, k) != Null then Some(FloatCast(Get(r, k)) - FloatCast(Get(prev, k))) else None
  }

  function PrevValue(r: Record, prev: Record, k: Key): Option<real> {
    if Get(r, k) != Null && Get(prev, k) != Null then Some(FloatCast(Get(prev, k))) else None
  }

  function ChangeOf(r: Record, prev: Record, updatedAt: Value): Change {
    Change(
      Delta(r, prev, Amount), PrevValue(r, prev, Amount),
      Delta(r, prev, AmountPerNightPerAdult), PrevValue(r, prev, AmountPerNightPerAdult),
      Coalesce(Get(r, LastAPIPriceUpdate), updatedAt))
  }

  /** The change map after the first `n` records. */
  function ChangesUpTo(rows: seq<Record>, pm: PrevMap, n: nat): map<string, Change>
    requires n <= |rows|
  {
    if n == 0 then map[]
    else
      var prev := ChangesUpTo(rows, pm, n - 1);
      match JidOf(rows[n - 1])
      case None => prev
      case Some(j) => if j in pm.items then prev[j := ChangeOf(rows[n - 1], pm.items[j], pm.updatedAt)] else prev
  }

  /** A delta exists exactly when both records have the field, and adding it
      to the previous value gives the current one; the change date is the
      record's price date, else the previous cache's write time. */
  lemma ChangeMeaning(r: Record, prev: Record, updatedAt: Value)
    ensures var c := ChangeOf(r, prev, updatedAt);
      && (c.deltaTotal.Some? <==> Get(r, Amount) != Null && Get(prev, Amount) != Null)
      && (c.deltaTotal.Some? ==> c.prevTotal.Some? && c.prevTotal.value + c.deltaTotal.value == FloatCast(Get(r, Amount)))
      && (c.deltaNightPerAdult.Some? <==> Get(r, AmountPerNightPerAdult) != Null && Get(prev, AmountPerNightPerAdult) != Null)
      && (c.deltaNightPerAdult.Some? ==>
            (c.prevNightPerAdult.Some? && c.prevNightPerAdult.value + c.deltaNightPerAdult.value == FloatCast(Get(r, AmountPerNightPerAdult))))
      && (Get(r, LastAPIPriceUpdate) != Null ==> c.changeDate == Get(r, LastAPIPriceUpdate))
      && (Get(r, LastAPIPriceUpdate) == Null ==> c.changeDate == updatedAt)
  {
  }

  /** Record `i` is the last of the first `n` with id `j`. */
  predicate LastWithId(rows: seq<Record>, n: nat, i: nat, j: string)
    requires n <= |rows|
  {
    i < n && JidOf(rows[i]) == Some(j) && forall k :: i < k < n ==> JidOf(rows[k]) != Some(j)
  }

  /** The changes cover exactly the shown journeys the previous cache knows,
      each computed from the last record with that id. */
  lemma {:induction false} ChangesUpToMeaning(rows: seq<Record>, pm: PrevMap, n: nat)
    requires n <= |rows|
    ensures forall j :: j in ChangesUpTo(rows, pm, n) <==> j in pm.items && exists i :: 0 <= i < n && JidOf(rows[i]) == Some(j)
    ensures forall i: nat, j :: LastWithId(rows, n, i, j) && j in pm.items ==>
      j in ChangesUpTo(rows, pm, n) && ChangesUpTo(rows, pm, n)[j] == ChangeOf(rows[i], pm.items[j], pm.updatedAt)
  {
    if n > 0 {
      ChangesUpToMeaning(rows, pm, n - 1);
      forall i: nat, j | LastWithId(rows, n, i, j) && j in pm.items
        ensures j in ChangesUpTo(rows, pm, n) && ChangesUpTo(rows, pm, n)[j] == ChangeOf(rows[i], pm.items[j], pm.updatedAt)
      {
        if i < n - 1 {
          assert LastWithId(rows, n - 1, i, j);
        }
      }
    }
  }

  /** The delta loop of the page. */
  method ComputeChanges(rows: seq<Record>, pm: PrevMap) returns (changes: map<string, Change>)
    ensures changes == ChangesUpTo(rows, pm, |rows|)
  {
    changes := map[];
    var n := 0;
    while n < |rows|
      invariant 0 <= n <= |rows|
      invariant changes == ChangesUpTo(rows, pm, n)
    {
      var r := rows[n];
      var jid := JidOf(r);
      if jid.Some? && jid.value in pm.items {
        var prev := pm.items[jid.value];
        var dTotal: Option<real> := None;
        var pTotal: Option<real> := None;
        if Get(r, Amount) != Null && Get(prev, Amount) != Null {
          dTotal := Some(FloatCast(Get(r, Amount)) - FloatCast(Get(prev, Amount)));
          pTotal := Some(FloatCast(Get(prev, Amount)));
        }
        var dPnp: Option<real> := None;
        var pPnp: Option<real> := None;
        if Get(r, AmountPerNightPerAdult) != Null && Get(prev, AmountPerNightPerAdult) != Null {
          dPnp := Some(FloatCast(Get(r, AmountPerNightPerAdult)) - FloatCast(Get(prev, AmountPerNightPerAdult)));
          pPnp := Some(FloatCast(Get(prev, AmountPerNightPerAdult)));
        }
        var when := Coalesce(Get(r, LastAPIPriceUpdate), pm.updatedAt);
        changes := changes[jid.value := Change(dTotal, pTotal, dPnp, pPnp, when)];
      }
      n := n + 1;
    }
  }
}
