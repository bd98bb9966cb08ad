/** The loosely typed PHP values the update engine passes around, and the
    few pieces of PHP semantics it relies on: truthiness, `??`, the `(int)`
    and `(float)` casts, `trim`, integer-to-string conversion and the
    overwrite-in-place behaviour of a keyed array assignment. */
module Values {

  datatype Option<+T> = None | Some(value: T) {
    function GetOr(default: T): T {
      match this
      case Some(v) => v
      case None => default
    }
  }

  /** One entry of `alternatives`: the best price found for a cabin category. */
  datatype CabinPrice = CabinPrice(name: string, amount: real, pnp: Option<real>, bookingLink: Option<string>)

  /** The `cheapest` array: an entry of `alternatives` together with its cabin code. */
  datatype Choice = Choice(code: string, price: CabinPrice)

  /** An ordered PHP array from cabin code to price (keys are unique). */
  type AltMap = seq<(string, CabinPrice)>

  /** A value stored under a key of a record (a decoded JSON value). */
  datatype Value =
    | Null
    | Bool(bval: bool)
    | Int(ival: int)
    | Float(fval: real)
    | Str(sval: string)
    | ChoiceVal(choice: Choice)
    | AltsVal(alts: AltMap)

  /** The keys of a listing row or an enriched record: one constructor per
      field the update engine reads or writes, and `Other` for any other
      field name a record may carry. */
  datatype Key =
    | JourneyIdentifier | Title | RouteCode | RouteGroupCode | ShipName
    | Duration | StartDate | EndDate | Adults | FlightIncluded
    | LastAPIPriceUpdate | ListAmount | AbsLink | Cheapest | Alternatives
    | Amount | AmountPerNightPerAdult
    | Other(name: string)

  /** A listing row or an enriched record: an associative array. */
  type Record = map<Key, Value>

  // ---------------------------------------------------------------- truthiness

  /** PHP truthiness of a string: only "" and "0" are falsy. */
  predicate StrTruthy(s: string) {
    s != "" && s != "0"
  }

  /** PHP truthiness (`if ($v)`, the negation of `empty($v)`). */
  predicate Truthy(v: Value) {
    match v
    case Null => false
    case Bool(b) => b
    case Int(i) => i != 0
    case Float(r) => r != 0.0
    case Str(s) => StrTruthy(s)
    case ChoiceVal(_) => true
    case AltsVal(a) => |a| > 0
  }

  /** `$r[$k] ?? null`: a missing key reads as null. */
  function Get(r: Record, k: Key): Value {
    if k in r then r[k] else Null
  }

  /** `$v ?? $d` */
  function Coalesce(v: Value, d: Value): Value {
    if v.Null? then d else v
  }

  /** The journey identifier of a record when it is a truthy string
      (`$jid = $r['journeyIdentifier'] ?? null; if ($jid) ...`). */
  function JidOf(r: Record): (j: Option<string>)
  {
    match Get(r, JourneyIdentifier)
    case Str(s) => if StrTruthy(s) then Some(s) else None
    case _ => None
  }

  // ---------------------------------------------------------------- casts

  /** `(int)` of a float: truncation toward zero. */
  function Trunc(r: real): (n: int)
    ensures r >= 0.0 ==> 0 <= n && n as real <= r < n as real + 1.0
    ensures r < 0.0 ==> n <= 0 && n as real - 1.0 < r <= n as real
  {
    if r >= 0.0 then r.Floor else -((-r).Floor)
  }

  predicate IsDigit(c: char) {
    '0' <= c <= '9'
  }

  /** The whitespace PHP skips before a numeric string. */
  predicate LeadingSpace(c: char) {
    c == ' ' || c == '\t' || c == '\n' || c == '\r' || c == '\U{0B}' || c == '\U{0C}'
  }

  function SkipSpace(s: string): (t: string)
  {
    if |s| > 0 && LeadingSpace(s[0]) then SkipSpace(s[1..]) else s
  }

  /** The longest prefix of `s` made of decimal digits. */
  function DigitPrefix(s: string): (d: string)
    ensures |d| <= |s|
    ensures forall i :: 0 <= i < |d| ==> IsDigit(d[i])
  {
    if |s| > 0 && IsDigit(s[0]) then [s[0]] + DigitPrefix(s[1..]) else []
  }

  /** The number written by a string of decimal digits. */
  function DigitsValue(d: string): (n: nat)
    requires forall i :: 0 <= i < |d| ==> IsDigit(d[i])
  {
    if d == [] then 0
    else
      var last := d[|d| - 1];
      assert IsDigit(last);
      DigitsValue(d[..|d| - 1]) * 10 + (last as int - '0' as int)
  }

  /** `(int)` of a string: leading whitespace, an optional sign and the
      leading run of digits; anything else reads as 0. */
  function LeadingInt(s: string): int {
    var t := SkipSpace(s);
    if |t| > 0 && t[0] == '-' then -(DigitsValue(DigitPrefix(t[1..])) as int)
    else if |t| > 0 && t[0] == '+' then DigitsValue(DigitPrefix(t[1..]))
    else DigitsValue(DigitPrefix(t))
  }

  /** PHP `(int)` cast. */
  function IntCast(v: Value): int {
    match v
    case Null => 0
    case Bool(b) => if b then 1 else 0
    case Int(i) => i
    case Float(r) => Trunc(r)
    case Str(s) => LeadingInt(s)
    case ChoiceVal(_) => 1
    case AltsVal(a) => if |a| > 0 then 1 else 0
  }

  function Pow10(n: nat): (p: nat)
    ensures p > 0
  {
    if n == 0 then 1 else 10 * Pow10(n - 1)
  }

  /** The unsigned decimal number at the head of `u`: a run of digits,
      optionally followed by a point and a second run of digits. */
  function DecimalValue(u: string): real {
    var ip := DigitPrefix(u);
    var rest := u[|ip|..];
    var frac := if |rest| > 0 && rest[0] == '.' then DigitPrefix(rest[1..]) else [];
    DigitsValue(ip) as real + DigitsValue(frac) as real / Pow10(|frac|) as real
  }

  /** `(float)` of a string: leading whitespace, an optional sign and a
      decimal number with an optional fraction; anything else reads as 0. */
  function LeadingFloat(s: string): real {
    var t := SkipSpace(s);
    if |t| > 0 && t[0] == '-' then -DecimalValue(t[1..])
    else if |t| > 0 && t[0] == '+' then DecimalValue(t[1..])
    else DecimalValue(t)
  }

  /** PHP `(float)` cast. */
  function FloatCast(v: Value): real {
    match v
    case Float(r) => r
    case Str(s) => LeadingFloat(s)
    case _ => IntCast(v) as real
  }

  // ---------------------------------------------------------------- strings

  /** The characters PHP `trim` strips. */
  predicate TrimChar(c: char) {
    c == ' ' || c == '\t' || c == '\n' || c == '\r' || c == '\0' || c == '\U{0B}'
  }

  function TrimLeft(s: string): (t: string)
    ensures |t| <= |s| && t == s[|s| - |t|..]
    ensures |t| > 0 ==> !TrimChar(t[0])
  {
    if |s| > 0 && TrimChar(s[0]) then TrimLeft(s[1..]) else s
  }

  function TrimRight(s: string): (t: string)
    ensures t <= s
    ensures |t| > 0 ==> !TrimChar(t[|t| - 1])
  {
    if |s| > 0 && TrimChar(s[|s| - 1]) then TrimRight(s[..|s| - 1]) else s
  }

  /** PHP `trim`: the slice of `s` left after stripping trim characters at both ends. */
  function Trim(s: string): (t: string)
    ensures |t| <= |s|
    ensures |t| > 0 ==> !TrimChar(t[0]) && !TrimChar(t[|t| - 1])
    ensures |s| > 0 && !TrimChar(s[0]) && !TrimChar(s[|s| - 1]) ==> t == s
  {
    TrimRight(TrimLeft(s))
  }

  const DIGITS: string := "0123456789"

  /** Decimal representation of a natural number. */
  function NatToString(n: nat): (s: string)
    ensures |s| > 0 && forall i :: 0 <= i < |s| ==> IsDigit(s[i])
    decreases n
  {
    if n < 10 then [DIGITS[n]] else NatToString(n / 10) + [DIGITS[n % 10]]
  }

  /** PHP string interpolation of an int. */
  function IntToString(n: int): string {
    if n < 0 then ['-'] + NatToString(-n) else NatToString(n)
  }

  lemma {:induction false} NatToStringValue(n: nat)
    ensures DigitsValue(NatToString(n)) == n
    decreases n
  {
    var s := NatToString(n);
    if n >= 10 {
      NatToStringValue(n / 10);
      assert s[..|s| - 1] == NatToString(n / 10);
    }
  }

  lemma {:induction false} DigitPrefixOfDigits(d: string, t: string)
    requires forall i :: 0 <= i < |d| ==> IsDigit(d[i])
    requires t == [] || !IsDigit(t[0])
    ensures DigitPrefix(d + t) == d
  {
    if d != [] {
      assert (d + t)[1..] == d[1..] + t;
      DigitPrefixOfDigits(d[1..], t);
    } else {
      assert d + t == t;
    }
  }

  lemma LeadingIntOfMinus(s: string)
    requires |s| > 0 && s[0] == '-'
    ensures LeadingInt(s) == -(DigitsValue(DigitPrefix(s[1..])) as int)
  {
    var t := SkipSpace(s);
    assert t == s;
  }

  lemma LeadingIntOfDigit(s: string)
    requires |s| > 0 && IsDigit(s[0])
    ensures LeadingInt(s) == DigitsValue(DigitPrefix(s))
  {
    var t := SkipSpace(s);
    assert t == s;
    assert !(t[0] == '-') && !(t[0] == '+');
  }

  lemma LeadingIntOfDigits(d: string, t: string)
    requires |d| > 0 && forall i :: 0 <= i < |d| ==> IsDigit(d[i])
    requires t == [] || !IsDigit(t[0])
    ensures LeadingInt(d + t) == DigitsValue(d)
  {
    assert (d + t)[0] == d[0];
    LeadingIntOfDigit(d + t);
    DigitPrefixOfDigits(d, t);
  }

  lemma LeadingIntOfNegated(d: string, t: string)
    requires forall i :: 0 <= i < |d| ==> IsDigit(d[i])
    requires t == [] || !IsDigit(t[0])
    ensures LeadingInt(['-'] + (d + t)) == -(DigitsValue(d) as int)
  {
    var u := d + t;
    var s := ['-'] + u;
    LeadingIntOfMinus(s);
    assert s[1..] == u;
    DigitPrefixOfDigits(d, t);
  }

  lemma ReadBackNeg(m: nat, t: string)
    requires t == [] || !IsDigit(t[0])
    ensures LeadingInt(['-'] + (NatToString(m) + t)) == -(m as int)
  {
    var d := NatToString(m);
    NatToStringValue(m);
    LeadingIntOfNegated(d, t);
  }

  lemma ReadBackNonNeg(m: nat, t: string)
    requires t == [] || !IsDigit(t[0])
    ensures LeadingInt(NatToString(m) + t) == m
  {
    var d := NatToString(m);
    NatToStringValue(m);
    LeadingIntOfDigits(d, t);
  }

  lemma NegativeText(n: int, t: string)
    requires n < 0
    ensures IntToString(n) + t == ['-'] + (NatToString(-n) + t)
  {
  }

  /** Reading the decimal text of an int back with `(int)` gives the int,
      whatever non-digit text follows it. */
  lemma IntToStringReadBack(n: int, t: string)
    requires t == [] || !IsDigit(t[0])
    ensures LeadingInt(IntToString(n) + t) == n
  {
    if n < 0 {
      NegativeText(n, t);
      ReadBackNeg(-n, t);
    } else {
      ReadBackNonNeg(n, t);
    }
  }

  /** A run of `n` digits stands for less than 10^n. */
  lemma {:induction false} DigitsValueBelow(d: string)
    requires forall i :: 0 <= i < |d| ==> IsDigit(d[i])
    ensures DigitsValue(d) < Pow10(|d|)
  {
    if d != [] {
      var init := d[..|d| - 1];
      DigitsValueBelow(init);
      var last := d[|d| - 1] as int - '0' as int;
      assert DigitsValue(d) == DigitsValue(init) * 10 + last;
      assert Pow10(|d|) == 10 * Pow10(|init|);
      assert DigitsValue(init) * 10 <= (Pow10(|init|) - 1) * 10;
    }
  }

  /** The fraction adds less than one to the integer part. */
  lemma DecimalValueBounds(u: string)
    ensures DigitsValue(DigitPrefix(u)) as real <= DecimalValue(u) < DigitsValue(DigitPrefix(u)) as real + 1.0
  {
    var ip := DigitPrefix(u);
    var rest := u[|ip|..];
    var frac := if |rest| > 0 && rest[0] == '.' then DigitPrefix(rest[1..]) else [];
    DigitsValueBelow(frac);
    FractionBelowOne(DigitsValue(frac), Pow10(|frac|));
  }

  lemma FractionBelowOne(f: nat, p: nat)
    requires f < p
    ensures 0.0 <= f as real / p as real < 1.0
  {
    var q := f as real / p as real;
    assert q * p as real == f as real;
  }

  /** `(int)(float)$s == (int)$s`: the float reading of a string truncates
      to its integer reading. */
  lemma FloatCastTruncates(s: string)
    ensures Trunc(FloatCast(Str(s))) == LeadingInt(s)
  {
    var t := SkipSpace(s);
    if |t| > 0 && t[0] == '-' {
      DecimalValueBounds(t[1..]);
    } else if |t| > 0 && t[0] == '+' {
      DecimalValueBounds(t[1..]);
    } else {
      DecimalValueBounds(t);
    }
  }

  /** Digits, a point and digits read as that decimal number. */
  lemma DecimalValueOf(d: string, f: string, t: string)
    requires forall i :: 0 <= i < |d| ==> IsDigit(d[i])
    requires forall i :: 0 <= i < |f| ==> IsDigit(f[i])
    requires t == [] || !IsDigit(t[0])
    ensures DecimalValue(d + (['.'] + (f + t))) == DigitsValue(d) as real + DigitsValue(f) as real / Pow10(|f|) as real
  {
    var r := ['.'] + (f + t);
    var u := d + r;
    DigitPrefixOfDigits(d, r);
    assert u[|d|..] == r;
    assert r[1..] == f + t;
    DigitPrefixOfDigits(f, t);
  }

  /** A string written as digits, a point and digits, followed by anything
      but a digit, is cast to that decimal number. */
  lemma FloatCastOfDecimal(d: string, f: string, t: string)
    requires forall i :: 0 <= i < |d| ==> IsDigit(d[i])
    requires forall i :: 0 <= i < |f| ==> IsDigit(f[i])
    requires t == [] || !IsDigit(t[0])
    ensures FloatCast(Str(d + (['.'] + (f + t)))) == DigitsValue(d) as real + DigitsValue(f) as real / Pow10(|f|) as real
  {
    var s := d + (['.'] + (f + t));
    assert s[0] == if d != [] then d[0] else '.';
    FloatCastOfUnsigned(s);
    DecimalValueOf(d, f, t);
  }

  /** Without leading space or sign, the text is read as a decimal number. */
  lemma FloatCastOfUnsigned(u: string)
    requires u != [] && (IsDigit(u[0]) || u[0] == '.')
    ensures FloatCast(Str(u)) == DecimalValue(u)
  {
    assert SkipSpace(u) == u;
  }

  /** A minus sign negates what follows. */
  lemma FloatCastOfNegated(u: string)
    ensures FloatCast(Str(['-'] + u)) == -DecimalValue(u)
  {
    assert (['-'] + u)[1..] == u;
  }

  /** `(float)"N.5"` is N + 0.5 for a digit N: the fraction is not dropped. */
  lemma FloatCastOfHalf(c: char)
    requires IsDigit(c)
    ensures FloatCast(Str([c, '.', '5'])) == (c as int - '0' as int) as real + 0.5
  {
    var d, f := [c], ['5'];
    assert [c, '.', '5'] == d + (['.'] + (f + []));
    FloatCastOfDecimal(d, f, []);
    DigitValues(c);
  }

  /** One digit, and the fraction digit 5. */
  lemma DigitValues(c: char)
    requires IsDigit(c)
    ensures DigitsValue([c]) == c as int - '0' as int
    ensures DigitsValue(['5']) as real / Pow10(|['5']|) as real == 0.5
  {
    assert [c][..0] == [] && ['5'][..0] == [];
    assert Pow10(1) == 10;
  }

  /** `(float)"-N.5"` is -(N + 0.5) for a digit N: the sign is kept. */
  lemma FloatCastOfNegativeHalf(c: char)
    requires IsDigit(c)
    ensures FloatCast(Str(['-', c, '.', '5'])) == -((c as int - '0' as int) as real + 0.5)
  {
    var d, f := [c], ['5'];
    var u := d + (['.'] + (f + []));
    assert ['-', c, '.', '5'] == ['-'] + u;
    FloatCastOfNegated(u);
    DecimalValueOf(d, f, []);
    DigitValues(c);
  }

  // ---------------------------------------------------------------- ordered arrays

  function KeysOf<V>(a: seq<(string, V)>): (ks: seq<string>)
    ensures |ks| == |a| && forall i :: 0 <= i < |a| ==> ks[i] == a[i].0
  {
    seq(|a|, i requires 0 <= i < |a| => a[i].0)
  }

  predicate UniqueKeys<V>(a: seq<(string, V)>) {
    forall i, j :: 0 <= i < j < |a| ==> a[i].0 != a[j].0
  }

  predicate HasKey<V>(a: seq<(string, V)>, k: string) {
    exists i :: 0 <= i < |a| && a[i].0 == k
  }

  /** `$a[$k] = $v`: replaces the value in place when the key exists,
      appends the pair otherwise. */
  function Put<V>(a: seq<(string, V)>, k: string, v: V): seq<(string, V)> {
    if HasKey(a, k) then seq(|a|, i requires 0 <= i < |a| => if a[i].0 == k then (k, v) else a[i])
    else a + [(k, v)]
  }

  /** An existing key keeps its position and takes the new value; a new key
      is appended; keys stay unique; the keys are the old ones plus `k`. */
  lemma PutProperties<V>(a: seq<(string, V)>, k: string, v: V)
    ensures var r := Put(a, k, v);
      && (HasKey(a, k) ==> |r| == |a| && forall i :: 0 <= i < |a| ==> r[i] == (if a[i].0 == k then (k, v) else a[i]))
      && (!HasKey(a, k) ==> r == a + [(k, v)])
      && (UniqueKeys(a) ==> UniqueKeys(r))
      && (forall k' :: HasKey(r, k') <==> HasKey(a, k') || k' == k)
  {
    var r := Put(a, k, v);
    if HasKey(a, k) {
      assert forall k' :: HasKey(r, k') ==> HasKey(a, k') by {
        forall k' | HasKey(r, k') ensures HasKey(a, k') {
          var i :| 0 <= i < |r| && r[i].0 == k';
          assert a[i].0 == k';
        }
      }
      assert forall k' :: HasKey(a, k') ==> HasKey(r, k') by {
        forall k' | HasKey(a, k') ensures HasKey(r, k') {
          var i :| 0 <= i < |a| && a[i].0 == k';
          assert r[i].0 == k';
        }
      }
    } else {
      assert HasKey(r, k) by { assert r[|a|].0 == k; }
      assert forall k' :: HasKey(a, k') ==> HasKey(r, k') by {
        forall k' | HasKey(a, k') ensures HasKey(r, k') {
          var i :| 0 <= i < |a| && a[i].0 == k';
          assert r[i].0 == k';
        }
      }
    }
  }

  /** `$a[$k] ?? null` on an ordered array. */
  function Lookup<V>(a: seq<(string, V)>, k: string): (r: Option<V>)
    ensures r.Some? <==> HasKey(a, k)
    ensures r.Some? ==> exists i :: 0 <= i < |a| && a[i] == (k, r.value)
  {
    if |a| == 0 then None
    else if a[|a| - 1].0 == k then
      assert a[|a| - 1] == (k, a[|a| - 1].1);
      Some(a[|a| - 1].1)
    else
      var r := Lookup(a[..|a| - 1], k);
      assert HasKey(a, k) ==> HasKey(a[..|a| - 1], k) by {
        if HasKey(a, k) {
          var i :| 0 <= i < |a| && a[i].0 == k;
          assert a[..|a| - 1][i].0 == k;
        }
      }
      r
  }

  /** With unique keys, the value found is the one stored under the key. */
  lemma LookupUnique<V>(a: seq<(string, V)>, k: string, i: nat)
    requires UniqueKeys(a) && i < |a| && a[i].0 == k
    ensures Lookup(a, k) == Some(a[i].1)
  {
  }

  /** Reading back after `$a[$k] = $v`: the key gives `$v`, every other key
      what it gave before. */
  lemma LookupPut<V>(a: seq<(string, V)>, k: string, v: V, k': string)
    requires UniqueKeys(a)
    ensures Lookup(Put(a, k, v), k') == if k' == k then Some(v) else Lookup(a, k')
  {
    var r := Put(a, k, v);
    PutProperties(a, k, v);
    if k' == k {
      if HasKey(a, k) {
        var i :| 0 <= i < |a| && a[i].0 == k;
        LookupUnique(r, k, i);
      } else {
        LookupUnique(r, k, |a|);
      }
    } else if HasKey(a, k') {
      var i :| 0 <= i < |a| && a[i].0 == k';
      LookupUnique(a, k', i);
      assert r[i] == a[i] by {
        if HasKey(a, k) {
        } else {
          assert r == a + [(k, v)];
        }
      }
      LookupUnique(r, k', i);
    }
  }
}
