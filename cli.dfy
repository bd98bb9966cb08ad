/** The command-line entry of the monitor: the argument parser, the adult
    count clamp, and one `--update` run against the cache directory, which
    holds per adult count the main cache, the previous cache and the daily
    refresh marker. */
module Cli {
  import opened Values
  import opened Listing
  import opened Selector
  import opened Planner
  import opened Update

  // ---------------------------------------------------------------- parseCliArgs

  datatype CliArgs = CliArgs(adults: int, update: bool, verbose: bool)

  const UPDATE_FLAG: string := "--update"
  const VERBOSE_FLAG: string := "--verbose"
  const ADULTS_FLAG: string := "--adults="

  predicate IsAdultsArg(arg: string) {
    |ADULTS_FLAG| <= |arg| && arg[..|ADULTS_FLAG|] == ADULTS_FLAG
  }

  /** The parsed arguments after the first `n` of them: the adult count
      starts at 1 and a later `--adults=` wins; its value is read with `(int)`. */
  function ParseUpTo(argv: seq<string>, n: nat): CliArgs
    requires n <= |argv|
  {
    if n == 0 then CliArgs(1, false, false)
    else
      var a := ParseUpTo(argv, n - 1);
      var arg := argv[n - 1];
      if arg == UPDATE_FLAG then a.(update := true)
      else if arg == VERBOSE_FLAG then a.(verbose := true)
      else if IsAdultsArg(arg) then a.(adults := LeadingInt(arg[|ADULTS_FLAG|..]))
      else a
  }

  function ParseOf(argv: seq<string>): CliArgs {
    ParseUpTo(argv, |argv|)
  }

  /** `--update` and `--verbose` are switched on by their flag anywhere in
      the arguments and by nothing else. */
  lemma {:induction false} ParseUpToFlags(argv: seq<string>, n: nat)
    requires n <= |argv|
    ensures ParseUpTo(argv, n).update <==> UPDATE_FLAG in argv[..n]
    ensures ParseUpTo(argv, n).verbose <==> VERBOSE_FLAG in argv[..n]
  {
    if n > 0 {
      ParseUpToFlags(argv, n - 1);
      assert argv[..n] == argv[..n - 1] + [argv[n - 1]];
    }
  }

  /** Argument `i` is the last `--adults=` among the first `n`. */
  predicate LastAdultsArg(argv: seq<string>, n: nat, i: nat)
    requires n <= |argv|
  {
    i < n && IsAdultsArg(argv[i]) && forall k :: i < k < n ==> !IsAdultsArg(argv[k])
  }

  /** The adult count is read from the last `--adults=` argument, and is 1
      when there is none. */
  lemma {:induction false} ParseUpToAdults(argv: seq<string>, n: nat)
    requires n <= |argv|
    ensures (forall k :: 0 <= k < n ==> !IsAdultsArg(argv[k])) ==> ParseUpTo(argv, n).adults == 1
    ensures forall i: nat :: LastAdultsArg(argv, n, i) ==> ParseUpTo(argv, n).adults == LeadingInt(argv[i][|ADULTS_FLAG|..])
  {
    if n > 0 {
      ParseUpToAdults(argv, n - 1);
      ParseStepAdults(argv, n);
      forall i: nat | LastAdultsArg(argv, n, i)
        ensures ParseUpTo(argv, n).adults == LeadingInt(argv[i][|ADULTS_FLAG|..])
      {
        if i < n - 1 {
          assert LastAdultsArg(argv, n - 1, i);
        }
      }
    }
  }

  /** Only an `--adults=` argument changes the adult count. */
  lemma ParseStepAdults(argv: seq<string>, n: nat)
    requires 0 < n <= |argv|
    ensures ParseUpTo(argv, n).adults ==
      if IsAdultsArg(argv[n - 1]) then LeadingInt(argv[n - 1][|ADULTS_FLAG|..]) else ParseUpTo(argv, n - 1).adults
  {
    FlagsAreNotAdults();
  }

  lemma FlagsAreNotAdults()
    ensures !IsAdultsArg(UPDATE_FLAG) && !IsAdultsArg(VERBOSE_FLAG)
  {
    assert VERBOSE_FLAG[2] != ADULTS_FLAG[2];
  }

  /** `--update` and `--verbose` anywhere switch their option on; the adult
      count is 1 unless an `--adults=` argument is given, and then the last
      one wins. */
  lemma ParseMeaning(argv: seq<string>)
    ensures ParseOf(argv).update <==> UPDATE_FLAG in argv
    ensures ParseOf(argv).verbose <==> VERBOSE_FLAG in argv
    ensures (forall k :: 0 <= k < |argv| ==> !IsAdultsArg(argv[k])) ==> ParseOf(argv).adults == 1
    ensures forall i: nat :: LastAdultsArg(argv, |argv|, i) ==> ParseOf(argv).adults == LeadingInt(argv[i][|ADULTS_FLAG|..])
  {
    ParseUpToFlags(argv, |argv|);
    ParseUpToAdults(argv, |argv|);
    assert argv[..|argv|] == argv;
  }

  /** Writing a count as `--adults=<n>` reads it back. */
  lemma AdultsFlagReadsBack(argv: seq<string>, n: int)
    ensures ParseOf(argv + [ADULTS_FLAG + IntToString(n)]).adults == n
  {
    var arg := ADULTS_FLAG + IntToString(n);
    assert arg[..|ADULTS_FLAG|] == ADULTS_FLAG;
    assert arg[|ADULTS_FLAG|..] == IntToString(n) + [];
    IntToStringReadBack(n, []);
  }

  /** `parseCliArgs($argv)` */
  method ParseCliArgs(argv: seq<string>) returns (args: CliArgs)
    ensures args == ParseOf(argv)
  {
    var adults := 1;
    var update := false;
    var verbose := false;
    var i := 0;
    while i < |argv|
      invariant 0 <= i <= |argv|
      invariant CliArgs(adults, update, verbose) == ParseUpTo(argv, i)
    {
      var arg := argv[i];
      if arg == UPDATE_FLAG {
        update := true;
      } else if arg == VERBOSE_FLAG {
        verbose := true;
      } else if |ADULTS_FLAG| <= |arg| && arg[..|ADULTS_FLAG|] == ADULTS_FLAG {
        adults := LeadingInt(arg[|ADULTS_FLAG|..]);
      }
      i := i + 1;
    }
    args := CliArgs(adults, update, verbose);
  }

  /** The CLI accepts only 1 or 2 adults; any other count becomes 1. */
  function ClampAdults(a: int): (r: int)
    ensures r == 1 || r == 2
    ensures (a == 1 || a == 2) ==> r == a
    ensures !(a == 1 || a == 2) ==> r == 1
  {
    if a != 1 && a != 2 then 1 else a
  }

  // ---------------------------------------------------------------- the update run

  /** The cache directory: per adult count, the items of the main cache, the
      items of the previous cache, and the date in the daily marker. */
  datatype Store = Store(caches: map<int, seq<Record>>, prevCaches: map<int, seq<Record>>, markers: map<int, string>)

  /** The listing rows of a run, when the listing request succeeded. */
  function RowsOf(listing: Option<ListResponse>, adults: int): seq<Row> {
    match listing
    case None => []
    case Some(resp) => Dedup(Flatten(resp, adults))
  }

  /** The run's inputs for adult count `adults`, given the store before. */
  function RunOf(s: Store, rows: seq<Row>, today: string, details: map<string, Detail>, adults: int): Run {
    var oldItems := if adults in s.caches then s.caches[adults] else [];
    var marker := if adults in s.markers then Some(s.markers[adults]) else None;
    Run(oldItems, rows, ShouldDailyRefresh(marker, today), details, adults)
  }

  /** The exit code of one CLI invocation and the store after it. Without
      `--update` nothing happens; a failed listing request or an empty
      listing ends the run with exit code 1 and nothing written; otherwise
      the previous cache takes the old main cache when a price moved, the
      main cache takes the new items, and a daily refresh writes today's
      marker. `listing` is `None` when the listing request failed; `details`
      holds the payload of every journey whose detail request answered. */
  function CliRun(argv: seq<string>, today: string, listing: Option<ListResponse>, details: map<string, Detail>, s: Store): (int, Store) {
    var args := ParseOf(argv);
    if !args.update then (0, s)
    else
      var adults := ClampAdults(args.adults);
      var rows := RowsOf(listing, adults);
      if |rows| == 0 then (1, s)
      else
        var run := RunOf(s, rows, today, details, adults);
        (0, Committed(s, adults, today, run.daily, RunUpdate(run)))
  }

  /** The store once a run's outcome is written: the old main cache is
      copied to the previous cache when a price moved, the new items become
      the main cache, and a daily refresh writes today's marker. */
  function Committed(s: Store, adults: int, today: string, daily: bool, out: Outcome): Store {
    var prev := if out.changed && adults in s.caches then s.prevCaches[adults := s.caches[adults]] else s.prevCaches;
    var markers := if daily then s.markers[adults := today] else s.markers;
    Store(s.caches[adults := out.items], prev, markers)
  }

  /** Without `--update`, and when the listing is missing or empty, the
      store is left as it was. */
  lemma NoUpdateLeavesStore(argv: seq<string>, today: string, listing: Option<ListResponse>, details: map<string, Detail>, s: Store)
    requires !ParseOf(argv).update || |RowsOf(listing, ClampAdults(ParseOf(argv).adults))| == 0
    ensures CliRun(argv, today, listing, details, s).1 == s
    ensures CliRun(argv, today, listing, details, s).0 == (if ParseOf(argv).update then 1 else 0)
  {
  }

  /** A run touches only the files of its own adult count. */
  lemma RunTouchesOwnSlot(argv: seq<string>, today: string, listing: Option<ListResponse>, details: map<string, Detail>, s: Store, other: int)
    requires other != ClampAdults(ParseOf(argv).adults)
    ensures var t := CliRun(argv, today, listing, details, s).1;
      && (other in t.caches <==> other in s.caches) && (other in s.caches ==> t.caches[other] == s.caches[other])
      && (other in t.prevCaches <==> other in s.prevCaches) && (other in s.prevCaches ==> t.prevCaches[other] == s.prevCaches[other])
      && (other in t.markers <==> other in s.markers) && (other in s.markers ==> t.markers[other] == s.markers[other])
  {
    var args := ParseOf(argv);
    if args.update {
      var adults := ClampAdults(args.adults);
      var rows := RowsOf(listing, adults);
      if |rows| > 0 {
        var run := RunOf(s, rows, today, details, adults);
        CommitTouchesOwnSlot(s, adults, today, run.daily, RunUpdate(run), other);
      }
    }
  }

  lemma CommitTouchesOwnSlot(s: Store, adults: int, today: string, daily: bool, out: Outcome, other: int)
    requires other != adults
    ensures var t := Committed(s, adults, today, daily, out);
      && (other in t.caches <==> other in s.caches) && (other in s.caches ==> t.caches[other] == s.caches[other])
      && (other in t.prevCaches <==> other in s.prevCaches) && (other in s.prevCaches ==> t.prevCaches[other] == s.prevCaches[other])
      && (other in t.markers <==> other in s.markers) && (other in s.markers ==> t.markers[other] == s.markers[other])
  {
  }

  /** Without an old main cache there is nothing to compare, so no price
      counts as moved and the previous cache is never rotated. */
  lemma NoOldCacheNoRotation(run: Run)
    requires run.oldItems == []
    ensures !RunUpdate(run).changed
  {
    assert MapOf(run.oldItems) == map[];
  }

  /** Writing an outcome stores its items as the main cache, rotates the old
      main cache exactly when a price moved and one existed, and writes
      today's marker on a daily refresh. */
  lemma CommitEffects(s: Store, adults: int, today: string, daily: bool, out: Outcome)
    ensures var t := Committed(s, adults, today, daily, out);
      && adults in t.caches && t.caches[adults] == out.items
      && (out.changed && adults in s.caches ==> adults in t.prevCaches && t.prevCaches[adults] == s.caches[adults])
      && (!(out.changed && adults in s.caches) ==> t.prevCaches == s.prevCaches)
      && (daily ==> adults in t.markers && t.markers[adults] == today)
      && (!daily ==> t.markers == s.markers)
  {
  }

  /** After a successful run the main cache holds one record per listed
      journey and nothing else. */
  lemma UpdateRunSaves(argv: seq<string>, today: string, listing: Option<ListResponse>, details: map<string, Detail>, s: Store)
    requires ParseOf(argv).update
    requires |RowsOf(listing, ClampAdults(ParseOf(argv).adults))| > 0
    ensures var adults := ClampAdults(ParseOf(argv).adults);
      var rows := RowsOf(listing, adults);
      var r := CliRun(argv, today, listing, details, s);
      && r.0 == 0
      && adults in r.1.caches
      && (forall x :: 0 <= x < |r.1.caches[adults]| ==>
            JidOf(r.1.caches[adults][x]).Some? && JidOf(r.1.caches[adults][x]).value in JidSet(rows, |rows|))
      && (forall j :: j in JidSet(rows, |rows|) ==> exists x :: 0 <= x < |r.1.caches[adults]| && JidOf(r.1.caches[adults][x]) == Some(j))
  {
    var adults := ClampAdults(ParseOf(argv).adults);
    var rows := RowsOf(listing, adults);
    var run := RunOf(s, rows, today, details, adults);
    var out := RunUpdate(run);
    assert CliRun(argv, today, listing, details, s) == (0, Committed(s, adults, today, run.daily, out));
    CommitEffects(s, adults, today, run.daily, out);
    DedupUniqueJids(Flatten(listing.value, adults));
    SavedJourneys(run);
  }

  /** After a successful run the previous cache holds the old main cache
      exactly when a price moved, and once a daily refresh is done it is not
      due again the same day. */
  lemma UpdateRunRotates(argv: seq<string>, today: string, listing: Option<ListResponse>, details: map<string, Detail>, s: Store)
    requires ParseOf(argv).update
    requires |RowsOf(listing, ClampAdults(ParseOf(argv).adults))| > 0
    requires |today| > 0 && !TrimChar(today[0]) && !TrimChar(today[|today| - 1])
    ensures var adults := ClampAdults(ParseOf(argv).adults);
      var rows := RowsOf(listing, adults);
      var out := RunUpdate(RunOf(s, rows, today, details, adults));
      var r := CliRun(argv, today, listing, details, s);
      && (out.changed ==> adults in s.caches && adults in r.1.prevCaches && r.1.prevCaches[adults] == s.caches[adults])
      && (!out.changed ==> r.1.prevCaches == s.prevCaches)
      && adults in r.1.markers && !ShouldDailyRefresh(Some(r.1.markers[adults]), today)
  {
    var adults := ClampAdults(ParseOf(argv).adults);
    var rows := RowsOf(listing, adults);
    var run := RunOf(s, rows, today, details, adults);
    var out := RunUpdate(run);
    assert CliRun(argv, today, listing, details, s) == (0, Committed(s, adults, today, run.daily, out));
    CommitEffects(s, adults, today, run.daily, out);
    if adults !in s.caches {
      NoOldCacheNoRotation(run);
    }
    DailyRefreshOncePerDay(today);
  }

  /** The cache directory of the CLI. */
  class CacheDir {
    var caches: map<int, seq<Record>>
    var prevCaches: map<int, seq<Record>>
    var markers: map<int, string>

    function State(): Store
      reads this
    {
      Store(caches, prevCaches, markers)
    }

    constructor ()
      ensures caches == map[] && prevCaches == map[] && markers == map[]
    {
      caches := map[];
      prevCaches := map[];
      markers := map[];
    }

    /** One CLI invocation (`php index.php --update --adults=N`). */
    method RunCli(argv: seq<string>, today: string, listing: Option<ListResponse>, details: map<string, Detail>) returns (exit: int)
      modifies this
      ensures (exit, State()) == CliRun(argv, today, listing, details, old(State()))
    {
      var args := ParseCliArgs(argv);
      if !args.update {
        return 0;
      }
      var adults := args.adults;
      if adults != 1 && adults != 2 {
        adults := 1;
      }
      var oldItems: seq<Record> := if adults in caches then caches[adults] else [];
      if listing.None? {
        return 1;
      }
      var rows := ExtractVariantsFromList(listing.value, adults);
      assert rows == RowsOf(listing, adults);
      if |rows| == 0 {
        return 1;
      }
      var marker := if adults in markers then Some(markers[adults]) else None;
      var daily := ShouldDailyRefresh(marker, today);
      var run := Run(oldItems, rows, daily, details, adults);
      assert run == RunOf(State(), rows, today, details, adults);
      var outcome := EnrichListing(run);
      Commit(adults, today, daily, outcome);
      exit := 0;
    }

    /** Rotates the previous cache, saves the main cache and sets the marker. */
    method Commit(adults: int, today: string, daily: bool, outcome: Outcome)
      modifies this
      ensures State() == Committed(old(State()), adults, today, daily, outcome)
    {
      if outcome.changed && adults in caches {
        prevCaches := prevCaches[adults := caches[adults]];
      }
      caches := caches[adults := outcome.items];
      if daily {
        markers := markers[adults := today];
      }
    }
  }
}
