# Yanniks Cruise Monitor — a Dafny model of its update engine and upload endpoint

Yanniks Cruise Monitor watches the cruise listing of a travel site and keeps one
snapshot per party size (one or two adults). It has two parts, and this project
models the core of both.

- **The CLI update** (`php index.php --update --adults=N`) runs in these steps:
  1. It reads the listing and flattens each cruise into one row per departure
     (a "variant").
  2. It drops rows that repeat a journey id.
  3. It decides which journeys need a fresh cabin-price lookup: new journeys,
     journeys whose listing price moved, or all journeys once a day.
  4. It builds an enriched record for each journey. Each record holds the
     cheapest cabin, every priced cabin ("alternatives") and the date of the
     last price update.
  5. It merges the listing's meta fields into records that are reused.
  6. It removes journeys that left the listing.
  7. When a cheapest price moved, it rotates the old snapshot into a
     "previous" snapshot.
  8. It writes the new snapshot.
- **The web view** filters the saved rows by ship name and by number of nights.
  It computes price deltas against the previous snapshot.
- **The upload endpoint** (`receive.php`) checks, in this order:
  1. the file name;
  2. a timestamp window of ±300 seconds;
  3. an HMAC signature.

  It then replaces the target file only when the body's SHA-256 differs from
  the stored one.

## How the model is built

- **PHP values.** PHP values are a small `Value` datatype. Records (PHP
  associative arrays) are `map<Key, Value>`. The PHP rules the code relies on
  are written out in `values.dfy`:
  - truthiness (`""` and `"0"` are falsy);
  - `??` and `isset`, where null counts as unset;
  - `(int)`, which truncates toward zero and reads the leading digits of a
    string;
  - `(float)`, which reads a decimal fraction after the leading digits;
  - `trim`.
- **Ordered arrays.** Ordered PHP arrays whose order matters (`alternatives`,
  the enriched map) are association sequences. `Put` on such a sequence
  replaces a key in place or appends it, as PHP does.
- **Loops.** Every accumulator loop of the update engine, the delta loop and
  the loop of `parseCliArgs` is a `method` with a `while` loop. Each is proved
  equal to a recursive specification function, and the lemmas about that
  function carry the properties. The ship and nights tests of `applyFilters`
  (`array_filter` with a `foreach … break` inside) are expressions in the
  source and stay functions here. `EnrichListing` strings the loops of
  the update together (`index.php:54-211`). `RunUpdate` is its
  specification.
- **State.** The cache directory of the CLI is the class `Cli.CacheDir`. The
  target directory of the upload endpoint is the class
  `Receive.UploadDir`. Their methods change their fields in place.
- **Inputs from outside.** The following become parameters:
  - the network answers (the listing, and the detail payload of each journey
    whose request answered);
  - the clock (`today` and `now`);
  - the HMAC and SHA-256 functions.

| file | module | models |
|---|---|---|
| values.dfy | Values | PHP values, truthiness, casts, `trim`, ordered arrays |
| listing.dfy | Listing | `extractVariantsFromList`, `mapByJourney` |
| selector.dfy | Selector | `computeCheapestAndAlternatives` |
| cabins.dfy | Cabins | `cabinRank`, `filterAlternativesByMinCabin`, `pickCheapestFromAlts` |
| merge.dfy | Merge | `mergeMeta`, `buildFindLink` |
| planner.dfy | Planner | listing index, need/reuse decision, `shouldDailyRefresh` |
| update.dfy | Update | the enrichment loops, pruning, price-change detection |
| cli.dfy | Cli | `parseCliArgs`, the adults clamp, one CLI run against the cache directory |
| display.dfy | Display | ship and nights parts of `applyFilters`, the delta loop |
| receive.dfy | Receive | `receive.php` |

## Model

| member | source | states |
|---|---|---|
| Values.FloatCastOfDecimal | index.php:447 | `(float)` of digits, a point and digits, followed by anything but a digit, is that decimal number |
| Values.FloatCastOfHalf | index.php:447 | `(float)"N.5"` is N + 0.5 for every digit N: the fraction is kept |
| Values.FloatCastOfNegativeHalf | index.php:447 | `(float)"-N.5"` is -(N + 0.5): the sign is kept |
| Values.FloatCastTruncates | index.php:447 | `(int)(float)$s` equals `(int)$s` for every string: the two casts read the same digits |
| Listing.FirstTruthy | index.php:449-455 | the price date of a variant is its first truthy campaign date, and null when no campaign date is truthy |
| Listing.FirstCampaignDate | index.php:449-455 | the campaign loop stops at the first truthy date and returns that date |
| Listing.VariantRow | index.php:441-470 | a variant's row keeps its id only when truthy, has listAmount = (float)amount or null, takes the ship's marketing name before its plain name, and records the party size |
| Listing.FlattenHasEveryVariant | index.php:435-471 | every variant of every cruise item yields a row |
| Listing.FlattenOnlyVariants | index.php:435-471 | every row comes from some variant of some cruise item |
| Listing.VariantRows | index.php:441-471 | the inner loop yields the rows of one cruise item's variants, in order |
| Listing.BuildRows | index.php:433-472 | the nested loop yields the rows of all variants, in listing order |
| Listing.DedupUniqueJids | index.php:473-477 | each kept row has a truthy id, and no two kept rows share an id |
| Listing.DedupKeepsFirsts | index.php:473-477 | the kept rows are exactly the first occurrence of each id, and two kept rows appear in the order of their first occurrences in the listing |
| Listing.DedupKeepsEveryJid | index.php:473-477 | deduplication loses no journey id |
| Listing.DedupRows | index.php:473-478 | the `$seen` loop computes that deduplication |
| Listing.ExtractVariantsFromList | index.php:432-479 | the function's result is the deduplicated flattening of the listing |
| Listing.MapByJourneyProperties | index.php:629-636 | keys of the map are exactly the truthy ids of the items; each maps to the last item with that id |
| Listing.MapByJourney | index.php:629-636 | the loop computes that map |
| Selector.BestTariffIsFirstMinimum | index.php:504-513 | a cabin has no best tariff iff no tariff key is priced; otherwise it takes the first key with the strictly smallest amount (amountPerPerson × max(1, adults) when amount is unset) and that key's booking link |
| Selector.BestTariffOf | index.php:502-513 | the tariff-key loop computes that best tariff |
| Selector.AlternativesShape | index.php:499-524 | alternatives have unique cabin codes; a code is present iff some cabin with that code has a priced tariff; its entry comes from the last such cabin |
| Selector.PnpUniform | index.php:516 | every alternative's per-night price is amount / duration / adults, and either all are null (duration or adults not positive) or none is |
| Selector.AddCabin | index.php:500-523 | one turn of the cabin loop adds or replaces that cabin's entry |
| Selector.BuildAlternatives | index.php:499-524 | the cabin loop computes the alternatives |
| Selector.CheapestIsFirstMinimum | index.php:527-532 | cheapest is null iff alternatives is empty; otherwise it is the first entry whose pnp no entry undercuts, with a null pnp counting as infinity |
| Selector.PickCheapest | index.php:527-536 | the cheapest loop computes that entry with its code |
| Selector.CabinDateFromIsFirst | index.php:490-495 | in one cabin, the first tariff key with a truthy campaign date supplies the date |
| Selector.FirstCurrentDateIsFirst | index.php:488-496 | the scan returns the first truthy campaign date in cabin order then key order, and nothing when there is none |
| Selector.ScanCurrentDate | index.php:489-496 | the `break 2` loop computes that scan |
| Selector.SelectionProperties | index.php:482-539 | lastAPIPriceUpdate is the row's when truthy, else the first campaign date of the payload, else the row's; cheapest is null iff alternatives is empty; with no payload both are empty |
| Selector.ComputeCheapestAndAlternatives | index.php:482-539 | the function returns the selection for one row and one payload |
| Cabins.CabinRankIsPosition | index.php:22-23 | the rank of a code is its 1-based place in I, M, B, V, K, D, P, J, S, and 0 for any other code |
| Cabins.CabinRankIncreasing | index.php:21-22 | ranks strictly increase along that order |
| Cabins.FilterByMinCabinProperties | index.php:640-648 | an empty minimum keeps the alternatives unchanged; otherwise exactly the entries ranked at least the minimum's rank remain, with unique codes |
| Cabins.FilterByUnknownCabin | index.php:640-648 | an unknown minimum cabin (rank 0) keeps every entry |
| Cabins.FilterAlternativesByMinCabin | index.php:640-648 | the loop computes that filter |
| Cabins.PickCheapestProperties | index.php:650-659 | the pick is null iff no entry has a pnp; otherwise it is the first entry with the lowest non-null pnp, with its code |
| Cabins.PickCheapestAgreesWithUpdate | index.php:650-659 | when some entry has a pnp, the web view's pick equals the update's cheapest (index.php:527-536) |
| Cabins.PickCheapestFromAlts | index.php:650-659 | the loop computes that pick |
| Merge.FindLinkReadsBack | index.php:541-543 | the find link is non-empty, embeds the journey id after the fixed prefix, and carries the party size, read back as an integer |
| Merge.MergedKeepsDetails | index.php:579-606 | every key of the base survives; every key other than the meta keys, the id and absLink keeps the base's value (cheapest, alternatives, amount, pnp and lastAPIPriceUpdate are never touched) |
| Merge.MergedKeepsField | index.php:582-605 | any one non-meta key other than the id and absLink has the base's presence and value |
| Merge.MergedTakesFreshMeta | index.php:594-596 | each meta key present in the fresh row, even with a null value, takes the fresh row's value |
| Merge.MergedKeepsMissingMeta | index.php:594-596 | a meta key absent from the fresh row keeps the base's presence and value |
| Merge.MergedJourneyId | index.php:585-591 | the id is the fresh row's when truthy, else the base's when truthy, else that of `$enrichedOrOld` |
| Merge.MergedLink | index.php:599-601 | an existing truthy absLink is never changed; a missing one is built from the id and adults when both are truthy |
| Merge.MergedIdempotent | index.php:579-606 | merging the same fresh row into a merged record again changes nothing |
| Merge.MergeMeta | index.php:579-606 | the function's result is that merge |
| Planner.ListAmountsUpToIsLastWins | index.php:71-78 | the listing index holds exactly the truthy ids of the rows, each with the listAmount of the last row with that id |
| Planner.ListAmountOfUniqueRow | index.php:76 | with unique ids, each row's id maps to its own listAmount |
| Planner.IndexListing | index.php:69-78 | the loop computes the current-id set and the listAmount index |
| Planner.PlanPartition | index.php:88-106 | a listed id needs details iff the daily refresh is due, it is new, or its (int) listing price differs from the cached (int) one (null when unset); otherwise it is reused; no id is in both |
| Planner.DailyRefetchesAll | index.php:101-105 | on a daily refresh nothing is reused |
| Planner.PlanChanges | index.php:85-106 | the loop computes that partition |
| Planner.DailyRefreshOncePerDay | index.php:615-627 | with no marker the refresh is due; once the marker holds today's date it is not due again that day |
| Update.ReusedLookup | index.php:114-116 | after the reuse loop the map has unique keys, each reused id maps to its cached record, and no other id is present |
| Update.ReusedListed | index.php:88-116 | every reused id is an id of the listing |
| Update.LoopMapKeys | index.php:110-192 | after the enrichment loop the map holds exactly the listing's ids, once each |
| Update.KeepCurrentKeepsListed | index.php:195-199 | when every entry's id is in the listing, pruning removes nothing |
| Update.FinalMapIsLoopMap | index.php:194-199 | so after the update loops the pruning loop removes nothing |
| Update.PriorOfPlan | index.php:113-126 | when the enrichment loop reaches an id, the map holds nothing for a fetched id and the cached record for a reused one |
| Update.SavedRecordOfRow | index.php:110-199 | the saved record of a listed journey is the one the loop computes from that row |
| Update.FetchedRecordFields | index.php:143-184 | a fetched record carries the id, the find link, cheapest, alternatives and price date of the selection; amount and pnp come from the cheapest or are removed |
| Update.FallbackKeepsCached | index.php:132-136 | when the payload is falsy and the journey is cached, the cached detail fields are kept |
| Update.ReuseKeepsBase | index.php:185-190 | a reused record keeps every detail field of its base |
| Update.RowRecordListAmount | index.php:181-190 | a saved record's listAmount is the listing's whenever that is not null |
| Update.RowRecordMeta | index.php:184-188 | a saved record holds the row's id and each of its meta fields |
| Update.SavedRecordBasics | index.php:110-199 | every listed journey is saved with its id, the listing's meta fields and, when not null, the listing's listAmount |
| Update.SavedFetched | index.php:143-184 | a journey that needed details and got a payload is saved with the selection made on that payload |
| Update.SavedFallback | index.php:132-142 | a journey that needed details, got none and was cached keeps its cached details (`mergeMeta(old, old, row)`) |
| Update.NewWithoutDetailsFields | index.php:137-141 | when the payload is falsy and the journey is not cached, the record has no cheapest, alternatives or amounts, and its link is the journey's find link |
| Update.SavedNewWithoutDetails | index.php:130-141 | a journey that needed details, got none and was not cached is saved without cabin prices, cheapest or amounts, with its find link |
| Update.SavedReused | index.php:113-191 | a reused journey is cached and keeps its cached details |
| Update.SavedJourneys | index.php:110-202 | the saved items' ids are exactly the listing's ids, each once |
| Update.UnsetAmountsCountAsChange | index.php:204-210 | a cached journey without an amount whose new record also has none counts as a price change (defaults -1 and -2) |
| Update.EqualAmountsAreNoChange | index.php:204-210 | equal non-null amounts are no change |
| Update.BuildFetched | index.php:144-179 | builds the fetched record from the row and the payload |
| Update.BuildEnriched | index.php:131-180 | builds `$enriched` from the payload, or falls back when there is none |
| Update.ComputeRecord | index.php:126-191 | computes the record stored for one row |
| Update.ProcessRow | index.php:121-191 | one turn of the enrichment loop |
| Update.FillReuse | index.php:113-116 | the reuse loop |
| Update.EnrichRows | index.php:120-192 | the enrichment loop |
| Update.DropVanished | index.php:194-199 | the pruning loop |
| Update.DetectChange | index.php:201-211 | the change loop answers whether some saved journey that was cached has a different (float) amount, stopping at the first |
| Update.EnrichListing | index.php:54-211 | the update from the old items and the listing computes the saved items and the rotation flag |
| Cli.ParseMeaning | index.php:293-303 | update and verbose are set iff their flag occurs; adults is 1 without an `--adults=` argument, else the leading integer after the last one |
| Cli.AdultsFlagReadsBack | index.php:298-300 | `--adults=N` followed by nothing else yields adults N |
| Cli.ParseCliArgs | index.php:293-303 | the argument loop computes that parse |
| Cli.ClampAdults | index.php:45 | the party size is 1 or 2; 1 and 2 are kept, anything else becomes 1 |
| Cli.NoUpdateLeavesStore | index.php:39-66 | without `--update` the run exits 0; with an empty or failed listing it exits 1; in both cases nothing is written |
| Cli.RunTouchesOwnSlot | index.php:47-48 | a run changes only the cache, previous cache and marker of its own party size |
| Cli.CommitTouchesOwnSlot | index.php:212-222 | writing the outcome changes only the files of its own party size |
| Cli.NoOldCacheNoRotation | index.php:54-213 | without an old cache no price counts as moved, so the previous cache is not rotated |
| Cli.CommitEffects | index.php:212-222 | writing an outcome stores its items as the main cache; it copies the old main cache to the previous cache exactly when a price moved and a main cache existed; a daily refresh writes today's marker, and otherwise the markers are unchanged |
| Cli.UpdateRunSaves | index.php:39-226 | a successful run exits 0 and saves exactly one item per listed journey, and no item for any other id |
| Cli.UpdateRunRotates | index.php:80-222 | after a successful run the previous cache holds the old main cache exactly when a price moved, and is unchanged otherwise; the daily refresh is not due again that day |
| Cli.CacheDir.RunCli | index.php:35-230 | one CLI invocation changes the cache directory as the run specifies and returns its exit code |
| Cli.CacheDir.Commit | index.php:212-222 | rotation, save and daily marker, as specified |
| Display.ExplodeRoundTrip | index.php:662 | the comma-split pieces contain no comma and join back to the input |
| Display.TruthyOnly | index.php:662 | `array_filter` keeps exactly the truthy pieces |
| Display.NeedlesShape | index.php:662 | every ship needle is truthy, has no comma and no white space at its ends |
| Display.EmptyShipFilter | index.php:662-667 | an empty ship filter gives no needle, so the ship test is off |
| Display.ShipMatchIgnoresCase | index.php:667-674 | a needle found in the ship name passes whatever the letter case of either |
| Display.NightsWindow | index.php:679-681 | a duration read as 0 passes; with both bounds set, a non-zero duration passes iff it lies within them |
| Display.FilterRowsMembers | index.php:666-684 | the filter keeps exactly the rows passing the ship and nights tests |
| Display.FilterRowsAppend | index.php:666-684 | filtering distributes over concatenation, so the kept rows stay in input order |
| Display.NoFilterKeepsAll | index.php:666-684 | with no needle and both bounds off every row is kept |
| Display.ChangeMeaning | index.php:266-282 | a total delta exists iff both amounts are set, and previous plus delta gives the new amount; the same holds for the per-night price; the change date is the row's price date, else the previous snapshot's time |
| Display.ChangesUpToMeaning | index.php:260-283 | the change map has an entry exactly for the ids of the rows that are in the previous map, computed from the last such row |
| Display.ComputeChanges | index.php:260-283 | the delta loop computes that map |
| Receive.AcceptedNameHasNoSlash | receive.php:16 | an accepted file name contains no `/`, so the target stays in the target directory |
| Receive.AcceptedNameExamples | receive.php:16 | plain `.json` names are accepted in any letter case |
| Receive.TrailingLineFeedAccepted | receive.php:16 | a name followed by one line feed is accepted too (`$` without the `D` modifier) |
| Receive.RefusedNameExamples | receive.php:16 | `../x.json`, `a.json.php` and `.json` are refused |
| Receive.TimestampWindow | receive.php:17 | a timestamp exactly 300 seconds away either way passes, 301 fails; a timestamp is stale iff it lies outside [now-300, now+300] |
| Receive.GuardOrder | receive.php:16-21 | name, then timestamp, then signature: the first failing check answers 400 or 401 with its message, and a refused request writes nothing |
| Receive.WriteOnlyOnChange | receive.php:24-38 | an accepted request answers NOCHANGE and writes nothing iff the body's hash equals the trimmed stored hash; otherwise it answers OK; the target then holds the body and the hash file the new hash; the temporary file is gone; nothing else changes |
| Receive.ResendIsNoChange | receive.php:24-38 | resending the same body right after an OK answers NOCHANGE |
| Receive.UploadDir.Receive | receive.php:12-38 | one request changes the directory and answers as specified |

## Left out

- HTTP, cURL, cookies and the detail-file cache are not part of this model. The listing answer and the detail payloads arrive as parameters. A failed listing request is `None`. A detail request that gave nothing has no entry in the detail map. So a falsy payload (null or an empty array) counts as no payload.
- JSON encoding and decoding, and the snapshot file format (`updated_at`, `count`), are left out. A snapshot is its sequence of records. A cache file that cannot be decoded counts as no cache. Writing through a `.tmp` file and renaming it is a single assignment.
- The previous snapshot is copied only when the main cache file exists. The model copies the stored main cache of that party size. It does not model a main cache that exists but is corrupt.
- Cli.CacheDir.RunCli: the clock is a parameter (`today`). A run that crosses midnight between `shouldDailyRefresh` and `setDailyRefreshed` is not modelled.
- Logging, `--verbose` output, the usage text, `number_format`, sorting and HTML rendering are left out. They change no state.
- The date part of `applyFilters` (`from`/`to` via `strtotime`) is left out: date parsing is not modelled. The web view's request parsing (`$_GET`) is also left out. Only the ship and nights tests are modelled.
- Display.Lower: `mb_strtolower` is modelled for ASCII letters only. Other letters are left unchanged.
- Display.StrOf: a float ship name is read as the empty string, because floating-point text formatting is not modelled.
- Floating point is modelled by exact reals. Rounding in `amount / duration / adults`, and in the float comparisons that detect a price change, is not modelled.
- Values.LeadingInt: `(int)` of a numeric string in exponent form (`"1e3"`) reads only the leading digits. PHP would give 1000 for `"1e3"`.
- Values.FloatCast: `(float)` of a string in exponent form (`"1.5e3"`) reads only the digits and fraction before the `e`. PHP would give 1500.0.
- Listing.VariantRow: journey ids are strings. A truthy id of another JSON type (a number) makes the PHP run stop with a `TypeError` in `buildFindLink` or `fetchCabinDetail`, because the file declares `strict_types`. Such an id is not modelled.
- Display.ChangesUpToMeaning: the previous map's `_meta_updated_at` entry is a separate field (`updatedAt`). A journey whose id is literally `_meta_updated_at` is not modelled.
- Merge.MergeMeta: records are always maps. The `TypeError` that PHP raises when a non-array reaches `$existing` is not modelled.
- Receive.UploadDir.Receive, the HMAC: `base64_encode(hash_hmac('sha256', …, $secret, true))` and SHA-256 are function parameters. The secret is inside the HMAC parameter. `hash_equals` is modelled as plain equality: its constant running time is not modelled.
- Receive.UploadDir.Receive, file permissions: `chmod`, `mkdir`, failed writes and concurrent uploads are not modelled.
- Receive.ResendIsNoChange assumes that the hash text has no white space at its ends. A SHA-256 hex digest has none.

## Code and design notes

- A journey whose detail payload is present but yields no priced cabin is stored with empty alternatives and a null cheapest. Only a falsy payload falls back to the cached record. The model follows the code here.
- A cached journey with no amount whose new record also has none counts as a price change. The code compares the default `-1` with the default `-2`. The model follows the code (Update.UnsetAmountsCountAsChange).
- The file-name pattern uses `$` without the `D` modifier. A name followed by one line feed is therefore accepted, and the file is written under that name inside the target directory. The model follows the code (Receive.TrailingLineFeedAccepted).
