# ZBLuaPerfMon core in Dafny

This project models the Java core of ZBLuaPerfMon, a Lua call profiler for Project Zomboid, and proves properties of that model. The profiler has five parts:

- **Per-call-site histogram.** Each call site keeps a sliding-window histogram: a fixed ring of 50 ms buckets (`TimingStats`).
- **Registry.** The registry maps a function object's hash to its histogram and its first-seen name. It also raises a rate-limited periodic report that ranks call sites by the time they spent in the last window (`PerformanceMonitor`).
- **Path classifier.** The classifier turns a Lua source path into a source kind and a relative path (`PathParser`). It keeps a memo cache.
- **Older entry point.** An older entry point times one call in a thousand with its own classifier (`Main`).
- **On-screen overlay.** The overlay formats the top entries into aligned, coloured lines, caches them between refreshes and lays them out (`PerfRenderer`).

## Files

- `strings.dfy` (module `Strings`): the Java string and integer operations the source relies on.
  - `replace('\\', '/')`, `startsWith`, `indexOf`, `lastIndexOf` and `toLowerCase` on ASCII letters only;
  - decimal printing and `Integer.parseInt`;
  - the `(int)` cast, and Java's truncating division.
- `lua.dfy` (module `Lua`): the fields of a Lua function object that the profiler reads.
- `timing.dfy` (module `Timing`): the histogram.
  - It is modelled twice. First as a value `State` with one function per operation, and lemmas for the invariants and the query rules.
  - Then as the class `TimingStats` over an `array<Bucket>`. Each method is proved to perform its function on the array and fields.
- `path_parser.dfy` (module `PathParser`):
  - `FilePrefix` and `FileInfo`;
  - the classification rules, tried in order;
  - the Steam-folder search loop;
  - the memo cache as a class.
- `legacy_main.dfy` (module `LegacyMain`):
  - the older classifier, proved to agree with the shared one except for its case-sensitive workshop test;
  - the one-in-a-thousand sampling counter with 32-bit wrap-around;
  - the enter/exit hooks as a class.
- `performance_monitor.dfy` (module `Monitor`):
  - key and name derivation, and name resolution;
  - the registry as a class holding each key's histogram state;
  - the rate-limited report trigger;
  - the report pipeline: collect, drop the empty windows, sort by window total descending, keep 50.
- `perf_renderer.dfy` (module `Renderer`):
  - the per-entry formatting rules and the full line;
  - the renderer's static caches as a class;
  - the refresh and layout arithmetic;
  - the draw calls, returned as values.

The clock (`System.nanoTime`), `hashCode`/`toString`, the game's file system and Steam folders, and text measurement are outside the model. They appear as parameters: `now`, `FuncObj.hash`, `Env`, `measureX` and `textHeight`.

### Behaviour worth noting

- **`getWindowStats` clamp.** The method computes a bucket count clamped to the window size (TimingStats.java:171-179), and that value is never used. The scan always visits all `windowSize` slots and stops at the first closed bucket that lies wholly before the window. The model has no clamp.
- **Query example.** After 10 ms samples at t = 0, 60, 120 and 180 ms in a 4-bucket histogram, a 50 ms query at t = 200 ms counts two samples. The bucket that holds the t = 120 sample closed at t = 180, and its end stamp, 180, lies after the window start, 150, so it counts along with the open bucket's sample (`Timing.WindowQueryResult`, `Timing.OpenBucketRule`).
- **Open bucket.** The open bucket counts only when it opened inside the window (TimingStats.java:220). `Timing.OpenBucketRule` states this policy.
- **`getWindowStats` arguments.** `logStatistics` passes `(currentTimestampNs, windowDurationMS)` to `getWindowStats`, which is declared as `(windowDurationMS, functionName)` (PerformanceMonitor.java:83, TimingStats.java:163). The model makes the intended call: the report window in milliseconds at the report's clock reading.
- **`FileInfo.prefix` strings.** `PerformanceMonitor` uses strings where `FileInfo.prefix` is a `FilePrefix` (FileInfo.java:4, and the constructor at :14). The branches at PerformanceMonitor.java:104 and :137-139 assign `"UNKNOWN"` when the prefix is null. A `FileInfo` from the classifier always has a prefix, so they are dead and the model leaves them out. The return at PerformanceMonitor.java:142, `new FileInfo("UNKNOWN", name, 0)`, is live: it runs for every name with no ':' after its first character. The model gives that result the `UNK` prefix (`Monitor.ResolveKey`, `Monitor.ResolveKeyCases`).

## Model

| member | source | states |
|---|---|---|
| Strings.WrapInt32 | 42/media/java/client/src/TimingStats.java:47 | Java's `(int)` cast: the result is an `int`, differs from the input by a multiple of 2^32, and equals the input when it already fits |
| Strings.LastIndexOf | 42/media/java/client/src/PerformanceMonitor.java:125 | `lastIndexOf(':')`: -1 or a position holding the character, with no occurrence after it |
| Strings.IndexOfFirst | 42/media/java/client/src/PathParser.java:63 | `indexOf` returns the first occurrence, and -1 exactly when there is none |
| Strings.ParseIntRoundTrip | 42/media/java/client/src/PerformanceMonitor.java:130 | `Integer.parseInt` of a printed `int` gives the same `int` back |
| Timing.TimingStats.constructor | 42/media/java/client/src/TimingStats.java:31-38 | the buckets are fresh, all empty, with the cursor at 0, zero totals and sentinel extremes; the state satisfies the histogram invariant |
| Timing.FreshInv | 42/media/java/client/src/TimingStats.java:20-38 | a new histogram satisfies the invariant: cursor in range, every bucket well formed, totals equal the bucket sums, extremes bracket every non-empty bucket |
| Timing.TimingStats.AddSample | 42/media/java/client/src/TimingStats.java:40-74 | the array and fields afterwards are exactly `AfterSample(old state, now, duration)` (catch up, then record), and the invariant is kept |
| Timing.TimingStats.CatchUp | 42/media/java/client/src/TimingStats.java:43-57 | the array and fields afterwards are exactly the catch-up of the old state |
| Timing.TimingStats.AdvanceTimes | 42/media/java/client/src/TimingStats.java:53-55 | the loop advances exactly the requested number of buckets (none for a negative count) |
| Timing.TimingStats.AdvanceTimeBucket | 42/media/java/client/src/TimingStats.java:79-125 | the array and fields afterwards are exactly `AdvanceBucket(old state, now)`, and the invariant is kept |
| Timing.TimingStats.RecalculateGlobalMinMax | 42/media/java/client/src/TimingStats.java:127-136 | the extremes become the minimum and maximum over the non-empty buckets, or the sentinels when there are none |
| Timing.TimingStats.GetWindowStats | 42/media/java/client/src/TimingStats.java:163-297 | writes nothing and returns `WindowQuery(state, now, window)`, so two calls with no sample in between agree |
| Timing.CatchUpRule | 42/media/java/client/src/TimingStats.java:44-57 | no advance when under 50 ms has elapsed or the clock went backwards; otherwise the open bucket restarts at `now` and the cursor moves by min(elapsed / 50 ms, windowSize) modulo the size, and the invariant holds |
| Timing.StepsForFits | 42/media/java/client/src/TimingStats.java:47-51 | while the bucket count fits an `int`, the steps are the elapsed buckets capped at the window size |
| Timing.CatchUpAfterLongIdle | 42/media/java/client/src/TimingStats.java:47 | the narrowing cast: after exactly 2^31 bucket times nothing advances, one nanosecond earlier the full window does |
| Timing.AdvanceNCursor | 42/media/java/client/src/TimingStats.java:93 | after k advances the cursor is (cursor + k) mod windowSize, so it stays in [0, windowSize) |
| Timing.AdvancePreservesInv | 42/media/java/client/src/TimingStats.java:79-125 | one advance keeps the invariant, totals included |
| Timing.AdvanceChanges | 42/media/java/client/src/TimingStats.java:83-113 | only a non-empty current bucket gets an end stamp; the next bucket is cleared (end stamp kept) exactly when it is a different slot holding data with an end stamp older than windowSize × 50 ms, otherwise its data is kept; nothing else changes |
| Timing.AdvanceKeepsTotals | 42/media/java/client/src/TimingStats.java:103-106 | subtracting a cleared bucket's count and sum keeps the totals equal to the bucket sums |
| Timing.AdvanceKeepsBucketData | 42/media/java/client/src/TimingStats.java:96-111 | every bucket either keeps its data or is reset, never anything else |
| Timing.RecordAddsOneSample | 42/media/java/client/src/TimingStats.java:59-73 | the current bucket's count rises by one and its sum by the duration, which lies between its min and max; the totals rise by the same; other buckets are untouched |
| Timing.AfterSamplePreservesInv | 42/media/java/client/src/TimingStats.java:40-74 | addSample keeps the invariant and leaves one more sample than the catch-up did |
| Timing.LiveExtremesBound | 42/media/java/client/src/TimingStats.java:127-136 | the recalculated extremes bound every non-empty bucket and are the sentinels when all are empty |
| Timing.WindowQueryResult | 42/media/java/client/src/TimingStats.java:204-296 | no data exactly when no slot is taken; otherwise the count and sum are those of the taken slots, 1 <= count <= totalCount and min <= max |
| Timing.ScanMatchesTaken | 42/media/java/client/src/TimingStats.java:204-283 | the backward scan adds up exactly the slots that overlap the window before the first slot wholly before it |
| Timing.NothingTakenAfterStop | 42/media/java/client/src/TimingStats.java:242-246 | once a slot ends at or before the window start, no older slot contributes |
| Timing.OpenBucketRule | 42/media/java/client/src/TimingStats.java:215-226 | the open bucket counts exactly when it opened inside the window, before `now`, and holds data |
| Timing.TakenCountBounds | 42/media/java/client/src/TimingStats.java:204-274 | each slot is counted at most once: the window count is between 0 and the total count, and 0 exactly when no slot is taken |
| Timing.ScanKeepsMinMax | 42/media/java/client/src/TimingStats.java:273-274 | a scan that takes any sample has min <= max |
| Timing.WindowMonotone | 42/media/java/client/src/TimingStats.java:182-183 | a longer window never finds fewer samples than a shorter one at the same time |
| Timing.FreshHasNoWindowData | 42/media/java/client/src/TimingStats.java:292-294 | a new histogram answers every query with no data |
| PathParser.FirstSteamFolder | 42/media/java/client/src/PathParser.java:80-83 | a found Steam folder is a prefix of the normalised name |
| PathParser.FirstSteamFolderIsFirst | 42/media/java/client/src/PathParser.java:80-106 | the search finds the first non-null folder in array order whose normalised form prefixes the name, and none exactly when no folder does |
| PathParser.FindSteamFolder | 42/media/java/client/src/PathParser.java:80-106 | the loop returns the folder `FirstSteamFolder` specifies |
| PathParser.ParseFileInfo | 42/media/java/client/src/PathParser.java:31-160 | the imperative rule chain returns exactly `Classify`: local mod, workshop, Steam folder, workshop-content fallback, game, unknown, first match wins |
| PathParser.ClassifyKeepsTail | 42/media/java/client/src/PathParser.java:31-160 | line 0 and never INTERNAL; UNK keeps the original name; any other kind returns a suffix of the normalised name that holds no backslash |
| PathParser.LocalModRemainder | 42/media/java/client/src/PathParser.java:42-53 | a name under `<cacheDir>/mods/` is LMOD, with the remainder minus at most one leading '/' |
| PathParser.WorkshopKeepsRemainder | 42/media/java/client/src/PathParser.java:55-72 | the workshop rule applies exactly when the name starts with `<cacheDir>/workshop/` ignoring case, and returns what follows it |
| PathParser.SteamStripsInOrder | 42/media/java/client/src/PathParser.java:84-102 | a Steam remainder loses a leading '/', then `mods/`, then `lua/` |
| PathParser.ContentTail | 42/media/java/client/src/PathParser.java:112-139 | the workshop-content fallback returns a suffix of the name |
| PathParser.GameTail | 42/media/java/client/src/PathParser.java:143-152 | when the game root is stripped the result is a suffix of the normalised name, and the name is classified GAME |
| PathParser.FileInfoCache.constructor | 42/media/java/client/src/PathParser.java:10 | the cache starts empty |
| PathParser.FileInfoCache.GetFileInfo | 42/media/java/client/src/PathParser.java:12-29 | a hit returns a copy of the cached prefix and path with line 0; a miss returns the classification and caches it only for names under 1000 characters; a consistent cache always answers like `Classify` |
| PathParser.FileInfoCache.ClearCache | 42/media/java/client/src/PathParser.java:196-198 | the cache is empty |
| PathParser.FileInfoCache.GetCacheSize | 42/media/java/client/src/PathParser.java:201-203 | the number of cached names, saturated at the `int` range, so 0 after clearCache |
| LegacyMain.GetFileInfo | 42/media/java/client/src/Main.java:118-239 | the older rule chain returns exactly `LegacyClassify` |
| LegacyMain.LegacyAgreesWithClassify | 42/media/java/client/src/Main.java:129-153 | whenever the case-insensitive workshop test implies the exact one, the older classifier gives the shared result under its string label |
| LegacyMain.WorkshopCaseDiffers | 42/media/java/client/src/Main.java:143-152 | a workshop path spelt `Workshop` is WMOD for the shared classifier and UNKNOWN for the older one |
| LegacyMain.LuaFileInfoShape | 42/media/java/client/src/Main.java:71-97 | a closure with a prototype gets its first line (0 when the table is missing or empty) and a known label; anything else is UNKNOWN with `toString()` or "null" and line 0 |
| LegacyMain.IncTimesWraps | 42/media/java/client/src/Main.java:21 | k increments of the `int` counter give the count plus k, wrapped to 32 bits |
| LegacyMain.SampledEveryThousand | 42/media/java/client/src/Main.java:21-25 | away from the wrap, an entry is timed exactly when the one a thousand before was |
| LegacyMain.SamplingAcrossWrap | 42/media/java/client/src/Main.java:21-25 | across the wrap the period breaks: after 2147483000 the next timed count is -2147483000, 1296 entries later |
| LegacyMain.Hooks.constructor | 42/media/java/client/src/Main.java:10-15 | both counters are 0 and no call is being timed |
| LegacyMain.Hooks.EnterPcall | 42/media/java/client/src/Main.java:20-26 | the pcall counter is incremented with wrap-around; the start time and function object are set exactly when the new count is divisible by 1000 |
| LegacyMain.Hooks.EnterPcallvoid | 42/media/java/client/src/Main.java:42-48 | the same for the pcallvoid counter, leaving the other counter alone |
| LegacyMain.Hooks.Exit | 42/media/java/client/src/Main.java:29-36 | logs the object and the elapsed time only when a start time is set, and leaves both per-thread values cleared (pcallvoid's exit, lines 51-58, is the same code) |
| Monitor.ResolveRoundTrip | 42/media/java/client/src/PerformanceMonitor.java:124-141 | resolving a closure's name `fname:line` recovers the classification of `fname` and the line, even when `fname` holds ':' |
| Monitor.ResolveKeyCases | 42/media/java/client/src/PerformanceMonitor.java:124-142 | no ':' after position 0 gives UNK, the whole name and line 0, and only then is the name kept whole; an unparsable line gives 0 |
| Monitor.LastColon | 42/media/java/client/src/PerformanceMonitor.java:37 | the ':' that getObjName inserts is the last one when the line text has none |
| Monitor.SortDescCorrect | 42/media/java/client/src/PerformanceMonitor.java:93-98 | the sort orders by window total descending and is a permutation |
| Monitor.RankIsTop | 42/media/java/client/src/PerformanceMonitor.java:93-99 | the report holds min(n, 50) entries drawn from the candidates, sorted descending, and every dropped candidate's total is at most every kept one's |
| Monitor.CandidatesHaveData | 42/media/java/client/src/PerformanceMonitor.java:83-86 | every candidate's key has a histogram and a window with 1 <= count <= totalCount and min <= max |
| Monitor.CollectStep | 42/media/java/client/src/PerformanceMonitor.java:78-92 | visiting one more key keeps exactly the visited keys with window data, each once |
| Monitor.CollectEntries | 42/media/java/client/src/PerformanceMonitor.java:78-92 | the map-and-filter step yields one entry per key with data in the report window, each carrying that window and the resolved name, in some order |
| Monitor.ReportsSpaced | 42/media/java/client/src/PerformanceMonitor.java:46-63 | however the clock behaves, reports are at least LOG_INTERVAL_SECONDS apart and the first is at least that after the start |
| Monitor.PerformanceMonitor.constructor | 42/media/java/client/src/PerformanceMonitor.java:6-11 | both maps are empty and the last report time is the load time |
| Monitor.PerformanceMonitor.RecordTiming | 42/media/java/client/src/PerformanceMonitor.java:14-22 | the key (hash, 0 for null) gets a histogram of WINDOW_SIZE buckets if it had none, then exactly one sample; no other key changes; a non-zero key is named once and keeps its first name |
| Monitor.PerformanceMonitor.LogStatistics | 42/media/java/client/src/PerformanceMonitor.java:65-121 | the report is the ranking of the keys with data in the report window |
| Monitor.PerformanceMonitor.CheckAndLogStatistics | 42/media/java/client/src/PerformanceMonitor.java:46-63 | reports, and moves the last report time to the locked reading, exactly when both readings are an interval past it; the registry is unchanged |
| Renderer.ColourBands | 42/media/java/client/src/PerfRenderer.java:190-205 | red above 500 ms, yellow above 100 ms, white otherwise; a larger total never gets a calmer colour |
| Renderer.PadLeft | 42/media/java/client/src/PerfRenderer.java:208 | `%5d`: the text right-aligned with spaces to the column width |
| Renderer.PadRight | 42/media/java/client/src/PerfRenderer.java:65 | `%-<w>s`: the text left-aligned with spaces to the column width |
| Renderer.Tenths | 42/media/java/client/src/PerfRenderer.java:188 | the total in tenths of a millisecond is within half a tenth of the exact value and keeps its sign |
| Renderer.TimeText | 42/media/java/client/src/PerfRenderer.java:188 | the time column is at least 8 characters and ends in "ms" |
| Renderer.SplitPrefix | 42/media/java/client/src/PerfRenderer.java:211-231 | the prefix column is never empty |
| Renderer.SplitPrefixRejoins | 42/media/java/client/src/PerfRenderer.java:217-228 | for a mod file, the prefix is the first folder (no '/'), and prefix + "/" + path is the normalised path; or the path has no '/' or starts with one, and the enum name is shown with the path unchanged |
| Renderer.WithLineReadsBack | 42/media/java/client/src/PerfRenderer.java:241-246 | the line is appended exactly when it is positive or the path holds a separator, and then it is the text after the last ':' and parses back to the line |
| Renderer.Truncate | 42/media/java/client/src/PerfRenderer.java:247 | at most 80 characters; short paths unchanged; long ones keep their first 77 and end in "..." |
| Renderer.Format | 42/media/java/client/src/PerfRenderer.java:177-249 | a formatted entry has a non-empty prefix, a path of at most 80, a count of at least 5 and a time of at least 10 characters |
| Renderer.ShownExactly | 42/media/java/client/src/PerfRenderer.java:181-184 | exactly the entries whose total reaches the minimum are shown, each as often as it occurs |
| Renderer.TopCallsFormatsShown | 42/media/java/client/src/PerfRenderer.java:175-250 | getTopCalls formats exactly the shown entries, in order |
| Renderer.TopCallsColumns | 42/media/java/client/src/PerfRenderer.java:233-247 | every formatted call has a prefix and a path of at most 80 characters |
| Renderer.MaxPrefixLen | 42/media/java/client/src/PerfRenderer.java:233-236 | the batch width bounds every prefix and is 0 or attained by one |
| Renderer.FormatBatch | 42/media/java/client/src/PerfRenderer.java:171-250 | the loop returns `TopCalls` of the entries and their widest prefix |
| Renderer.FullLine | 42/media/java/client/src/PerfRenderer.java:62-67 | the line starts with the time and ends with the path; when the prefix fits the column its length is time + count + width + 5 + path, so paths line up |
| Renderer.Longest | 42/media/java/client/src/PerfRenderer.java:132-140 | the longest line is at least as long as the header and every line, and is the header or the first line of that length |
| Renderer.BuildLines | 42/media/java/client/src/PerfRenderer.java:128-140 | the loop builds the header then one line per call in order, in the call's colour, and finds the first longest |
| Renderer.LayoutFor | 42/media/java/client/src/PerfRenderer.java:148-153 | spacing = text height + 2, height = (topN + 1) × spacing; a negative y0 puts the block's last row at scrH + y0, otherwise it starts at y0; the background spans 5 px either side of the widest line |
| Renderer.PerfRenderer.constructor | 42/media/java/client/src/PerfRenderer.java:10-42 | the static caches' initial values: x0 and y0 at `Integer.MIN_VALUE`, everything else empty or 0 |
| Renderer.PerfRenderer.GetTopCalls | 42/media/java/client/src/PerfRenderer.java:170-258 | returns `TopCalls`; the prefix width never shrinks, afterwards bounds every returned prefix and grows only to one of them |
| Renderer.PerfRenderer.CacheCalls | 42/media/java/client/src/PerfRenderer.java:116-125 | the new calls and the settings snapshot are cached, and the width caches stay valid |
| Renderer.PerfRenderer.CacheLines | 42/media/java/client/src/PerfRenderer.java:127-145 | the cached lines are the header and one line per call; the longest is the first longest; the all-time width only grows |
| Renderer.PerfRenderer.CacheLayout | 42/media/java/client/src/PerfRenderer.java:147-153 | the five layout fields are `LayoutFor` of the settings and the widest line |
| Renderer.PerfRenderer.Refresh | 42/media/java/client/src/PerfRenderer.java:116-154 | the whole refresh: calls, snapshot, lines, longest line, monotone widths and layout |
| Renderer.PerfRenderer.Draw | 42/media/java/client/src/PerfRenderer.java:156-166 | the background when visible, then every cached line at x0, one spacing apart from the cached top |
| Renderer.PerfRenderer.RenderInternal | 42/media/java/client/src/PerfRenderer.java:88-167 | nothing without the text manager and core; the caches change only when the update interval has elapsed, and then exactly as `Refresh` states (calls, snapshot, lines, longest line, widths, layout); the background rectangle, when shown, and every line are drawn from the caches |

## Left out

- Concurrency is not modelled: `synchronized`, `ConcurrentHashMap`, `volatile`, `ThreadLocal` and the double-checked lock. Everything is sequential. The two clock readings of `checkAndLogStatistics` are separate parameters. The non-atomic check-then-put of a key's name is "first writer wins".
- Monitor.PerformanceMonitor.RecordTiming: the registry holds each key's histogram as a `Timing.State` value rather than a `TimingStats` object. `Timing.TimingStats.AddSample` is proved to perform `AfterSample` on that state, so the registry applies the same function. Object sharing between the map and other holders is not modelled.
- Timing.TimingStats.AddSample: every bucket advance in one call is stamped and aged with the single reading `now`. The source reads `System.nanoTime()` once for the catch-up decision (TimingStats.java:43) and again inside each `advanceTimeBucket` (:80), which stamps `bucketEndTimeNs` (:88-89) and decides eviction (:98-100). The model is the case where all those readings are equal.
- Timing.TimingStats.CatchUp: all advances of one catch-up share the reading taken at TimingStats.java:43; the per-advance readings of :80 are not modelled, for the same reason.
- Timing.TimingStats.AdvanceTimes: the loop passes the one reading `now` to every `AdvanceTimeBucket`; the source's loop reads the clock again on each iteration (TimingStats.java:80).
- Timing.AdvanceN: the k advances share one reading `now`, as in `AdvanceTimes`.
- Timing.CaughtUp: the catch-up function uses one reading for the decision and for every advance it makes.
- Monitor.CollectEntries: every key's window is evaluated at the one reading `now`. The source's `getWindowStats` reads `System.nanoTime()` for each key (TimingStats.java:166).
- Monitor.PerformanceMonitor.LogStatistics: all keys of one report share one clock reading, as in `CollectEntries`. A report is thus the one the source would give if its per-key readings were equal.
- Strings.ToLower: only 'A'-'Z' are folded. Java's `toLowerCase()` is Unicode- and locale-aware and can change a string's length ('İ' becomes two chars). This affects the workshop test of `PathParser.WorkshopRule`, `PathParser.WorkshopKeepsRemainder`, `PathParser.ParseFileInfo` and `PathParser.FileInfoCache.GetFileInfo` on paths with non-ASCII letters.
- Strings.ParseInt: only the ASCII digits '0'-'9' are accepted. `Integer.parseInt` accepts any Unicode decimal digit. This affects the line number of `Monitor.ResolveKey` for such suffixes.
- String length: a Dafny `char` is a Unicode scalar value, while Java lengths count UTF-16 code units. For text outside the Basic Multilingual Plane, the lengths differ. This affects the 1000-character cache limit of `PathParser.FileInfoCache.GetFileInfo`, the 80/77 cut of `Renderer.Truncate` and the longest-line comparison of `Renderer.Longest`.
- `addSample`'s `startTimeNs` argument is unused by the source and is dropped.
- Java `long` overflow of the running sums, window sums and clock differences is not modelled; the sums are unbounded integers. The `(int)` cast of the bucket count is modelled (`Timing.StepsFor`).
- Timing.TimingStats.RecalculateGlobalMinMax: the condition at TimingStats.java:122 compares the cleared bucket's sentinels with the extremes. So `globalMin`/`globalMax` are proved only to bracket every non-empty bucket, not to be exact.
- Floating point is not modelled:
  - `getAverage`, `getMin`, `getMax`, `getCount` and `getTotalSum` are not modelled. They are millisecond conversions in double arithmetic and nothing in the core uses them.
  - Neither are the `WindowStats` millisecond getters.
  - Renderer.Tenths: `%8.1f` of `sum / 1e6` is modelled as exact decimal rounding of the integer nanoseconds (half away from zero). Double rounding of very large totals is not modelled.
  - Renderer.ShownExactly: the minimum display time is held in whole nanoseconds, and the comparison is made on integers instead of on doubles in milliseconds.
  - Monitor.RankIsTop: the ranking compares integer nanosecond sums rather than their double millisecond values. Dividing by 1e6 preserves the order except where doubles collapse distinct very large sums.
  - The order of entries with equal totals depends on the hash map's iteration order, which the model leaves open.
  - The RGB and alpha doubles are reduced to the three colours `White`, `Yellow` and `Red` and a `showBackground` flag.
- The report's text output (`System.out.println`, `String.format` with `%9.3f`, `%-9s`) and `logFunc`'s printed line are left out. `LegacyMain.Hooks.Exit` returns the record that would be printed.
- Monitor.ResolveKey classifies the file name directly rather than through the memo cache. `PathParser.FileInfoCache.GetFileInfo` is proved to answer like `Classify` whenever the cache is consistent with the environment, and `GetFileInfo` keeps it consistent.
- `getTopEntries`, `reset`, `clearExcludedSlowKeys`, `logIntervalSeconds`, `trackInternalPerformance` and `recordInternalPerformance` are called by the source but not defined in it. PerformanceMonitor.java has none of them. The renderer therefore takes the ranked entries as a parameter.
- `render()` (PerfRenderer.java:70-86) is left out. It only checks the `osdEnabled` flag and times itself through the missing internal-performance recorder.
- `TextManager`, `Core`, `SpriteRenderer` and `UIFont` are left out; they are the game's. Their presence is a `ready` flag. Text measurement is the `measureX` function and the `textHeight` parameter. Drawing returns `Rect`/`TextDraw` values.
- Renderer.TimeText: the contract states only the column width and the unit. The value shown is `Renderer.Tenths`, whose contract bounds the rounding error.
- Renderer.SplitPrefix: the contract states only that the prefix column is non-empty. What is split off is stated by `Renderer.SplitPrefixRejoins`.
- Renderer.LayoutFor: the layout arithmetic is on unbounded integers. Overflow of `(topN + 1) * lineSpacing` and of the other `int` sums is not modelled.
- Renderer.PerfRenderer.RenderInternal: the gate `currentTime - lastUpdateTime >= osdUpdateIntervalMS * 1_000_000L` is on unbounded integers. A `long` clock difference that overflows is not modelled.
- The `prefix == null` branches of PerfRenderer.java:211, Main.java:88-90 and PerformanceMonitor.java:137-139 are left out. The classifiers never return a null prefix.
- ZBLuaPerfMon.java's configuration fields and setters are left out. Their defaults are `Renderer.DEFAULT_SETTINGS`. DebugLogger.java (file I/O), the bytecode-patch shims (Patch_*.java) and LuaFileInfoExtractor.java (an adapter over the interpreter's closure type) are not part of this model.
- `ZomboidFileSystem`, `SteamWorkshop` and any exception they raise are the `Env` parameter. Its `fileSystem` flag is the null check. Its `fails` flag stands for an exception anywhere in the classifier, which makes the result UNK with the original name.
