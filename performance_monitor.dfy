/** The registry of timings: one sliding-window histogram per function
    object, keyed by its hash, a name for each key, and the periodic report
    that ranks the keys by the time spent in them during the last window. */
module Monitor {
  import opened Strings
  import opened Lua
  import opened PathParser
  import opened Timing

  /** Buckets per histogram. */
  const WINDOW_SIZE: nat := 1000
  /** Seconds between reports. */
  const LOG_INTERVAL_SECONDS: int := 5
  const LOG_INTERVAL_NS: int := LOG_INTERVAL_SECONDS * 1_000_000_000
  /** The histogram's span in whole seconds: 1000 buckets of 50 ms. */
  const MAX_WINDOW_SECONDS: int := (WINDOW_SIZE * 50) / 1000
  /** The report's window: the shorter of the histogram's span and the
      report interval, in milliseconds. */
  const REPORT_WINDOW_MS: int :=
    (if MAX_WINDOW_SECONDS < LOG_INTERVAL_SECONDS then MAX_WINDOW_SECONDS else LOG_INTERVAL_SECONDS) * 1000
  /** Lines per report. */
  const REPORT_LIMIT: nat := 50

  // ---------------------------------------------------------------------------
  // Keys and names

  /** The key a function object is recorded under: its hash, 0 for null. */
  function KeyOf(f: FuncObj): Int32 {
    if f.Null? then 0 else f.hash
  }

  /** getObjName: `<file>:<first line>` for a closure with a prototype,
      `(<class>)<toString>` for any other object, "null" for null. */
  function ObjName(f: FuncObj): string {
    match f
    case Null => "null"
    case Closure(_, proto, text) =>
      if proto.Some? then SourceName(proto.value) + ":" + IntToString(FirstLine(proto.value))
      else "(LuaClosure)" + text
    case Other(_, className, text) => "(" + className + ")" + text
  }

  /** resolveKeyToFileInfo: split the name at its last ':'; the part before
      is classified and the part after parsed as the line (0 when it is not
      a number). A name with no ':' after its first character is UNK with
      the whole name and line 0. */
  function ResolveKey(env: Env, name: string): FileInfo {
    var colon := LastIndexOf(name, ':');
    if colon > 0 then
      var fname := name[..colon];
      var line := match ParseInt(name[colon + 1..]) case Some(v) => v case None => 0;
      var info := Classify(env, fname);
      FileInfo(info.prefix, info.relativePath, line)
    else FileInfo(UNK, name, 0)
  }

  /** The last ':' of `a + ":" + b` is the one added when `b` has none. */
  lemma LastColon(a: string, b: string)
    requires forall i :: 0 <= i < |b| ==> b[i] != ':'
    ensures LastIndexOf(a + ":" + b, ':') == |a|
  {
    var s := a + ":" + b;
    var r := LastIndexOf(s, ':');
    assert s[|a|] == ':';
  }

  /** Naming a closure and resolving the name gives back its file's
      classification and its first line, whatever the file name holds
      (':' included), as long as it is not empty. */
  lemma ResolveRoundTrip(env: Env, f: FuncObj)
    requires HasPrototype(f) && |SourceName(f.proto.value)| > 0
    ensures var fname := SourceName(f.proto.value);
      ResolveKey(env, ObjName(f))
        == FileInfo(Classify(env, fname).prefix, Classify(env, fname).relativePath, FirstLine(f.proto.value))
  {
    var p := f.proto.value;
    var fname := SourceName(p);
    var digits := IntToString(FirstLine(p));
    var name := ObjName(f);
    assert name == fname + ":" + digits;
    LastColon(fname, digits);
    assert name[..|fname|] == fname;
    assert name[|fname| + 1..] == digits;
    ParseIntRoundTrip(FirstLine(p));
  }

  /** A resolved name keeps the whole name as its path exactly when it has
      no ':' after its first character; a suffix that is not a number gives
      line 0. */
  lemma ResolveKeyCases(env: Env, name: string)
    ensures var r := ResolveKey(env, name);
      && (r.relativePath == name <==> LastIndexOf(name, ':') <= 0)
      && (LastIndexOf(name, ':') <= 0 ==> r == FileInfo(UNK, name, 0))
      && (LastIndexOf(name, ':') > 0 && ParseInt(name[LastIndexOf(name, ':') + 1..]).None? ==> r.line == 0)
  {
    var colon := LastIndexOf(name, ':');
    if colon > 0 {
      ClassifyKeepsTail(env, name[..colon]);
      NormalizeSlice(name, 0, colon);
    }
  }

  // ---------------------------------------------------------------------------
  // The report

  /** One line of the report: the key, its resolved file and its window. */
  datatype Entry = Entry(key: int, info: FileInfo, window: WindowStats)

  /** keyToName.getOrDefault(key, "unknown") */
  function NameOf(names: map<int, string>, key: int): string {
    if key in names then names[key] else "unknown"
  }

  function Keys(es: seq<Entry>): set<int> {
    if es == [] then {} else Keys(es[..|es| - 1]) + {es[|es| - 1].key}
  }

  /** The entries the report considers at clock reading `now`: one per key
      whose histogram has samples in the report window, carrying that window
      and the key's resolved name. */
  ghost function Expected(stats: map<int, State>, names: map<int, string>, now: int, env: Env): (m: map<int, Entry>)
    requires forall k :: k in stats ==> Shaped(stats[k])
    ensures m.Keys <= stats.Keys
    ensures forall k :: k in m ==> m[k].key == k
  {
    map k | k in stats && EntryFor(stats, names, k, now, env).Some? :: EntryFor(stats, names, k, now, env).value
  }

  /** The report line for `key`, if its histogram has samples in the
      report window. */
  function EntryFor(stats: map<int, State>, names: map<int, string>, key: int, now: int, env: Env): (r: Option<Entry>)
    requires key in stats && Shaped(stats[key])
    ensures r.Some? ==> r.value.key == key
  {
    match WindowQuery(stats[key], now, REPORT_WINDOW_MS)
    case None => None
    case Some(w) => Some(Entry(key, ResolveKey(env, NameOf(names, key)), w))
  }

  /** `es` lists the expected entries, each once. */
  ghost predicate Candidates(es: seq<Entry>, want: map<int, Entry>) {
    && (forall i :: 0 <= i < |es| ==> es[i].key in want && want[es[i].key] == es[i])
    && (forall i, j :: 0 <= i < j < |es| ==> es[i].key != es[j].key)
    && want.Keys <= Keys(es)
  }

  /** Places `e` before the first entry whose window sum is not larger. */
  function Insert(e: Entry, sorted: seq<Entry>): seq<Entry> {
    if sorted == [] then [e]
    else if sorted[0].window.sum > e.window.sum then [sorted[0]] + Insert(e, sorted[1..])
    else [e] + sorted
  }

  /** Orders entries by descending window sum, keeping the input order of equal sums. */
  function SortDesc(es: seq<Entry>): seq<Entry> {
    if es == [] then [] else Insert(es[0], SortDesc(es[1..]))
  }

  function Take(es: seq<Entry>, n: nat): seq<Entry> {
    if |es| <= n then es else es[..n]
  }

  /** The report's lines: the candidates by descending window sum, at most 50. */
  function Rank(es: seq<Entry>): seq<Entry> {
    Take(SortDesc(es), REPORT_LIMIT)
  }

  predicate SortedDesc(es: seq<Entry>) {
    forall i, j :: 0 <= i < j < |es| ==> es[i].window.sum >= es[j].window.sum
  }

  /** Inserting keeps every entry and adds `e`. */
  lemma {:induction false} InsertPerm(e: Entry, sorted: seq<Entry>)
    ensures multiset(Insert(e, sorted)) == multiset(sorted) + multiset{e}
  {
    if sorted != [] && sorted[0].window.sum > e.window.sum {
      InsertPerm(e, sorted[1..]);
      assert sorted == [sorted[0]] + sorted[1..];
    }
  }

  /** Inserting below a bound keeps everything below it. */
  lemma {:induction false} InsertBounded(e: Entry, sorted: seq<Entry>, bound: int)
    requires e.window.sum <= bound
    requires forall i :: 0 <= i < |sorted| ==> sorted[i].window.sum <= bound
    ensures forall i :: 0 <= i < |Insert(e, sorted)| ==> Insert(e, sorted)[i].window.sum <= bound
  {
    if sorted != [] && sorted[0].window.sum > e.window.sum {
      InsertBounded(e, sorted[1..], bound);
    }
  }

  lemma {:induction false} InsertSorted(e: Entry, sorted: seq<Entry>)
    requires SortedDesc(sorted)
    ensures SortedDesc(Insert(e, sorted))
  {
    if sorted != [] && sorted[0].window.sum > e.window.sum {
      InsertSorted(e, sorted[1..]);
      InsertBounded(e, sorted[1..], sorted[0].window.sum);
      var rest := Insert(e, sorted[1..]);
      assert Insert(e, sorted) == [sorted[0]] + rest;
    }
  }

  /** Sorting orders by descending window sum and keeps every entry: the
      result is a permutation of the input. */
  lemma {:induction false} SortDescCorrect(es: seq<Entry>)
    ensures SortedDesc(SortDesc(es))
    ensures multiset(SortDesc(es)) == multiset(es)
  {
    if es != [] {
      SortDescCorrect(es[1..]);
      InsertSorted(es[0], SortDesc(es[1..]));
      InsertPerm(es[0], SortDesc(es[1..]));
      assert es == [es[0]] + es[1..];
    }
  }

  /** The first `n` entries of a list sorted by descending sum are sorted,
      drawn from the list, and no entry past them weighs more than any of
      them. */
  lemma SortedPrefixIsTop(s: seq<Entry>, n: nat)
    requires SortedDesc(s) && n <= |s|
    ensures SortedDesc(s[..n])
    ensures multiset(s[..n]) <= multiset(s)
    ensures forall e: Entry, i :: e in multiset(s) - multiset(s[..n]) && 0 <= i < n ==> e.window.sum <= s[i].window.sum
  {
    assert s == s[..n] + s[n..];
    assert multiset(s) - multiset(s[..n]) == multiset(s[n..]);
    forall e: Entry, i | e in multiset(s[n..]) && 0 <= i < n
      ensures e.window.sum <= s[i].window.sum
    {
      var k :| 0 <= k < |s[n..]| && s[n..][k] == e;
      assert s[n + k] == e;
    }
  }

  /** The report holds min(50, candidates) entries by descending window
      sum, all drawn from the candidates, and every candidate left out
      spent no more time in the window than any entry reported. */
  lemma RankIsTop(es: seq<Entry>)
    ensures var r := Rank(es);
      && |r| == (if |es| < REPORT_LIMIT then |es| else REPORT_LIMIT)
      && SortedDesc(r)
      && multiset(r) <= multiset(es)
      && forall e: Entry, i :: e in multiset(es) - multiset(r) && 0 <= i < |r| ==> e.window.sum <= r[i].window.sum
  {
    var s := SortDesc(es);
    SortDescCorrect(es);
    assert |s| == |es| by { assert |multiset(s)| == |multiset(es)|; }
    var n := if |s| < REPORT_LIMIT then |s| else REPORT_LIMIT;
    assert Rank(es) == s[..n];
    SortedPrefixIsTop(s, n);
  }

  /** Every reported window holds at least one sample, the part of the
      histogram's totals that fell in the window, with min <= max. */
  lemma CandidatesHaveData(es: seq<Entry>, stats: map<int, State>, names: map<int, string>, now: int, env: Env)
    requires forall k :: k in stats ==> Inv(stats[k]) && Shaped(stats[k])
    requires Candidates(es, Expected(stats, names, now, env))
    ensures forall i :: 0 <= i < |es| ==>
      es[i].key in stats && 1 <= es[i].window.count <= stats[es[i].key].totalCount && es[i].window.min <= es[i].window.max
  {
    var want := Expected(stats, names, now, env);
    forall i | 0 <= i < |es|
      ensures es[i].key in stats &&
        1 <= es[i].window.count <= stats[es[i].key].totalCount && es[i].window.min <= es[i].window.max
    {
      var k := es[i].key;
      assert k in want;
      WindowQueryResult(stats[k], now, REPORT_WINDOW_MS);
    }
  }

  /** Part way through the scan, with the keys in `pending` still to
      visit: the entries so far are the expected ones for keys already
      visited, each once, and none of those is missing. */
  ghost predicate Collected(es: seq<Entry>, want: map<int, Entry>, pending: set<int>) {
    && (forall i :: 0 <= i < |es| ==> es[i].key in want && want[es[i].key] == es[i] && es[i].key !in pending)
    && (forall i, j :: 0 <= i < j < |es| ==> es[i].key != es[j].key)
    && (forall k :: k in want && k !in pending ==> k in Keys(es))
  }

  /** Visiting one more key keeps the scan's invariant. */
  lemma CollectStep(es: seq<Entry>, want: map<int, Entry>, pending: set<int>, k: int)
    requires Collected(es, want, pending) && k in pending
    requires forall k :: k in want ==> want[k].key == k
    ensures Collected(if k in want then es + [want[k]] else es, want, pending - {k})
  {
    if k in want {
      var es' := es + [want[k]];
      assert es'[..|es'| - 1] == es;
      assert Keys(es') == Keys(es) + {k};
    }
  }

  lemma HasElement(s: set<int>)
    requires s != {}
    ensures exists k :: k in s
  {
    if forall k :: k !in s {
      assert false;
    }
  }

  /** The loop of logStatistics: visits every key of the registry in some
      order and lists the entries of those with samples in the window. */
  method CollectEntries(stats: map<int, State>, names: map<int, string>, now: int, env: Env) returns (es: seq<Entry>)
    requires forall k :: k in stats ==> Shaped(stats[k])
    ensures Candidates(es, Expected(stats, names, now, env))
  {
    ghost var want := Expected(stats, names, now, env);
    var keys := stats.Keys;
    es := [];
    while keys != {}
      invariant keys <= stats.Keys
      invariant Collected(es, want, keys)
      decreases keys
    {
      HasElement(keys);
      var k :| k in keys;
      var e := EntryFor(stats, names, k, now, env);
      CollectStep(es, want, keys, k);
      if e.Some? {
        es := es + [e.value];
      }
      keys := keys - {k};
    }
  }

  // ---------------------------------------------------------------------------
  // Report timing

  /** The rate limit: a report is due when both clock readings, the quick
      one and the one taken under the lock, are at least the interval after
      the last report. */
  predicate ShouldReport(lastLogTime: int, quick: int, locked: int) {
    quick - lastLogTime >= LOG_INTERVAL_NS && locked - lastLogTime >= LOG_INTERVAL_NS
  }

  /** The times at which a run of calls to checkAndLogStatistics reports,
      each call given its two clock readings. */
  function ReportTimes(lastLogTime: int, calls: seq<(int, int)>): seq<int>
    decreases |calls|
  {
    if calls == [] then []
    else if ShouldReport(lastLogTime, calls[0].0, calls[0].1) then [calls[0].1] + ReportTimes(calls[0].1, calls[1..])
    else ReportTimes(lastLogTime, calls[1..])
  }

  /** However the clock behaves, reports are at least one interval apart,
      and the first is at least one interval after the start. */
  lemma {:induction false} ReportsSpaced(lastLogTime: int, calls: seq<(int, int)>)
    ensures var r := ReportTimes(lastLogTime, calls);
      && (|r| > 0 ==> r[0] - lastLogTime >= LOG_INTERVAL_NS)
      && forall i :: 0 < i < |r| ==> r[i] - r[i - 1] >= LOG_INTERVAL_NS
    decreases |calls|
  {
    if calls != [] {
      if ShouldReport(lastLogTime, calls[0].0, calls[0].1) {
        ReportsSpaced(calls[0].1, calls[1..]);
      } else {
        ReportsSpaced(lastLogTime, calls[1..]);
      }
    }
  }

  // ---------------------------------------------------------------------------
  // The registry

  class PerformanceMonitor {
    /** Each key's histogram, as the state a TimingStats object holds. */
    var statsMap: map<int, State>
    var keyToName: map<int, string>
    var lastLogTime: int

    /** Every histogram is well formed with WINDOW_SIZE buckets; only keys
        with a histogram are named, and key 0 never is. */
    ghost predicate Valid()
      reads this
    {
      && (forall k :: k in statsMap ==>
            Shaped(statsMap[k]) && Inv(statsMap[k]) && |statsMap[k].buckets| == WINDOW_SIZE)
      && 0 !in keyToName
      && keyToName.Keys <= statsMap.Keys
    }

    /** The registry at class load, with the clock reading `now`. */
    constructor (now: int)
      ensures Valid() && statsMap == map[] && keyToName == map[] && lastLogTime == now
    {
      statsMap := map[];
      keyToName := map[];
      lastLogTime := now;
    }

    /** recordTiming: the object's key gets a histogram, created at clock
        reading `createdAt` if it has none, then exactly one sample, which
        reads the clock as `now`; no other key's histogram changes. A
        non-zero key is named the first time it is recorded and keeps that
        name. */
    method RecordTiming(funcObj: FuncObj, createdAt: int, now: int, durationNanos: Int64)
      requires Valid()
      modifies this
      ensures Valid()
      ensures var key := KeyOf(funcObj);
        var before := if key in old(statsMap) then old(statsMap)[key] else Fresh(WINDOW_SIZE, createdAt);
        statsMap == old(statsMap)[key := AfterSample(before, now, durationNanos)]
      ensures var key := KeyOf(funcObj);
        keyToName == if key != 0 && key !in old(keyToName) then old(keyToName)[key := ObjName(funcObj)] else old(keyToName)
      ensures lastLogTime == old(lastLogTime)
    {
      var key := if funcObj.Null? then 0 else funcObj.hash;
      var before;
      if key in statsMap {
        before := statsMap[key];
      } else {
        before := Fresh(WINDOW_SIZE, createdAt);
        FreshInv(WINDOW_SIZE, createdAt);
      }
      AfterSamplePreservesInv(before, now, durationNanos);
      statsMap := statsMap[key := AfterSample(before, now, durationNanos)];
      if key != 0 && key !in keyToName {
        keyToName := keyToName[key := ObjName(funcObj)];
      }
    }

    /** logStatistics at clock reading `now`: visits every key in some
        order, keeps those with samples in the report window, and ranks them.
        Writes nothing. */
    method LogStatistics(now: int, env: Env) returns (report: seq<Entry>)
      requires Valid()
      ensures exists es :: Candidates(es, Expected(statsMap, keyToName, now, env)) && report == Rank(es)
    {
      var es := CollectEntries(statsMap, keyToName, now, env);
      report := Rank(es);
    }

    /** checkAndLogStatistics with its three clock readings: the quick
        check, the check under the lock, and the report's own. It reports,
        and moves the last report time to the second reading, exactly when
        both checks find the interval elapsed. */
    method CheckAndLogStatistics(quick: int, locked: int, reportTime: int, env: Env) returns (report: Option<seq<Entry>>)
      requires Valid()
      modifies this
      ensures Valid() && statsMap == old(statsMap) && keyToName == old(keyToName)
      ensures lastLogTime == if ShouldReport(old(lastLogTime), quick, locked) then locked else old(lastLogTime)
      ensures report.Some? <==> ShouldReport(old(lastLogTime), quick, locked)
      ensures report.Some? ==> exists es :: Candidates(es, Expected(statsMap, keyToName, reportTime, env)) && report.value == Rank(es)
    {
      report := None;
      if quick - lastLogTime >= LOG_INTERVAL_NS {
        if locked - lastLogTime >= LOG_INTERVAL_NS {
          lastLogTime := locked;
          var lines := LogStatistics(reportTime, env);
          report := Some(lines);
        }
      }
    }
  }
}
