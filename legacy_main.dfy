/** The older entry point: pcall hooks that time one call in a thousand and
    log it, with their own classifier that labels sources with strings and
    matches the workshop directory case-sensitively. */
module LegacyMain {
  import opened Strings
  import opened Lua
  import opened PathParser

  /** The older record: a string kind instead of a FilePrefix. */
  datatype LegacyInfo = LegacyInfo(kind: string, relativePath: string, line: Int32)

  /** The kind the older classifier uses for each source the shared
      classifier distinguishes. */
  function Label(p: FilePrefix): string {
    match p
    case LMOD => "LOCAL_MOD"
    case WMOD => "WORKSHOP"
    case SMOD => "STEAM_MOD"
    case GAME => "GAME"
    case _ => "UNKNOWN"
  }

  /** Workshop items, matched with case: the normalised name starts with
      `<cacheDir>/workshop/` exactly. */
  function ExactWorkshopRule(cacheDir: string, nf: string): Option<string> {
    var pre := Normalize(cacheDir) + "/workshop/";
    if StartsWith(nf, pre) then Some(DropLeadingSlash(nf[|pre|..])) else None
  }

  /** getFileInfo of the older entry point: the same rules in the same
      order as the shared classifier, with string labels and the
      case-sensitive workshop test. */
  function LegacyClassify(env: Env, fname: string): LegacyInfo {
    if !env.fileSystem || env.fails then LegacyInfo("UNKNOWN", fname, 0)
    else
      var nf := Normalize(fname);
      var local := if env.cacheDir.Some? then LocalModRule(env.cacheDir.value, nf) else None;
      var workshop := if env.cacheDir.Some? then ExactWorkshopRule(env.cacheDir.value, nf) else None;
      if local.Some? then LegacyInfo("LOCAL_MOD", local.value, 0)
      else if workshop.Some? then LegacyInfo("WORKSHOP", workshop.value, 0)
      else if SteamRule(env.steamFolders, nf).Some? then LegacyInfo("STEAM_MOD", SteamRule(env.steamFolders, nf).value, 0)
      else if ContentRule(nf).Some? then LegacyInfo("STEAM_MOD", ContentRule(nf).value, 0)
      else if GameRule(env, fname).Some? then LegacyInfo("GAME", GameRule(env, fname).value, 0)
      else LegacyInfo("UNKNOWN", fname, 0)
  }

  /** getFileInfo of the older entry point, searching the Steam folders with
      the shared loop. */
  method GetFileInfo(env: Env, fname: string) returns (info: LegacyInfo)
    ensures info == LegacyClassify(env, fname)
  {
    if !env.fileSystem || env.fails {
      return LegacyInfo("UNKNOWN", fname, 0);
    }
    var nf := Normalize(fname);
    if env.cacheDir.Some? {
      var local := LocalModRule(env.cacheDir.value, nf);
      if local.Some? {
        return LegacyInfo("LOCAL_MOD", local.value, 0);
      }
      var workshop := ExactWorkshopRule(env.cacheDir.value, nf);
      if workshop.Some? {
        return LegacyInfo("WORKSHOP", workshop.value, 0);
      }
    }
    if env.steamFolders.Some? {
      var folder := FindSteamFolder(env.steamFolders.value, nf);
      if folder.Some? {
        return LegacyInfo("STEAM_MOD", SteamRelative(nf[|folder.value|..]), 0);
      }
    }
    var content := ContentRule(nf);
    if content.Some? {
      return LegacyInfo("STEAM_MOD", content.value, 0);
    }
    var game := GameRule(env, fname);
    if game.Some? {
      return LegacyInfo("GAME", game.value, 0);
    }
    return LegacyInfo("UNKNOWN", fname, 0);
  }

  /** A name whose workshop prefix matches exactly also matches ignoring case. */
  lemma ExactImpliesFolded(nf: string, pre: string)
    requires StartsWith(nf, pre)
    ensures StartsWith(ToLower(nf), ToLower(pre))
  {
    ToLowerSlice(nf, 0, |pre|);
  }

  /** The two classifiers agree, up to the labels, on every name except one
      whose workshop prefix matches only when case is ignored. */
  lemma LegacyAgreesWithClassify(env: Env, fname: string)
    requires env.cacheDir.Some? ==>
      var pre := Normalize(env.cacheDir.value) + "/workshop/";
      StartsWith(ToLower(Normalize(fname)), ToLower(pre)) ==> StartsWith(Normalize(fname), pre)
    ensures var r := Classify(env, fname);
      LegacyClassify(env, fname) == LegacyInfo(Label(r.prefix), r.relativePath, 0)
  {
    if env.fileSystem && !env.fails && env.cacheDir.Some? {
      var nf := Normalize(fname);
      var pre := Normalize(env.cacheDir.value) + "/workshop/";
      WorkshopKeepsRemainder(env.cacheDir.value, nf);
      if StartsWith(nf, pre) {
        ExactImpliesFolded(nf, pre);
      }
    }
  }

  /** The older classifier misses a workshop path whose case differs from
      the cache directory's, which the shared classifier finds. */
  lemma WorkshopCaseDiffers()
    ensures var env := Env(true, Some("/c"), None, None, false);
      && Classify(env, "/c/Workshop/a.lua") == FileInfo(WMOD, "a.lua", 0)
      && LegacyClassify(env, "/c/Workshop/a.lua") == LegacyInfo("UNKNOWN", "/c/Workshop/a.lua", 0)
  {
    MixedCaseName();
    SharedFindsMixedCase();
    LegacyMissesMixedCase();
  }

  lemma MixedCaseName()
    ensures Normalize("/c/Workshop/a.lua") == "/c/Workshop/a.lua"
    ensures Normalize("/c") == "/c"
    ensures ToLower("/c/Workshop/a.lua") == "/c/workshop/a.lua"
    ensures ToLower("/c" + "/workshop/") == "/c/workshop/"
    ensures !StartsWith("/c/Workshop/a.lua", "/c/workshop/")
    ensures !StartsWith("/c/Workshop/a.lua", "/c/mods/")
    ensures !Contains("/c/Workshop/a.lua", "/workshop/content/")
  {
    var nf := "/c/Workshop/a.lua";
    assert nf[..12][3] == 'W';
  }

  lemma SharedFindsMixedCase()
    requires Normalize("/c/Workshop/a.lua") == "/c/Workshop/a.lua"
    requires Normalize("/c") == "/c"
    requires ToLower("/c/Workshop/a.lua") == "/c/workshop/a.lua"
    requires ToLower("/c" + "/workshop/") == "/c/workshop/"
    requires !StartsWith("/c/Workshop/a.lua", "/c/mods/")
    ensures Classify(Env(true, Some("/c"), None, None, false), "/c/Workshop/a.lua") == FileInfo(WMOD, "a.lua", 0)
  {
    MixedCaseNotLocal();
    MixedCaseWorkshop();
  }

  /** The local-mod rule does not apply to the mixed-case name. */
  lemma MixedCaseNotLocal()
    requires Normalize("/c") == "/c"
    requires !StartsWith("/c/Workshop/a.lua", "/c/mods/")
    ensures LocalModRule("/c", "/c/Workshop/a.lua") == None
  {
    assert Normalize("/c") + "/mods/" == "/c/mods/";
  }

  /** The case-insensitive workshop rule applies to the mixed-case name. */
  lemma MixedCaseWorkshop()
    requires Normalize("/c") == "/c"
    requires ToLower("/c/Workshop/a.lua") == "/c/workshop/a.lua"
    requires ToLower("/c" + "/workshop/") == "/c/workshop/"
    ensures WorkshopRule("/c", "/c/Workshop/a.lua") == Some("a.lua")
  {
    var nf := "/c/Workshop/a.lua";
    WorkshopKeepsRemainder("/c", nf);
    assert StartsWith(ToLower(nf), "/c/workshop/") by {
      assert "/c/workshop/a.lua"[..12] == "/c/workshop/";
    }
    assert nf[12..] == "a.lua";
    NoLeadingSlash();
  }

  lemma NoLeadingSlash()
    ensures DropLeadingSlash("a.lua") == "a.lua"
  {
    assert "a.lua"[0] == 'a';
  }

  lemma LegacyMissesMixedCase()
    requires Normalize("/c/Workshop/a.lua") == "/c/Workshop/a.lua"
    requires Normalize("/c") == "/c"
    requires !StartsWith("/c/Workshop/a.lua", "/c/workshop/")
    requires !StartsWith("/c/Workshop/a.lua", "/c/mods/")
    requires !Contains("/c/Workshop/a.lua", "/workshop/content/")
    ensures LegacyClassify(Env(true, Some("/c"), None, None, false), "/c/Workshop/a.lua")
         == LegacyInfo("UNKNOWN", "/c/Workshop/a.lua", 0)
  {
  }

  /** getLuaFileInfoObj: a closure with a prototype is classified by its
      source name and carries its first line; anything else is UNKNOWN with
      its toString() (or "null") and line 0. */
  function LuaFileInfo(env: Env, f: FuncObj): LegacyInfo {
    if HasPrototype(f) then
      var info := LegacyClassify(env, SourceName(f.proto.value));
      LegacyInfo(info.kind, info.relativePath, FirstLine(f.proto.value))
    else
      LegacyInfo("UNKNOWN", if f.Null? then "null" else f.text, 0)
  }

  /** The labels getFileInfo produces, none of them null. */
  predicate KnownLabel(l: string) {
    l == "LOCAL_MOD" || l == "WORKSHOP" || l == "STEAM_MOD" || l == "GAME" || l == "UNKNOWN"
  }

  /** What getLuaFileInfoObj reports: a closure with a prototype keeps its
      first line (0 when it has no line table) and a known kind, so the
      fallback for a null kind never applies; anything else is UNKNOWN with
      line 0. */
  lemma LuaFileInfoShape(env: Env, f: FuncObj)
    ensures var r := LuaFileInfo(env, f);
      && KnownLabel(r.kind)
      && (HasPrototype(f) ==>
            r.line == FirstLine(f.proto.value)
            && (f.proto.value.lines.None? || f.proto.value.lines.value == [] ==> r.line == 0))
      && (!HasPrototype(f) ==>
            r.kind == "UNKNOWN" && r.line == 0
            && r.relativePath == (if f.Null? then "null" else f.text))
  {
  }

  // ---------------------------------------------------------------------------
  // Sampling hooks

  /** One call in this many has its time taken. */
  const SAMPLE_EVERY: int := 1000

  /** An incremented counter value at which a call is timed. Java's `%`
      truncates, but a remainder is zero under both conventions together. */
  predicate Sampled(count: Int32) {
    count % SAMPLE_EVERY == 0
  }

  /** `count++` on a Java int. */
  function Inc(count: Int32): Int32 {
    WrapInt32(count + 1)
  }

  /** The counter after `k` more entries. */
  function IncTimes(count: Int32, k: nat): Int32 {
    if k == 0 then count else Inc(IncTimes(count, k - 1))
  }

  lemma {:induction false} IncTimesWraps(count: Int32, k: nat)
    ensures IncTimes(count, k) == WrapInt32(count + k)
  {
    if k > 0 {
      IncTimesWraps(count, k - 1);
      IncWraps(count + k - 1);
    }
  }

  /** Counting one more entry on a wrapped count is wrapping one more. */
  lemma IncWraps(x: int)
    ensures Inc(WrapInt32(x)) == WrapInt32(x + 1)
  {
    var w := WrapInt32(x);
    WrapShift(w as int + 1, x + 1);
  }

  /** Away from the wrap, one entry in every thousand is timed. */
  lemma SampledEveryThousand(count: Int32)
    requires count as int + SAMPLE_EVERY <= INT_MAX
    ensures Sampled(IncTimes(count, 1000)) <==> Sampled(count)
  {
    IncTimesWraps(count, 1000);
  }

  /** When the counter wraps the period breaks: after the entry that leaves
      the counter at 2147483000 the next timed entry is 1296 entries later,
      at -2147483000. */
  lemma SamplingAcrossWrap(last: Int32)
    requires last == 2147483000
    ensures Sampled(last) && IncTimes(last, 1296) == -2147483000 && Sampled(IncTimes(last, 1296))
    ensures forall k :: 0 < k < 1296 ==> !Sampled(IncTimes(last, k))
  {
    ModUnique(last, 1000, 2147483, 0);
    IncTimesWraps(last, 1296);
    ModUnique(last + 1296, 0x1_0000_0000, 0, last + 1296);
    ModUnique(-2147483000, 1000, -2147483, 0);
    forall k | 0 < k < 1296 ensures !Sampled(IncTimes(last, k)) {
      IncTimesWraps(last, k);
      WrapNotSampled(k);
    }
  }

  lemma WrapNotSampled(k: int)
    requires 0 < k < 1296
    ensures !Sampled(WrapInt32(2147483000 + k))
  {
    var x := 2147483000 + k;
    if k <= 647 {
      ModUnique(x, 1000, 2147483, k);
    } else {
      ModUnique(x, 0x1_0000_0000, 0, x);
      assert WrapInt32(x) == x - 0x1_0000_0000;
      ModUnique(x - 0x1_0000_0000, 1000, -2147484, k - 296);
    }
  }

  /** The line logFunc prints, before formatting. */
  datatype LogRecord = LogRecord(info: LegacyInfo, durationNanos: int)

  /** The static counters and the per-thread start time and function object
      of the older hooks, for one thread. */
  class Hooks {
    var pcallCount: Int32
    var pcallvoidCount: Int32
    var startTime: Option<int>
    var currentFuncObj: FuncObj

    /** The two per-thread values are set and cleared together. */
    ghost predicate Valid()
      reads this
    {
      startTime.None? ==> currentFuncObj.Null?
    }

    constructor ()
      ensures Valid()
      ensures pcallCount == 0 && pcallvoidCount == 0 && startTime == None
    {
      pcallCount := 0;
      pcallvoidCount := 0;
      startTime := None;
      currentFuncObj := Null;
    }

    /** Entering pcall at clock reading `now`: count the call, and start
        timing it when the count is a multiple of 1000. */
    method EnterPcall(funcObj: FuncObj, now: int)
      requires Valid()
      modifies this
      ensures Valid()
      ensures pcallCount == Inc(old(pcallCount)) && pcallvoidCount == old(pcallvoidCount)
      ensures Sampled(pcallCount) ==> startTime == Some(now) && currentFuncObj == funcObj
      ensures !Sampled(pcallCount) ==> startTime == old(startTime) && currentFuncObj == old(currentFuncObj)
    {
      pcallCount := Inc(pcallCount);
      if pcallCount % SAMPLE_EVERY == 0 {
        startTime := Some(now);
        currentFuncObj := funcObj;
      }
    }

    /** Entering pcallvoid: the same with its own counter. */
    method EnterPcallvoid(funcObj: FuncObj, now: int)
      requires Valid()
      modifies this
      ensures Valid()
      ensures pcallvoidCount == Inc(old(pcallvoidCount)) && pcallCount == old(pcallCount)
      ensures Sampled(pcallvoidCount) ==> startTime == Some(now) && currentFuncObj == funcObj
      ensures !Sampled(pcallvoidCount) ==> startTime == old(startTime) && currentFuncObj == old(currentFuncObj)
    {
      pcallvoidCount := Inc(pcallvoidCount);
      if pcallvoidCount % SAMPLE_EVERY == 0 {
        startTime := Some(now);
        currentFuncObj := funcObj;
      }
    }

    /** Leaving pcall or pcallvoid at clock reading `now`: when a start time
        is set, log the time since then against the stored function object
        and clear both; otherwise do nothing. */
    method Exit(env: Env, now: int) returns (logged: Option<LogRecord>)
      requires Valid()
      modifies this
      ensures Valid()
      ensures pcallCount == old(pcallCount) && pcallvoidCount == old(pcallvoidCount)
      ensures old(startTime).Some? ==>
        && logged == Some(LogRecord(LuaFileInfo(env, old(currentFuncObj)), now - old(startTime).value))
        && startTime == None && currentFuncObj == Null
      ensures old(startTime).None? ==> logged == None && startTime == None && currentFuncObj == old(currentFuncObj)
    {
      if startTime.Some? {
        var duration := now - startTime.value;
        logged := Some(LogRecord(LuaFileInfo(env, currentFuncObj), duration));
        startTime := None;
        currentFuncObj := Null;
      } else {
        logged := None;
      }
    }
  }
}
