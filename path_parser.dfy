/** The source classifier: turns the chunk name of a Lua function into the
    place it was loaded from (a local mod, a workshop item, a Steam mod, the
    game itself) and a path relative to that place, with a memo cache of the
    answers. The game's file-system singletons are an `Env` value. */
module PathParser {
  import opened Strings

  /** Where a Lua file was loaded from. */
  datatype FilePrefix = UNK | LMOD | WMOD | SMOD | GAME | INTERNAL

  /** `prefix.name()` */
  function PrefixName(p: FilePrefix): (r: string)
    ensures |r| > 0
  {
    match p
    case UNK => "UNK"
    case LMOD => "LMOD"
    case WMOD => "WMOD"
    case SMOD => "SMOD"
    case GAME => "GAME"
    case INTERNAL => "INTERNAL"
  }

  /** A classified file: where it came from, the path below that place and a
      line number (0 when none is known). */
  datatype FileInfo = FileInfo(prefix: FilePrefix, relativePath: string, line: Int32)

  /** What the classifier reads from the running game:
      `fileSystem`: the file-system singleton exists;
      `cacheDir`: its cache directory (None for null);
      `gameRoot`: the absolute path of the game's base directory (None when
      the base directory or its canonical file is null);
      `steamFolders`: the installed workshop item folders (None when the
      Steam singleton or its folder list is null; an element is None when null);
      `fails`: one of these calls throws, which the classifier catches. */
  datatype Env = Env(
    fileSystem: bool,
    cacheDir: Option<string>,
    gameRoot: Option<string>,
    steamFolders: Option<seq<Option<string>>>,
    fails: bool)

  /** Names at least this long are classified but never cached. */
  const CACHE_KEY_LIMIT: nat := 1000

  // ---------------------------------------------------------------------------
  // Path pieces

  /** Removes one leading '/'. */
  function DropLeadingSlash(p: string): string {
    if StartsWith(p, "/") then p[1..] else p
  }

  /** Removes one leading separator, testing the normalised path. */
  function DropLeadingSep(p: string): string {
    if StartsWith(Normalize(p), "/") then p[1..] else p
  }

  /** Removes a leading `dir/` or `dir\`, testing the normalised path. */
  function DropDir(p: string, dir: string): string {
    var n := Normalize(p);
    if StartsWith(n, dir + "/") || StartsWith(n, dir + "\\") then p[|dir| + 1..] else p
  }

  /** What a Steam mod path keeps once the folder is removed: no leading
      '/', then no leading `mods/`, then no leading `lua/`. */
  function SteamRelative(rest: string): string {
    DropDir(DropDir(DropLeadingSlash(rest), "mods"), "lua")
  }

  /** The same for the workshop-content fallback, whose separator test is on
      the normalised path. */
  function ContentRelative(rest: string): string {
    DropDir(DropDir(DropLeadingSep(rest), "mods"), "lua")
  }

  // ---------------------------------------------------------------------------
  // The rules, each giving the relative path when it applies

  /** Local mods: the normalised name starts with `<cacheDir>/mods/`. */
  function LocalModRule(cacheDir: string, nf: string): Option<string> {
    var pre := Normalize(cacheDir) + "/mods/";
    if StartsWith(nf, pre) then Some(DropLeadingSlash(nf[|pre|..])) else None
  }

  /** Workshop items: the normalised name starts with `<cacheDir>/workshop/`,
      ignoring ASCII case; the path is what follows the first "/workshop/"
      after the cache directory. */
  function WorkshopRule(cacheDir: string, nf: string): Option<string> {
    var ncd := Normalize(cacheDir);
    if StartsWith(ToLower(nf), ToLower(ncd + "/workshop/")) then
      var after := nf[|ncd|..];
      var idx := IndexOf(ToLower(after), "/workshop/");
      if idx >= 0 then Some(DropLeadingSlash(after[idx + 10..])) else None
    else None
  }

  /** The normalised form of the first non-null Steam folder, from index `i`
      on, that the normalised name starts with. */
  function FirstSteamFolder(folders: seq<Option<string>>, nf: string, i: nat): (r: Option<string>)
    requires i <= |folders|
    ensures r.Some? ==> StartsWith(nf, r.value)
    decreases |folders| - i
  {
    if i == |folders| then None
    else if folders[i].Some? && StartsWith(nf, Normalize(folders[i].value)) then Some(Normalize(folders[i].value))
    else FirstSteamFolder(folders, nf, i + 1)
  }

  /** Folder `j` is non-null and its normalised form is a prefix of `nf`. */
  predicate SteamMatch(folders: seq<Option<string>>, nf: string, j: int)
    requires 0 <= j < |folders|
  {
    folders[j].Some? && StartsWith(nf, Normalize(folders[j].value))
  }

  /** Steam mods: the first installed item folder the name lies under. */
  function SteamRule(steamFolders: Option<seq<Option<string>>>, nf: string): Option<string> {
    if steamFolders.None? then None
    else
      match FirstSteamFolder(steamFolders.value, nf, 0)
      case None => None
      case Some(f) => Some(SteamRelative(nf[|f|..]))
  }

  /** Workshop downloads no folder matched: the name contains
      "/workshop/content/" and the path follows its first "/mods/". */
  function ContentRule(nf: string): Option<string> {
    if Contains(nf, "/workshop/content/") then
      var m := IndexOf(nf, "/mods/");
      if m >= 0 then Some(ContentRelative(nf[m + 6..])) else None
    else None
  }

  /** Removes a trailing '/'. */
  function DropTrailingSlash(p: string): string {
    if EndsWith(p, "/") then p[..|p| - 1] else p
  }

  /** stripGameRootDir: the normalised name below the game's base directory,
      without one leading separator, or `fname` itself when the name is not
      below it or the base directory is unknown. */
  function StripGameRootDir(env: Env, fname: string): string {
    if !env.fileSystem || env.gameRoot.None? || env.fails then fname
    else
      var root := DropTrailingSlash(Normalize(env.gameRoot.value));
      var nf := Normalize(fname);
      if StartsWith(nf, root) then
        var rel := nf[|root|..];
        if StartsWith(rel, "/") || StartsWith(rel, "\\") then rel[1..] else rel
      else fname
  }

  /** Game files: stripping the game root changed the name; a leading
      `media/lua/` is removed too. */
  function GameRule(env: Env, fname: string): Option<string> {
    var rel := StripGameRootDir(env, fname);
    if rel != fname then
      var n := Normalize(rel);
      Some(if StartsWith(n, "media/lua/") then n[10..] else rel)
    else None
  }

  /** parseFileInfo: the rules in order, the first that applies wins; UNK
      with the name unchanged when none applies, when there is no file system
      or when a call into the game throws. */
  function Classify(env: Env, fname: string): FileInfo {
    if !env.fileSystem || env.fails then FileInfo(UNK, fname, 0)
    else
      var nf := Normalize(fname);
      var local := if env.cacheDir.Some? then LocalModRule(env.cacheDir.value, nf) else None;
      var workshop := if env.cacheDir.Some? then WorkshopRule(env.cacheDir.value, nf) else None;
      if local.Some? then FileInfo(LMOD, local.value, 0)
      else if workshop.Some? then FileInfo(WMOD, workshop.value, 0)
      else if SteamRule(env.steamFolders, nf).Some? then FileInfo(SMOD, SteamRule(env.steamFolders, nf).value, 0)
      else if ContentRule(nf).Some? then FileInfo(SMOD, ContentRule(nf).value, 0)
      else if GameRule(env, fname).Some? then FileInfo(GAME, GameRule(env, fname).value, 0)
      else FileInfo(UNK, fname, 0)
  }

  /** The loop over the installed item folders: the first non-null folder
      whose normalised form the normalised name starts with. */
  method FindSteamFolder(folders: seq<Option<string>>, nf: string) returns (r: Option<string>)
    ensures r == FirstSteamFolder(folders, nf, 0)
  {
    var i := 0;
    while i < |folders|
      invariant 0 <= i <= |folders|
      invariant FirstSteamFolder(folders, nf, i) == FirstSteamFolder(folders, nf, 0)
    {
      if folders[i].Some? {
        var folder := Normalize(folders[i].value);
        if StartsWith(nf, folder) {
          return Some(folder);
        }
      }
      i := i + 1;
    }
    return None;
  }

  /** parseFileInfo, searching the Steam folders with the loop above. */
  method ParseFileInfo(env: Env, fname: string) returns (info: FileInfo)
    ensures info == Classify(env, fname)
  {
    if !env.fileSystem || env.fails {
      return FileInfo(UNK, fname, 0);
    }
    var nf := Normalize(fname);
    if env.cacheDir.Some? {
      var local := LocalModRule(env.cacheDir.value, nf);
      if local.Some? {
        return FileInfo(LMOD, local.value, 0);
      }
      var workshop := WorkshopRule(env.cacheDir.value, nf);
      if workshop.Some? {
        return FileInfo(WMOD, workshop.value, 0);
      }
    }
    if env.steamFolders.Some? {
      var folder := FindSteamFolder(env.steamFolders.value, nf);
      if folder.Some? {
        return FileInfo(SMOD, SteamRelative(nf[|folder.value|..]), 0);
      }
    }
    var content := ContentRule(nf);
    if content.Some? {
      return FileInfo(SMOD, content.value, 0);
    }
    var game := GameRule(env, fname);
    if game.Some? {
      return FileInfo(GAME, game.value, 0);
    }
    return FileInfo(UNK, fname, 0);
  }

  // ---------------------------------------------------------------------------
  // Properties of the classifier

  /** The Steam search finds the first folder in array order that the name
      lies under, and reports none only when no folder matches. */
  lemma {:induction false} FirstSteamFolderIsFirst(folders: seq<Option<string>>, nf: string, i: nat)
    requires i <= |folders|
    ensures var r := FirstSteamFolder(folders, nf, i);
      && (r.None? <==> forall j :: i <= j < |folders| ==> !SteamMatch(folders, nf, j))
      && (r.Some? ==> exists j :: i <= j < |folders| && SteamMatch(folders, nf, j)
                         && r.value == Normalize(folders[j].value)
                         && forall k :: i <= k < j ==> !SteamMatch(folders, nf, k))
    decreases |folders| - i
  {
    if i < |folders| && !SteamMatch(folders, nf, i) {
      FirstSteamFolderIsFirst(folders, nf, i + 1);
    }
  }

  /** The case-insensitive workshop test always finds "/workshop/" right
      after the cache directory, so the rule applies exactly when the prefix
      matches and keeps what follows `<cacheDir>/workshop/`. */
  lemma WorkshopKeepsRemainder(cacheDir: string, nf: string)
    ensures var ncd := Normalize(cacheDir);
      && (WorkshopRule(cacheDir, nf).Some? <==> StartsWith(ToLower(nf), ToLower(ncd + "/workshop/")))
      && (WorkshopRule(cacheDir, nf).Some? ==> WorkshopRule(cacheDir, nf).value == DropLeadingSlash(nf[|ncd| + 10..]))
  {
    var ncd := Normalize(cacheDir);
    var pre := ncd + "/workshop/";
    if StartsWith(ToLower(nf), ToLower(pre)) {
      var after := nf[|ncd|..];
      var la := ToLower(after);
      ToLowerSlice(nf, |ncd|, |ncd| + 10);
      ToLowerAppend(ncd, "/workshop/");
      assert ToLower(nf)[..|pre|][|ncd|..] == ToLower("/workshop/");
      assert ToLower(nf)[|ncd|..|ncd| + 10] == "/workshop/";
      assert nf[|ncd|..|ncd| + 10] == after[0..10];
      ToLowerSlice(after, 0, 10);
      assert OccursAt(la, "/workshop/", 0);
      IndexOfFirst(la, "/workshop/");
      assert IndexOf(la, "/workshop/") == 0;
      assert after[10..] == nf[|ncd| + 10..];
    }
  }

  /** `p` is a suffix of `s`. */
  predicate IsSuffix(p: string, s: string) {
    |p| <= |s| && s[|s| - |p|..] == p
  }

  lemma SuffixOfSuffix(p: string, s: string, k: nat)
    requires IsSuffix(p, s) && k <= |p|
    ensures IsSuffix(p[k..], s)
  {
    assert s[|s| - |p[k..]|..] == s[|s| - |p|..][k..];
  }

  lemma DropLeadingKeepsSuffix(rest: string, s: string)
    requires IsSuffix(rest, s)
    ensures IsSuffix(DropLeadingSlash(rest), s) && IsSuffix(DropLeadingSep(rest), s)
  {
    if |rest| > 0 { SuffixOfSuffix(rest, s, 1); }
  }

  lemma SteamRelativeTail(rest: string, s: string)
    requires IsSuffix(rest, s)
    ensures IsSuffix(SteamRelative(rest), s)
  {
    DropLeadingKeepsSuffix(rest, s);
    var a := DropLeadingSlash(rest);
    DropDirKeepsSuffix(a, "mods", s);
    DropDirKeepsSuffix(DropDir(a, "mods"), "lua", s);
  }

  lemma ContentRelativeTail(rest: string, s: string)
    requires IsSuffix(rest, s)
    ensures IsSuffix(ContentRelative(rest), s)
  {
    DropLeadingKeepsSuffix(rest, s);
    var b := DropLeadingSep(rest);
    DropDirKeepsSuffix(b, "mods", s);
    DropDirKeepsSuffix(DropDir(b, "mods"), "lua", s);
  }

  lemma DropDirKeepsSuffix(p: string, dir: string, s: string)
    requires IsSuffix(p, s)
    ensures IsSuffix(DropDir(p, dir), s)
  {
    if |dir| + 1 <= |p| { SuffixOfSuffix(p, s, |dir| + 1); }
  }

  lemma SliceIsSuffix(s: string, k: nat)
    requires k <= |s|
    ensures IsSuffix(s[k..], s)
  {
  }

  /** Each rule keeps a tail of the normalised name. */
  lemma LocalModTail(cacheDir: string, nf: string)
    ensures LocalModRule(cacheDir, nf).Some? ==> IsSuffix(LocalModRule(cacheDir, nf).value, nf)
  {
    var pre := Normalize(cacheDir) + "/mods/";
    if StartsWith(nf, pre) {
      SliceIsSuffix(nf, |pre|);
      DropLeadingKeepsSuffix(nf[|pre|..], nf);
    }
  }

  lemma WorkshopTail(cacheDir: string, nf: string)
    ensures WorkshopRule(cacheDir, nf).Some? ==> IsSuffix(WorkshopRule(cacheDir, nf).value, nf)
  {
    var ncd := Normalize(cacheDir);
    if WorkshopRule(cacheDir, nf).Some? {
      WorkshopKeepsRemainder(cacheDir, nf);
      SliceIsSuffix(nf, |ncd| + 10);
      DropLeadingKeepsSuffix(nf[|ncd| + 10..], nf);
    }
  }

  lemma SteamTail(steamFolders: Option<seq<Option<string>>>, nf: string)
    ensures SteamRule(steamFolders, nf).Some? ==> IsSuffix(SteamRule(steamFolders, nf).value, nf)
  {
    if steamFolders.Some? {
      var f := FirstSteamFolder(steamFolders.value, nf, 0);
      if f.Some? {
        SliceIsSuffix(nf, |f.value|);
        SteamRelativeTail(nf[|f.value|..], nf);
      }
    }
  }

  lemma ContentTail(nf: string)
    ensures ContentRule(nf).Some? ==> IsSuffix(ContentRule(nf).value, nf)
  {
    if Contains(nf, "/workshop/content/") {
      var m := IndexOf(nf, "/mods/");
      if m >= 0 {
        SliceIsSuffix(nf, m + 6);
        ContentRelativeTail(nf[m + 6..], nf);
      }
    }
  }

  /** A tail of a normalised name holds no '\'. */
  lemma NormalizedTail(p: string, fname: string)
    requires IsSuffix(p, Normalize(fname))
    ensures forall i :: 0 <= i < |p| ==> p[i] != '\\'
  {
    var nf := Normalize(fname);
    forall i | 0 <= i < |p| ensures p[i] != '\\' {
      assert p[i] == nf[|nf| - |p| + i];
    }
  }

  /** A name that was not classified comes back unchanged; any other result
      is a tail of the normalised name, so it holds no '\' and never grows. */
  lemma ClassifyKeepsTail(env: Env, fname: string)
    ensures var r := Classify(env, fname);
      && r.line == 0 && r.prefix != INTERNAL
      && (r.prefix == UNK ==> r.relativePath == fname)
      && (r.prefix != UNK ==> IsSuffix(r.relativePath, Normalize(fname)))
      && (r.prefix != UNK ==> forall i :: 0 <= i < |r.relativePath| ==> r.relativePath[i] != '\\')
  {
    var r := Classify(env, fname);
    if env.fileSystem && !env.fails {
      var nf := Normalize(fname);
      if env.cacheDir.Some? {
        LocalModTail(env.cacheDir.value, nf);
        WorkshopTail(env.cacheDir.value, nf);
      }
      SteamTail(env.steamFolders, nf);
      ContentTail(nf);
      if StripGameRootDir(env, fname) != fname {
        GameTail(env, fname);
      }
    }
    if r.prefix != UNK {
      NormalizedTail(r.relativePath, fname);
    }
  }

  /** What stripGameRootDir and the `media/lua/` step keep is a tail of the
      normalised name. */
  lemma GameTail(env: Env, fname: string)
    requires StripGameRootDir(env, fname) != fname
    ensures IsSuffix(StripGameRootDir(env, fname), Normalize(fname))
    ensures GameRule(env, fname).Some? && IsSuffix(GameRule(env, fname).value, Normalize(fname))
  {
    var nf := Normalize(fname);
    var root := DropTrailingSlash(Normalize(env.gameRoot.value));
    var rel := nf[|root|..];
    SliceIsSuffix(nf, |root|);
    if |rel| > 0 { SuffixOfSuffix(rel, nf, 1); }
    var stripped := StripGameRootDir(env, fname);
    NormalizeSlice(fname, |fname| - |stripped|, |fname|);
    NormalizeIdempotent(fname);
    assert Normalize(stripped) == stripped;
    if StartsWith(stripped, "media/lua/") {
      SuffixOfSuffix(stripped, nf, 10);
    }
  }

  /** A local mod name keeps everything after `<cacheDir>/mods/`, less at most
      one leading '/'. */
  lemma LocalModRemainder(env: Env, fname: string)
    requires env.fileSystem && !env.fails && env.cacheDir.Some?
    requires StartsWith(Normalize(fname), Normalize(env.cacheDir.value) + "/mods/")
    ensures var rest := Normalize(fname)[|Normalize(env.cacheDir.value)| + 6..];
      var r := Classify(env, fname);
      && r.prefix == LMOD
      && (r.relativePath == rest || "/" + r.relativePath == rest)
  {
    var nf := Normalize(fname);
    var rest := nf[|Normalize(env.cacheDir.value)| + 6..];
    if StartsWith(rest, "/") {
      assert "/" + rest[1..] == rest;
    }
  }

  /** A Steam mod path loses a leading '/', then `mods/`, then `lua/`:
      e.g. the tail "/mods/lua/x.lua" of a matched folder becomes "x.lua". */
  lemma SteamStripsInOrder(rest: string)
    requires StartsWith(rest, "/mods/lua/")
    ensures SteamRelative(rest) == rest[10..]
  {
    var a := rest[1..];
    assert Normalize(a)[..5] == Normalize(a[..5]) by { NormalizeSlice(a, 0, 5); }
    assert a[..5] == "mods/";
    var b := a[5..];
    assert DropDir(a, "mods") == b;
    NormalizeSlice(b, 0, 4);
    assert b[..4] == "lua/";
    assert Normalize(b[..4]) == "lua/";
  }

  // ---------------------------------------------------------------------------
  // The cache

  /** PathParser's filename cache. */
  class FileInfoCache {
    var entries: map<string, FileInfo>

    /** The cache was filled under `env`: every entry is what the classifier
        gives for its name, and every name is short enough to be cached. */
    ghost predicate Consistent(env: Env)
      reads this
    {
      forall k :: k in entries ==> |k| < CACHE_KEY_LIMIT && entries[k] == Classify(env, k)
    }

    constructor ()
      ensures entries == map[]
    {
      entries := map[];
    }

    /** getFileInfo: a cached answer when there is one, otherwise the
        classifier's, which is cached when the name is under 1000 characters.
        With the environment unchanged since the cache was filled, the answer
        is the classifier's either way. */
    method GetFileInfo(env: Env, fname: string) returns (info: FileInfo)
      modifies this
      ensures fname in old(entries) ==> info == old(entries)[fname].(line := 0) && entries == old(entries)
      ensures fname !in old(entries) ==> info == Classify(env, fname)
      ensures fname !in old(entries) ==>
        entries == if |fname| < CACHE_KEY_LIMIT then old(entries)[fname := info] else old(entries)
      ensures old(Consistent(env)) ==> Consistent(env) && info == Classify(env, fname)
    {
      if fname in entries {
        var cached := entries[fname];
        return FileInfo(cached.prefix, cached.relativePath, 0);
      }
      info := ParseFileInfo(env, fname);
      if |fname| < CACHE_KEY_LIMIT {
        entries := entries[fname := FileInfo(info.prefix, info.relativePath, 0)];
      }
      ClassifyKeepsTail(env, fname);
    }

    /** clearCache */
    method ClearCache()
      modifies this
      ensures entries == map[]
    {
      entries := map[];
    }

    /** getCacheSize: the number of cached names, which a Java map reports
        as Integer.MAX_VALUE once it holds more. */
    method GetCacheSize() returns (n: Int32)
      ensures n as int == if |entries| > INT_MAX then INT_MAX else |entries|
      ensures entries == map[] ==> n == 0
    {
      n := if |entries| > INT_MAX then INT_MAX else |entries|;
    }
  }
}
