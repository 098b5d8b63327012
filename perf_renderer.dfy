/** The on-screen overlay: turns the top entries of the registry into
    aligned, coloured text lines, keeps them cached between refreshes, and
    lays the block out on the screen. Drawing, text measurement and the
    clock belong to the game; they are parameters here, and the draw calls
    are returned as values. */
module Renderer {
  import opened Strings
  import opened PathParser
  import Monitor

  /** Displayed paths longer than this are cut. */
  const PATH_LIMIT: nat := 80
  /** Characters kept from a cut path, before the "..." marker. */
  const PATH_KEEP: nat := 77
  const COUNT_WIDTH: nat := 5
  const TIME_WIDTH: nat := 8
  /** Colour bands, on the window total in nanoseconds (500 ms, 100 ms). */
  const RED_ABOVE_NS: int := 500_000_000
  const YELLOW_ABOVE_NS: int := 100_000_000
  const NS_PER_TENTH_MS: int := 100_000
  const NS_PER_MS: int := 1_000_000

  /** The overlay's settings. The minimum display time is held in whole
      nanoseconds; the game keeps it as milliseconds in a double. */
  datatype Settings = Settings(
    topN: Int32,
    windowMs: Int32,
    updateIntervalMs: Int32,
    minTimeNs: int,
    x0: Int32,
    y0: Int32,
    showBackground: bool)

  /** The game's defaults: top 10 over 3 s, refreshed every second, entries
      under 0.1 ms hidden, anchored one pixel above the bottom-left corner,
      with a background. */
  const DEFAULT_SETTINGS: Settings := Settings(10, 3000, 1000, 100_000, 0, -1, true)

  /** The three colours a line can have: white, light yellow (1, 1, 0.6)
      and light red (1, 0.6, 0.6). */
  datatype Colour = White | Yellow | Red

  // ---------------------------------------------------------------------------
  // Formatting one entry

  function ColourOf(sumNs: int): Colour {
    if sumNs > RED_ABOVE_NS then Red
    else if sumNs > YELLOW_ABOVE_NS then Yellow
    else White
  }

  function Heat(c: Colour): nat {
    match c
    case White => 0
    case Yellow => 1
    case Red => 2
  }

  /** Above 500 ms a line is red, above 100 ms yellow, otherwise white; a
      slower entry is never shown in a calmer colour than a faster one. */
  lemma ColourBands(a: int, b: int)
    ensures ColourOf(a) == Red <==> a > 500 * NS_PER_MS
    ensures ColourOf(a) == Yellow <==> 100 * NS_PER_MS < a <= 500 * NS_PER_MS
    ensures ColourOf(a) == White <==> a <= 100 * NS_PER_MS
    ensures a <= b ==> Heat(ColourOf(a)) <= Heat(ColourOf(b))
  {
  }

  function Spaces(n: nat): (r: string)
    ensures |r| == n && forall i :: 0 <= i < n ==> r[i] == ' '
  {
    seq(n, _ => ' ')
  }

  /** `String.format("%<w>s", s)`: right-aligned in a column of `w`. */
  function PadLeft(s: string, w: int): (r: string)
    ensures |r| == if |s| < w then w else |s|
    ensures r[|r| - |s|..] == s
    ensures forall i :: 0 <= i < |r| - |s| ==> r[i] == ' '
  {
    if |s| >= w then s else Spaces(w - |s|) + s
  }

  /** `String.format("%-<w>s", s)`: left-aligned in a column of `w`. */
  function PadRight(s: string, w: int): (r: string)
    ensures |r| == if |s| < w then w else |s|
    ensures r[..|s|] == s
    ensures forall i :: |s| <= i < |r| ==> r[i] == ' '
  {
    if |s| >= w then s else s + Spaces(w - |s|)
  }

  /** A nanosecond total in tenths of a millisecond, rounded half away from
      zero as `%.1f` rounds. */
  function Tenths(sumNs: int): (r: int)
    ensures -NS_PER_TENTH_MS / 2 <= r * NS_PER_TENTH_MS - sumNs <= NS_PER_TENTH_MS / 2
    ensures (r > 0 ==> sumNs > 0) && (r < 0 ==> sumNs < 0)
  {
    if sumNs >= 0 then (sumNs + NS_PER_TENTH_MS / 2) / NS_PER_TENTH_MS
    else -((-sumNs + NS_PER_TENTH_MS / 2) / NS_PER_TENTH_MS)
  }

  /** `|t| / 10` and the tenths digit, with a '-' for a negative total. */
  function OneDecimal(t: int, negative: bool): (r: string)
    ensures |r| >= 3 && r[|r| - 2] == '.' && IsDigit(r[|r| - 1])
  {
    var a := if t < 0 then -t else t;
    (if negative then "-" else "") + NatToString(a / 10) + "." + [DigitChar(a % 10)]
  }

  /** `String.format("%8.1fms", totalMs)`. */
  function TimeText(sumNs: int): (r: string)
    ensures |r| >= TIME_WIDTH + 2 && r[|r| - 2..] == "ms"
  {
    PadLeft(OneDecimal(Tenths(sumNs), sumNs < 0), TIME_WIDTH) + "ms"
  }

  /** The prefix column and the path shown for one file. */
  datatype Display = Display(prefix: string, path: string)

  predicate IsModPrefix(p: FilePrefix) {
    p == LMOD || p == SMOD || p == WMOD
  }

  /** The internal timings show as "LuaPerfMon"; a mod file with a '/'
      after its first character shows its first folder as the prefix and
      the rest of the normalised path; anything else shows the prefix's name
      and its path as is. */
  function SplitPrefix(info: FileInfo): (d: Display)
    ensures |d.prefix| > 0
  {
    if info.prefix == INTERNAL then Display("LuaPerfMon", info.relativePath)
    else if IsModPrefix(info.prefix) then
      var nf := Normalize(info.relativePath);
      var slash := IndexOf(nf, "/");
      if slash > 0 then Display(nf[..slash], nf[slash + 1..])
      else Display(PrefixName(info.prefix), info.relativePath)
    else Display(PrefixName(info.prefix), info.relativePath)
  }

  /** For a mod file, either the prefix is the first folder, which holds no
      '/', and prefix, '/' and path put back together give the normalised
      path; or nothing is split off, because the normalised path has no '/'
      at all or starts with one. */
  lemma SplitPrefixRejoins(info: FileInfo)
    requires IsModPrefix(info.prefix)
    ensures var d := SplitPrefix(info); var nf := Normalize(info.relativePath);
      || (d.prefix + "/" + d.path == nf && forall i :: 0 <= i < |d.prefix| ==> d.prefix[i] != '/')
      || (d == Display(PrefixName(info.prefix), info.relativePath) &&
          ((|nf| > 0 && nf[0] == '/') || forall i :: 0 <= i < |nf| ==> nf[i] != '/'))
  {
    var nf := Normalize(info.relativePath);
    var slash := IndexOf(nf, "/");
    IndexOfFirst(nf, "/");
    if slash > 0 {
      assert nf == nf[..slash] + "/" + nf[slash + 1..];
      forall i | 0 <= i < slash ensures nf[i] != '/' {
        assert !OccursAt(nf, "/", i);
      }
    } else if slash == -1 {
      forall i | 0 <= i < |nf| ensures nf[i] != '/' {
        assert !OccursAt(nf, "/", i);
      }
    }
  }

  /** The ":<line>" rule: the line is shown when it is positive or when the
      path holds a separator. */
  predicate ShowsLine(path: string, line: Int32) {
    line > 0 || Contains(path, "/") || Contains(path, "\\")
  }

  function WithLine(path: string, line: Int32): string {
    if ShowsLine(path, line) then path + ":" + IntToString(line) else path
  }

  /** A shown line number is the text after the last ':', and reads back as
      the recorded line; otherwise the path is shown alone. */
  lemma WithLineReadsBack(path: string, line: Int32)
    ensures var r := WithLine(path, line);
      if ShowsLine(path, line) then
        var c := LastIndexOf(r, ':');
        c == |path| && r[..c] == path && ParseInt(r[c + 1..]) == Some(line)
      else r == path
  {
    if ShowsLine(path, line) {
      var r := WithLine(path, line);
      var digits := IntToString(line);
      Monitor.LastColon(path, digits);
      assert r[..|path|] == path;
      assert r[|path| + 1..] == digits;
      ParseIntRoundTrip(line);
    }
  }

  /** Paths over 80 characters keep their first 77 and end in "...". */
  function Truncate(s: string): (r: string)
    ensures |r| <= PATH_LIMIT
    ensures |s| <= PATH_LIMIT ==> r == s
    ensures |s| > PATH_LIMIT ==> |r| == PATH_LIMIT && r[..PATH_KEEP] == s[..PATH_KEEP] && EndsWith(r, "...")
  {
    if |s| > PATH_LIMIT then s[..PATH_KEEP] + "..." else s
  }

  /** One entry of the overlay: the time, count, prefix and path columns
      and the colour. */
  datatype FormattedCall = FormattedCall(
    timeText: string,
    countText: string,
    prefixText: string,
    pathText: string,
    colour: Colour)

  /** The per-entry body of getTopCalls. */
  function Format(e: Monitor.Entry): (c: FormattedCall)
    ensures |c.prefixText| > 0 && |c.pathText| <= PATH_LIMIT
    ensures |c.countText| >= COUNT_WIDTH && |c.timeText| >= TIME_WIDTH + 2
  {
    var d := SplitPrefix(e.info);
    FormattedCall(
      TimeText(e.window.sum),
      PadLeft(IntToString(e.window.count), COUNT_WIDTH),
      d.prefix,
      Truncate(WithLine(d.path, e.info.line)),
      ColourOf(e.window.sum))
  }

  /** The entries the overlay shows: those whose window total reaches the
      minimum, in their order. */
  function Shown(es: seq<Monitor.Entry>, minTimeNs: int): seq<Monitor.Entry> {
    if es == [] then []
    else
      var last := es[|es| - 1];
      Shown(es[..|es| - 1], minTimeNs) + (if last.window.sum < minTimeNs then [] else [last])
  }

  /** Exactly the entries at or above the minimum are shown, each as often
      as it occurs. */
  lemma {:induction false} ShownExactly(es: seq<Monitor.Entry>, minTimeNs: int)
    ensures forall i :: 0 <= i < |Shown(es, minTimeNs)| ==> Shown(es, minTimeNs)[i].window.sum >= minTimeNs
    ensures forall e: Monitor.Entry ::
      multiset(Shown(es, minTimeNs))[e] == if e.window.sum < minTimeNs then 0 else multiset(es)[e]
  {
    if es != [] {
      var init, last := es[..|es| - 1], es[|es| - 1];
      ShownExactly(init, minTimeNs);
      assert es == init + [last];
    }
  }

  function FormatEach(es: seq<Monitor.Entry>): (r: seq<FormattedCall>)
    ensures |r| == |es| && forall i :: 0 <= i < |es| ==> r[i] == Format(es[i])
  {
    seq(|es|, i requires 0 <= i < |es| => Format(es[i]))
  }

  /** What getTopCalls returns for the entries it is given. */
  function TopCalls(es: seq<Monitor.Entry>, minTimeNs: int): seq<FormattedCall> {
    if es == [] then []
    else
      var last := es[|es| - 1];
      TopCalls(es[..|es| - 1], minTimeNs) + (if last.window.sum < minTimeNs then [] else [Format(last)])
  }

  /** getTopCalls formats exactly the shown entries, in order. */
  lemma {:induction false} TopCallsFormatsShown(es: seq<Monitor.Entry>, minTimeNs: int)
    ensures TopCalls(es, minTimeNs) == FormatEach(Shown(es, minTimeNs))
  {
    if es != [] {
      TopCallsFormatsShown(es[..|es| - 1], minTimeNs);
    }
  }

  /** Every formatted call has a prefix and a path of at most 80 characters. */
  lemma TopCallsColumns(es: seq<Monitor.Entry>, minTimeNs: int)
    ensures forall i :: 0 <= i < |TopCalls(es, minTimeNs)| ==>
      |TopCalls(es, minTimeNs)[i].prefixText| > 0 && |TopCalls(es, minTimeNs)[i].pathText| <= PATH_LIMIT
  {
    TopCallsFormatsShown(es, minTimeNs);
  }

  /** The widest prefix of a batch, 0 for none. */
  function MaxPrefixLen(calls: seq<FormattedCall>): (r: nat)
    ensures forall i :: 0 <= i < |calls| ==> |calls[i].prefixText| <= r
    ensures r == 0 || exists i :: 0 <= i < |calls| && |calls[i].prefixText| == r
  {
    if calls == [] then 0
    else
      var m := MaxPrefixLen(calls[..|calls| - 1]);
      var n := |calls[|calls| - 1].prefixText|;
      if n > m then n else m
  }

  /** FormattedCall.getFullLine: the time, two spaces, the count, two
      spaces, the prefix left-aligned in a column of `width`, a space and
      the path. Java refuses a width of 0 for a left-aligned column. When the
      prefix fits, the path starts at the same column for every line whose
      time and count texts have the same widths. */
  function FullLine(c: FormattedCall, width: int): (r: string)
    requires width >= 1
    ensures |r| == |c.timeText| + |c.countText| + (if |c.prefixText| < width then width else |c.prefixText|) + |c.pathText| + 5
    ensures r[..|c.timeText|] == c.timeText && r[|r| - |c.pathText|..] == c.pathText
    ensures |c.prefixText| <= width ==> |r| == |c.timeText| + |c.countText| + width + 5 + |c.pathText|
  {
    c.timeText + "  " + c.countText + "  " + PadRight(c.prefixText, width) + " " + c.pathText
  }

  // ---------------------------------------------------------------------------
  // The cached block

  /** A pre-formatted line and its colour. */
  datatype CachedLine = CachedLine(text: string, colour: Colour)

  /** The first line of the block. Java's long division truncates. */
  function Header(topN: Int32, windowMs: Int32): string {
    "Top " + IntToString(topN) + " Lua Calls (last " + IntToString(JavaDiv(windowMs, 1000)) + "s):"
  }

  /** The lines of a batch, in order, each in the colour of its call. */
  function CallLines(calls: seq<FormattedCall>, width: int): (r: seq<CachedLine>)
    requires calls == [] || width >= 1
  {
    seq(|calls|, i requires 0 <= i < |calls| => CachedLine(FullLine(calls[i], width), calls[i].colour))
  }

  /** The longest text among `start` and the lines, the earliest one on a
      tie (`start` comes first). */
  function Longest(start: string, lines: seq<CachedLine>): (r: string)
    ensures |start| <= |r| && forall i :: 0 <= i < |lines| ==> |lines[i].text| <= |r|
    ensures r == start || exists i :: 0 <= i < |lines| && lines[i].text == r && |start| < |r| &&
                                     forall j :: 0 <= j < i ==> |lines[j].text| < |r|
  {
    if lines == [] then start
    else
      var r := Longest(start, lines[..|lines| - 1]);
      var last := lines[|lines| - 1].text;
      if |last| > |r| then last else r
  }

  /** Where the block goes. */
  datatype Layout = Layout(lineSpacing: int, totalHeight: int, currentY: int, backgroundWidth: int, backgroundX: int)

  /** The layout arithmetic of renderInternal. */
  function LayoutFor(topN: int, textHeight: int, x0: int, y0: int, scrH: int, maxWidth: int): (l: Layout)
    ensures l.lineSpacing == textHeight + 2
    ensures l.totalHeight == (topN + 1) * l.lineSpacing
    ensures y0 < 0 ==> l.currentY + l.totalHeight - 1 == scrH + y0
    ensures y0 >= 0 ==> l.currentY == y0
    ensures l.backgroundX + 5 == x0 && l.backgroundX + l.backgroundWidth == x0 + maxWidth + 5
  {
    var spacing := textHeight + 2;
    var total := (topN + 1) * spacing;
    Layout(spacing, total, if y0 < 0 then scrH + y0 - total + 1 else y0, maxWidth + 10, x0 - 5)
  }

  /** A rectangle and a text draw call. */
  datatype Rect = Rect(x: int, y: int, width: int, height: int)
  datatype TextDraw = TextDraw(x: int, y: int, text: string, colour: Colour)

  /** The y of line `i` of a block at `y` with the given spacing. */
  function LineY(y: int, spacing: int, i: int): int {
    y + i * spacing
  }

  lemma TopCallsStep(es: seq<Monitor.Entry>, e: Monitor.Entry, minTimeNs: int)
    ensures TopCalls(es + [e], minTimeNs) ==
      TopCalls(es, minTimeNs) + (if e.window.sum < minTimeNs then [] else [Format(e)])
  {
    assert (es + [e])[..|es|] == es;
  }

  /** The loop of getTopCalls: the formatted batch and its widest prefix. */
  method FormatBatch(entries: seq<Monitor.Entry>, minTimeNs: int) returns (result: seq<FormattedCall>, widest: nat)
    ensures result == TopCalls(entries, minTimeNs)
    ensures widest == MaxPrefixLen(result)
  {
    result := [];
    widest := 0;
    var i := 0;
    while i < |entries|
      invariant 0 <= i <= |entries|
      invariant result == TopCalls(entries[..i], minTimeNs)
      invariant widest == MaxPrefixLen(result)
    {
      var e := entries[i];
      assert entries[..i + 1] == entries[..i] + [e];
      TopCallsStep(entries[..i], e, minTimeNs);
      if e.window.sum >= minTimeNs {
        var call := Format(e);
        ghost var before := result;
        result := result + [call];
        assert result[..|result| - 1] == before;
        if |call.prefixText| > widest {
          widest := |call.prefixText|;
        }
      }
      i := i + 1;
    }
    assert entries[..i] == entries;
  }

  lemma CallLinesStep(calls: seq<FormattedCall>, i: nat, width: int)
    requires i < |calls| && width >= 1
    ensures CallLines(calls[..i + 1], width) == CallLines(calls[..i], width) + [CachedLine(FullLine(calls[i], width), calls[i].colour)]
  {
    var a, b := CallLines(calls[..i + 1], width), CallLines(calls[..i], width) + [CachedLine(FullLine(calls[i], width), calls[i].colour)];
    assert |a| == |b|;
    forall k | 0 <= k < |a| ensures a[k] == b[k] {
      assert calls[..i + 1][k] == calls[k];
    }
  }

  lemma LongestStep(start: string, lines: seq<CachedLine>, line: CachedLine)
    ensures Longest(start, lines + [line]) ==
      if |line.text| > |Longest(start, lines)| then line.text else Longest(start, lines)
  {
    assert (lines + [line])[..|lines|] == lines;
  }

  /** The line loop of renderInternal: the header and one line per call,
      and the first longest of them. */
  method BuildLines(header: string, calls: seq<FormattedCall>, width: int) returns (lines: seq<CachedLine>, longest: string)
    requires calls == [] || width >= 1
    ensures lines == [CachedLine(header, White)] + CallLines(calls, width)
    ensures longest == Longest(header, CallLines(calls, width))
  {
    var body: seq<CachedLine> := [];
    longest := header;
    var i := 0;
    while i < |calls|
      invariant 0 <= i <= |calls|
      invariant body == CallLines(calls[..i], width)
      invariant longest == Longest(header, body)
    {
      var line := CachedLine(FullLine(calls[i], width), calls[i].colour);
      CallLinesStep(calls, i, width);
      LongestStep(header, body, line);
      body := body + [line];
      if |line.text| > |longest| {
        longest := line.text;
      }
      i := i + 1;
    }
    assert calls[..i] == calls;
    lines := [CachedLine(header, White)] + body;
  }

  /** The overlay's static state: the last refresh time, the cached calls
      and lines, the width caches and the cached layout. */
  class PerfRenderer {
    var lastUpdateTime: int
    var cachedTopCalls: seq<FormattedCall>
    var cachedWindowDurationMs: int
    var allTimeMaxWidth: int
    var maxPrefixWidth: int
    var cachedTopN: int
    var cachedX0: int
    var cachedY0: int
    var cachedScreenHeight: int
    var cachedLongestLine: string
    var cachedLineSpacing: int
    var cachedTotalHeight: int
    var cachedCurrentY: int
    var cachedBackgroundWidth: int
    var cachedBackgroundX: int
    var cachedLines: seq<CachedLine>

    /** The width caches are never negative, and the prefix column is wide
        enough for every cached call. */
    ghost predicate Valid()
      reads this
    {
      && 0 <= maxPrefixWidth && 0 <= allTimeMaxWidth
      && (cachedTopCalls == [] || maxPrefixWidth >= 1)
      && forall i :: 0 <= i < |cachedTopCalls| ==> |cachedTopCalls[i].prefixText| <= maxPrefixWidth
    }

    constructor ()
      ensures Valid()
      ensures lastUpdateTime == 0 && cachedTopCalls == [] && cachedLines == [] && cachedLongestLine == ""
      ensures allTimeMaxWidth == 0 && maxPrefixWidth == 0 && cachedX0 == INT_MIN && cachedY0 == INT_MIN
      ensures cachedWindowDurationMs == 0 && cachedTopN == 0 && cachedScreenHeight == 0
      ensures cachedLineSpacing == 0 && cachedTotalHeight == 0 && cachedCurrentY == 0
      ensures cachedBackgroundWidth == 0 && cachedBackgroundX == 0
    {
      lastUpdateTime := 0;
      cachedTopCalls := [];
      cachedWindowDurationMs := 0;
      allTimeMaxWidth := 0;
      maxPrefixWidth := 0;
      cachedTopN := 0;
      cachedX0 := INT_MIN;
      cachedY0 := INT_MIN;
      cachedScreenHeight := 0;
      cachedLongestLine := "";
      cachedLineSpacing := 0;
      cachedTotalHeight := 0;
      cachedCurrentY := 0;
      cachedBackgroundWidth := 0;
      cachedBackgroundX := 0;
      cachedLines := [];
    }

    /** getTopCalls over the entries the registry hands it: formats those at
        or above the minimum, in order, and widens the prefix column to the
        batch's widest prefix if that is wider. */
    method GetTopCalls(entries: seq<Monitor.Entry>, minTimeNs: int) returns (result: seq<FormattedCall>)
      requires 0 <= maxPrefixWidth
      modifies this`maxPrefixWidth
      ensures result == TopCalls(entries, minTimeNs)
      ensures maxPrefixWidth >= old(maxPrefixWidth)
      ensures forall i :: 0 <= i < |result| ==> |result[i].prefixText| <= maxPrefixWidth
      ensures maxPrefixWidth == old(maxPrefixWidth) || exists i :: 0 <= i < |result| && |result[i].prefixText| == maxPrefixWidth
    {
      var widest;
      result, widest := FormatBatch(entries, minTimeNs);
      if widest > maxPrefixWidth {
        maxPrefixWidth := widest;
      }
    }

    /** The first half of a refresh: new calls and the snapshot of the
        settings they were taken under. */
    method CacheCalls(now: int, s: Settings, scrH: Int32, entries: seq<Monitor.Entry>)
      requires Valid()
      modifies this`maxPrefixWidth, this`cachedTopCalls, this`cachedWindowDurationMs, this`lastUpdateTime
      modifies this`cachedTopN, this`cachedX0, this`cachedY0, this`cachedScreenHeight
      ensures Valid()
      ensures cachedTopCalls == TopCalls(entries, s.minTimeNs)
      ensures maxPrefixWidth >= old(maxPrefixWidth)
      ensures maxPrefixWidth == old(maxPrefixWidth) || exists i :: 0 <= i < |cachedTopCalls| && |cachedTopCalls[i].prefixText| == maxPrefixWidth
      ensures lastUpdateTime == now && cachedWindowDurationMs == s.windowMs
      ensures cachedTopN == s.topN && cachedX0 == s.x0 && cachedY0 == s.y0 && cachedScreenHeight == scrH
    {
      var calls := GetTopCalls(entries, s.minTimeNs);
      TopCallsColumns(entries, s.minTimeNs);
      if calls != [] {
        assert |calls[0].prefixText| <= maxPrefixWidth;
      }
      cachedTopCalls := calls;
      cachedWindowDurationMs := s.windowMs;
      lastUpdateTime := now;
      cachedTopN := s.topN;
      cachedX0 := s.x0;
      cachedY0 := s.y0;
      cachedScreenHeight := scrH;
    }

    /** The lines of a refresh: the header and one line per cached call in
        order, the first longest of them, and the widest line seen so far
        by the game's measure `measureX`. */
    method CacheLines(header: string, measureX: string -> int)
      requires Valid()
      modifies this`cachedLines, this`cachedLongestLine, this`allTimeMaxWidth
      ensures Valid()
      ensures cachedLines == [CachedLine(header, White)] + CallLines(cachedTopCalls, maxPrefixWidth)
      ensures cachedLongestLine == Longest(header, CallLines(cachedTopCalls, maxPrefixWidth))
      ensures allTimeMaxWidth == if measureX(cachedLongestLine) > old(allTimeMaxWidth) then measureX(cachedLongestLine) else old(allTimeMaxWidth)
    {
      var lines, longest := BuildLines(header, cachedTopCalls, maxPrefixWidth);
      cachedLines := lines;
      cachedLongestLine := longest;
      var maxWidth := measureX(longest);
      if maxWidth > allTimeMaxWidth {
        allTimeMaxWidth := maxWidth;
      }
    }

    /** The layout of a refresh, from the text height and the widest line
        seen so far. */
    method CacheLayout(s: Settings, scrH: Int32, textHeight: Int32)
      modifies this`cachedLineSpacing, this`cachedTotalHeight, this`cachedCurrentY, this`cachedBackgroundWidth, this`cachedBackgroundX
      ensures Layout(cachedLineSpacing, cachedTotalHeight, cachedCurrentY, cachedBackgroundWidth, cachedBackgroundX)
        == LayoutFor(s.topN, textHeight, s.x0, s.y0, scrH, allTimeMaxWidth)
    {
      var layout := LayoutFor(s.topN, textHeight, s.x0, s.y0, scrH, allTimeMaxWidth);
      cachedLineSpacing := layout.lineSpacing;
      cachedTotalHeight := layout.totalHeight;
      cachedCurrentY := layout.currentY;
      cachedBackgroundWidth := layout.backgroundWidth;
      cachedBackgroundX := layout.backgroundX;
    }

    /** The refresh of renderInternal: new calls, the header and one line
        per call in order, the first longest line, the widest line seen so
        far, and the layout. `measureX` and `textHeight` are the game's text
        measurements. */
    method Refresh(now: int, s: Settings, scrH: Int32, entries: seq<Monitor.Entry>, measureX: string -> int, textHeight: Int32)
      requires Valid()
      modifies this
      ensures Valid()
      ensures cachedTopCalls == TopCalls(entries, s.minTimeNs)
      ensures maxPrefixWidth >= old(maxPrefixWidth)
      ensures maxPrefixWidth == old(maxPrefixWidth) || exists i :: 0 <= i < |cachedTopCalls| && |cachedTopCalls[i].prefixText| == maxPrefixWidth
      ensures cachedLines == [CachedLine(Header(s.topN, s.windowMs), White)] + CallLines(cachedTopCalls, maxPrefixWidth)
      ensures cachedLongestLine == Longest(Header(s.topN, s.windowMs), CallLines(cachedTopCalls, maxPrefixWidth))
      ensures allTimeMaxWidth == if measureX(cachedLongestLine) > old(allTimeMaxWidth) then measureX(cachedLongestLine) else old(allTimeMaxWidth)
      ensures lastUpdateTime == now && cachedWindowDurationMs == s.windowMs
      ensures cachedTopN == s.topN && cachedX0 == s.x0 && cachedY0 == s.y0 && cachedScreenHeight == scrH
      ensures Layout(cachedLineSpacing, cachedTotalHeight, cachedCurrentY, cachedBackgroundWidth, cachedBackgroundX)
        == LayoutFor(s.topN, textHeight, s.x0, s.y0, scrH, allTimeMaxWidth)
    {
      CacheCalls(now, s, scrH, entries);
      CacheLines(Header(s.topN, s.windowMs), measureX);
      CacheLayout(s, scrH, textHeight);
    }

    /** The drawing half of renderInternal: the background when it is
        visible, then every cached line at the current x0, one line spacing
        apart from the cached top. Writes nothing. */
    method Draw(x0: Int32, showBackground: bool) returns (rect: Option<Rect>, draws: seq<TextDraw>)
      ensures rect == if showBackground then Some(Rect(cachedBackgroundX, cachedCurrentY, cachedBackgroundWidth, cachedTotalHeight)) else None
      ensures |draws| == |cachedLines|
      ensures forall i :: 0 <= i < |draws| ==>
        draws[i] == TextDraw(x0, LineY(cachedCurrentY, cachedLineSpacing, i), cachedLines[i].text, cachedLines[i].colour)
    {
      rect := if showBackground then Some(Rect(cachedBackgroundX, cachedCurrentY, cachedBackgroundWidth, cachedTotalHeight)) else None;
      draws := [];
      var drawY := cachedCurrentY;
      var i := 0;
      while i < |cachedLines|
        invariant 0 <= i <= |cachedLines| && |draws| == i
        invariant drawY == LineY(cachedCurrentY, cachedLineSpacing, i)
        invariant forall j :: 0 <= j < i ==>
          draws[j] == TextDraw(x0, LineY(cachedCurrentY, cachedLineSpacing, j), cachedLines[j].text, cachedLines[j].colour)
      {
        draws := draws + [TextDraw(x0, drawY, cachedLines[i].text, cachedLines[i].colour)];
        drawY := drawY + cachedLineSpacing;
        i := i + 1;
      }
    }

    /** renderInternal at clock reading `now`. Nothing happens without the
        game's text manager and core (`ready`). The caches are refreshed
        exactly when the update interval has passed since the last refresh,
        with everything `Refresh` states; the background and the lines are
        drawn from the caches either way. */
    method RenderInternal(now: int, s: Settings, ready: bool, scrH: Int32, entries: seq<Monitor.Entry>,
                          measureX: string -> int, textHeight: Int32)
      returns (rect: Option<Rect>, draws: seq<TextDraw>)
      requires Valid()
      modifies this
      ensures Valid()
      ensures !ready ==> rect == None && draws == [] && unchanged(this)
      ensures ready && now - old(lastUpdateTime) < s.updateIntervalMs * NS_PER_MS ==> unchanged(this)
      ensures ready && now - old(lastUpdateTime) >= s.updateIntervalMs * NS_PER_MS ==>
        && cachedTopCalls == TopCalls(entries, s.minTimeNs)
        && maxPrefixWidth >= old(maxPrefixWidth)
        && (maxPrefixWidth == old(maxPrefixWidth) || exists i :: 0 <= i < |cachedTopCalls| && |cachedTopCalls[i].prefixText| == maxPrefixWidth)
        && cachedLines == [CachedLine(Header(s.topN, s.windowMs), White)] + CallLines(cachedTopCalls, maxPrefixWidth)
        && cachedLongestLine == Longest(Header(s.topN, s.windowMs), CallLines(cachedTopCalls, maxPrefixWidth))
        && allTimeMaxWidth == (if measureX(cachedLongestLine) > old(allTimeMaxWidth) then measureX(cachedLongestLine) else old(allTimeMaxWidth))
        && lastUpdateTime == now && cachedWindowDurationMs == s.windowMs
        && cachedTopN == s.topN && cachedX0 == s.x0 && cachedY0 == s.y0 && cachedScreenHeight == scrH
        && Layout(cachedLineSpacing, cachedTotalHeight, cachedCurrentY, cachedBackgroundWidth, cachedBackgroundX)
             == LayoutFor(s.topN, textHeight, s.x0, s.y0, scrH, allTimeMaxWidth)
      ensures ready ==> rect == if s.showBackground then Some(Rect(cachedBackgroundX, cachedCurrentY, cachedBackgroundWidth, cachedTotalHeight)) else None
      ensures ready ==> |draws| == |cachedLines|
      ensures ready ==> forall i :: 0 <= i < |draws| ==>
          draws[i] == TextDraw(s.x0, LineY(cachedCurrentY, cachedLineSpacing, i), cachedLines[i].text, cachedLines[i].colour)
    {
      if !ready {
        return None, [];
      }
      var shouldUpdate := now - lastUpdateTime >= s.updateIntervalMs * NS_PER_MS;
      if shouldUpdate {
        Refresh(now, s, scrH, entries, measureX, textHeight);
      }
      rect, draws := Draw(s.x0, s.showBackground);
    }
  }
}
