/**
 * The accessibility report hook: HTML escaping, the per-run de-duplication of page scans,
 * the summary of each saved axe result, the overview totals and the status badge.
 * The axe engine, the browser page and the HTML templates are not part of this model; a
 * report directory is its listing of file names plus the parsed content of its JSON files.
 */
module AxeReport {
  import opened Wrappers
  import Text

  // ---------------------------------------------------------------- escapeHtml

  /** The entity one character becomes in escaped text. */
  function EscapeChar(ch: char): string {
    if ch == '&' then "&amp;"
    else if ch == '<' then "&lt;"
    else if ch == '>' then "&gt;"
    else if ch == '"' then "&quot;"
    else if ch == '\'' then "&#39;"
    else [ch]
  }

  /** Independent reference: every character escaped on its own. */
  function Escaped(s: string): string {
    if s == [] then [] else EscapeChar(s[0]) + Escaped(s[1..])
  }

  /** escapeHtml: "" for null, else the replace chain, "&" first. */
  function EscapeHtml(text: Option<string>): (r: string)
    ensures text.None? ==> r == []
    ensures '<' !in r && '>' !in r && '"' !in r && '\'' !in r
  {
    match text
    case None => []
    case Some(t) => ReplaceChain(t)
  }

  function ReplaceChain(t: string): (r: string)
    ensures '<' !in r && '>' !in r && '"' !in r && '\'' !in r
  {
    EscapeMarkup(Text.ReplaceChar(t, '&', "&amp;"))
  }

  /** The four replacements after the first one. */
  function EscapeMarkup(amp: string): (r: string)
    ensures '<' !in r && '>' !in r && '"' !in r && '\'' !in r
  {
    var lt := Text.ReplaceChar(amp, '<', "&lt;");
    var gt := Text.ReplaceChar(lt, '>', "&gt;");
    var quot := Text.ReplaceChar(gt, '"', "&quot;");
    Text.ReplaceChar(quot, '\'', "&#39;")
  }

  lemma ReplaceChainAppend(a: string, b: string)
    ensures ReplaceChain(a + b) == ReplaceChain(a) + ReplaceChain(b)
  {
    Text.ReplaceCharAppend(a, b, '&', "&amp;");
    EscapeMarkupAppend(Text.ReplaceChar(a, '&', "&amp;"), Text.ReplaceChar(b, '&', "&amp;"));
  }

  lemma EscapeMarkupAppend(a: string, b: string)
    ensures EscapeMarkup(a + b) == EscapeMarkup(a) + EscapeMarkup(b)
  {
    Text.ReplaceCharAppend(a, b, '<', "&lt;");
    var a2, b2 := Text.ReplaceChar(a, '<', "&lt;"), Text.ReplaceChar(b, '<', "&lt;");
    Text.ReplaceCharAppend(a2, b2, '>', "&gt;");
    var a3, b3 := Text.ReplaceChar(a2, '>', "&gt;"), Text.ReplaceChar(b2, '>', "&gt;");
    Text.ReplaceCharAppend(a3, b3, '"', "&quot;");
    var a4, b4 := Text.ReplaceChar(a3, '"', "&quot;"), Text.ReplaceChar(b3, '"', "&quot;");
    Text.ReplaceCharAppend(a4, b4, '\'', "&#39;");
  }

  /** Text without markup characters passes the last four replacements unchanged. */
  lemma EscapeMarkupAbsent(x: string)
    requires '<' !in x && '>' !in x && '"' !in x && '\'' !in x
    ensures EscapeMarkup(x) == x
  {
    Text.ReplaceCharAbsent(x, '<', "&lt;");
    Text.ReplaceCharAbsent(x, '>', "&gt;");
    Text.ReplaceCharAbsent(x, '"', "&quot;");
    Text.ReplaceCharAbsent(x, '\'', "&#39;");
  }

  /** Each later replacement leaves the entities written by the earlier ones alone. */
  lemma ReplaceChainChar(ch: char)
    ensures ReplaceChain([ch]) == EscapeChar(ch)
  {
    if ch == '&' { ChainAmp(); }
    else if ch == '<' { ChainLt(); }
    else if ch == '>' { ChainGt(); }
    else if ch == '"' { ChainQuot(); }
    else if ch == '\'' { ChainApos(); }
    else { ChainPlain(ch); }
  }

  lemma ChainAmp()
    ensures ReplaceChain("&") == "&amp;"
  {
    Text.ReplaceCharSingle('&', '&', "&amp;");
    EscapeMarkupAbsent("&amp;");
  }

  /** The replacements after the one for "<" leave text without their characters alone. */
  lemma AfterLtAbsent(x: string)
    requires '>' !in x && '"' !in x && '\'' !in x
    ensures Text.ReplaceChar(Text.ReplaceChar(Text.ReplaceChar(x, '>', "&gt;"), '"', "&quot;"), '\'', "&#39;") == x
  {
    Text.ReplaceCharAbsent(x, '>', "&gt;");
    Text.ReplaceCharAbsent(x, '"', "&quot;");
    Text.ReplaceCharAbsent(x, '\'', "&#39;");
  }

  lemma AfterGtAbsent(x: string)
    requires '"' !in x && '\'' !in x
    ensures Text.ReplaceChar(Text.ReplaceChar(x, '"', "&quot;"), '\'', "&#39;") == x
  {
    Text.ReplaceCharAbsent(x, '"', "&quot;");
    Text.ReplaceCharAbsent(x, '\'', "&#39;");
  }

  lemma ChainLt()
    ensures ReplaceChain("<") == "&lt;"
  {
    Text.ReplaceCharSingle('<', '&', "&amp;");
    Text.ReplaceCharSingle('<', '<', "&lt;");
    AfterLtAbsent("&lt;");
  }

  lemma ChainGt()
    ensures ReplaceChain(">") == "&gt;"
  {
    Text.ReplaceCharSingle('>', '&', "&amp;");
    Text.ReplaceCharSingle('>', '<', "&lt;");
    Text.ReplaceCharSingle('>', '>', "&gt;");
    AfterGtAbsent("&gt;");
  }

  lemma ChainQuot()
    ensures ReplaceChain("\"") == "&quot;"
  {
    Text.ReplaceCharSingle('"', '&', "&amp;");
    Text.ReplaceCharSingle('"', '<', "&lt;");
    Text.ReplaceCharSingle('"', '>', "&gt;");
    Text.ReplaceCharSingle('"', '"', "&quot;");
    Text.ReplaceCharAbsent("&quot;", '\'', "&#39;");
  }

  lemma ChainApos()
    ensures ReplaceChain("'") == "&#39;"
  {
    Text.ReplaceCharSingle('\'', '&', "&amp;");
    Text.ReplaceCharSingle('\'', '<', "&lt;");
    Text.ReplaceCharSingle('\'', '>', "&gt;");
    Text.ReplaceCharSingle('\'', '"', "&quot;");
    Text.ReplaceCharSingle('\'', '\'', "&#39;");
  }

  lemma ChainPlain(ch: char)
    requires ch != '&' && ch != '<' && ch != '>' && ch != '"' && ch != '\''
    ensures ReplaceChain([ch]) == [ch]
  {
    Text.ReplaceCharSingle(ch, '&', "&amp;");
    EscapeMarkupAbsent([ch]);
  }

  /** The replace chain escapes every character independently, as the reference does. */
  lemma {:induction false} EscapeHtmlIsPerCharacter(s: string)
    ensures EscapeHtml(Some(s)) == Escaped(s)
  {
    if s == [] {
    } else {
      assert s == [s[0]] + s[1..];
      ReplaceChainAppend([s[0]], s[1..]);
      ReplaceChainChar(s[0]);
      EscapeHtmlIsPerCharacter(s[1..]);
    }
  }

  /**
   * Because "&" goes first, an entity is escaped again: "&" followed by markup-free text x
   * becomes "&amp;" followed by x, so "&lt;" becomes "&amp;lt;".
   */
  lemma {:induction false} EntitiesAreEscapedAgain(x: string)
    requires '&' !in x && '<' !in x && '>' !in x && '"' !in x && '\'' !in x
    ensures EscapeHtml(Some("&" + x)) == "&amp;" + x
  {
    ReplaceChainAppend("&", x);
    ChainAmp();
    Text.ReplaceCharAbsent(x, '&', "&amp;");
    EscapeMarkupAbsent(x);
  }

  // ---------------------------------------------------------------- runAndSave de-duplication

  /** scannedUrlsByRun: per result directory, the page URLs already scanned. */
  type Registry = map<string, set<string>>

  predicate AlreadyScanned(m: Registry, runKey: string, url: string) {
    runKey in m && url in m[runKey]
  }

  /** computeIfAbsent(runKey, new set).add(url) */
  function Record(m: Registry, runKey: string, url: string): (r: Registry)
    ensures AlreadyScanned(r, runKey, url)
    ensures forall k, u :: AlreadyScanned(r, k, u) <==> AlreadyScanned(m, k, u) || (k == runKey && u == url)
    ensures AlreadyScanned(m, runKey, url) ==> r == m
  {
    var urls := if runKey in m then m[runKey] else {};
    assert AlreadyScanned(m, runKey, url) ==> urls + {url} == urls;
    m[runKey := urls + {url}]
  }

  datatype Visit = Visit(runKey: string, url: string)

  /** The visits that go on to scan, when they reach runAndSave in this order. */
  function ScansOf(m: Registry, visits: seq<Visit>): seq<Visit>
    decreases |visits|
  {
    if visits == [] then []
    else
      var v := visits[0];
      if AlreadyScanned(m, v.runKey, v.url) then ScansOf(m, visits[1..])
      else [v] + ScansOf(Record(m, v.runKey, v.url), visits[1..])
  }

  /**
   * Every page is scanned at most once per result directory: the scans are pairwise distinct,
   * none repeats a scan recorded earlier, and every visit not recorded earlier is scanned.
   */
  lemma {:induction false} EachUrlScannedOnce(m: Registry, visits: seq<Visit>)
    ensures forall i, j :: 0 <= i < j < |ScansOf(m, visits)| ==> ScansOf(m, visits)[i] != ScansOf(m, visits)[j]
    ensures forall v :: v in ScansOf(m, visits) ==> !AlreadyScanned(m, v.runKey, v.url) && v in visits
    ensures forall v :: v in visits && !AlreadyScanned(m, v.runKey, v.url) ==> v in ScansOf(m, visits)
    decreases |visits|
  {
    if visits != [] {
      var v := visits[0];
      var rest := visits[1..];
      assert forall w :: w in rest ==> w in visits;
      if AlreadyScanned(m, v.runKey, v.url) {
        EachUrlScannedOnce(m, rest);
      } else {
        var m' := Record(m, v.runKey, v.url);
        EachUrlScannedOnce(m', rest);
        var tail := ScansOf(m', rest);
        assert ScansOf(m, visits) == [v] + tail;
        assert forall w :: w in tail ==> w != v;
      }
    }
  }

  class ScanRegistry {
    var scannedUrlsByRun: Registry

    constructor()
      ensures scannedUrlsByRun == map[]
    {
      scannedUrlsByRun := map[];
    }

    /**
     * runAndSave: records the URL for the directory; when it was recorded already the scan is
     * skipped, otherwise the result files get the base name fileName_now.
     */
    method RunAndSave(reportDir: string, pageUrl: string, fileName: string, now: int)
      returns (baseName: Option<string>)
      modifies this
      ensures scannedUrlsByRun == Record(old(scannedUrlsByRun), reportDir, pageUrl)
      ensures baseName.Some? <==> !AlreadyScanned(old(scannedUrlsByRun), reportDir, pageUrl)
      ensures baseName.Some? ==> baseName.value == fileName + "_" + Text.IntToString(now)
    {
      var scanned := if reportDir in scannedUrlsByRun then scannedUrlsByRun[reportDir] else {};
      var added := pageUrl !in scanned;
      scannedUrlsByRun := scannedUrlsByRun[reportDir := scanned + {pageUrl}];
      if !added {
        return None;
      }
      baseName := Some(fileName + "_" + Text.IntToString(now));
    }
  }

  // ---------------------------------------------------------------- beautifyTitle

  const FALLBACK_TITLE := "Barrierefreiheits-Scan"

  predicate IsDigit(c: char) { '0' <= c <= '9' }

  /** \s in a Java regular expression: space, tab, newline, vertical tab, form feed, return. */
  predicate IsRegexSpace(c: char) {
    c == ' ' || c == '\t' || c == '\n' || c == '\U{B}' || c == '\U{C}' || c == '\r'
  }

  function TrailingDigits(s: string): (k: nat)
    ensures k <= |s| && forall i :: |s| - k <= i < |s| ==> IsDigit(s[i])
    ensures k < |s| ==> !IsDigit(s[|s| - k - 1])
  {
    if s != [] && IsDigit(s[|s| - 1]) then TrailingDigits(s[..|s| - 1]) + 1 else 0
  }

  /** replaceAll("_\\d+$", ""): drops an underscore and the digits that end the name. */
  function StripTimestamp(s: string): (r: string)
    ensures forall d :: d in r ==> d in s
  {
    var k := TrailingDigits(s);
    if k > 0 && k < |s| && s[|s| - k - 1] == '_' then
      var r := s[..|s| - k - 1];
      assert forall i :: 0 <= i < |r| ==> r[i] == s[i];
      r
    else s
  }

  function LeadingRun(s: string, p: char -> bool): (k: nat)
    ensures k <= |s| && forall i :: 0 <= i < k ==> p(s[i])
    ensures k < |s| ==> !p(s[k])
  {
    if s != [] && p(s[0]) then LeadingRun(s[1..], p) + 1 else 0
  }

  /** replaceAll("\\d{10,}", ""): removes every run of ten or more digits. */
  function RemoveLongNumbers(s: string): (r: string)
    ensures forall d :: d in r ==> d in s
  {
    if s == [] then []
    else
      var k := LeadingRun(s, IsDigit);
      if k == 0 then [s[0]] + RemoveLongNumbers(s[1..])
      else
        var rest := RemoveLongNumbers(s[k..]);
        assert forall d :: d in s[..k] ==> d in s;
        assert forall d :: d in s[k..] ==> d in s;
        (if k >= 10 then [] else s[..k]) + rest
  }

  /** replaceAll("([a-z])([A-Z])", "$1 $2"): a space between a lower-case and an upper-case letter. */
  function SplitCamelCase(s: string): (r: string)
    ensures forall d :: d in r ==> d in s || d == ' '
  {
    if |s| >= 2 && 'a' <= s[0] <= 'z' && 'A' <= s[1] <= 'Z' then
      [s[0], ' ', s[1]] + SplitCamelCase(s[2..])
    else if s == [] then []
    else [s[0]] + SplitCamelCase(s[1..])
  }

  /** replaceAll("\\s{2,}", " "): every run of two or more spaces becomes one space. */
  function CollapseSpaces(s: string): (r: string)
    ensures forall d :: d in r ==> d in s || d == ' '
  {
    if s == [] then []
    else
      var k := LeadingRun(s, IsRegexSpace);
      if k >= 2 then
        assert forall d :: d in s[k..] ==> d in s;
        " " + CollapseSpaces(s[k..])
      else [s[0]] + CollapseSpaces(s[1..])
  }

  /**
   * beautifyTitle: removes the timestamps, splits camel case, spaces out dashes and
   * underscores, tidies the spaces, drops "{}" and a trailing " -", and falls back to
   * "Barrierefreiheits-Scan" when nothing is left.
   */
  function BeautifyTitle(rawName: string): (r: string)
    ensures r != [] && Text.IsTrimmed(r)
    ensures '_' !in r
  {
    var noStamp := RemoveLongNumbers(StripTimestamp(rawName));
    var spaced := SpaceOut(SplitCamelCase(noStamp));
    var tidy := Text.Trim(CollapseSpaces(spaced));
    var name := DropTrailingDash(DropBraces(tidy));
    if name == [] then FallbackTitle() else name
  }

  /** "Barrierefreiheits-Scan": the title of a scan whose name leaves nothing. */
  function FallbackTitle(): (r: string)
    ensures r != [] && Text.IsTrimmed(r) && '_' !in r
  {
    FALLBACK_TITLE
  }

  /** replace("-", " - ").replace("_", " "): no underscore is left. */
  function SpaceOut(s: string): (r: string)
    ensures '_' !in r
  {
    Text.ReplaceChar(Text.ReplaceChar(s, '-', " - "), '_', " ")
  }

  /** replace("{}", "").trim(): adds no underscore. */
  function DropBraces(s: string): (r: string)
    requires '_' !in s
    ensures '_' !in r && Text.IsTrimmed(r)
  {
    Text.Trim(Text.ReplaceAll(s, "{}", ""))
  }

  /** The trailing " -" and the spaces before it are cut off. */
  function DropTrailingDash(s: string): (r: string)
    requires '_' !in s && Text.IsTrimmed(s)
    ensures '_' !in r && Text.IsTrimmed(r)
  {
    if Text.EndsWith(s, " -") then
      var cut := s[..|s| - 2];
      assert forall d :: d in cut ==> d in s;
      Text.Trim(cut)
    else s
  }

  // ---------------------------------------------------------------- collectScans

  /** What a saved result file holds: the parsed axe JSON, or a file that cannot be read. */
  datatype ResultFile =
    | Unreadable
    | AxeJson(url: Option<string>, passes: Option<nat>, impacts: Option<seq<Option<string>>>)

  /** A report directory: the listing of its entries and the content of the JSON files. */
  datatype ReportDir = ReportDir(listing: seq<string>, files: map<string, ResultFile>)

  datatype ScanSummary = ScanSummary(
    title: string, url: string, passes: nat, violations: nat,
    critical: nat, serious: nat, moderate: nat, minor: nat,
    htmlFile: Option<string>)

  /** The order of String.compareTo: by the first differing character, else by length. */
  predicate NameLessEq(a: string, b: string) {
    a == [] || (b != [] && (a[0] < b[0] || (a[0] == b[0] && NameLessEq(a[1..], b[1..]))))
  }

  lemma {:induction false} NameOrderTotal(a: string, b: string)
    ensures NameLessEq(a, b) || NameLessEq(b, a)
  {
    if a != [] && b != [] && a[0] == b[0] {
      NameOrderTotal(a[1..], b[1..]);
    }
  }

  predicate NamesSorted(s: seq<string>) {
    forall i :: 0 <= i < |s| - 1 ==> NameLessEq(s[i], s[i + 1])
  }

  function InsertName(x: string, s: seq<string>): (r: seq<string>)
    requires NamesSorted(s)
    ensures NamesSorted(r) && multiset(r) == multiset(s) + multiset{x}
    ensures r != [] && (r[0] == x || (s != [] && r[0] == s[0]))
  {
    if s == [] || NameLessEq(x, s[0]) then [x] + s
    else
      NameOrderTotal(x, s[0]);
      var tail := InsertName(x, s[1..]);
      assert s == [s[0]] + s[1..];
      [s[0]] + tail
  }

  /** sorted(Comparator.comparing(fileName)) */
  function SortNames(s: seq<string>): (r: seq<string>)
    ensures NamesSorted(r) && multiset(r) == multiset(s)
  {
    if s == [] then []
    else
      assert s == [s[0]] + s[1..];
      InsertName(s[0], SortNames(s[1..]))
  }

  function JsonNames(listing: seq<string>): (r: seq<string>)
    ensures forall n :: n in r <==> n in listing && Text.EndsWith(n, ".json")
  {
    if listing == [] then []
    else
      var rest := JsonNames(listing[1..]);
      assert forall n :: n in listing <==> n == listing[0] || n in listing[1..];
      if Text.EndsWith(listing[0], ".json") then [listing[0]] + rest else rest
  }

  /** The JSON result files of a directory, ordered by name. */
  function JsonFiles(dir: ReportDir): (r: seq<string>)
    ensures NamesSorted(r)
    ensures forall n :: n in r <==> n in dir.listing && Text.EndsWith(n, ".json")
  {
    var names := JsonNames(dir.listing);
    var r := SortNames(names);
    assert forall n :: n in r <==> n in multiset(r);
    assert forall n :: n in names <==> n in multiset(names);
    r
  }

  /** How many violations carry the given impact (a missing impact reads as ""). */
  function ImpactCount(impacts: seq<Option<string>>, level: string): (n: nat)
    ensures n <= |impacts|
  {
    if impacts == [] then 0
    else ImpactCount(impacts[..|impacts| - 1], level) + (if impacts[|impacts| - 1] == Some(level) then 1 else 0)
  }

  /** Each violation counts towards at most one impact level; unknown impacts towards none. */
  lemma {:induction false} ImpactCountsBounded(impacts: seq<Option<string>>)
    ensures ImpactCount(impacts, "critical") + ImpactCount(impacts, "serious")
            + ImpactCount(impacts, "moderate") + ImpactCount(impacts, "minor") <= |impacts|
  {
    if impacts != [] {
      ImpactCountsBounded(impacts[..|impacts| - 1]);
    }
  }

  /** The summary collectScans builds for one readable result file. */
  function Summary(dir: ReportDir, name: string, url: Option<string>, passes: Option<nat>,
                   impacts: Option<seq<Option<string>>>): (s: ScanSummary)
    ensures s.critical + s.serious + s.moderate + s.minor <= s.violations
  {
    var rawName := Text.ReplaceAll(name, ".json", "");
    var all := if impacts.Some? then impacts.value else [];
    ImpactCountsBounded(all);
    ScanSummary(
      BeautifyTitle(rawName), url.GetOr(""), passes.GetOr(0), |all|,
      ImpactCount(all, "critical"), ImpactCount(all, "serious"),
      ImpactCount(all, "moderate"), ImpactCount(all, "minor"),
      if rawName + ".html" in dir.listing then Some(rawName + ".html") else None)
  }

  /** The summary of one listed JSON file, or none when it cannot be read. */
  function FileSummary(dir: ReportDir, name: string): (r: Option<ScanSummary>)
    ensures r.None? <==> name !in dir.files || dir.files[name].Unreadable?
    ensures r.Some? ==> r.value.critical + r.value.serious + r.value.moderate + r.value.minor <= r.value.violations
  {
    var file := if name in dir.files then dir.files[name] else Unreadable;
    match file
    case Unreadable => None
    case AxeJson(url, passes, impacts) => Some(Summary(dir, name, url, passes, impacts))
  }

  /** The summaries of the readable files among names, in order. */
  function Summaries(dir: ReportDir, names: seq<string>): seq<ScanSummary> {
    if names == [] then []
    else
      var previous := Summaries(dir, names[..|names| - 1]);
      var file := FileSummary(dir, names[|names| - 1]);
      if file.Some? then previous + [file.value] else previous
  }

  /** No summary counts more impacts than it has violations. */
  lemma {:induction false} SummariesConsistent(dir: ReportDir, names: seq<string>)
    ensures forall s :: s in Summaries(dir, names) ==> s.critical + s.serious + s.moderate + s.minor <= s.violations
  {
    if names != [] {
      SummariesConsistent(dir, names[..|names| - 1]);
    }
  }

  /** A scan links a detail page only when the page of the same base name exists. */
  lemma {:induction false} HtmlFileOnlyWhenPresent(dir: ReportDir, names: seq<string>)
    ensures forall s :: s in Summaries(dir, names) && s.htmlFile.Some? ==>
              s.htmlFile.value in dir.listing && Text.EndsWith(s.htmlFile.value, ".html")
  {
    if names != [] {
      HtmlFileOnlyWhenPresent(dir, names[..|names| - 1]);
    }
  }

  /** Counts the impacts of one result file, violation by violation. */
  method CountImpacts(impacts: seq<Option<string>>) returns (critical: nat, serious: nat, moderate: nat, minor: nat)
    ensures critical == ImpactCount(impacts, "critical") && serious == ImpactCount(impacts, "serious")
    ensures moderate == ImpactCount(impacts, "moderate") && minor == ImpactCount(impacts, "minor")
  {
    critical, serious, moderate, minor := 0, 0, 0, 0;
    var i := 0;
    while i < |impacts|
      invariant 0 <= i <= |impacts|
      invariant critical == ImpactCount(impacts[..i], "critical") && serious == ImpactCount(impacts[..i], "serious")
      invariant moderate == ImpactCount(impacts[..i], "moderate") && minor == ImpactCount(impacts[..i], "minor")
    {
      assert impacts[..i + 1][..i] == impacts[..i];
      var impact := impacts[i].GetOr("");
      if impact == "critical" {
        critical := critical + 1;
      } else if impact == "serious" {
        serious := serious + 1;
      } else if impact == "moderate" {
        moderate := moderate + 1;
      } else if impact == "minor" {
        minor := minor + 1;
      }
      i := i + 1;
    }
    assert impacts[..i] == impacts;
  }

  /** Reads one result file: the loop body of collectScans. */
  method SummarizeFile(dir: ReportDir, name: string) returns (r: Option<ScanSummary>)
    ensures r == FileSummary(dir, name)
  {
    var file := if name in dir.files then dir.files[name] else Unreadable;
    if file.Unreadable? {
      return None;
    }
    var rawName := Text.ReplaceAll(name, ".json", "");
    var impacts := if file.impacts.Some? then file.impacts.value else [];
    var critical, serious, moderate, minor := CountImpacts(impacts);
    var htmlName := rawName + ".html";
    var htmlFile := None;
    if htmlName in dir.listing {
      htmlFile := Some(htmlName);
    }
    r := Some(ScanSummary(BeautifyTitle(rawName), file.url.GetOr(""), file.passes.GetOr(0), |impacts|,
                          critical, serious, moderate, minor, htmlFile));
  }

  lemma SummariesExtend(dir: ReportDir, names: seq<string>, i: nat)
    requires i < |names|
    ensures Summaries(dir, names[..i + 1]) ==
            Summaries(dir, names[..i]) + (if FileSummary(dir, names[i]).Some? then [FileSummary(dir, names[i]).value] else [])
  {
    assert names[..i + 1][..i] == names[..i];
  }

  /** collectScans: one summary per readable JSON file, in file-name order. */
  method CollectScans(dir: ReportDir) returns (scans: seq<ScanSummary>)
    ensures scans == Summaries(dir, JsonFiles(dir))
  {
    var jsonFiles := JsonFiles(dir);
    scans := [];
    var i := 0;
    while i < |jsonFiles|
      invariant 0 <= i <= |jsonFiles|
      invariant scans == Summaries(dir, jsonFiles[..i])
    {
      SummariesExtend(dir, jsonFiles, i);
      var s := SummarizeFile(dir, jsonFiles[i]);
      if s.Some? {
        scans := scans + [s.value];
      }
      i := i + 1;
    }
    assert jsonFiles[..i] == jsonFiles;
  }

  // ---------------------------------------------------------------- generateIndexHtml

  datatype Totals = Totals(violations: nat, passes: nat, critical: nat, serious: nat, moderate: nat, minor: nat)

  /** The sums over all scans shown at the top of the overview. */
  function SumTotals(scans: seq<ScanSummary>): (t: Totals)
    ensures scans == [] ==> t == Totals(0, 0, 0, 0, 0, 0)
  {
    if scans == [] then Totals(0, 0, 0, 0, 0, 0)
    else
      var t := SumTotals(scans[..|scans| - 1]);
      var s := scans[|scans| - 1];
      Totals(t.violations + s.violations, t.passes + s.passes, t.critical + s.critical,
             t.serious + s.serious, t.moderate + s.moderate, t.minor + s.minor)
  }

  /** The overview's impact totals never exceed its violation total. */
  lemma {:induction false} TotalsBounded(scans: seq<ScanSummary>)
    requires forall s :: s in scans ==> s.critical + s.serious + s.moderate + s.minor <= s.violations
    ensures SumTotals(scans).critical + SumTotals(scans).serious + SumTotals(scans).moderate
            + SumTotals(scans).minor <= SumTotals(scans).violations
  {
    if scans != [] {
      assert forall s :: s in scans[..|scans| - 1] ==> s in scans;
      TotalsBounded(scans[..|scans| - 1]);
    }
  }

  /** The totals of a directory's overview are bounded the same way. */
  lemma IndexTotalsBounded(dir: ReportDir)
    ensures var t := SumTotals(Summaries(dir, JsonFiles(dir)));
            t.critical + t.serious + t.moderate + t.minor <= t.violations
  {
    SummariesConsistent(dir, JsonFiles(dir));
    TotalsBounded(Summaries(dir, JsonFiles(dir)));
  }

  datatype Badge = Badge(cssClass: string, caption: string)

  /** The status badge of one scan. */
  function ScanBadge(scan: ScanSummary): (b: Badge)
    ensures b.cssClass == "success" <==> scan.violations == 0
    ensures b.cssClass == "danger" <==> scan.violations != 0 && scan.critical > 0
    ensures b.cssClass == "warning" <==> scan.violations != 0 && scan.critical == 0
    ensures b.cssClass == "success" <==> b.caption == "Bestanden"
    ensures b.cssClass == "danger" <==> b.caption == "Kritisch"
    ensures b.cssClass == "warning" <==> b.caption == "Auffällig"
  {
    if scan.violations == 0 then Badge("success", "Bestanden")
    else if scan.critical > 0 then Badge("danger", "Kritisch")
    else Badge("warning", "Auffällig")
  }
}
