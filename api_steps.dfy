/**
 * The pure helpers of the API step definitions: the one-line shortening `kurz` and the
 * XML-versus-API comparison table attached to the report. The HTTP, PDF and XML steps are not modelled.
 */
module ApiSteps {
  import opened Wrappers
  import Text

  const NULL_TEXT := "null"
  const ELLIPSIS := '…'
  const RETURN_SYMBOL := "↵"
  const DEFAULT_MAX_LEN := 40
  const TABLE_MAX_LEN := 55
  const OK_MARK := "✓"
  const ERROR_MARK := "✗ FEHLER"

  /** wert.replace("\n", "↵").replace("\r", "") */
  function SingleLine(s: string): (r: string)
    ensures '\n' !in r && '\r' !in r
  {
    var noNewline := Text.ReplaceChar(s, '\n', RETURN_SYMBOL);
    Text.ReplaceChar(noNewline, '\r', "")
  }

  /**
   * kurz(wert, maxLen): "null" for null; otherwise the single-line text, cut to maxLen - 1
   * characters plus an ellipsis when it is longer than maxLen. substring throws when maxLen < 1
   * and the text is too long.
   */
  function Kurz(wert: Option<string>, maxLen: int): (r: Result<string>)
    ensures wert.None? ==> r == Ok(NULL_TEXT)
    ensures r.Err? <==> wert.Some? && |SingleLine(wert.value)| > maxLen && maxLen < 1
    ensures r.Ok? ==> '\n' !in r.value && '\r' !in r.value
    ensures wert.Some? && maxLen >= 1 ==> r.Ok? && |r.value| <= maxLen
    ensures wert.Some? && |SingleLine(wert.value)| <= maxLen ==> r == Ok(SingleLine(wert.value))
    ensures wert.Some? && |SingleLine(wert.value)| > maxLen && r.Ok? ==>
              |r.value| == maxLen && r.value[|r.value| - 1] == ELLIPSIS &&
              r.value[..maxLen - 1] == SingleLine(wert.value)[..maxLen - 1]
  {
    match wert
    case None => Ok(NULL_TEXT)
    case Some(w) =>
      var line := SingleLine(w);
      if |line| > maxLen then
        if maxLen - 1 < 0 then Err(IndexOutOfBounds)
        else
          var cut := line[..maxLen - 1] + [ELLIPSIS];
          assert forall i :: 0 <= i < |cut| ==> cut[i] in line || cut[i] == ELLIPSIS;
          Ok(cut)
      else Ok(line)
  }

  /** kurz(wert): the 40-character form used in the step titles. */
  function KurzDefault(wert: Option<string>): (r: string)
    ensures Kurz(wert, DEFAULT_MAX_LEN) == Ok(r)
    ensures |r| <= DEFAULT_MAX_LEN
  {
    Kurz(wert, DEFAULT_MAX_LEN).value
  }

  /** One field: its XML value and its API value (the API's JSON may lack the field). */
  datatype Comparison = Comparison(field: string, xmlValue: string, apiValue: Option<string>)

  /** The last column: a tick exactly when the two values are equal, else "✗ FEHLER". */
  function Mark(c: Comparison): (r: string)
    ensures r == OK_MARK <==> c.apiValue == Some(c.xmlValue)
    ensures r == ERROR_MARK <==> c.apiValue != Some(c.xmlValue)
  {
    if c.apiValue == Some(c.xmlValue) then OK_MARK else ERROR_MARK
  }

  /** %-Ns: left-justified in a field of at least n characters. */
  function PadRight(s: string, n: int): (r: string)
    ensures |r| >= n && |r| >= |s| && r[..|s|] == s
    ensures |r| == if n > |s| then n else |s|
    ensures forall i :: |s| <= i < |r| ==> r[i] == ' '
    decreases n - |s|
  {
    if |s| >= n then s
    else
      var r := PadRight(s + " ", n);
      assert r[..|s|] == r[..|s| + 1][..|s|];
      r
  }

  /** String.format("%-10s | %-55s | %-55s | %s%n", ...) with %n as "\n". */
  function Width(s: string, n: nat): nat {
    if n > |s| then n else |s|
  }

  /** Four columns padded to at least 10, 55 and 55 characters, separated by " | ", then a newline. */
  function Line(a: string, b: string, c: string, d: string): (r: string)
    ensures |r| == Width(a, 10) + 3 + Width(b, 55) + 3 + Width(c, 55) + 3 + |d| + 1
    ensures Text.StartsWith(r, a) && Text.EndsWith(r, " | " + d + "\n")
    ensures r[Width(a, 10)..Width(a, 10) + 3] == " | "
    ensures r[Width(a, 10) + 3..Width(a, 10) + 3 + |b|] == b
  {
    LineLayout(PadRight(a, 10), PadRight(b, 55), PadRight(c, 55), " | " + d + "\n", a, b);
    PadRight(a, 10) + " | " + PadRight(b, 55) + " | " + PadRight(c, 55) + (" | " + d + "\n")
  }

  /** Where the first two columns and the end of a line sit, whatever the padded texts are. */
  lemma LineLayout(pa: string, pb: string, pc: string, tail: string, a: string, b: string)
    requires |a| <= |pa| && pa[..|a|] == a && |b| <= |pb| && pb[..|b|] == b
    ensures var r := pa + " | " + pb + " | " + pc + tail;
            Text.StartsWith(r, a) && Text.EndsWith(r, tail) &&
            r[|pa|..|pa| + 3] == " | " && r[|pa| + 3..|pa| + 3 + |b|] == b
  {
    var front := pa + " | " + pb;
    assert front[..|pa|] == pa && front[|pa|..|pa| + 3] == " | " && front[|pa| + 3..|pa| + 3 + |b|] == b;
    var r := front + " | " + pc + tail;
    assert r[..|front|] == front;
  }

  function Dashes(n: nat): (r: string)
    ensures |r| == n && forall i :: 0 <= i < n ==> r[i] == '-'
  {
    if n == 0 then [] else Dashes(n - 1) + "-"
  }

  /** The column titles, a newline, then 135 dashes and a newline. */
  function Header(): (r: string)
    ensures |r| == 133 + 136 && r[132] == '\n' && r[|r| - 1] == '\n'
    ensures Text.StartsWith(r, "Feld") && forall i :: 133 <= i < 268 ==> r[i] == '-'
  {
    var title := Line("Feld", "XML-Wert", "API-Wert", "OK?");
    assert |title| == 133;
    title + Dashes(135) + "\n"
  }

  /** Values are shortened to the column width, so only a long field name widens a row. */
  function Row(c: Comparison): (r: string)
    ensures |r| == Width(c.field, 10) + 3 + 55 + 3 + 55 + 3 + |Mark(c)| + 1
    ensures Text.StartsWith(r, c.field) && Text.EndsWith(r, " | " + Mark(c) + "\n")
  {
    Line(c.field, Kurz(Some(c.xmlValue), TABLE_MAX_LEN).value, Kurz(c.apiValue, TABLE_MAX_LEN).value, Mark(c))
  }

  /** The rows of the table in the map's iteration order. */
  function Rows(entries: seq<Comparison>): (r: string)
    ensures r == [] <==> entries == []
    ensures r != [] ==> r[|r| - 1] == '\n'
  {
    if entries == [] then [] else Rows(entries[..|entries| - 1]) + Row(entries[|entries| - 1])
  }

  lemma RowsUnfold(entries: seq<Comparison>)
    requires entries != []
    ensures Rows(entries) == Rows(entries[..|entries| - 1]) + Row(entries[|entries| - 1])
  {
  }

  /** The rows of two runs of entries are the two runs' rows, one after the other. */
  lemma {:induction false} RowsAppend(a: seq<Comparison>, b: seq<Comparison>)
    ensures Rows(a + b) == Rows(a) + Rows(b)
    decreases |b|
  {
    if b == [] {
      assert a + b == a;
    } else {
      var front, last := b[..|b| - 1], b[|b| - 1];
      var ab := a + b;
      assert ab[..|ab| - 1] == a + front && ab[|ab| - 1] == last;
      RowsUnfold(ab);
      RowsUnfold(b);
      RowsAppend(a, front);
      Text.ConcatAssoc(Rows(a), Rows(front), Row(last));
    }
  }

  /** A row ends with a tick exactly when its two values are equal. */
  lemma {:induction false} RowMarksEquality(c: Comparison)
    ensures Text.EndsWith(Row(c), OK_MARK + "\n") <==> c.apiValue == Some(c.xmlValue)
  {
    var prefix := PadRight(c.field, 10) + " | " + PadRight(Kurz(Some(c.xmlValue), TABLE_MAX_LEN).value, 55)
      + " | " + PadRight(Kurz(c.apiValue, TABLE_MAX_LEN).value, 55) + " | ";
    assert Row(c) == prefix + Mark(c) + "\n";
    if c.apiValue != Some(c.xmlValue) {
      var r := Row(c);
      assert r[|r| - 2] == 'R';
    }
  }

  /** vergleichstabelle: header, a line of dashes, then one row per entry. */
  method Vergleichstabelle(entries: seq<Comparison>) returns (table: string)
    ensures table == Header() + Rows(entries)
  {
    var header := Header();
    var rows := AppendRows(entries);
    table := header + rows;
  }

  /** The loop of vergleichstabelle: one formatted row per entry, appended in order. */
  method AppendRows(entries: seq<Comparison>) returns (rows: string)
    ensures rows == Rows(entries)
  {
    rows := [];
    var i := 0;
    while i < |entries|
      invariant 0 <= i <= |entries|
      invariant rows == Rows(entries[..i])
    {
      RowsExtend(entries, i);
      rows := rows + Row(entries[i]);
      i := i + 1;
    }
    assert entries[..i] == entries;
  }

  lemma RowsExtend(entries: seq<Comparison>, i: nat)
    requires i < |entries|
    ensures Rows(entries[..i + 1]) == Rows(entries[..i]) + Row(entries[i])
  {
    assert entries[..i + 1][..i] == entries[..i];
  }
}
