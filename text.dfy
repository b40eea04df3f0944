/**
 * The java.lang.String operations the modelled code relies on, over seq<char>.
 * Case conversion covers ASCII letters only (see README, "Left out").
 */
module Text {

  predicate StartsWith(s: string, prefix: string) {
    |prefix| <= |s| && s[..|prefix|] == prefix
  }

  predicate EndsWith(s: string, suffix: string) {
    |suffix| <= |s| && s[|s| - |suffix|..] == suffix
  }

  /** Character.isWhitespace: the Unicode space, line and paragraph separators
      except the no-break spaces, plus the ASCII controls U+0009..U+000D and U+001C..U+001F. */
  predicate IsWhitespace(c: char) {
    || ('\U{9}' <= c <= '\U{D}')
    || ('\U{1C}' <= c <= '\U{20}')
    || c == '\U{1680}'
    || ('\U{2000}' <= c <= '\U{2006}')
    || ('\U{2008}' <= c <= '\U{200A}')
    || c == '\U{2028}' || c == '\U{2029}' || c == '\U{205F}' || c == '\U{3000}'
  }

  /** String.isBlank: empty or whitespace only. */
  predicate IsBlank(s: string) {
    forall i :: 0 <= i < |s| ==> IsWhitespace(s[i])
  }

  /** leading part of String.trim: drops characters up to U+0020 at the start */
  function TrimStart(s: string): (r: string)
    ensures |r| <= |s| && r == s[|s| - |r|..]
    ensures r == [] || r[0] > ' '
  {
    if s != [] && s[0] <= ' ' then TrimStart(s[1..]) else s
  }

  /** trailing part of String.trim: drops characters up to U+0020 at the end */
  function TrimEnd(s: string): (r: string)
    ensures |r| <= |s| && r == s[..|r|]
    ensures r == [] || r[|r| - 1] > ' '
  {
    if s != [] && s[|s| - 1] <= ' ' then TrimEnd(s[..|s| - 1]) else s
  }

  /** A string String.trim leaves unchanged. */
  predicate IsTrimmed(s: string) {
    s == [] || (s[0] > ' ' && s[|s| - 1] > ' ')
  }

  /** String.trim */
  function Trim(s: string): (r: string)
    ensures IsTrimmed(r)
    ensures |r| <= |s|
    ensures forall d :: d in r ==> d in s
  {
    var t := TrimStart(s);
    var r := TrimEnd(t);
    assert r != [] ==> r[0] == t[0];
    SliceMembers(s, |s| - |t|, |s|);
    SliceMembers(t, 0, |r|);
    r
  }

  /** Every character of a slice is a character of the whole string. */
  lemma SliceMembers(s: string, i: nat, j: nat)
    requires i <= j <= |s|
    ensures forall d :: d in s[i..j] ==> d in s
  {
    forall d | d in s[i..j] ensures d in s {
      var k :| 0 <= k < j - i && s[i..j][k] == d;
      assert s[i + k] == d;
    }
  }

  lemma TrimOfTrimmed(s: string)
    requires IsTrimmed(s)
    ensures Trim(s) == s
  {
  }

  /** Trimming twice is trimming once. */
  lemma TrimIdempotent(s: string)
    ensures Trim(Trim(s)) == Trim(s)
  {
    TrimOfTrimmed(Trim(s));
  }

  /** Leading trimming stops at the first character above U+0020, so it never reaches past it. */
  lemma {:induction false} TrimStartAppend(x: string, y: string)
    requires y != [] && y[0] > ' '
    ensures TrimStart(x + y) == TrimStart(x) + y
  {
    if x != [] {
      assert (x + y)[0] == x[0];
      if x[0] <= ' ' {
        assert (x + y)[1..] == x[1..] + y;
        TrimStartAppend(x[1..], y);
      }
    } else {
      assert x + y == y;
    }
  }

  /** Trailing trimming stops at the last character above U+0020, so it never reaches before it. */
  lemma {:induction false} TrimEndAppend(x: string, y: string)
    requires x != [] && x[|x| - 1] > ' '
    ensures TrimEnd(x + y) == x + TrimEnd(y)
    decreases |y|
  {
    if y == [] {
      assert x + y == x;
    } else {
      var n := |x + y|;
      assert (x + y)[n - 1] == y[|y| - 1];
      if y[|y| - 1] <= ' ' {
        assert (x + y)[..n - 1] == x + y[..|y| - 1];
        TrimEndAppend(x, y[..|y| - 1]);
      }
    }
  }

  /** Text in front of a string that does not trim away entirely is kept by trailing trimming. */
  lemma {:induction false} TrimEndPrefix(p: string, t: string)
    requires TrimEnd(t) != []
    ensures TrimEnd(p + t) == p + TrimEnd(t)
    decreases |t|
  {
    var n := |p + t|;
    assert (p + t)[n - 1] == t[|t| - 1];
    if t[|t| - 1] <= ' ' {
      assert (p + t)[..n - 1] == p + t[..|t| - 1];
      TrimEndPrefix(p, t[..|t| - 1]);
    }
  }

  lemma ConcatAssoc(a: string, b: string, c: string)
    ensures a + (b + c) == a + b + c
  {
  }

  lemma TrimStartBefore(front: string, middle: string, tail: string)
    requires middle != [] && middle[0] > ' '
    ensures TrimStart(front + middle + tail) == TrimStart(front) + middle + tail
  {
    var rest := middle + tail;
    assert rest[0] == middle[0];
    ConcatAssoc(front, middle, tail);
    TrimStartAppend(front, rest);
    ConcatAssoc(TrimStart(front), middle, tail);
  }

  lemma TrimEndAfter(front: string, middle: string, tail: string)
    requires middle != [] && middle[|middle| - 1] > ' '
    ensures TrimEnd(front + middle + tail) == front + middle + TrimEnd(tail)
  {
    var x := front + middle;
    assert x[|x| - 1] == middle[|middle| - 1];
    TrimEndAppend(x, tail);
  }

  /** Trimming around a middle part that starts and ends above U+0020 leaves that part whole. */
  lemma TrimAround(front: string, middle: string, tail: string)
    requires middle != [] && middle[0] > ' ' && middle[|middle| - 1] > ' '
    ensures Trim(front + middle + tail) == TrimStart(front) + middle + TrimEnd(tail)
  {
    TrimStartBefore(front, middle, tail);
    TrimEndAfter(TrimStart(front), middle, tail);
  }

  /** Character.toLowerCase on ASCII letters. */
  function LowerChar(c: char): char {
    if 'A' <= c <= 'Z' then (c as int + 32) as char else c
  }

  /** Character.toUpperCase on ASCII letters. */
  function UpperChar(c: char): char {
    if 'a' <= c <= 'z' then (c as int - 32) as char else c
  }

  function ToLower(s: string): (r: string)
    ensures |r| == |s| && forall i :: 0 <= i < |s| ==> r[i] == LowerChar(s[i])
    ensures forall i :: 0 <= i < |r| ==> !('A' <= r[i] <= 'Z')
  {
    if s == [] then [] else [LowerChar(s[0])] + ToLower(s[1..])
  }

  function ToUpper(s: string): (r: string)
    ensures |r| == |s| && forall i :: 0 <= i < |s| ==> r[i] == UpperChar(s[i])
  {
    if s == [] then [] else [UpperChar(s[0])] + ToUpper(s[1..])
  }

  /** String.equalsIgnoreCase: same length, and each pair of characters equal after case folding. */
  predicate EqualsIgnoreCase(a: string, b: string) {
    |a| == |b| && forall i :: 0 <= i < |a| ==> LowerChar(UpperChar(a[i])) == LowerChar(UpperChar(b[i]))
  }

  /** String.replace with a one-character target: every c becomes rep. */
  function ReplaceChar(s: string, c: char, rep: string): (r: string)
    ensures rep == [] ==> c !in r
    ensures c !in rep ==> c !in r
    ensures forall d :: d in r ==> d in s || d in rep
    ensures forall d :: d in s && d != c ==> d in r
  {
    if s == [] then []
    else (if s[0] == c then rep else [s[0]]) + ReplaceChar(s[1..], c, rep)
  }

  /** Replacing a character the string does not contain changes nothing. */
  lemma {:induction false} ReplaceCharAbsent(s: string, c: char, rep: string)
    requires c !in s
    ensures ReplaceChar(s, c, rep) == s
  {
    if s != [] {
      assert s[1..] + [] == s[1..];
      assert c !in s[1..] by {
        forall d | d in s[1..] ensures d != c {
          assert d in s;
        }
      }
      ReplaceCharAbsent(s[1..], c, rep);
    }
  }

  lemma ReplaceCharSingle(ch: char, c: char, rep: string)
    ensures ReplaceChar([ch], c, rep) == if ch == c then rep else [ch]
  {
    assert [ch][1..] == [];
  }

  /** Replacement works character by character, so it distributes over concatenation. */
  lemma {:induction false} ReplaceCharAppend(a: string, b: string, c: char, rep: string)
    ensures ReplaceChar(a + b, c, rep) == ReplaceChar(a, c, rep) + ReplaceChar(b, c, rep)
  {
    if a != [] {
      assert (a + b)[1..] == a[1..] + b;
      ReplaceCharAppend(a[1..], b, c, rep);
    } else {
      assert a + b == b;
    }
  }

  /** String.replace with a non-empty target: occurrences are replaced left to right without overlap. */
  function ReplaceAll(s: string, target: string, rep: string): (r: string)
    requires target != []
    ensures forall d :: d in r ==> d in s || d in rep
    decreases |s|
  {
    if |s| < |target| then s
    else if s[..|target|] == target then rep + ReplaceAll(s[|target|..], target, rep)
    else [s[0]] + ReplaceAll(s[1..], target, rep)
  }

  /** String.join */
  function Join(parts: seq<string>, sep: string): (r: string)
    ensures parts == [] ==> r == []
    ensures |parts| == 1 ==> r == parts[0]
  {
    if parts == [] then []
    else if |parts| == 1 then parts[0]
    else parts[0] + sep + Join(parts[1..], sep)
  }

  /** Decimal text of an integer, as Java's string conversion writes it. */
  function IntToString(n: int): (r: string)
    ensures r != []
  {
    if n < 0 then "-" + NatToString(-n) else NatToString(n)
  }

  function NatToString(n: nat): (r: string)
    ensures r != []
    ensures forall i :: 0 <= i < |r| ==> '0' <= r[i] <= '9'
    decreases n
  {
    var d := ['0' + (n % 10) as char];
    if n < 10 then d else NatToString(n / 10) + d
  }
}
