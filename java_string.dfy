/**
 * The java.lang.String operations the chat server and client rely on,
 * stated over `seq<char>`. Case mapping covers ASCII letters only.
 */
module JavaString {

  /** `s.startsWith(p)` */
  predicate StartsWith(s: string, p: string)
  {
    |p| <= |s| && s[..|p|] == p
  }

  /** `Character.isWhitespace(c)`: the ASCII controls and the Unicode separators it accepts. */
  predicate IsWhitespace(c: char)
  {
    || c == ' ' || c == '\t' || c == '\n' || c == '\U{B}' || c == '\U{C}' || c == '\r'
    || ('\U{1C}' <= c <= '\U{1F}')
    || c == '\U{1680}' || ('\U{2000}' <= c <= '\U{2006}') || ('\U{2008}' <= c <= '\U{200A}')
    || c == '\U{2028}' || c == '\U{2029}' || c == '\U{205F}' || c == '\U{3000}'
  }

  /** `s.isBlank()`: empty, or white space only. */
  predicate IsBlank(s: string)
  {
    forall i :: 0 <= i < |s| ==> IsWhitespace(s[i])
  }

  function LowerChar(c: char): char
  {
    if 'A' <= c <= 'Z' then (c as int + 32) as char else c
  }

  function UpperChar(c: char): char
  {
    if 'a' <= c <= 'z' then (c as int - 32) as char else c
  }

  /** `s.toLowerCase()` */
  function Lower(s: string): (r: string)
    ensures |r| == |s|
    ensures forall i :: 0 <= i < |s| ==> r[i] == LowerChar(s[i])
  {
    if s == [] then [] else [LowerChar(s[0])] + Lower(s[1..])
  }

  /** `s.toUpperCase()` */
  function Upper(s: string): (r: string)
    ensures |r| == |s|
    ensures forall i :: 0 <= i < |s| ==> r[i] == UpperChar(s[i])
  {
    if s == [] then [] else [UpperChar(s[0])] + Upper(s[1..])
  }

  /** `s.indexOf(c, from)`: the first position at or after `from` holding `c`, or -1. */
  function IndexOf(s: string, c: char, from: nat): (r: int)
    ensures r == -1 || (from <= r < |s| && s[r] == c)
    ensures r == -1 ==> forall i :: from <= i < |s| ==> s[i] != c
    ensures r != -1 ==> forall i :: from <= i < r ==> s[i] != c
    decreases |s| - from
  {
    if from >= |s| then -1
    else if s[from] == c then from
    else IndexOf(s, c, from + 1)
  }

  /** The pieces of `s` between successive spaces: one more piece than there are spaces. */
  function SplitAll(s: string): (r: seq<string>)
    ensures |r| >= 1
    ensures forall k :: 0 <= k < |r| ==> ' ' !in r[k]
    decreases |s|
  {
    var i := IndexOf(s, ' ', 0);
    if i < 0 then [s]
    else
      assert forall j :: 0 <= j < i ==> s[..i][j] != ' ';
      [s[..i]] + SplitAll(s[i + 1..])
  }

  /** What `split` with limit 0 does to its pieces: trailing empty strings are dropped. */
  function DropTrailingEmpty(ws: seq<string>): (r: seq<string>)
    ensures |r| <= |ws| && r == ws[..|r|]
    ensures r == [] || r[|r| - 1] != ""
    ensures forall k :: |r| <= k < |ws| ==> ws[k] == ""
  {
    if ws != [] && ws[|ws| - 1] == "" then DropTrailingEmpty(ws[..|ws| - 1]) else ws
  }

  /**
   * `s.split(" ")`: a string without a space is returned whole (even when empty);
   * otherwise the pieces between spaces, without trailing empty pieces.
   */
  function Split(s: string): (r: seq<string>)
    ensures forall k :: 0 <= k < |r| ==> ' ' !in r[k]
    ensures ' ' in s ==> r == [] || r[|r| - 1] != ""
  {
    if ' ' !in s then [s] else DropTrailingEmpty(SplitAll(s))
  }

  /** A string that does not start with a space splits into at least one piece. */
  lemma SplitNonEmpty(s: string)
    requires s != [] && s[0] != ' '
    ensures |Split(s)| >= 1
  {
    if ' ' in s {
      var i := IndexOf(s, ' ', 0);
      assert i >= 1;
      assert SplitAll(s)[0] == s[..i] != [];
    }
  }

  /** `String.join(sep, ws)` */
  function Join(sep: string, ws: seq<string>): string
  {
    if ws == [] then ""
    else if |ws| == 1 then ws[0]
    else ws[0] + sep + Join(sep, ws[1..])
  }

  /** `Boolean.parseBoolean(s)`: "true" in any letter case. */
  predicate ParseBoolean(s: string)
  {
    Lower(s) == "true"
  }

  /** `Integer.toString(n)` for a non-negative `n`. */
  function DecimalText(n: nat): (r: string)
    ensures |r| >= 1
    ensures forall i :: 0 <= i < |r| ==> '0' <= r[i] <= '9'
  {
    if n < 10 then [(n + 48) as char] else DecimalText(n / 10) + [(n % 10 + 48) as char]
  }

  /** `"" + i` for a Java `int` */
  function IntText(i: int): (r: string)
    ensures |r| >= 1 && (r[0] == '-' <==> i < 0)
  {
    if i < 0 then "-" + DecimalText(-i) else DecimalText(i)
  }

  /** The number a string of decimal digits denotes, most significant digit first. */
  function DigitsValue(t: string): int
  {
    if t == [] then 0 else DigitsValue(t[..|t| - 1]) * 10 + (t[|t| - 1] as int - 48)
  }

  /** The number a decimal text with an optional leading `-` denotes. */
  function SignedValue(t: string): int
  {
    if t != [] && t[0] == '-' then -DigitsValue(t[1..]) else DigitsValue(t)
  }

  /** `Integer.toString` denotes its argument, without a leading zero. */
  lemma {:induction false} DecimalTextValue(n: nat)
    ensures DigitsValue(DecimalText(n)) == n
    ensures n > 0 ==> DecimalText(n)[0] != '0'
    decreases n
  {
    if n >= 10 {
      var t := DecimalText(n);
      DecimalTextValue(n / 10);
      assert t[..|t| - 1] == DecimalText(n / 10);
      assert t[0] == DecimalText(n / 10)[0];
    }
  }

  /** The text of an `int` denotes it. */
  lemma IntTextValue(i: int)
    ensures SignedValue(IntText(i)) == i
  {
    if i < 0 {
      DecimalTextValue(-i);
      assert IntText(i)[1..] == DecimalText(-i);
    } else {
      DecimalTextValue(i);
    }
  }

  /** `parseBoolean` is true exactly for the four letters of "true", each in either case. */
  lemma ParseBooleanIff(s: string)
    ensures ParseBoolean(s) <==> |s| == 4 && forall i :: 0 <= i < 4 ==> LowerChar(s[i]) == "true"[i]
  {
    if |s| == 4 && forall i :: 0 <= i < 4 ==> LowerChar(s[i]) == "true"[i] {
      assert forall i :: 0 <= i < 4 ==> Lower(s)[i] == "true"[i];
      assert Lower(s) == "true";
    }
  }

  lemma ParseBooleanLiterals()
    ensures ParseBoolean("true") && ParseBoolean("TRUE") && ParseBoolean("True")
    ensures !ParseBoolean("false") && !ParseBoolean("")
  {
    assert Lower("TRUE") == "true";
    assert Lower("True") == "true";
  }

  /** Joining with a separator puts the separator right after the first piece. */
  lemma JoinCons(sep: string, a: string, ws: seq<string>)
    requires ws != []
    ensures Join(sep, [a] + ws) == a + sep + Join(sep, ws)
  {
    assert ([a] + ws)[1..] == ws;
  }

  /** Splitting on every space undoes joining with a space, given pieces without spaces. */
  lemma {:induction false} SplitAllJoin(ws: seq<string>)
    requires |ws| >= 1
    requires forall k :: 0 <= k < |ws| ==> ' ' !in ws[k]
    ensures SplitAll(Join(" ", ws)) == ws
  {
    if |ws| > 1 {
      var s := Join(" ", ws);
      var a := ws[0];
      assert s == a + " " + Join(" ", ws[1..]);
      assert s[|a|] == ' ';
      assert forall j :: 0 <= j < |a| ==> s[j] == a[j];
      assert IndexOf(s, ' ', 0) == |a|;
      assert s[..|a|] == a;
      assert s[|a| + 1..] == Join(" ", ws[1..]);
      SplitAllJoin(ws[1..]);
      assert [a] + ws[1..] == ws;
    }
  }

  /**
   * `split(" ")` undoes `String.join(" ", ws)` except that trailing empty pieces are lost,
   * given pieces without spaces and a non-empty first piece.
   */
  lemma SplitJoin(ws: seq<string>)
    requires |ws| >= 1 && ws[0] != ""
    requires forall k :: 0 <= k < |ws| ==> ' ' !in ws[k]
    ensures Split(Join(" ", ws)) == DropTrailingEmpty(ws)
  {
    SplitAllJoin(ws);
    if |ws| > 1 {
      JoinCons(" ", ws[0], ws[1..]);
      assert [ws[0]] + ws[1..] == ws;
      assert Join(" ", ws)[|ws[0]|] == ' ';
    }
  }

  /** Dropping trailing empty pieces only looks at the tail. */
  lemma {:induction false} DropTrailingEmptyCons(a: string, ws: seq<string>)
    requires a != ""
    ensures DropTrailingEmpty([a] + ws) == [a] + DropTrailingEmpty(ws)
    decreases |ws|
  {
    if ws != [] && ws[|ws| - 1] == "" {
      assert ([a] + ws)[..|[a] + ws| - 1] == [a] + ws[..|ws| - 1];
      DropTrailingEmptyCons(a, ws[..|ws| - 1]);
    }
  }
}
