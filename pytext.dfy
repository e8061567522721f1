/**
 * The Python string operations the bot relies on: `str.strip()`, the lower-casing in the
 * alias test, `"\n".join(lines)`, and `split("\n")` as the inverse of that join.
 */
module PyText {

  /**
   * The characters `str.strip()` removes when called without arguments (those for which
   * `str.isspace()` holds): ASCII tab to carriage return, the four information separators,
   * space, NEL, no-break space, and the Unicode space and line/paragraph separators.
   */
  predicate IsSpace(c: char) {
    ('\t' <= c <= '\r') || ('\U{1C}' <= c <= ' ') || c == '\U{85}' || c == '\U{A0}'
    || c == '\U{1680}' || ('\U{2000}' <= c <= '\U{200A}') || c == '\U{2028}' || c == '\U{2029}'
    || c == '\U{202F}' || c == '\U{205F}' || c == '\U{3000}'
  }

  /** The number of leading whitespace characters of `s`. */
  function LeadingSpaces(s: string): (n: nat)
    ensures n <= |s|
    ensures forall k :: 0 <= k < n ==> IsSpace(s[k])
    ensures n < |s| ==> !IsSpace(s[n])
  {
    if s == [] || !IsSpace(s[0]) then 0 else 1 + LeadingSpaces(s[1..])
  }

  /** The length of `s` without its trailing whitespace. */
  function WithoutTrailingSpaces(s: string): (n: nat)
    ensures n <= |s|
    ensures forall k :: n <= k < |s| ==> IsSpace(s[k])
    ensures 0 < n ==> !IsSpace(s[n - 1])
  {
    if s == [] || !IsSpace(s[|s| - 1]) then |s| else WithoutTrailingSpaces(s[..|s| - 1])
  }

  /**
   * `s.strip()`: the part of `s` between its leading and its trailing whitespace (both
   * runs are whitespace, by the contracts of the two helpers above). It is empty exactly
   * when `s` is all whitespace, and otherwise starts and ends with a character that is
   * not whitespace.
   */
  function Strip(s: string): (r: string)
    ensures r == [] <==> forall k :: 0 <= k < |s| ==> IsSpace(s[k])
    ensures r != [] ==> !IsSpace(r[0]) && !IsSpace(r[|r| - 1])
  {
    var e := WithoutTrailingSpaces(s);
    var b := LeadingSpaces(s[..e]);
    assert s[..e][b..] == s[b..e];
    s[b..e]
  }

  /**
   * `s.strip()` is `s` with a run of leading and a run of trailing whitespace removed:
   * a slice of `s` whose surroundings are all whitespace.
   */
  lemma StripRemovesEnds(s: string)
    ensures exists b, e :: 0 <= b <= e <= |s| && Strip(s) == s[b..e]
                           && (forall k :: 0 <= k < b ==> IsSpace(s[k]))
                           && (forall k :: e <= k < |s| ==> IsSpace(s[k]))
  {
    var e := WithoutTrailingSpaces(s);
    var b := LeadingSpaces(s[..e]);
    assert s[..e][b..] == s[b..e];
    assert Strip(s) == s[b..e];
    assert forall k :: 0 <= k < b ==> IsSpace(s[..e][k]);
  }

  /** ASCII lower-casing of one character. */
  function LowerChar(c: char): char {
    if 'A' <= c <= 'Z' then (c as int + 32) as char else c
  }

  /**
   * `s.lower()`, restricted to ASCII. The only use is the comparison with "1win", and no
   * character outside ASCII lower-cases to a single '1', 'w', 'i' or 'n', so the
   * comparison comes out as it does in Python.
   */
  function Lower(s: string): (r: string)
    ensures |r| == |s|
  {
    seq(|s|, i requires 0 <= i < |s| => LowerChar(s[i]))
  }

  /** `"\n".join(lines)`. */
  function JoinLines(lines: seq<string>): string {
    if lines == [] then ""
    else if |lines| == 1 then lines[0]
    else lines[0] + "\n" + JoinLines(lines[1..])
  }

  /** Joining one more line puts a newline between the old text and the new line. */
  lemma {:induction false} JoinAppend(lines: seq<string>, last: string)
    requires lines != []
    ensures JoinLines(lines + [last]) == JoinLines(lines) + "\n" + last
  {
    if |lines| > 1 {
      JoinAppend(lines[1..], last);
      assert (lines + [last])[1..] == lines[1..] + [last];
    }
  }

  /** `s.split("\n")`: the pieces of `s` between its newlines; always at least one piece. */
  function SplitLines(s: string): (r: seq<string>)
    ensures |r| >= 1
  {
    if s == [] then [""]
    else
      var rest := SplitLines(s[1..]);
      if s[0] == '\n' then [""] + rest else [[s[0]] + rest[0]] + rest[1..]
  }

  /** A text without a newline splits into itself alone. */
  lemma {:induction false} SplitNoNewline(a: string)
    requires '\n' !in a
    ensures SplitLines(a) == [a]
  {
    if a != [] {
      SplitNoNewline(a[1..]);
      assert [a[0]] + a[1..] == a;
    }
  }

  /** A newline after a newline-free prefix ends the first piece of the split. */
  lemma {:induction false} SplitAtNewline(a: string, b: string)
    requires '\n' !in a
    ensures SplitLines(a + "\n" + b) == [a] + SplitLines(b)
  {
    if a == [] {
      assert a + "\n" + b == "\n" + b;
      assert ("\n" + b)[1..] == b;
    } else {
      SplitAtNewline(a[1..], b);
      assert (a + "\n" + b)[1..] == a[1..] + "\n" + b;
      assert [a[0]] + a[1..] == a;
    }
  }

  /** Splitting undoes joining, as long as no line holds a newline and there is a line. */
  lemma {:induction false} SplitJoin(lines: seq<string>)
    requires lines != []
    requires forall i :: 0 <= i < |lines| ==> '\n' !in lines[i]
    ensures SplitLines(JoinLines(lines)) == lines
  {
    if |lines| == 1 {
      SplitNoNewline(lines[0]);
    } else {
      SplitJoin(lines[1..]);
      SplitAtNewline(lines[0], JoinLines(lines[1..]));
    }
  }
}
