/**
 * Splitting a payload into whitespace-separated tokens, as the daemon does
 * with `split_whitespace` (src/daemon.rs:119): the tokens are the maximal
 * runs of non-whitespace characters, in order.
 */
module Tokens {

  /** Rust's `char::is_whitespace`: the Unicode White_Space property. */
  predicate IsSpace(c: char) {
    var n := c as int;
    (0x09 <= n <= 0x0D) || n == 0x20 || n == 0x85 || n == 0xA0 || n == 0x1680 ||
    (0x2000 <= n <= 0x200A) || n == 0x2028 || n == 0x2029 || n == 0x202F ||
    n == 0x205F || n == 0x3000
  }

  /**
   * Among ASCII characters, whitespace is tab, line feed, vertical tab, form
   * feed, carriage return and space; the rest of the set lies beyond ASCII.
   */
  lemma AsciiSpaces(c: char)
    ensures c as int < 0x80 ==> (IsSpace(c) <==> (c in "\t\n\r " || c as int == 0x0B || c as int == 0x0C))
    ensures IsSpace(c) ==> c as int <= 0x3000
  {
  }

  /** Nothing but whitespace (possibly nothing at all). */
  predicate Blank(s: string) {
    forall i :: 0 <= i < |s| ==> IsSpace(s[i])
  }

  /** A non-empty run free of whitespace: what a token is. */
  predicate IsWord(s: string) {
    s != [] && forall i :: 0 <= i < |s| ==> !IsSpace(s[i])
  }

  /** Whether `y` begins at a token boundary: it is empty or starts with whitespace. */
  predicate AtBoundary(y: string) {
    y == [] || IsSpace(y[0])
  }

  /** The length of the run of non-whitespace characters that starts `s`. */
  function WordLength(s: string): (n: nat)
    ensures n <= |s|
    ensures forall i :: 0 <= i < n ==> !IsSpace(s[i])
    ensures AtBoundary(s[n..])
  {
    if s == [] || IsSpace(s[0]) then 0 else 1 + WordLength(s[1..])
  }

  /** The tokens of `s`, left to right. */
  function Split(s: string): (ts: seq<string>)
    ensures forall i :: 0 <= i < |ts| ==> IsWord(ts[i])
    decreases |s|
  {
    if s == [] then []
    else if IsSpace(s[0]) then Split(s[1..])
    else
      var n := WordLength(s);
      [s[..n]] + Split(s[n..])
  }

  /**
   * Builds a text from tokens and the whitespace gaps around them:
   * gaps[0] + ts[0] + gaps[1] + ... + ts[k-1] + gaps[k].
   */
  function Layout(gaps: seq<string>, ts: seq<string>): (s: string)
    requires |gaps| == |ts| + 1
    decreases ts
  {
    if ts == [] then gaps[0] else gaps[0] + ts[0] + Layout(gaps[1..], ts[1..])
  }

  /** Gaps that can separate tokens: all whitespace, and non-empty between two tokens. */
  predicate Separates(gaps: seq<string>, k: nat) {
    |gaps| == k + 1 &&
    (forall i :: 0 <= i < |gaps| ==> Blank(gaps[i])) &&
    (forall i :: 0 < i < k ==> gaps[i] != [])
  }

  /** A space in front starts a token boundary and does not change blankness. */
  lemma BlankAfterSpace(x: string)
    ensures AtBoundary(" " + x)
    ensures Blank(" " + x) <==> Blank(x)
  {
    assert forall i :: 0 <= i < |x| ==> (" " + x)[i + 1] == x[i];
  }

  /** Leading whitespace is skipped. */
  lemma {:induction false} SplitSkipsBlank(w: string, s: string)
    requires Blank(w)
    ensures Split(w + s) == Split(s)
  {
    if w == [] {
      assert w + s == s;
    } else {
      assert (w + s)[0] == w[0];
      assert (w + s)[1..] == w[1..] + s;
      SplitSkipsBlank(w[1..], s);
    }
  }

  /** A word followed by a boundary is exactly one token. */
  lemma {:induction false} WordLengthOfWord(t: string, y: string)
    requires IsWord(t) && AtBoundary(y)
    ensures WordLength(t + y) == |t|
    decreases |t|
  {
    if |t| == 1 {
      assert (t + y)[1..] == y;
    } else {
      assert (t + y)[1..] == t[1..] + y;
      WordLengthOfWord(t[1..], y);
    }
  }

  /** A whole word at the front becomes the first token; the rest is split on its own. */
  lemma SplitWordThen(t: string, y: string)
    requires IsWord(t) && AtBoundary(y)
    ensures Split(t + y) == [t] + Split(y)
  {
    WordLengthOfWord(t, y);
    assert (t + y)[..|t|] == t;
    assert (t + y)[|t|..] == y;
  }

  /** Splitting a layout of words gives back exactly those words. */
  lemma {:induction false} SplitLayout(gaps: seq<string>, ts: seq<string>)
    requires Separates(gaps, |ts|)
    requires forall i :: 0 <= i < |ts| ==> IsWord(ts[i])
    ensures Split(Layout(gaps, ts)) == ts
    decreases ts
  {
    if ts == [] {
      SplitSkipsBlank(gaps[0], []);
      assert gaps[0] + [] == gaps[0];
    } else {
      var rest := Layout(gaps[1..], ts[1..]);
      assert Separates(gaps[1..], |ts[1..]|) by {
        forall i | 0 < i < |ts[1..]| ensures gaps[1..][i] != [] {
          assert gaps[1..][i] == gaps[i + 1];
        }
      }
      SplitLayout(gaps[1..], ts[1..]);
      assert AtBoundary(rest) by {
        if |ts| > 1 {
          assert gaps[1] != [];
          assert rest == gaps[1] + (ts[1] + Layout(gaps[2..], ts[2..]));
          assert rest[0] == gaps[1][0];
        } else {
          assert rest == gaps[1];
        }
      }
      SplitWordThen(ts[0], rest);
      assert Layout(gaps, ts) == gaps[0] + (ts[0] + rest);
      SplitSkipsBlank(gaps[0], ts[0] + rest);
    }
  }

  /**
   * How much whitespace surrounds and separates the tokens never matters:
   * two layouts of the same words split alike.
   */
  lemma SpacingIrrelevant(gaps: seq<string>, gaps': seq<string>, ts: seq<string>)
    requires Separates(gaps, |ts|) && Separates(gaps', |ts|)
    requires forall i :: 0 <= i < |ts| ==> IsWord(ts[i])
    ensures Split(Layout(gaps, ts)) == Split(Layout(gaps', ts)) == ts
  {
    SplitLayout(gaps, ts);
    SplitLayout(gaps', ts);
  }

  /** A text has no tokens exactly when it is all whitespace. */
  lemma {:induction false} SplitEmptyIffBlank(s: string)
    ensures Split(s) == [] <==> Blank(s)
    decreases |s|
  {
    if s != [] {
      if IsSpace(s[0]) {
        SplitEmptyIffBlank(s[1..]);
        if Blank(s[1..]) {
          assert forall i :: 0 < i < |s| ==> s[i] == s[1..][i - 1];
        }
      }
    }
  }
}
