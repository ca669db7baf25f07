/** The few Python `str` operations the EDGAR scraper relies on, over
    strings as sequences of characters: substring search, `split(sep)`,
    `split()` on whitespace, `replace` of a single character and `isdigit`. */
module Text {

  /** `sep` occurs in `s` starting at index `i`. */
  predicate OccursAt(s: string, sep: string, i: int) {
    0 <= i && i + |sep| <= |s| && s[i..i + |sep|] == sep
  }

  /** Python's `sep in s`. */
  predicate Contains(s: string, sep: string) {
    exists i | 0 <= i <= |s| :: OccursAt(s, sep, i)
  }

  /** The first occurrence of `sep` in `s` at or after `from`, or -1. */
  function FindFrom(s: string, sep: string, from: nat): (r: int)
    requires |sep| > 0
    ensures r == -1 || from <= r
    ensures r >= 0 ==> OccursAt(s, sep, r)
    ensures forall j :: from <= j && (r < 0 || j < r) ==> !OccursAt(s, sep, j)
    decreases |s| - from
  {
    if from + |sep| > |s| then -1
    else if s[from..from + |sep|] == sep then from
    else FindFrom(s, sep, from + 1)
  }

  /** Python's `s.find(sep)`: the index of the first occurrence, or -1. */
  function Find(s: string, sep: string): (r: int)
    requires |sep| > 0
    ensures r < 0 <==> !Contains(s, sep)
    ensures r >= 0 ==> OccursAt(s, sep, r) && forall j :: 0 <= j < r ==> !OccursAt(s, sep, j)
  {
    FindFrom(s, sep, 0)
  }

  /** An occurrence inside a prefix is an occurrence in the whole string. */
  lemma OccursInPrefix(s: string, sep: string, n: nat, j: int)
    requires n <= |s| && OccursAt(s[..n], sep, j)
    ensures OccursAt(s, sep, j)
  {
    assert s[j..j + |sep|] == s[..n][j..j + |sep|];
  }

  /** An occurrence inside a suffix is an occurrence in the whole string. */
  lemma OccursInSuffix(s: string, sep: string, n: nat, j: int)
    requires n <= |s| && OccursAt(s[n..], sep, j)
    ensures OccursAt(s, sep, n + j)
  {
    assert s[n + j..n + j + |sep|] == s[n..][j..j + |sep|];
  }

  /** A string is the concatenation of the three slices around two cuts. */
  lemma Recompose(s: string, i: nat, j: nat)
    requires i <= j <= |s|
    ensures s == s[..i] + s[i..j] + s[j..]
  {
  }

  /** Python's `s.split(sep)` for a non-empty separator: the pieces between
      the occurrences of `sep`, scanning from the left. */
  function Split(s: string, sep: string): (fs: seq<string>)
    requires |sep| > 0
    ensures |fs| >= 1
    ensures |fs| == 1 <==> !Contains(s, sep)
    ensures forall k :: 0 <= k < |fs| ==> !Contains(fs[k], sep)
    decreases |s|
  {
    var i := Find(s, sep);
    if i < 0 then [s]
    else
      var head := s[..i];
      var fs := [head] + Split(s[i + |sep|..], sep);
      assert !Contains(head, sep) by {
        forall j | OccursAt(head, sep, j)
          ensures false
        {
          OccursInPrefix(s, sep, i, j);
        }
      }
      assert fs[0] == head;
      fs
  }

  /** Python's `sep.join(fs)`. */
  function Join(fs: seq<string>, sep: string): (s: string)
    ensures |fs| == 1 ==> s == fs[0]
  {
    if |fs| == 0 then ""
    else if |fs| == 1 then fs[0]
    else fs[0] + sep + Join(fs[1..], sep)
  }

  /** Joining the pieces of a split with the same separator gives back the
      original string. */
  lemma {:induction false} JoinSplit(s: string, sep: string)
    requires |sep| > 0
    ensures Join(Split(s, sep), sep) == s
    decreases |s|
  {
    var i := Find(s, sep);
    if i >= 0 {
      var rest := s[i + |sep|..];
      var fs := Split(s, sep);
      assert fs == [s[..i]] + Split(rest, sep);
      assert fs[1..] == Split(rest, sep);
      JoinSplit(rest, sep);
      Recompose(s, i, i + |sep|);
    }
  }

  /** The first piece of a split is the text before the first occurrence of
      the separator, or the whole string when there is none. */
  lemma SplitFirstPiece(s: string, sep: string)
    requires |sep| > 0
    ensures Split(s, sep)[0] == if Contains(s, sep) then s[..Find(s, sep)] else s
  {
  }

  /** A string that contains `sep` is the text before its first occurrence,
      the separator and the text after it. */
  lemma AroundFirst(s: string, sep: string)
    requires |sep| > 0 && Contains(s, sep)
    ensures var i := Find(s, sep); s == s[..i] + sep + s[i + |sep|..]
  {
    var i := Find(s, sep);
    Recompose(s, i, i + |sep|);
  }

  /** When `s` contains `sep`, the first piece of the split is the text
      before the first occurrence and the second piece is the text between
      the first occurrence and the next one (or the end). */
  lemma {:induction false} SplitSecondPiece(s: string, sep: string)
    requires |sep| > 0 && Contains(s, sep)
    ensures var fs := Split(s, sep);
      var i := Find(s, sep);
      |fs| >= 2 && s == fs[0] + sep + s[i + |sep|..] && fs[1] == Split(s[i + |sep|..], sep)[0]
  {
  }

  /** The characters Python's `str.split()` treats as whitespace, restricted
      to ASCII. */
  predicate IsSpace(c: char) {
    c == ' ' || c == '\t' || c == '\n' || c == '\r' || c == '\U{000B}' || c == '\U{000C}'
    || ('\U{001C}' <= c <= '\U{001F}')
  }

  /** The length of the longest prefix of `s` with no whitespace. */
  function WordLength(s: string): (n: nat)
    ensures n <= |s|
    ensures forall i :: 0 <= i < n ==> !IsSpace(s[i])
    ensures n < |s| ==> IsSpace(s[n])
  {
    if |s| == 0 || IsSpace(s[0]) then 0 else 1 + WordLength(s[1..])
  }

  /** The length of the longest prefix of `s` made of whitespace. */
  function LeadingSpaces(s: string): (n: nat)
    ensures n <= |s|
    ensures forall i :: 0 <= i < n ==> IsSpace(s[i])
    ensures n < |s| ==> !IsSpace(s[n])
  {
    if |s| == 0 || !IsSpace(s[0]) then 0 else 1 + LeadingSpaces(s[1..])
  }

  /** Python's `s.split()`: the maximal runs of non-whitespace characters,
      in order. */
  function Tokens(s: string): (ts: seq<string>)
    ensures forall k :: 0 <= k < |ts| ==> |ts[k]| > 0
    ensures forall k, i :: 0 <= k < |ts| && 0 <= i < |ts[k]| ==> !IsSpace(ts[k][i])
    ensures |ts| == 0 <==> forall i :: 0 <= i < |s| ==> IsSpace(s[i])
    decreases |s|
  {
    if |s| == 0 then []
    else if IsSpace(s[0]) then
      var ts := Tokens(s[1..]);
      assert forall i :: 0 <= i < |s[1..]| ==> s[1..][i] == s[i + 1];
      ts
    else
      var n := WordLength(s);
      [s[..n]] + Tokens(s[n..])
  }

  /** A leading whitespace character is skipped by `split()`. */
  lemma SkipSpace(s: string)
    requires |s| > 0 && IsSpace(s[0])
    ensures Tokens(s) == Tokens(s[1..])
    ensures LeadingSpaces(s) == 1 + LeadingSpaces(s[1..])
  {
  }

  /** A string that starts with a non-whitespace character starts with its
      first token, which runs up to the next whitespace or the end. */
  lemma StartWord(s: string)
    requires |s| > 0 && !IsSpace(s[0])
    ensures LeadingSpaces(s) == 0 && |Tokens(s)| > 0
    ensures WordAt(s, 0, Tokens(s)[0])
  {
    var n := WordLength(s);
    assert Tokens(s)[0] == s[..n];
    assert s[0..n] == s[..n];
  }

  /** `t` occurs in `s` at position `p` and is followed by whitespace or
      by the end of `s`. */
  predicate WordAt(s: string, p: nat, t: string) {
    p + |t| <= |s| && s[p..p + |t|] == t && (p + |t| == |s| || IsSpace(s[p + |t|]))
  }

  /** A word found at `p` in `s[1..]` is found at `1 + p` in `s`. */
  lemma ShiftWord(s: string, p: nat, t: string)
    requires |s| > 0 && WordAt(s[1..], p, t)
    ensures WordAt(s, 1 + p, t)
  {
    assert s[1..][p..p + |t|] == s[1 + p..1 + p + |t|];
  }

  /** `split()[0]`: the first token is the maximal non-whitespace run that
      follows the leading whitespace of `s`. */
  lemma {:induction false} FirstToken(s: string)
    requires |Tokens(s)| > 0
    ensures WordAt(s, LeadingSpaces(s), Tokens(s)[0])
    decreases |s|
  {
    if IsSpace(s[0]) {
      var rest := s[1..];
      SkipSpace(s);
      FirstToken(rest);
      ShiftWord(s, LeadingSpaces(rest), Tokens(rest)[0]);
    } else {
      StartWord(s);
    }
  }

  /** Every occurrence of the character `c` replaced by `r`: Python's
      `s.replace(c, r)` for a one-character pattern. */
  function ReplaceChar(s: string, c: char, r: string): (t: string)
    ensures c !in s ==> t == s
    ensures c !in r ==> c !in t
    ensures |s| == 1 ==> t == if s[0] == c then r else s
  {
    if |s| == 0 then ""
    else (if s[0] == c then r else [s[0]]) + ReplaceChar(s[1..], c, r)
  }

  /** The number of occurrences of `c` in `s`. */
  function Count(s: string, c: char): nat {
    if |s| == 0 then 0 else (if s[0] == c then 1 else 0) + Count(s[1..], c)
  }

  /** Each replaced character contributes `|r|` characters, every other
      character one. */
  lemma {:induction false} ReplaceCharLength(s: string, c: char, r: string)
    ensures |ReplaceChar(s, c, r)| == |s| - Count(s, c) + Count(s, c) * |r|
  {
    if |s| > 0 {
      var head := if s[0] == c then r else [s[0]];
      var k := if s[0] == c then 1 else 0;
      var rest := ReplaceChar(s[1..], c, r);
      assert ReplaceChar(s, c, r) == head + rest;
      assert Count(s, c) == k + Count(s[1..], c);
      ReplaceCharLength(s[1..], c, r);
      DistributeCount(Count(s[1..], c), k, |r|);
    }
  }

  /** `(n + k) * w == n * w + k * w`, the one step of arithmetic above. */
  lemma DistributeCount(n: int, k: int, w: int)
    ensures (k + n) * w == n * w + k * w
  {
  }

  /** Replacing commutes with concatenation. */
  lemma {:induction false} ReplaceCharAppend(a: string, b: string, c: char, r: string)
    ensures ReplaceChar(a + b, c, r) == ReplaceChar(a, c, r) + ReplaceChar(b, c, r)
  {
    if |a| > 0 {
      assert (a + b)[1..] == a[1..] + b;
      ReplaceCharAppend(a[1..], b, c, r);
    } else {
      assert a + b == b;
    }
  }

  /** An ASCII decimal digit. */
  predicate IsDigit(ch: char) {
    '0' <= ch <= '9'
  }

  /** Python's `s.isdigit()` restricted to ASCII digits: true for a
      non-empty string of digits. */
  predicate IsDigits(s: string) {
    |s| > 0 && forall i :: 0 <= i < |s| ==> IsDigit(s[i])
  }
}
