/**
 * The Python string built-ins the two text parsers rely on: `str.strip()`,
 * `str.split()` with no separator, `str.split("=", 1)` and `str.lower()`.
 * Strings are sequences of characters.
 */
module Text {

  /** Python's `str.isspace` for a single character: the characters that
      `strip()` and `split()` treat as whitespace. */
  predicate IsSpace(c: char) {
    var k := c as int;
    (0x09 <= k <= 0x0D) || (0x1C <= k <= 0x20) || k == 0x85 || k == 0xA0 || k == 0x1680 ||
    (0x2000 <= k <= 0x200A) || k == 0x2028 || k == 0x2029 || k == 0x202F || k == 0x205F || k == 0x3000
  }

  predicate NoSpace(s: string) {
    forall i :: 0 <= i < |s| ==> !IsSpace(s[i])
  }

  predicate AllSpace(s: string) {
    forall i :: 0 <= i < |s| ==> IsSpace(s[i])
  }

  /** The characters of `s` that are not whitespace, in order. */
  function NonSpace(s: string): string
    decreases |s|
  {
    if s == [] then []
    else if IsSpace(s[0]) then NonSpace(s[1..])
    else [s[0]] + NonSpace(s[1..])
  }

  // ---------------------------------------------------------------------------
  // strip

  /** The end of the run of whitespace starting at `i`. */
  function SpacesFrom(s: string, i: int): (j: int)
    requires 0 <= i <= |s|
    ensures i <= j <= |s|
    ensures forall k :: i <= k < j ==> IsSpace(s[k])
    ensures j == |s| || !IsSpace(s[j])
    decreases |s| - i
  {
    if i < |s| && IsSpace(s[i]) then SpacesFrom(s, i + 1) else i
  }

  /** The start of the run of whitespace that ends at `j`, going no lower
      than `lo`. */
  function SpacesBefore(s: string, lo: int, j: int): (i: int)
    requires 0 <= lo <= j <= |s|
    ensures lo <= i <= j
    ensures forall k :: i <= k < j ==> IsSpace(s[k])
    ensures i == lo || !IsSpace(s[i - 1])
    decreases j - lo
  {
    if lo < j && IsSpace(s[j - 1]) then SpacesBefore(s, lo, j - 1) else j
  }

  /** `s.strip()`: `s` without leading and trailing whitespace. */
  function Strip(s: string): (r: string)
    ensures |r| <= |s|
    ensures r == [] || (!IsSpace(r[0]) && !IsSpace(r[|r| - 1]))
  {
    var lo := SpacesFrom(s, 0);
    s[lo..SpacesBefore(s, lo, |s|)]
  }

  /** Stripping removes only whitespace, and only at the ends: the result is
      a slice of `s` with only whitespace around it. */
  lemma StripIsSlice(s: string)
    ensures var lo := SpacesFrom(s, 0);
      var hi := SpacesBefore(s, lo, |s|);
      && Strip(s) == s[lo..hi]
      && (forall k :: 0 <= k < lo ==> IsSpace(s[k]))
      && (forall k :: hi <= k < |s| ==> IsSpace(s[k]))
  {
  }

  /** The result is empty exactly for an all-whitespace string. */
  lemma StripEmpty(s: string)
    ensures Strip(s) == [] <==> AllSpace(s)
  {
    var lo := SpacesFrom(s, 0);
    var hi := SpacesBefore(s, lo, |s|);
    if lo < hi {
      assert s[lo..hi][0] == s[lo];
    }
  }

  /** Stripping keeps every non-whitespace character. */
  lemma StripKeepsText(s: string)
    ensures NonSpace(Strip(s)) == NonSpace(s)
  {
    var lo := SpacesFrom(s, 0);
    var hi := SpacesBefore(s, lo, |s|);
    Pieces(s, lo, hi);
    NonSpaceAppend(s[..hi], s[hi..]);
    NonSpaceAppend(s[..lo], s[lo..hi]);
    NonSpaceOfSpaces(s[..lo]);
    NonSpaceOfSpaces(s[hi..]);
    assert NonSpace(s[..hi]) == NonSpace(s[lo..hi]);
  }

  /** The stripped line is empty exactly when the line has no
      non-whitespace character, and otherwise starts with the first one. */
  lemma StripFirst(s: string)
    ensures Strip(s) == [] <==> NonSpace(s) == []
    ensures Strip(s) != [] ==> NonSpace(s)[0] == Strip(s)[0]
  {
    StripKeepsText(s);
    var t := Strip(s);
    if t != [] {
      assert NonSpace(t) == [t[0]] + NonSpace(t[1..]);
    }
  }

  /** Stripping keeps every character that is not whitespace. */
  lemma StripKeepsChar(s: string, c: char)
    requires !IsSpace(c)
    ensures c in Strip(s) <==> c in s
  {
    StripIsSlice(s);
    var lo := SpacesFrom(s, 0);
    var hi := SpacesBefore(s, lo, |s|);
    if c in s {
      var k :| 0 <= k < |s| && s[k] == c;
      assert lo <= k < hi;
      assert Strip(s)[k - lo] == c;
    }
  }

  // ---------------------------------------------------------------------------
  // NonSpace

  /** `s[i..]` cut at `j`. */
  lemma Cut(s: string, i: int, j: int)
    requires 0 <= i <= j <= |s|
    ensures s[i..] == s[i..j] + s[j..]
  {
  }

  /** `s` cut at `lo` and `hi`. */
  lemma Pieces(s: string, lo: int, hi: int)
    requires 0 <= lo <= hi <= |s|
    ensures s == s[..hi] + s[hi..] && s[..hi] == s[..lo] + s[lo..hi]
  {
  }

  lemma {:induction false} NonSpaceAppend(a: string, b: string)
    ensures NonSpace(a + b) == NonSpace(a) + NonSpace(b)
    decreases |a|
  {
    if a != [] {
      assert (a + b)[0] == a[0] && (a + b)[1..] == a[1..] + b;
      NonSpaceAppend(a[1..], b);
      if !IsSpace(a[0]) {
        assert NonSpace(a + b) == [a[0]] + (NonSpace(a[1..]) + NonSpace(b));
      }
    } else {
      assert a + b == b;
    }
  }

  lemma {:induction false} NonSpaceOfSpaces(s: string)
    requires AllSpace(s)
    ensures NonSpace(s) == []
    decreases |s|
  {
    if s != [] {
      NonSpaceOfSpaces(s[1..]);
    }
  }

  lemma {:induction false} NonSpaceOfWord(s: string)
    requires NoSpace(s)
    ensures NonSpace(s) == s
    decreases |s|
  {
    if s != [] {
      NonSpaceOfWord(s[1..]);
    }
  }

  // ---------------------------------------------------------------------------
  // split

  /** The length of the word at the start of `s`: up to its first whitespace
      character, or all of `s`. */
  function WordLen(s: string): (n: nat)
    ensures n <= |s|
    ensures forall k :: 0 <= k < n ==> !IsSpace(s[k])
    ensures n == |s| || IsSpace(s[n])
    decreases |s|
  {
    if s != [] && !IsSpace(s[0]) then 1 + WordLen(s[1..]) else 0
  }

  /** `s.split()`: the maximal runs of non-whitespace characters, in order.
      Leading whitespace is skipped; otherwise the first word is cut off and
      the rest is split in turn. */
  function Split(s: string): (r: seq<string>)
    ensures forall t :: t in r ==> t != [] && NoSpace(t)
    decreases |s|
  {
    if s == [] then []
    else if IsSpace(s[0]) then Split(s[1..])
    else
      var n := WordLen(s);
      [s[..n]] + Split(s[n..])
  }

  /** The concatenation of a list of strings. */
  function Concat(ts: seq<string>): string
    decreases |ts|
  {
    if ts == [] then [] else ts[0] + Concat(ts[1..])
  }

  /** `Concat` of a list that starts with `w`. */
  lemma ConcatCons(w: string, ws: seq<string>)
    ensures Concat([w] + ws) == w + Concat(ws)
  {
    assert ([w] + ws)[1..] == ws;
  }

  lemma ConsAppend<T>(w: T, xs: seq<T>, ys: seq<T>)
    ensures [w] + (xs + ys) == ([w] + xs) + ys
  {
  }

  /** Splitting loses only whitespace: the pieces put back together are the
      non-whitespace characters of `s`. */
  lemma {:induction false} SplitKeepsText(s: string)
    ensures Concat(Split(s)) == NonSpace(s)
    decreases |s|
  {
    if s != [] {
      if IsSpace(s[0]) {
        SplitKeepsText(s[1..]);
      } else {
        var n := WordLen(s);
        Cut(s, 0, n);
        assert s[0..] == s && s[0..n] == s[..n];
        NonSpaceAppend(s[..n], s[n..]);
        NonSpaceOfWord(s[..n]);
        SplitKeepsText(s[n..]);
        ConcatCons(s[..n], Split(s[n..]));
      }
    }
  }

  /** A word without whitespace splits into itself. */
  lemma SplitOfWord(s: string)
    requires s != [] && NoSpace(s)
    ensures Split(s) == [s]
  {
    assert WordLen(s) == |s|;
    assert s[..|s|] == s;
    assert s[|s|..] == [];
  }

  /** A string of whitespace splits into nothing. */
  lemma {:induction false} SplitOfSpaces(s: string)
    requires AllSpace(s)
    ensures Split(s) == []
    decreases |s|
  {
    if s != [] {
      SplitOfSpaces(s[1..]);
    }
  }

  /** The word length is fixed by the word: `n` is `WordLen(s)` when
      `s[..n]` has no whitespace and `s[n]`, if any, is whitespace. */
  lemma WordLenIs(s: string, n: nat)
    requires n <= |s|
    requires forall k :: 0 <= k < n ==> !IsSpace(s[k])
    requires n == |s| || IsSpace(s[n])
    ensures WordLen(s) == n
  {
  }

  /** A word of `a` ends at the latest at the whitespace `c` after `a`. */
  lemma WordLenBeforeSpace(a: string, c: char, b: string)
    requires IsSpace(c)
    ensures WordLen(a + [c] + b) == WordLen(a)
  {
    var s, n := a + [c] + b, WordLen(a);
    assert forall k :: 0 <= k < n ==> s[k] == a[k];
    assert s[n] == if n < |a| then a[n] else c;
    WordLenIs(s, n);
  }

  /** `str.split()` breaks at every whitespace character: the words of
      `a + [c] + b` are the words of `a` followed by the words of `b`.
      With `SplitOfWord` and `SplitOfSpaces` this fixes `Split` on every
      string. */
  lemma {:induction false} SplitAtSpace(a: string, c: char, b: string)
    requires IsSpace(c)
    ensures Split(a + [c] + b) == Split(a) + Split(b)
    decreases |a|
  {
    var s := a + [c] + b;
    if a == [] {
      assert s[0] == c && s[1..] == b;
    } else if IsSpace(a[0]) {
      assert s[0] == a[0] && s[1..] == a[1..] + [c] + b;
      SplitAtSpace(a[1..], c, b);
    } else {
      var n := WordLen(a);
      WordLenBeforeSpace(a, c, b);
      assert s[0] == a[0] && s[..n] == a[..n] && s[n..] == a[n..] + [c] + b;
      SplitAtSpace(a[n..], c, b);
      ConsAppend(a[..n], Split(a[n..]), Split(b));
    }
  }

  /** The words `ws` with the whitespace character `c` between each two. */
  function Join(ws: seq<string>, c: char): string
    decreases |ws|
  {
    if |ws| <= 1 then Concat(ws) else ws[0] + [c] + Join(ws[1..], c)
  }

  /** Words joined by whitespace split back into the same words: a line
      `1 2 3` gives the three tokens `1`, `2` and `3`. */
  lemma {:induction false} SplitJoin(ws: seq<string>, c: char)
    requires IsSpace(c)
    requires forall k :: 0 <= k < |ws| ==> ws[k] != [] && NoSpace(ws[k])
    ensures Split(Join(ws, c)) == ws
    decreases |ws|
  {
    if |ws| == 1 {
      assert Concat(ws[1..]) == [] && ws == [ws[0]];
      assert Join(ws, c) == ws[0] + [];
      SplitOfWord(ws[0]);
    } else if |ws| > 1 {
      SplitAtSpace(ws[0], c, Join(ws[1..], c));
      SplitOfWord(ws[0]);
      SplitJoin(ws[1..], c);
      assert ws == [ws[0]] + ws[1..];
    }
  }

  // ---------------------------------------------------------------------------
  // split("=", 1) and lower

  /** The position of the first occurrence of `c` in `s`. */
  function IndexOf(s: string, c: char): (i: int)
    requires c in s
    ensures 0 <= i < |s| && s[i] == c && c !in s[..i]
    decreases |s|
  {
    if s[0] == c then 0 else 1 + IndexOf(s[1..], c)
  }

  /** `s.split(c, 1)` for a string that holds `c`: the text before its first
      occurrence and the text after it. */
  function SplitOnce(s: string, c: char): (r: (string, string))
    requires c in s
    ensures r.0 + [c] + r.1 == s && c !in r.0
  {
    var i := IndexOf(s, c);
    assert s == s[..i] + [c] + s[i + 1..];
    (s[..i], s[i + 1..])
  }

  /** `str.lower` on one character. Only the letters A-Z are mapped: no other
      character lower-cases to one of the camera keys' letters. */
  function LowerChar(c: char): (l: char)
    ensures ('A' <= c <= 'Z') ==> l as int == c as int + 32
    ensures !('A' <= c <= 'Z') ==> l == c
  {
    if 'A' <= c <= 'Z' then (c as int + 32) as char else c
  }

  function Lower(s: string): (r: string)
    ensures |r| == |s| && forall i :: 0 <= i < |s| ==> r[i] == LowerChar(s[i])
  {
    seq(|s|, i requires 0 <= i < |s| => LowerChar(s[i]))
  }
}
