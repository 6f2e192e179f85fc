/** The pieces of Python's `str` that relevance scoring uses: `lower()`, `split()` and `in`. */
module PyText {

  import opened Collections

  /** `str.isspace()` for one character: the separators of `str.split()` with no argument. */
  predicate IsSpace(c: char) {
    ('\t' <= c <= '\r') || ('\U{1C}' <= c <= ' ') || c == '\U{85}' || c == '\U{A0}'
    || c == '\U{1680}' || ('\U{2000}' <= c <= '\U{200A}') || c == '\U{2028}' || c == '\U{2029}'
    || c == '\U{202F}' || c == '\U{205F}' || c == '\U{3000}'
  }

  function NotSpace(): char -> bool {
    c => !IsSpace(c)
  }

  /** `str.lower()` restricted to ASCII: it maps A-Z to a-z and keeps every other character. */
  function LowerChar(c: char): char {
    if 'A' <= c <= 'Z' then (c as int + 32) as char else c
  }

  function Lower(s: string): string {
    seq(|s|, i requires 0 <= i < |s| => LowerChar(s[i]))
  }

  lemma LowerKeepsSpaces(s: string)
    ensures |Lower(s)| == |s|
    ensures forall i :: 0 <= i < |s| ==> (IsSpace(Lower(s)[i]) <==> IsSpace(s[i]))
  {
  }

  /** Length of the run of non-separators that starts `s`. */
  function WordLength(s: string): (n: nat)
    ensures n <= |s|
    ensures forall i :: 0 <= i < n ==> !IsSpace(s[i])
    ensures n < |s| ==> IsSpace(s[n])
  {
    if s == [] || IsSpace(s[0]) then 0 else 1 + WordLength(s[1..])
  }

  /** `str.split()` with no argument: the maximal runs of non-separators, left to right. */
  function Split(s: string): (words: seq<string>)
    ensures forall w :: w in words ==> w != []
    ensures forall w :: w in words ==> forall i :: 0 <= i < |w| ==> !IsSpace(w[i])
    decreases |s|
  {
    if s == [] then []
    else if IsSpace(s[0]) then Split(s[1..])
    else
      var n := WordLength(s);
      [s[..n]] + Split(s[n..])
  }

  function Flatten(words: seq<string>): string {
    if words == [] then [] else words[0] + Flatten(words[1..])
  }

  /** `split()` finds no word exactly when the text is separators only. */
  lemma {:induction false} SplitEmpty(s: string)
    ensures Split(s) == [] <==> forall i :: 0 <= i < |s| ==> IsSpace(s[i])
    decreases |s|
  {
    if s != [] && IsSpace(s[0]) {
      SplitEmpty(s[1..]);
      assert forall i :: 1 <= i < |s| ==> s[i] == s[1..][i - 1];
    }
  }

  /** The words, joined back together, are the text with its separators deleted. */
  lemma {:induction false} SplitDropsOnlySpaces(s: string)
    ensures Flatten(Split(s)) == Select(s, NotSpace())
    decreases |s|
  {
    if s != [] {
      if IsSpace(s[0]) {
        assert s == [s[0]] + s[1..];
        SelectConcat([s[0]], s[1..], NotSpace());
        assert Select([s[0]], NotSpace()) == [];
        SplitDropsOnlySpaces(s[1..]);
      } else {
        var n := WordLength(s);
        assert s == s[..n] + s[n..];
        SelectConcat(s[..n], s[n..], NotSpace());
        SelectKeepsAll(s[..n], NotSpace());
        SplitDropsOnlySpaces(s[n..]);
        assert Split(s)[1..] == Split(s[n..]);
      }
    }
  }

  /** Text appended after a word's end does not change where the word ends. */
  lemma {:induction false} WordLengthStops(a: string, t: string)
    requires WordLength(a) < |a| || (t != [] && IsSpace(t[0]))
    ensures WordLength(a + t) == WordLength(a)
    decreases |a|
  {
    if a != [] && !IsSpace(a[0]) {
      assert (a + t)[1..] == a[1..] + t;
      WordLengthStops(a[1..], t);
    }
  }

  /** A non-empty text without separators is one word. */
  lemma SplitWord(w: string)
    requires w != [] && forall i :: 0 <= i < |w| ==> !IsSpace(w[i])
    ensures Split(w) == [w]
  {
    assert WordLength(w) == |w|;
    assert w[..|w|] == w && w[|w|..] == [];
  }

  /** A separator always ends the word before it and starts afresh: splitting at it splits the
      text into the words before and the words after, so runs of separators count as one. */
  lemma {:induction false} SplitAtSpace(a: string, c: char, b: string)
    requires IsSpace(c)
    ensures Split(a + [c] + b) == Split(a) + Split(b)
    decreases |a|
  {
    var t := [c] + b;
    assert a + [c] + b == a + t;
    SplitAfter(a, t);
    assert t[1..] == b;
  }

  /** `SplitAtSpace` with the separator at the head of `t`. */
  lemma {:induction false} SplitAfter(a: string, t: string)
    requires t != [] && IsSpace(t[0])
    ensures Split(a + t) == Split(a) + Split(t[1..])
    decreases |a|
  {
    if a == [] {
      assert a + t == t;
    } else if IsSpace(a[0]) {
      calc {
        Split(a + t);
        { assert (a + t)[0] == a[0] && (a + t)[1..] == a[1..] + t; }
        Split(a[1..] + t);
        { SplitAfter(a[1..], t); }
        Split(a[1..]) + Split(t[1..]);
      }
    } else {
      SplitAfterWord(a, t);
    }
  }

  /** `SplitAfter` when `a` starts with a word. */
  lemma {:induction false} SplitAfterWord(a: string, t: string)
    requires t != [] && IsSpace(t[0])
    requires a != [] && !IsSpace(a[0])
    ensures Split(a + t) == Split(a) + Split(t[1..])
    decreases |a|, 0
  {
    var m := WordLength(a);
    WordLengthStops(a, t);
    assert (a + t)[0] == a[0];
    assert (a + t)[..m] == a[..m] && (a + t)[m..] == a[m..] + t;
    assert Split(a + t) == [a[..m]] + Split(a[m..] + t);
    SplitAfter(a[m..], t);
    assert Split(a) == [a[..m]] + Split(a[m..]);
  }

  /** Python's `t in s` for strings, searching from the left. */
  function Contains(s: string, t: string): bool
    decreases |s|
  {
    if |t| > |s| then false
    else if s[..|t|] == t then true
    else if s == [] then false
    else Contains(s[1..], t)
  }

  /** `t` occurs in `s` starting at position `i`. */
  predicate OccursAt(s: string, t: string, i: int) {
    0 <= i && i + |t| <= |s| && s[i..i + |t|] == t
  }

  /** `t in s` holds exactly when `t` occurs in `s` as a contiguous block. */
  lemma {:induction false} ContainsOccurrence(s: string, t: string)
    ensures Contains(s, t) <==> exists i :: OccursAt(s, t, i)
    decreases |s|
  {
    if |t| <= |s| && s[..|t|] != t && s != [] {
      ContainsOccurrence(s[1..], t);
      forall i | OccursAt(s, t, i) ensures OccursAt(s[1..], t, i - 1) {
        assert i != 0;
        assert s[i..i + |t|] == s[1..][i - 1..i - 1 + |t|];
      }
      forall i | OccursAt(s[1..], t, i) ensures OccursAt(s, t, i + 1) {
        assert s[i + 1..i + 1 + |t|] == s[1..][i..i + |t|];
      }
    } else if |t| <= |s| && s[..|t|] == t {
      assert OccursAt(s, t, 0);
    }
  }
}
