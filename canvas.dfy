/** `EvolvingCanvas.handleSearch` (frontend/src/App.js:64-68): the search box dispatches its
    trimmed text when Enter is pressed and something is left after trimming. */
module Canvas {

  import opened Collections

  /** The characters `String.prototype.trim` strips: ECMAScript WhiteSpace and LineTerminator. */
  predicate IsJsSpace(c: char) {
    ('\t' <= c <= '\r') || c == ' ' || c == '\U{A0}' || c == '\U{1680}'
    || ('\U{2000}' <= c <= '\U{200A}') || c == '\U{2028}' || c == '\U{2029}'
    || c == '\U{202F}' || c == '\U{205F}' || c == '\U{3000}' || c == '\U{FEFF}'
  }

  function LeadingSpaces(s: string): (n: nat)
    ensures n <= |s|
    ensures forall k :: 0 <= k < n ==> IsJsSpace(s[k])
    ensures n < |s| ==> !IsJsSpace(s[n])
  {
    if s == [] || !IsJsSpace(s[0]) then 0 else 1 + LeadingSpaces(s[1..])
  }

  function TrailingSpaces(s: string): (n: nat)
    ensures n <= |s|
    ensures forall k :: |s| - n <= k < |s| ==> IsJsSpace(s[k])
    ensures n < |s| ==> !IsJsSpace(s[|s| - n - 1])
  {
    if s == [] || !IsJsSpace(s[|s| - 1]) then 0 else 1 + TrailingSpaces(s[..|s| - 1])
  }

  /** `String.prototype.trim`. */
  function Trim(s: string): string {
    var rest := s[LeadingSpaces(s)..];
    rest[..|rest| - TrailingSpaces(rest)]
  }

  /** The trimmed text is a block of the input with only whitespace before and after it, begins
      and ends with a non-space, and is empty exactly when the input is whitespace only. */
  lemma TrimSpec(s: string)
    ensures var a, t := LeadingSpaces(s), Trim(s);
      a + |t| <= |s|
      && t == s[a..a + |t|]
      && (forall k :: 0 <= k < a || a + |t| <= k < |s| ==> IsJsSpace(s[k]))
      && (t != [] ==> !IsJsSpace(t[0]) && !IsJsSpace(t[|t| - 1]))
      && (t == [] <==> forall k :: 0 <= k < |s| ==> IsJsSpace(s[k]))
  {
    var a := LeadingSpaces(s);
    var rest := s[a..];
    var b := TrailingSpaces(rest);
    var t := Trim(s);
    assert t == s[a..a + |t|];
    forall k | a + |t| <= k < |s| ensures IsJsSpace(s[k]) {
      assert s[k] == rest[k - a];
    }
    if t != [] {
      assert t[0] == rest[0];
    }
  }

  /** Trimming twice is trimming once. */
  lemma TrimIdempotent(s: string)
    ensures Trim(Trim(s)) == Trim(s)
  {
    var t := Trim(s);
    TrimSpec(s);
    assert LeadingSpaces(t) == 0;
    assert t[0..] == t;
    assert TrailingSpaces(t) == 0;
  }

  /** The query `handleSearch(e)` passes to `onSearch`, if any. */
  function OnKeyPress(key: string, searchValue: string): Option<string> {
    var query := Trim(searchValue);
    if key == "Enter" && |query| != 0 then Some(query) else None
  }

  /** Enter dispatches exactly when the box holds a non-space character, and what it dispatches is
      the trimmed text, which is non-empty and has no surrounding whitespace. */
  lemma OnKeyPressDispatches(key: string, searchValue: string)
    ensures OnKeyPress(key, searchValue).Some?
        <==> key == "Enter" && exists k :: 0 <= k < |searchValue| && !IsJsSpace(searchValue[k])
    ensures OnKeyPress(key, searchValue).Some? ==>
      var q := OnKeyPress(key, searchValue).value;
      q == Trim(searchValue) && q != [] && !IsJsSpace(q[0]) && !IsJsSpace(q[|q| - 1])
  {
    TrimSpec(searchValue);
  }
}
