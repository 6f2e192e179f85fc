/** Small value types and sequence operations shared by the client and the server models. */
module Collections {

  datatype Option<T> = None | Some(value: T)

  datatype Result<T, E> = Ok(value: T) | Err(error: E)

  /** The elements of `s` that satisfy `p`, in their original order: JavaScript's
      `Array.prototype.filter` and Python's filtering comprehensions. */
  function Select<T>(s: seq<T>, p: T -> bool): (r: seq<T>)
    ensures |r| <= |s|
    ensures forall x :: x in r ==> x in s && p(x)
  {
    if s == [] then []
    else if p(s[|s| - 1]) then Select(s[..|s| - 1], p) + [s[|s| - 1]]
    else Select(s[..|s| - 1], p)
  }

  /** `a` is `b` with some elements deleted, the rest keeping their relative order.
      Matching greedily from the back is complete, so this decides the property. */
  predicate Subsequence<T(==)>(a: seq<T>, b: seq<T>)
    decreases |b|
  {
    if a == [] then true
    else if b == [] then false
    else if a[|a| - 1] == b[|b| - 1] then Subsequence(a[..|a| - 1], b[..|b| - 1])
    else Subsequence(a, b[..|b| - 1])
  }

  predicate NoDuplicates<T(==)>(s: seq<T>) {
    forall i, j :: 0 <= i < j < |s| ==> s[i] != s[j]
  }

  /** One step of a left-to-right pass: selecting over `s + [x]` extends the selection over `s`. */
  lemma SelectSnoc<T>(s: seq<T>, x: T, p: T -> bool)
    ensures Select(s + [x], p) == Select(s, p) + (if p(x) then [x] else [])
  {
    assert (s + [x])[..|s|] == s;
  }

  lemma {:induction false} SelectConcat<T>(a: seq<T>, b: seq<T>, p: T -> bool)
    ensures Select(a + b, p) == Select(a, p) + Select(b, p)
    decreases |b|
  {
    if b == [] {
      assert a + b == a;
    } else {
      var b', x := b[..|b| - 1], b[|b| - 1];
      assert b == b' + [x];
      assert a + b == (a + b') + [x];
      calc {
        Select(a + b, p);
        { SelectSnoc(a + b', x, p); }
        Select(a + b', p) + (if p(x) then [x] else []);
        { SelectConcat(a, b', p); }
        Select(a, p) + Select(b', p) + (if p(x) then [x] else []);
        { SelectSnoc(b', x, p); }
        Select(a, p) + Select(b, p);
      }
    }
  }

  /** Selection keeps every element that satisfies `p` as often as it occurs, and no other. */
  lemma {:induction false} SelectCount<T>(s: seq<T>, p: T -> bool, x: T)
    ensures multiset(Select(s, p))[x] == if p(x) then multiset(s)[x] else 0
    decreases |s|
  {
    if s != [] {
      var s' := s[..|s| - 1];
      assert s == s' + [s[|s| - 1]];
      SelectCount(s', p, x);
    }
  }

  lemma {:induction false} SelectIsSubsequence<T>(s: seq<T>, p: T -> bool)
    ensures Subsequence(Select(s, p), s)
    decreases |s|
  {
    if s != [] {
      var s' := s[..|s| - 1];
      SelectIsSubsequence(s', p);
      if !p(s[|s| - 1]) {
        var r := Select(s', p);
        assert Select(s, p) == r;
        if r != [] {
          assert r[|r| - 1] in r;
        }
      } else {
        var r := Select(s', p) + [s[|s| - 1]];
        assert r[..|r| - 1] == Select(s', p);
      }
    }
  }

  /** Selection changes nothing exactly when every element satisfies `p`. */
  lemma {:induction false} SelectKeepsAll<T>(s: seq<T>, p: T -> bool)
    ensures Select(s, p) == s <==> forall x :: x in s ==> p(x)
    decreases |s|
  {
    if s != [] {
      var s' := s[..|s| - 1];
      SelectKeepsAll(s', p);
      if forall x :: x in s ==> p(x) {
        assert forall x :: x in s' ==> x in s;
        assert s == s' + [s[|s| - 1]];
      }
    }
  }

  /** Selection is empty exactly when no element satisfies `p`. */
  lemma {:induction false} SelectEmpty<T>(s: seq<T>, p: T -> bool)
    ensures Select(s, p) == [] <==> forall x :: x in s ==> !p(x)
    decreases |s|
  {
    if s != [] {
      var s' := s[..|s| - 1];
      SelectEmpty(s', p);
      assert s == s' + [s[|s| - 1]];
      assert forall x :: x in s <==> x in s' || x == s[|s| - 1];
    }
  }

  lemma {:induction false} SelectNoDuplicates<T>(s: seq<T>, p: T -> bool)
    requires NoDuplicates(s)
    ensures NoDuplicates(Select(s, p))
    decreases |s|
  {
    if s != [] {
      var s' := s[..|s| - 1];
      var x := s[|s| - 1];
      assert NoDuplicates(s');
      SelectNoDuplicates(s', p);
      if p(x) {
        var r := Select(s', p);
        forall i | 0 <= i < |s'| ensures s'[i] != x {
          assert s'[i] == s[i];
        }
        assert x !in r;
        var r' := r + [x];
        forall i, j | 0 <= i < j < |r'| ensures r'[i] != r'[j] {
          if j == |r'| - 1 {
            assert r'[i] in r;
          }
        }
      }
    }
  }

  lemma {:induction false} SubsequenceReflexive<T>(s: seq<T>)
    ensures Subsequence(s, s)
    decreases |s|
  {
    if s != [] {
      SubsequenceReflexive(s[..|s| - 1]);
    }
  }
}
