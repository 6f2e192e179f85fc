/** `handleFilterChange` (frontend/src/App.js:770-783): toggling one filter label in the list of
    active filters, where "all" means no restriction. */
module FilterState {

  import opened Collections

  function Other(filter: string): string -> bool {
    f => f != filter
  }

  /** The list `handleFilterChange(filter)` stores in place of `activeFilters`. */
  function ToggleFilter(activeFilters: seq<string>, filter: string): seq<string> {
    if filter == "all" then ["all"]
    else if "all" in activeFilters then [filter]
    else if filter in activeFilters then
      var newFilters := Select(activeFilters, Other(filter));
      if |newFilters| == 0 then ["all"] else newFilters
    else activeFilters + [filter]
  }

  /** The shapes a filter list takes: exactly `['all']`, or a non-empty list of distinct kinds
      without "all". */
  predicate WellFormed(activeFilters: seq<string>) {
    activeFilters == ["all"] || (activeFilters != [] && "all" !in activeFilters && NoDuplicates(activeFilters))
  }

  /** The filter list after a sequence of toggles, starting from the initial `['all']`. */
  function Replay(toggles: seq<string>): seq<string> {
    if toggles == [] then ["all"]
    else ToggleFilter(Replay(toggles[..|toggles| - 1]), toggles[|toggles| - 1])
  }

  /** Rules 1 and 2: choosing "all" always gives `['all']`; choosing a kind while "all" is active
      narrows to that kind. */
  lemma ToggleResets(activeFilters: seq<string>, kind: string)
    ensures ToggleFilter(activeFilters, "all") == ["all"]
    ensures kind != "all" && "all" in activeFilters ==> ToggleFilter(activeFilters, kind) == [kind]
  {
  }

  /** Rule 3: toggling an active kind removes every occurrence of it and keeps the other filters
      in order and with their multiplicities; if none is left the list collapses to `['all']`. */
  lemma ToggleRemoves(activeFilters: seq<string>, kind: string)
    requires kind != "all" && "all" !in activeFilters && kind in activeFilters
    ensures var r := ToggleFilter(activeFilters, kind);
      kind !in r
      && ((forall f :: f in activeFilters ==> f == kind) <==> r == ["all"])
      && (r != ["all"] ==> Subsequence(r, activeFilters))
      && (r != ["all"] ==> forall f :: f != kind ==> multiset(r)[f] == multiset(activeFilters)[f])
  {
    var r := Select(activeFilters, Other(kind));
    SelectEmpty(activeFilters, Other(kind));
    SelectIsSubsequence(activeFilters, Other(kind));
    forall f | f != kind ensures multiset(r)[f] == multiset(activeFilters)[f] {
      SelectCount(activeFilters, Other(kind), f);
    }
    assert "all" !in r;
  }

  /** Rule 4, and its undo: an absent kind is appended after the existing filters, and toggling it
      again gives back the list it was added to (or `['all']` if that list was empty). */
  lemma ToggleUndoesAppend(activeFilters: seq<string>, kind: string)
    requires kind != "all" && "all" !in activeFilters && kind !in activeFilters
    ensures ToggleFilter(activeFilters, kind) == activeFilters + [kind]
    ensures ToggleFilter(ToggleFilter(activeFilters, kind), kind)
         == if activeFilters == [] then ["all"] else activeFilters
  {
    SelectSnoc(activeFilters, kind, Other(kind));
    SelectKeepsAll(activeFilters, Other(kind));
  }

  /** Toggling the same filter twice from the initial list returns to it. */
  lemma DoubleToggleFromAll(kind: string)
    ensures ToggleFilter(ToggleFilter(["all"], kind), kind) == ["all"]
  {
    if kind != "all" {
      SelectSnoc([], kind, Other(kind));
      assert [] + [kind] == [kind];
    }
  }

  /** Every toggle keeps a well-formed list well-formed. */
  lemma ToggleKeepsWellFormed(activeFilters: seq<string>, filter: string)
    requires WellFormed(activeFilters)
    ensures WellFormed(ToggleFilter(activeFilters, filter))
  {
    if filter != "all" && "all" !in activeFilters {
      if filter in activeFilters {
        SelectNoDuplicates(activeFilters, Other(filter));
      } else {
        var r := activeFilters + [filter];
        forall i, j | 0 <= i < j < |r| ensures r[i] != r[j] {
          if j == |r| - 1 {
            assert r[i] in activeFilters;
          }
        }
      }
    }
  }

  /** Every list reachable from `['all']` is `['all']` or a non-empty, duplicate-free list of kinds
      without "all"; in particular it is never empty. */
  lemma {:induction false} ReachableWellFormed(toggles: seq<string>)
    ensures WellFormed(Replay(toggles))
    ensures Replay(toggles) != []
    decreases |toggles|
  {
    if toggles != [] {
      ReachableWellFormed(toggles[..|toggles| - 1]);
      ToggleKeepsWellFormed(Replay(toggles[..|toggles| - 1]), toggles[|toggles| - 1]);
    }
  }
}
