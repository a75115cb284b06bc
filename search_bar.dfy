/**
 * The note search box: a case-insensitive substring filter over titles, contents and tags,
 * capped at eight results, and the keyboard cursor that moves through those results.
 */
module SearchBar {
  import opened Wrappers
  import opened Text
  import opened Seqs
  import opened Notes

  /** At most this many results are listed. */
  const MaxResults: nat := 8

  /** `tags.some(tag => tag.toLowerCase().includes(lq))`. */
  predicate AnyTagContains(tags: seq<string>, lq: string) {
    tags != [] && (Contains(ToLower(tags[0]), lq) || AnyTagContains(tags[1..], lq))
  }

  /** The filter test: the lower-cased query occurs in the title, the content or some tag. */
  predicate Matches(q: string, n: Note) {
    var lq := ToLower(q);
    Contains(ToLower(n.title), lq) || Contains(ToLower(n.content), lq)
    || AnyTagContains(n.tags, lq)
  }

  /** `searchResults`: no results for a blank query, else the first eight matching notes. */
  function SearchResults(q: string, notes: seq<Note>): (r: seq<Note>)
    ensures |r| <= MaxResults
  {
    if Trim(q) == [] then [] else Slice(Filter(notes, (n: Note) => Matches(q, n)), 0, MaxResults)
  }

  /** `some` over the tags holds exactly when some tag contains the query. */
  lemma {:induction false} AnyTagContainsIff(tags: seq<string>, lq: string)
    ensures AnyTagContains(tags, lq) <==> exists k :: 0 <= k < |tags| && Contains(ToLower(tags[k]), lq)
  {
    if tags != [] {
      AnyTagContainsIff(tags[1..], lq);
      if AnyTagContains(tags[1..], lq) {
        var k :| 0 <= k < |tags[1..]| && Contains(ToLower(tags[1..][k]), lq);
        assert tags[k + 1] == tags[1..][k];
      }
      if exists k :: 0 <= k < |tags| && Contains(ToLower(tags[k]), lq) {
        var k :| 0 <= k < |tags| && Contains(ToLower(tags[k]), lq);
        if k > 0 { assert tags[1..][k - 1] == tags[k]; }
      }
    }
  }

  /** A blank or whitespace-only query lists nothing. */
  lemma BlankQueryNoResults(q: string, notes: seq<Note>)
    requires AllWhitespace(q)
    ensures SearchResults(q, notes) == []
  {
    TrimEmptyIff(q);
  }

  /**
   * Soundness and order: every result matches the query, and the results are the matching
   * notes in their original order.
   */
  lemma ResultsMatch(q: string, notes: seq<Note>)
    ensures forall n :: n in SearchResults(q, notes) ==> n in notes && Matches(q, n)
    ensures Subseq(SearchResults(q, notes), notes)
  {
    var f := Filter(notes, (n: Note) => Matches(q, n));
    if Trim(q) != [] {
      var r := Slice(f, 0, MaxResults);
      var m := if |f| < MaxResults then |f| else MaxResults;
      assert r == f[..m];
      forall n | n in r ensures n in f {
        var i :| 0 <= i < |r| && r[i] == n;
        assert f[i] == n;
      }
      PrefixSubseq(f, m);
      SubseqTrans(r, f, notes);
    }
  }

  /**
   * Completeness: with a non-blank query, fewer than eight results means every matching note
   * is listed; otherwise exactly eight are.
   */
  lemma ResultsComplete(q: string, notes: seq<Note>)
    requires !AllWhitespace(q)
    ensures var r := SearchResults(q, notes);
      |r| < MaxResults ==> forall n :: n in notes && Matches(q, n) ==> n in r
    ensures var f := Filter(notes, (n: Note) => Matches(q, n));
      SearchResults(q, notes) == f[..if |f| < MaxResults then |f| else MaxResults]
  {
    TrimEmptyIff(q);
  }

  /** Matching ignores the case of the query. */
  lemma MatchIgnoresQueryCase(q: string, n: Note)
    ensures Matches(ToLower(q), n) == Matches(q, n)
  {
    ToLowerIdempotent(q);
  }

  /** `(i + 1) % n`. */
  function NextIndex(i: nat, n: nat): nat
    requires n > 0
  {
    (i + 1) % n
  }

  /** `(i - 1 + n) % n`. */
  function PrevIndex(i: nat, n: nat): nat
    requires n > 0
  {
    (i - 1 + n) % n
  }

  /** From any index the arrow keys land inside the list, wrapping at both ends. */
  lemma CursorInRange(i: nat, n: nat)
    requires n > 0
    ensures NextIndex(i, n) < n && PrevIndex(i, n) < n
    ensures i == n - 1 ==> NextIndex(i, n) == 0
    ensures i == 0 ==> PrevIndex(i, n) == n - 1
  {
  }

  /** Up undoes down on an index inside the list. */
  lemma UpUndoesDown(i: nat, n: nat)
    requires 0 <= i < n
    ensures PrevIndex(NextIndex(i, n), n) == i
  {
    if i == n - 1 {
      ModPlus(0, n);
      assert NextIndex(i, n) == 0;
      ModPlus(n - 1, n);
    } else {
      ModPlus(i + 1, n);
      assert NextIndex(i, n) == i + 1;
      ModPlus(i, n);
    }
  }

  /** Down undoes up on an index inside the list. */
  lemma DownUndoesUp(i: nat, n: nat)
    requires 0 <= i < n
    ensures NextIndex(PrevIndex(i, n), n) == i
  {
    if i == 0 {
      ModPlus(n - 1, n);
      assert PrevIndex(i, n) == n - 1;
      ModPlus(0, n);
    } else {
      ModPlus(i - 1, n);
      assert PrevIndex(i, n) == i - 1;
      ModPlus(i, n);
    }
  }

  /** An index in range and that index plus `n` leave the same remainder, the index itself. */
  lemma ModPlus(r: nat, n: nat)
    requires r < n
    ensures r % n == r && (r + n) % n == r
  {
  }

  datatype Key = ArrowDown | ArrowUp | Enter | Escape | OtherKey

  /** The search box: its query text, whether the result list is open, and the cursor. */
  class SearchBox {
    var query: string
    var showResults: bool
    var selectedIndex: nat

    constructor (q: string)
      ensures query == q && !showResults && selectedIndex == 0
    {
      query := q;
      showResults := false;
      selectedIndex := 0;
    }

    /** Focusing the input opens the result list. */
    method Focus()
      modifies this
      ensures showResults && query == old(query) && selectedIndex == old(selectedIndex)
    {
      showResults := true;
    }

    /** Typing replaces the query; the cursor is not reset. */
    method Type(q: string)
      modifies this
      ensures query == q && showResults == old(showResults) && selectedIndex == old(selectedIndex)
    {
      query := q;
    }

    /** A mouse-down outside the box closes the result list. */
    method ClickOutside()
      modifies this
      ensures !showResults && query == old(query) && selectedIndex == old(selectedIndex)
    {
      showResults := false;
    }

    /**
     * `handleKeyDown`: nothing happens while the list is closed or empty; the arrows move
     * the cursor cyclically; Enter picks the note under the cursor if there is one, closes
     * the list and clears the query; Escape closes the list.
     */
    method KeyDown(key: Key, notes: seq<Note>) returns (picked: Option<Note>)
      modifies this
      ensures var r := SearchResults(old(query), notes);
        if !old(showResults) || r == [] then
          picked == None && query == old(query) && showResults == old(showResults)
          && selectedIndex == old(selectedIndex)
        else match key
          case ArrowDown =>
            picked == None && query == old(query) && showResults
            && selectedIndex == NextIndex(old(selectedIndex), |r|)
          case ArrowUp =>
            picked == None && query == old(query) && showResults
            && selectedIndex == PrevIndex(old(selectedIndex), |r|)
          case Enter =>
            selectedIndex == old(selectedIndex)
            && (if old(selectedIndex) < |r|
                then picked == Some(r[old(selectedIndex)]) && query == [] && !showResults
                else picked == None && query == old(query) && showResults)
          case Escape =>
            picked == None && query == old(query) && !showResults
            && selectedIndex == old(selectedIndex)
          case OtherKey =>
            picked == None && query == old(query) && showResults
            && selectedIndex == old(selectedIndex)
      ensures picked.Some? ==> picked.value in notes && Matches(old(query), picked.value)
      ensures key.ArrowDown? || key.ArrowUp? ==>
                selectedIndex == old(selectedIndex) || selectedIndex < |SearchResults(old(query), notes)|
    {
      picked := None;
      var r := SearchResults(query, notes);
      if !showResults || |r| == 0 {
        return;
      }
      ResultsMatch(query, notes);
      match key {
        case ArrowDown =>
          selectedIndex := NextIndex(selectedIndex, |r|);
          CursorInRange(old(selectedIndex), |r|);
        case ArrowUp =>
          selectedIndex := PrevIndex(selectedIndex, |r|);
          CursorInRange(old(selectedIndex), |r|);
        case Enter =>
          if selectedIndex < |r| {
            picked := Some(r[selectedIndex]);
            assert r[selectedIndex] in r;
            showResults := false;
            query := [];
          }
        case Escape =>
          showResults := false;
        case OtherKey =>
      }
    }

    /** Clicking result `k` of the open list picks it, closes the list and clears the query. */
    method ClickResult(k: nat, notes: seq<Note>) returns (picked: Note)
      requires showResults && k < |SearchResults(query, notes)|
      modifies this
      ensures picked == SearchResults(old(query), notes)[k]
      ensures picked in notes && Matches(old(query), picked)
      ensures query == [] && !showResults && selectedIndex == old(selectedIndex)
    {
      var r := SearchResults(query, notes);
      ResultsMatch(query, notes);
      picked := r[k];
      assert picked in r;
      showResults := false;
      query := [];
    }
  }
}
