/**
 * The view state of the Uutishuone ("newsroom") page: the fetched feeds and
 * feed items, the sidebar's feed filter, and the paginated list of the items
 * the filter lets through.
 *
 * The derived views (active filters, filtered list, visible page, sidebar
 * highlight) are pure functions of the state; the page's state updates
 * (toggling a feed, "load more", the fetch landing) are methods of the class
 * `Newsroom`.
 */
module Uutishuone {
  import opened Subsequences

  /** Number of items revealed per "load more". */
  const PAGE_SIZE: int := 10

  /** A news source the reader can filter by. */
  datatype Feed = Feed(id: int, name: string)

  /** One published item; `feedId` names the feed it belongs to. */
  datatype FeedItem = FeedItem(feedId: int, content: string)

  /**
   * Feed id to "included in the filter". A key that is absent reads as not
   * selected, as an undefined property is falsy.
   */
  type Selection = map<int, bool>

  function Min(a: int, b: int): int { if a < b then a else b }
  function Max(a: int, b: int): int { if a < b then b else a }

  /** The truthiness of `selection[id]`. */
  function Lookup(selection: Selection, id: int): bool
  {
    if id in selection then selection[id] else false
  }

  // ---------------------------------------------------------------------------
  // Toggling a feed in the filter
  // ---------------------------------------------------------------------------

  /**
   * The selection after the sidebar entry `id` is clicked: a copy of the old
   * selection with `id` set to the negation of its old (possibly absent)
   * value.
   */
  function Toggled(selection: Selection, id: int): (r: Selection)
    ensures Lookup(r, id) == !Lookup(selection, id)
    ensures forall k :: k != id ==> Lookup(r, k) == Lookup(selection, k)
    ensures r.Keys == selection.Keys + {id}
    ensures forall k :: k in selection && k != id ==> r[k] == selection[k]
  {
    selection[id := !Lookup(selection, id)]
  }

  /**
   * Clicking the same feed twice restores every lookup, and with it whether
   * filters are active and which items pass, although the map may now hold
   * an explicit `false` for `id`.
   */
  lemma ToggleTwice(selection: Selection, id: int, items: seq<FeedItem>)
    ensures var twice := Toggled(Toggled(selection, id), id);
      && (forall k :: Lookup(twice, k) == Lookup(selection, k))
      && HasActiveFilters(twice) == HasActiveFilters(selection)
      && Filtered(items, twice) == Filtered(items, selection)
  {
    SameLookupsSameFilter(items, Toggled(Toggled(selection, id), id), selection);
  }

  /** From an empty filter, toggling a feed on and off leaves an explicit `false`. */
  lemma ToggleOnOffFromEmpty(id: int)
    ensures Toggled(Toggled(map[], id), id) == map[id := false]
    ensures !HasActiveFilters(Toggled(Toggled(map[], id), id))
  {
  }

  // ---------------------------------------------------------------------------
  // Active filters
  // ---------------------------------------------------------------------------

  /** A stored `true` belongs to some key. */
  lemma TrueHasKey(selection: Selection)
    requires true in selection.Values
    ensures exists id :: id in selection && selection[id]
  {
    assert (forall id | id in selection :: !selection[id]) ==> (forall v | v in selection.Values :: !v);
  }

  /**
   * `Object.values(selectedFeedIds).some(Boolean)`: `true` is among the
   * stored values, which is the same as some feed id reading as selected.
   */
  function HasActiveFilters(selection: Selection): (r: bool)
    ensures r <==> exists id :: Lookup(selection, id)
  {
    var active := true in selection.Values;
    assert active ==> exists id :: Lookup(selection, id) by {
      if active {
        TrueHasKey(selection);
        var id :| id in selection && selection[id];
        assert Lookup(selection, id);
      }
    }
    assert (exists id :: Lookup(selection, id)) ==> active by {
      if id :| Lookup(selection, id) {
        assert selection[id] in selection.Values;
      }
    }
    active
  }

  /**
   * After a toggle, a filter is active iff the toggled feed was switched on
   * or some other feed was already selected.
   */
  lemma ToggleActivity(selection: Selection, id: int)
    ensures HasActiveFilters(Toggled(selection, id)) <==>
      !Lookup(selection, id) || exists k :: k != id && Lookup(selection, k)
  {
  }

  // ---------------------------------------------------------------------------
  // Filtering
  // ---------------------------------------------------------------------------

  /**
   * The items whose feed is selected, in their original order. This is
   * `feedItems.filter(item => selectedFeedIds[item.feedId])`.
   */
  function Keep(items: seq<FeedItem>, selection: Selection): (r: seq<FeedItem>)
    ensures IsSubseq(r, items)
    ensures forall i :: 0 <= i < |r| ==> Lookup(selection, r[i].feedId)
    ensures forall x :: (multiset(r)[x] ==
      if Lookup(selection, x.feedId) then multiset(items)[x] else 0)
    decreases |items|
  {
    if items == [] then []
    else
      var rest := Keep(items[1..], selection);
      assert items == [items[0]] + items[1..];
      SubseqCons(items[0], rest, items[1..]);
      if Lookup(selection, items[0].feedId) then [items[0]] + rest else rest
  }

  /**
   * The list the page shows before pagination: every item when no filter is
   * active, otherwise the selected feeds' items. Either way the result is
   * the order-preserving subsequence that keeps exactly the items whose feed
   * is shown as selected in the sidebar.
   */
  function Filtered(items: seq<FeedItem>, selection: Selection): (r: seq<FeedItem>)
    ensures !HasActiveFilters(selection) ==> r == items
    ensures IsSubseq(r, items)
    ensures forall i :: 0 <= i < |r| ==> IsSelected(selection, r[i].feedId)
    ensures forall x :: (multiset(r)[x] ==
      if IsSelected(selection, x.feedId) then multiset(items)[x] else 0)
  {
    if !HasActiveFilters(selection) then
      SubseqRefl(items);
      items
    else
      Keep(items, selection)
  }

  /**
   * The filtered list is the only order-preserving subsequence of the items
   * that keeps every selected item and no other.
   */
  lemma {:induction false} FilterUnique(items: seq<FeedItem>, selection: Selection, r: seq<FeedItem>)
    requires IsSubseq(r, items)
    requires forall x :: (multiset(r)[x] ==
      if Lookup(selection, x.feedId) then multiset(items)[x] else 0)
    ensures r == Keep(items, selection)
    decreases |items|
  {
    if items == [] {
    } else {
      var h, t := items[0], items[1..];
      assert items == [h] + t;
      if r != [] && r[0] == h && IsSubseq(r[1..], t) {
        assert r == [h] + r[1..];
        assert multiset(r)[h] > 0;
        FilterUnique(t, selection, r[1..]);
      } else {
        assert r == [] || IsSubseq(r, t);
        if r != [] {
          SubseqMultiset(r, t);
        }
        // the first item cannot be selected: r would miss one of its copies
        assert !Lookup(selection, h.feedId);
        forall x ensures multiset(r)[x] ==
          (if Lookup(selection, x.feedId) then multiset(t)[x] else 0)
        {
          if x == h {
            assert multiset(r)[x] == 0;
          }
        }
        FilterUnique(t, selection, r);
      }
    }
  }

  /** Filtering looks at the selection only through its lookups. */
  lemma {:induction false} SameLookupsSameKeep(items: seq<FeedItem>, s1: Selection, s2: Selection)
    requires forall k :: Lookup(s1, k) == Lookup(s2, k)
    ensures Keep(items, s1) == Keep(items, s2)
    decreases |items|
  {
    if items != [] {
      SameLookupsSameKeep(items[1..], s1, s2);
    }
  }

  /** Two selections with the same lookups give the same filtered list. */
  lemma SameLookupsSameFilter(items: seq<FeedItem>, s1: Selection, s2: Selection)
    requires forall k :: Lookup(s1, k) == Lookup(s2, k)
    ensures HasActiveFilters(s1) == HasActiveFilters(s2)
    ensures Filtered(items, s1) == Filtered(items, s2)
  {
    SameLookupsSameKeep(items, s1, s2);
  }

  // ---------------------------------------------------------------------------
  // Pagination
  // ---------------------------------------------------------------------------

  /**
   * The end index that `slice(0, end)` uses on a list of length `len`: a
   * negative `end` counts from the back, and both ends are clamped to the
   * list.
   */
  function SliceEnd(len: nat, end: int): (r: nat)
    ensures r <= len
  {
    if end < 0 then (if len + end < 0 then 0 else len + end)
    else if end < len then end
    else len
  }

  /** `filtered.slice(0, PAGE_SIZE * page)`: a prefix of the filtered list. */
  function Paginated(filtered: seq<FeedItem>, page: int): (r: seq<FeedItem>)
    ensures r <= filtered
    ensures page >= 0 ==> |r| == Min(|filtered|, PAGE_SIZE * page)
    ensures page < 0 ==> |r| == Max(|filtered| + PAGE_SIZE * page, 0)
  {
    filtered[..SliceEnd(|filtered|, PAGE_SIZE * page)]
  }

  /** A later page shows the earlier page's items first, and never fewer. */
  lemma PaginatedMonotone(filtered: seq<FeedItem>, p: int, q: int)
    requires 0 <= p <= q
    ensures Paginated(filtered, p) <= Paginated(filtered, q)
    ensures |Paginated(filtered, p)| <= |Paginated(filtered, q)|
  {
  }

  /** Asking for a page past the end shows the whole list, without error. */
  lemma PaginatedPastEnd(filtered: seq<FeedItem>, page: int)
    requires PAGE_SIZE * page >= |filtered|
    ensures Paginated(filtered, page) == filtered
  {
  }

  /** Twenty-five items show as 10, 20 and then all 25 on pages 1, 2 and 3. */
  lemma PaginationOfTwentyFive(filtered: seq<FeedItem>)
    requires |filtered| == 25
    ensures Paginated(filtered, 1) == filtered[..10]
    ensures Paginated(filtered, 2) == filtered[..20]
    ensures Paginated(filtered, 3) == filtered
  {
  }

  // ---------------------------------------------------------------------------
  // Sidebar
  // ---------------------------------------------------------------------------

  /**
   * The highlight of the sidebar entry for feed `id`: every feed while no
   * filter is active, otherwise exactly the feeds set to `true`.
   */
  function IsSelected(selection: Selection, id: int): bool
  {
    !HasActiveFilters(selection) || Lookup(selection, id)
  }

  /** The highlight of each sidebar entry, in the order of the feed list. */
  function SidebarFlags(feeds: seq<Feed>, selection: Selection): seq<bool>
  {
    seq(|feeds|, i requires 0 <= i < |feeds| => IsSelected(selection, feeds[i].id))
  }

  /** A fetched item is listed (before pagination) iff its feed is highlighted. */
  lemma HighlightMatchesList(items: seq<FeedItem>, selection: Selection, x: FeedItem)
    requires x in items
    ensures x in Filtered(items, selection) <==> IsSelected(selection, x.feedId)
  {
  }

  /**
   * The sidebar's i-th highlight agrees with the list: an item of that feed
   * is listed iff the entry is highlighted, and with no active filter every
   * entry is.
   */
  lemma SidebarMatchesList(feeds: seq<Feed>, items: seq<FeedItem>, selection: Selection, i: int, x: FeedItem)
    requires 0 <= i < |feeds| && x in items && x.feedId == feeds[i].id
    ensures |SidebarFlags(feeds, selection)| == |feeds|
    ensures x in Filtered(items, selection) <==> SidebarFlags(feeds, selection)[i]
    ensures !HasActiveFilters(selection) ==> SidebarFlags(feeds, selection)[i]
  {
  }

  /**
   * Feeds 1 and 2 with items of feeds 1, 2, 1: without a filter all three
   * show in order; with feed 1 toggled on, the two items of feed 1 show.
   */
  lemma FilterScenario(a: FeedItem, b: FeedItem, c: FeedItem)
    requires a.feedId == 1 && b.feedId == 2 && c.feedId == 1
    ensures Filtered([a, b, c], map[]) == [a, b, c]
    ensures Filtered([a, b, c], Toggled(map[], 1)) == [a, c]
  {
    var s := Toggled(map[], 1);
    assert Lookup(s, 1) && !Lookup(s, 2);
    assert [a, b, c][1..] == [b, c];
    assert [b, c][1..] == [c];
    assert Keep([c], s) == [c];
    assert Keep([b, c], s) == [c];
  }

  // ---------------------------------------------------------------------------
  // The page component's state
  // ---------------------------------------------------------------------------

  class Newsroom {
    var isLoading: bool
    var feeds: seq<Feed>
    var feedItems: seq<FeedItem>
    var pageNumber: int
    var selectedFeedIds: Selection

    /** The page number starts at 1 and is only reset to 1 or incremented. */
    ghost predicate Valid()
      reads this
    {
      pageNumber >= 1
    }

    /** The items rendered in the list, once loading is over. */
    function Visible(): (r: seq<FeedItem>)
      reads this
      requires Valid()
      ensures r <= Filtered(feedItems, selectedFeedIds)
      ensures |r| == Min(|Filtered(feedItems, selectedFeedIds)|, PAGE_SIZE * pageNumber)
      ensures |r| >= Min(|Filtered(feedItems, selectedFeedIds)|, PAGE_SIZE)
    {
      Paginated(Filtered(feedItems, selectedFeedIds), pageNumber)
    }

    /** What the content area lists: nothing while loading (a spinner shows). */
    function Shown(): seq<FeedItem>
      reads this
      requires Valid()
    {
      if isLoading then [] else Visible()
    }

    /** The state on mount: loading, nothing fetched, page 1, no filter. */
    constructor ()
      ensures Valid()
      ensures isLoading && feeds == [] && feedItems == []
      ensures pageNumber == 1 && selectedFeedIds == map[]
      ensures !HasActiveFilters(selectedFeedIds) && Visible() == [] && Shown() == []
    {
      isLoading := true;
      feeds := [];
      feedItems := [];
      pageNumber := 1;
      selectedFeedIds := map[];
    }

    /** A click on the sidebar entry of `feedId`: flip it and go back to page 1. */
    method ToggleSelectedFeedId(feedId: int)
      requires Valid()
      modifies this
      ensures Valid()
      ensures selectedFeedIds == Toggled(old(selectedFeedIds), feedId)
      ensures Lookup(selectedFeedIds, feedId) == !Lookup(old(selectedFeedIds), feedId)
      ensures forall k :: k != feedId ==> Lookup(selectedFeedIds, k) == Lookup(old(selectedFeedIds), k)
      ensures pageNumber == 1
      ensures isLoading == old(isLoading) && feeds == old(feeds) && feedItems == old(feedItems)
    {
      selectedFeedIds := Toggled(selectedFeedIds, feedId);
      pageNumber := 1;
    }

    /**
     * The "load more" button, which is only rendered once loading is over:
     * one more page, the earlier items stay in front.
     */
    method LoadMore()
      requires Valid()
      requires !isLoading
      modifies this
      ensures Valid()
      ensures pageNumber == old(pageNumber) + 1
      ensures selectedFeedIds == old(selectedFeedIds) && feedItems == old(feedItems)
      ensures isLoading == old(isLoading) && feeds == old(feeds)
      ensures old(Visible()) <= Visible() && |old(Visible())| <= |Visible()|
    {
      pageNumber := pageNumber + 1;
      PaginatedMonotone(Filtered(feedItems, selectedFeedIds), pageNumber - 1, pageNumber);
    }

    /** The fetch resolving: install its feeds and items and stop loading. */
    method FetchDone(fetchedFeeds: seq<Feed>, fetchedItems: seq<FeedItem>)
      requires Valid()
      modifies this
      ensures Valid()
      ensures feeds == fetchedFeeds && feedItems == fetchedItems && !isLoading
      ensures pageNumber == old(pageNumber) && selectedFeedIds == old(selectedFeedIds)
      ensures Shown() == Visible()
    {
      feeds := fetchedFeeds;
      feedItems := fetchedItems;
      isLoading := false;
    }
  }
}
