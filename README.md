# Uutishuone view state, in Dafny

A model of the view state of the Uutishuone ("newsroom") page of pandemia-fi.
The page fetches feeds (news sources) and feed items (articles) once. A sidebar
lets the reader toggle feeds in and out of a filter. The content area lists the
items that the filter lets through, ten per page, with a "load more" button.

- `subsequences.dfy`, module `Subsequences`: order-preserving subsequences
  (`IsSubseq`) and three facts about them.
- `uutishuone.dfy`, module `Uutishuone`: the `Feed` and `FeedItem` records, the
  selection map (`Selection`, feed id to bool, where an absent key reads as
  false), the derived views as pure functions, and the class `Newsroom`.
  `Newsroom` holds the component's five state fields. Its methods are the
  three state updates.

Some members are plain definitions, modelled directly on the source and used
by the contracts below. `Lookup` is the truthiness of `selectedFeedIds[id]`
(uutishuone.tsx:27, :50, :111). `SliceEnd` is the end index of
`slice(0, end)` (:54). `IsSelected` is the sidebar rule (:111).
`SidebarFlags` is the highlight of each feed in order (:108-115).
`Newsroom.Shown` is the content area: nothing but the spinner while loading,
the visible page afterwards (:139-140).

The fetch is not modelled. `Newsroom.FetchDone` takes the fetch result as its
parameters and applies the updates that run when the result arrives.

## Model

| member | source | states |
|---|---|---|
| Uutishuone.Toggled | pandemia-fi/src/pages/uutishuone/uutishuone.tsx:24-28 | the toggled id's lookup is negated (absent becomes true); every other id's lookup and stored value is unchanged; the key set gains the id |
| Uutishuone.ToggleTwice | pandemia-fi/src/pages/uutishuone/uutishuone.tsx:24-28 | toggling an id twice restores every lookup, whether filters are active, and the filtered list |
| Uutishuone.ToggleOnOffFromEmpty | pandemia-fi/src/pages/uutishuone/uutishuone.tsx:24-28 | from an empty selection, on then off leaves an explicit false entry, and no filter is active |
| Uutishuone.HasActiveFilters | pandemia-fi/src/pages/uutishuone/uutishuone.tsx:42-44 | `true` is among the map's values iff some feed id looks up as true |
| Uutishuone.TrueHasKey | pandemia-fi/src/pages/uutishuone/uutishuone.tsx:43 | a `true` among the map's values is stored under some key |
| Uutishuone.ToggleActivity | pandemia-fi/src/pages/uutishuone/uutishuone.tsx:24-28 | after a toggle a filter is active iff the toggled feed was switched on or some other feed was already selected |
| Uutishuone.Keep | pandemia-fi/src/pages/uutishuone/uutishuone.tsx:50 | the result is an order-preserving subsequence of the items; every kept item's feed is selected; each item occurs as often as in the input if its feed is selected, and not at all otherwise |
| Uutishuone.Filtered | pandemia-fi/src/pages/uutishuone/uutishuone.tsx:46-51 | with no active filter the result is the fetched items; in every case it is the order-preserving subsequence keeping exactly the items whose feed shows as selected, with all of their copies |
| Uutishuone.FilterUnique | pandemia-fi/src/pages/uutishuone/uutishuone.tsx:50 | any subsequence of the items that keeps all copies of the selected items and nothing else equals the filter's result, so the filter is fully determined |
| Uutishuone.SameLookupsSameKeep | pandemia-fi/src/pages/uutishuone/uutishuone.tsx:50 | filtering depends on the selection only through its lookups |
| Uutishuone.SameLookupsSameFilter | pandemia-fi/src/pages/uutishuone/uutishuone.tsx:42-51 | selections with the same lookups give the same active-filter flag and filtered list |
| Uutishuone.Paginated | pandemia-fi/src/pages/uutishuone/uutishuone.tsx:53-55 | the page shown is a prefix of the filtered list of length min(length, 10 × page) for page ≥ 0 |
| Uutishuone.PaginatedMonotone | pandemia-fi/src/pages/uutishuone/uutishuone.tsx:53-55 | for pages 0 ≤ p ≤ q the earlier page is a prefix of the later one and is no longer |
| Uutishuone.PaginatedPastEnd | pandemia-fi/src/pages/uutishuone/uutishuone.tsx:54 | a page that runs past the end shows the whole filtered list, without error |
| Uutishuone.PaginationOfTwentyFive | pandemia-fi/src/pages/uutishuone/uutishuone.tsx:53-55 | 25 filtered items show as 10, 20 and then 25 on pages 1, 2 and 3 |
| Uutishuone.HighlightMatchesList | pandemia-fi/src/pages/uutishuone/uutishuone.tsx:111 | a fetched item passes the filter iff the sidebar highlights its feed |
| Uutishuone.SidebarMatchesList | pandemia-fi/src/pages/uutishuone/uutishuone.tsx:108-115 | there is one highlight per feed; an item of the i-th feed passes the filter iff the i-th entry is highlighted, and with no active filter every entry is |
| Uutishuone.FilterScenario | pandemia-fi/src/pages/uutishuone/uutishuone.tsx:46-51 | items of feeds 1, 2, 1: unfiltered all three in order; with feed 1 toggled on, the two items of feed 1 |
| Uutishuone.Newsroom.Visible | pandemia-fi/src/pages/uutishuone/uutishuone.tsx:53-55 | the listed items are a prefix of the filtered list of length min(length, 10 × page), so at least the first page |
| Uutishuone.Newsroom.constructor | pandemia-fi/src/pages/uutishuone/uutishuone.tsx:16-22 | on mount: loading, no feeds or items, page 1, empty selection, so no active filter and nothing shown |
| Uutishuone.Newsroom.ToggleSelectedFeedId | pandemia-fi/src/pages/uutishuone/uutishuone.tsx:24-30 | the selection becomes the toggled one, with only the clicked id's lookup flipped; the page resets to 1; feeds, items and loading are unchanged |
| Uutishuone.Newsroom.LoadMore | pandemia-fi/src/pages/uutishuone/uutishuone.tsx:68-76 | callable only once loading is over, where the button is rendered; the page grows by exactly 1; selection, items, feeds and loading are unchanged; the old visible list is a prefix of the new one and no longer |
| Uutishuone.Newsroom.FetchDone | pandemia-fi/src/pages/uutishuone/uutishuone.tsx:35-37 | feeds and items become the fetched ones and loading is cleared, so the content area lists the visible page; page and selection are unchanged |

## Left out

- The fetch itself (`fetchAllFeedsAndItems`, `useEffect`, lines 6 and 32-40): network I/O and event-loop scheduling. Only the synchronous update applied on arrival is modelled, as `Newsroom.FetchDone`, with the result as a parameter. The model does not enforce that it runs once per mount.
- Fetch failure and unmount before the fetch resolves: the source handles neither.
- Rendering: JSX and rebass layout, styling, React `key` strings, and the `SpinnerBlock`, `NewsFeedItem` and `SidebarItem` components, whose source is not part of this model. Only the data handed to them is modelled (`Shown`, `SidebarFlags`).
- `React.useMemo` caching: the derived values are plain functions of the current state.
- React update batching and stale closures: the handlers read the state captured at render time. Two clicks handled before a re-render would both start from the same state. The methods model one click per render.
- JavaScript numbers: ids and the page number are unbounded integers. Object keys are ints, not the strings JavaScript coerces them to. The product `PAGE_SIZE * pageNumber` is exact, with no floating-point rounding.
- Uutishuone.PaginatedMonotone: stated only for pages ≥ 0. A negative `slice` end counts from the back, so prefixes are not monotone across 0. The page number never drops below 1 (`Newsroom.Valid`).
- Uutishuone.Newsroom.ToggleSelectedFeedId and Uutishuone.Newsroom.FetchDone accept every valid state, including ones the page cannot reach, such as a toggle while loading or of an id no fetched feed has. Their contracts hold in all of them.
- Feed items whose `feedId` matches no fetched feed are not rejected. The source does not check this either.
