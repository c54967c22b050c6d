# Infinite card grid and portfolio store — a Dafny model

This project models the core of a portfolio site laid out as a pannable,
zoomable grid of cards. It has three parts:

- **Grid calculations** (module `GridCalculations`, `geometry.dfy`). These are
  rectangle geometry functions: a point-in-bounds test, the gap distance between
  two rectangles, and the centre, scale and translate of a rectangle. The module
  also covers the transform between screen pixels and grid coordinates, and the
  grid rectangle that a viewport shows.
- **Grid store** (module `Grid`, `grid_store.dfy`). `GridStore` is a class. Its
  fields are the store's module-level state:
  - the viewport: offset, zoom, pixel size and zoom range;
  - the ordered card list;
  - the drag anchors;
  - the selected and expanded card;
  - the animating flag.

  Its methods are the exported actions: pan, zoom about a point, fit to
  content, the drag lifecycle, and card list edits. The derived views are pure
  functions of the fields: the visible cards and the padded content extent.
- **Portfolio store** (module `Portfolio`, `portfolio_store.dfy`), synchronous
  part. `PortfolioStore` is a class that holds:
  - the bio and content card lists;
  - the active category, tag and card-type filters;
  - the search query.

  Its methods are the filter mutators and the admin edits. The derived lists
  are functions: filtered content (search, then each active filter), featured
  content (first five featured and published cards) and recent content (ten
  latest published cards).

`sequences.dfy` (module `Sequences`) holds the JavaScript array operations the
stores use: `filter`, `findIndex`, `slice(0, n)`, `Math.min`/`Math.max` over a
spread list, and the spread `{...a, ...b}` of a partial object, modelled as an
`Option` per field. It also defines the subsequence relation, which states
that a derived list keeps the source order.

JavaScript `number` is modelled as `real`: arithmetic is exact. A grid distance
is kept squared. The derived values of both stores are declared as
`$derived(() => ...)`, so each getter hands out the derivation function. The
model gives the value that this function returns when it is called.

## Model

| member | source | states |
|---|---|---|
| GridCalculations.IsPointInBounds | src/lib/utils/grid/calculations.ts:4-11 | containment is inclusive on all four edges, and only a rectangle of non-negative size contains any point |
| GridCalculations.BoundsDistanceSquared | src/lib/utils/grid/calculations.ts:13-17 | the squared gap distance is never negative |
| GridCalculations.BoundsDistanceSymmetric | src/lib/utils/grid/calculations.ts:13-17 | the distance is symmetric in its two rectangles |
| GridCalculations.DistanceZeroWhenTouching | src/lib/utils/grid/calculations.ts:13-17 | overlapping or touching rectangles are at distance zero; they do not touch exactly when one of the two gaps is positive |
| GridCalculations.DistanceAlongX | src/lib/utils/grid/calculations.ts:13-17 | when the y-extents meet, the distance is the horizontal gap alone |
| GridCalculations.BoundsCenter | src/lib/utils/grid/calculations.ts:19-24 | the centre is midway between the left and right edges and between the top and bottom edges |
| GridCalculations.CenterInBoundsIffNonNegative | src/lib/utils/grid/calculations.ts:19-24 | the centre lies in the rectangle exactly when width and height are non-negative |
| GridCalculations.ScaleBounds | src/lib/utils/grid/calculations.ts:26-33 | position and size are scaled alike, so the far corner is scaled by the same factor |
| GridCalculations.ScaleByOne | src/lib/utils/grid/calculations.ts:26-33 | scaling by 1 is the identity |
| GridCalculations.ScaleCompose | src/lib/utils/grid/calculations.ts:26-33 | scaling by f then by g is scaling by f*g |
| GridCalculations.ScalePreservesContainment | src/lib/utils/grid/calculations.ts:26-33 | a positive scale of both point and rectangle keeps containment, both ways |
| GridCalculations.TranslateBounds | src/lib/utils/grid/calculations.ts:35-42 | the size is kept and both corners move by the offset |
| GridCalculations.TranslateRoundTrip | src/lib/utils/grid/calculations.ts:35-42 | translating by o and then by -o gives back the rectangle |
| GridCalculations.TranslatePreservesContainment | src/lib/utils/grid/calculations.ts:35-42 | shifting point and rectangle by the same offset keeps containment, both ways |
| GridCalculations.ViewportBounds | src/lib/utils/grid/calculations.ts:44-51 | the shown grid rectangle runs from the grid image of the screen's top-left corner to that of its bottom-right corner |
| GridCalculations.ViewportBoundsIsScreenImage | src/lib/utils/grid/calculations.ts:44-51 | with a positive zoom, a grid point is in the shown rectangle exactly when its screen image is on the screen |
| GridCalculations.ScreenToGrid | src/lib/utils/grid/calculations.ts:53-58 | for a non-zero zoom, the grid point maps back through gridToScreen to the screen point it came from |
| GridCalculations.GridToScreen | src/lib/utils/grid/calculations.ts:60-65 | for a non-zero zoom, undoing the offset and the zoom gives back the grid point, so screenToGrid inverts it |
| Sequences.Filter | src/lib/stores/grid.svelte.ts:90-92 | `filter` keeps exactly the elements passing the test, in order, and every copy of each: a passing element occurs as often as in the input, a failing one not at all |
| Sequences.FirstIndex | src/lib/stores/grid.svelte.ts:84 | `findIndex` finds the first index passing the test, and none exactly when no element passes |
| Sequences.Take | src/lib/stores/portfolio.svelte.ts:68-72 | `slice(0, n)` is the first n elements, or all of them when there are fewer |
| Sequences.TakeIsSubsequence | src/lib/stores/portfolio.svelte.ts:68-72 | `slice(0, n)` keeps a subsequence and a sub-multiset of the list, and the whole list when it is shorter than n |
| Sequences.MinOf | src/lib/stores/grid.svelte.ts:56-57 | `Math.min` of a non-empty spread is an element no greater than any other |
| Sequences.MaxOf | src/lib/stores/grid.svelte.ts:58-59 | `Math.max` of a non-empty spread is an element no smaller than any other |
| Grid.VisibleCards | src/lib/stores/grid.svelte.ts:33-51 | the visible cards are an order-preserving subsequence of the cards; a card is visible exactly when its rectangle overlaps or touches the shown grid rectangle, and every copy of a visible card is kept |
| Grid.GridBounds | src/lib/stores/grid.svelte.ts:53-68 | no cards give 0,0,800,600; otherwise every card lies at least 100 inside each edge, and each edge is exactly 100 beyond some card |
| Grid.GridBoundsNonDegenerate | src/lib/stores/grid.svelte.ts:53-68 | with non-negative card sizes the extent is at least 200 across in both directions, so fitting never divides by zero |
| Grid.ClampZoom | src/lib/stores/grid.svelte.ts:106-107 | the clamped zoom is at least minZoom and, for a well-formed range, at most maxZoom; a zoom inside the range is kept; one outside goes to the nearer end |
| Grid.ClampZoomIdempotent | src/lib/stores/grid.svelte.ts:133-135 | clamping twice is clamping once, so the second clamp in zoomTo changes nothing |
| Grid.ZoomedOffset | src/lib/stores/grid.svelte.ts:109-113 | the offset after zooming about a screen coordinate; it is unchanged when the zoom is |
| Grid.ZoomKeepsGridPoint | src/lib/stores/grid.svelte.ts:109-116 | zooming about a screen coordinate keeps the grid coordinate under it |
| Grid.JsMin | src/lib/stores/grid.svelte.ts:131-133 | `Math.min` is NaN when an argument is NaN, otherwise the smaller argument |
| Grid.JsMax | src/lib/stores/grid.svelte.ts:133 | `Math.max` is NaN when an argument is NaN, otherwise the larger argument |
| Grid.FitZoomAsWritten | src/lib/stores/grid.svelte.ts:124-133 | as written, the zoom fitToGrid computes is NaN for every viewport: the bounds it reads are undefined (see Findings) |
| Grid.FitToGridAsWrittenLosesZoom | src/lib/stores/grid.svelte.ts:124-137 | the NaN zoom survives the clamp in zoomTo, so the zoom after fitToGrid as written lies in no range (see Findings) |
| Grid.DraggedOffset | src/lib/stores/grid.svelte.ts:165-173 | during a drag the offset keeps its distance to the pointer, so the grid moves with the pointer, and the pointer back at the anchor gives back the start offset |
| Grid.FindCard | src/lib/stores/grid.svelte.ts:83-85 | the lookup finds the first card with the id, and none exactly when no card has it |
| Grid.WithoutCard | src/lib/stores/grid.svelte.ts:90-92 | removal keeps the other cards in order and every copy of each, drops every card with the id, and changes nothing for an unknown id |
| Grid.GridStore.constructor | src/lib/stores/grid.svelte.ts:5-29 | the initial viewport is offset 0,0, zoom 1, size 1200x800, zoom range 0.5 to 2; no cards; every flag is cleared |
| Grid.GridStore.SetViewport | src/lib/stores/grid.svelte.ts:71-73 | the given viewport fields replace the current ones, and the others stay |
| Grid.GridStore.SetCards | src/lib/stores/grid.svelte.ts:75-77 | the card list is replaced |
| Grid.GridStore.AddCard | src/lib/stores/grid.svelte.ts:79-81 | the card is appended |
| Grid.GridStore.UpdateCard | src/lib/stores/grid.svelte.ts:83-88 | only the first card with the id is merged with the update; the length is kept; an unknown id changes nothing |
| Grid.GridStore.RemoveCard | src/lib/stores/grid.svelte.ts:90-92 | the card list becomes the list without that id |
| Grid.GridStore.PanTo | src/lib/stores/grid.svelte.ts:95-104 | the offset is set so that the grid point maps to the viewport centre; zoom, size and range stay; animate raises the animating flag |
| Grid.GridStore.ZoomTo | src/lib/stores/grid.svelte.ts:106-122 | the zoom is clamped into the range. With both centre coordinates, the grid point under the centre stays put; otherwise, or when the zoom is unchanged, the offset stays. Size and range stay |
| Grid.GridStore.FitToGrid | src/lib/stores/grid.svelte.ts:124-137 | the zoom is 0.9 of the smaller fitting scale, clamped into the range; the centre of the padded extent maps to the viewport centre; size and range stay |
| Grid.GridStore.SelectCard | src/lib/stores/grid.svelte.ts:140-142 | the selection is recorded |
| Grid.GridStore.ExpandCard | src/lib/stores/grid.svelte.ts:144-156 | the id is always recorded. A non-empty id naming a card centres the viewport on that card at the same zoom; otherwise viewport and animating flag stay |
| Grid.GridStore.StartDrag | src/lib/stores/grid.svelte.ts:159-163 | dragging starts, anchored at the pointer and at the current offset |
| Grid.GridStore.UpdateDrag | src/lib/stores/grid.svelte.ts:165-173 | when not dragging nothing changes; otherwise the offset is the start offset moved by the pointer's displacement from the anchor, which stays put |
| Grid.GridStore.EndDrag | src/lib/stores/grid.svelte.ts:175-177 | dragging stops, however often it is called |
| Portfolio.AddUnique | src/lib/stores/portfolio.svelte.ts:158-162 | a present value leaves the list unchanged and an absent one is appended; a list without duplicates never gains one |
| Portfolio.RemoveAll | src/lib/stores/portfolio.svelte.ts:164-166 | every occurrence is removed, every other value keeps all its copies and their order; removing an absent value changes nothing |
| Portfolio.Includes | src/lib/stores/portfolio.svelte.ts:36-40 | `includes` finds the empty needle in every string and never a needle longer than the string |
| Portfolio.IncludesIffOccurs | src/lib/stores/portfolio.svelte.ts:36-40 | `includes` holds exactly when the needle occurs at some index of the string |
| Portfolio.Lower | src/lib/stores/portfolio.svelte.ts:34 | lower-casing keeps the length, turns each ASCII capital into the matching small letter, and keeps every other character in place |
| Portfolio.TrimStart | src/lib/stores/portfolio.svelte.ts:33 | dropping leading white space leaves a suffix of the string, every dropped character is white space or a line terminator, and the suffix is empty exactly when the string is blank and otherwise starts with a kept character |
| Portfolio.TrimEnd | src/lib/stores/portfolio.svelte.ts:33 | dropping trailing white space leaves a prefix of the string, every dropped character is white space or a line terminator, and the prefix is empty exactly when the string is blank and otherwise ends with a kept character |
| Portfolio.Trim | src/lib/stores/portfolio.svelte.ts:33 | `trim()` is a prefix of the string with its leading white space dropped, and everything cut after it is white space, so only white space is cut from either end; it is empty exactly when the query is blank, so the search is skipped exactly then |
| Portfolio.MatchesQuery | src/lib/stores/portfolio.svelte.ts:35-41 | the search test over title, excerpt, body, categories and tags; the empty query matches every card |
| Portfolio.Stage | src/lib/stores/portfolio.svelte.ts:44-63 | one step of the chain: when active, exactly the passing cards with all their copies, in order; otherwise the list unchanged |
| Portfolio.FilteredContent | src/lib/stores/portfolio.svelte.ts:29-66 | the result is an order-preserving subsequence of the cards; a card is in it exactly when it passes the search (unless the query is blank) and every non-empty filter, and then with all its copies |
| Portfolio.NothingActiveListsAll | src/lib/stores/portfolio.svelte.ts:29-66 | with a blank query and no filters the result is the whole list |
| Portfolio.FeaturedContent | src/lib/stores/portfolio.svelte.ts:68-72 | the first five featured, published cards: a prefix of all such cards in list order, five long unless there are fewer, in which case every such card is included |
| Portfolio.InsertByDate | src/lib/stores/portfolio.svelte.ts:74-79 | insertion adds exactly the one card |
| Portfolio.InsertKeepsSorted | src/lib/stores/portfolio.svelte.ts:74-79 | inserting into a latest-first list keeps it latest-first |
| Portfolio.SortByDateDesc | src/lib/stores/portfolio.svelte.ts:74-79 | the sort is a permutation and latest-first |
| Portfolio.TakeSortedIsTop | src/lib/stores/portfolio.svelte.ts:74-79 | the first n of a latest-first list are latest-first, and every card left out is no later than any kept |
| Portfolio.TopOfPermutation | src/lib/stores/portfolio.svelte.ts:74-79 | the first n of a latest-first permutation are drawn from the list without repetition, n long unless the list is shorter, latest-first, and no card left out is later than one kept |
| Portfolio.RecentContent | src/lib/stores/portfolio.svelte.ts:74-79 | ten published cards, or all of them when fewer are published, drawn without repetition, latest first; any published card left out is no later than all ten kept |
| Portfolio.FindBioCard | src/lib/stores/portfolio.svelte.ts:198-203 | the lookup finds the first bio card of the type, and none exactly when there is none |
| Portfolio.FindContentCard | src/lib/stores/portfolio.svelte.ts:209-214 | the lookup finds the first content card with the id, and none exactly when there is none |
| Portfolio.WithoutContentCard | src/lib/stores/portfolio.svelte.ts:216-218 | removal keeps the other cards in order and every copy of each, drops every card with the id, and changes nothing for an unknown id |
| Portfolio.PortfolioStore.constructor | src/lib/stores/portfolio.svelte.ts:6-26 | empty card lists, no filters, empty query |
| Portfolio.PortfolioStore.SetSearchQuery | src/lib/stores/portfolio.svelte.ts:154-156 | the query is recorded |
| Portfolio.PortfolioStore.AddCategoryFilter | src/lib/stores/portfolio.svelte.ts:158-162 | the category list gains the id unless it is present; the other lists stay |
| Portfolio.PortfolioStore.RemoveCategoryFilter | src/lib/stores/portfolio.svelte.ts:164-166 | every occurrence of the id leaves the category list; the other lists stay |
| Portfolio.PortfolioStore.AddTagFilter | src/lib/stores/portfolio.svelte.ts:168-172 | the tag list gains the id unless it is present; the other lists stay |
| Portfolio.PortfolioStore.RemoveTagFilter | src/lib/stores/portfolio.svelte.ts:174-176 | every occurrence of the id leaves the tag list; the other lists stay |
| Portfolio.PortfolioStore.AddCardTypeFilter | src/lib/stores/portfolio.svelte.ts:178-182 | the card-type list gains the type unless it is present; the other lists stay |
| Portfolio.PortfolioStore.RemoveCardTypeFilter | src/lib/stores/portfolio.svelte.ts:184-186 | every occurrence of the type leaves the card-type list; the other lists stay |
| Portfolio.PortfolioStore.ClearAllFilters | src/lib/stores/portfolio.svelte.ts:188-195 | all three filter lists are empty and the query is empty |
| Portfolio.PortfolioStore.UpdateBioClusterCard | src/lib/stores/portfolio.svelte.ts:198-203 | only the first bio card of the type is merged with the update; an absent type changes nothing |
| Portfolio.PortfolioStore.AddContentCard | src/lib/stores/portfolio.svelte.ts:205-207 | the card is prepended |
| Portfolio.PortfolioStore.UpdateContentCard | src/lib/stores/portfolio.svelte.ts:209-214 | only the first content card with the id is merged with the update; an unknown id changes nothing |
| Portfolio.PortfolioStore.RemoveContentCard | src/lib/stores/portfolio.svelte.ts:216-218 | the list becomes the list without that id |

## Left out

- Floating point: numbers are exact reals, so there is no rounding, no infinity
  and no NaN (NaN appears only in the model of `fitToGrid` as written).
- GridCalculations.BoundsDistanceSquared: models the square of
  `getBoundsDistance`, because `Math.sqrt` is not modelled. That the distance
  is positive when the rectangles do not touch is stated through the gaps (a
  gap is positive) rather than through the sum of squares.
- Division by a zero zoom gives an infinity or NaN in JavaScript. The model
  makes it a precondition instead: `GridCalculations.ViewportBounds`,
  `GridCalculations.ScreenToGrid`, `Grid.VisibleCards`, and
  `Grid.GridStore.ZoomTo` when both centre coordinates are given.
- Grid.GridStore.FitToGrid: requires a content extent of non-zero width and
  height, because the model has no infinities; `Grid.GridBoundsNonDegenerate`
  shows this always holds when card sizes are non-negative.
- Grid.GridStore.PanTo / Grid.GridStore.ZoomTo: the timer that clears
  `isAnimating` 300 ms later is not modelled, since it is timer-driven
  asynchrony. The model records only that `animate` raises the flag.
- `isZooming` and `renderTime` are never written by the store and are left
  out. So are a grid card's `responsivePositions` and `lastInteraction`, which
  the store never reads.
- The portfolio store's async loaders (`load*`, `getContentBySlug`,
  `initializePortfolio`) are network I/O. The `categories`, `tags`,
  `isLoading` and `error` fields that only they write are left out, as is the
  Firestore service behind them.
- `ContentClusterCard` is imported from src/lib/types/portfolio.ts but not
  declared there. The model's content card holds the fields the store reads, with
  `publishedAt` as an integer timestamp. Date parsing and invalid dates are
  not modelled.
- A bio card's `position`, `content` and `metadata` are left out because the
  store never reads them.
- Portfolio.Lower: lower-cases only the ASCII letters; full Unicode case
  mapping is not modelled.
- Portfolio.SortByDateDesc: the sort is stable, like `Array.prototype.sort`:
  `InsertByDate` keeps cards with equal dates in list order. That stability is
  not stated as a contract.
- Spreading a very large list into `Math.min`/`Math.max` can exceed the
  JavaScript argument limit. This is not modelled.

## Findings

| source | as written | input that shows it | evidently intended | confidence | as-written member | corrected member |
|---|---|---|---|---|---|---|
| src/lib/stores/grid.svelte.ts:124-137 | `gridBounds` is declared with `$derived(() => ...)`, so it holds the derivation function. `fitToGrid` reads `bounds.maxX` and the other corners from that function, which gives `undefined`; the width, height, scale and clamped zoom are then NaN | any call, e.g. `fitToGrid()` on a fresh store with no cards | read the extent itself (`$derived.by`, or `gridBounds()`), giving a zoom inside `[minZoom, maxZoom]` that centres the content | high; not executed | Grid.FitToGridAsWrittenLosesZoom | Grid.GridStore.FitToGrid |
