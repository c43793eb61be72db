# nos-globe news feed: a Dafny model

nos-globe is a news prototype. A globe plots a fixed catalogue of eight news
stories. A sidebar lists the newest of them, and category buttons, a search
bar and a timeline narrow down what is shown. This project models the
pipeline that decides which stories appear, and proves properties about it:

- `Stories` (stories.dfy): the catalogue, its five categories, and the
  category and text-search filters.
- `Feed` (feed.dfy): the feed page.
  - Its initial date span is the earliest to the latest story day.
  - Its first effect derives the stories for the globe from the category,
    the query and the date range.
  - Its second effect derives the sidebar list: at most ten stories, newest
    first, restricted to the ids the globe reports as visible.
  - Selecting a story focuses its first location and highlights the country
    codes of all its locations.
  - The page's state is the class `Feed.IndexPage`.
- `CategoryFilters` (categoryfilters.dfy): the toggle a category button
  performs, and the ring marking the active button.
- `Timeline` (timeline.dfy): the date-range selector.
  - A two-thumb slider over positions 0..100 maps to day offsets from the
    first story day.
  - The "Alle data" button selects the whole span.
  - A calendar picker sets the slider from a picked range.
  - The selector's state is the class `Timeline.TimelineSelector`.
- `CountryMapping` (countrymapping.dfy): the country-name to country-code
  table and its fallback lookup.
- `CountryColors` (countrycolors.dfy): the highlight colour of a country code.
  - A memo table and counter hand out the twenty palette entries in order.
  - After that, a string hash picks an entry. Only its shift is 32-bit; the running sum is not truncated. ECMAScript `ToInt32`
    and `<<` are modelled exactly.
  - The state is the class `CountryColors.ColorTable`.
- `Filtering`, `Dates` and `Wrappers` hold shared material: the generic
  order-keeping filter with its subsequence lemmas, dates as day numbers,
  and `Option`.

Conventions:

- A date is a day number counted from 1970-01-01. The catalogue runs from
  2023-05-05 (day 19482) to 2023-05-12 (day 19489).
- A JavaScript `null` is `None`.
- JavaScript truthiness is written out where the code relies on it:
  - `!!activeCategory` is false for `null` and `""`.
  - `query.trim() !== ""` holds when some character lies outside ECMAScript's
    white-space and line-terminator set.
  - `!isoToPaletteIndex[iso]` holds for a missing entry and for a stored 0.
- `Math.floor` and `Math.round` are exact integer divisions.
- The filters take the catalogue as a parameter. The page always passes
  `NewsStories`.

## Model

| member | source | states |
|---|---|---|
| Stories.StoriesByCategory | src/utils/mockData.ts:114-117 | For a falsy id (null or "") the result is the whole catalogue. Otherwise a story is in the result iff it is in the catalogue with that category. The result keeps catalogue order (it is a subsequence). |
| Stories.StoriesBySearch | src/utils/mockData.ts:119-126 | A story is in the result iff its lowercased title, country or summary contains the lowercased query. The result keeps catalogue order. |
| Stories.SearchIgnoresCase | src/utils/mockData.ts:120-125 | Two queries that differ only in letter case give the same result. |
| Stories.SearchByLoweredQuery | src/utils/mockData.ts:120 | Lowercasing the query before the search changes nothing. |
| Stories.EmptyQueryKeepsAll | src/utils/mockData.ts:119-126 | The empty query keeps every story, in order. |
| Stories.FilterResultsAreClean | src/utils/mockData.ts:114-126 | Over a catalogue without repeats, neither filter repeats a story. |
| Stories.SameIdSameStory | src/utils/mockData.ts:15-104 | In a catalogue with unique ids, two stories with the same id are the same story. |
| Stories.CatalogueIdsUnique | src/utils/mockData.ts:15-104 | The eight catalogue stories have pairwise distinct ids and so no repeats. |
| Stories.CatalogueFields | src/utils/mockData.ts:3-13 | Every catalogue story's category is one of the five category ids, and no story carries locations. |
| Stories.CategoryIds | src/utils/mockData.ts:106-112 | The id list has one entry per category, in the same order. |
| Feed.MinMaxDates | src/pages/Index.tsx:44-53 | For a non-empty list: a span with start <= end, holding every story day, whose two ends are story days. For the empty list (where `toISOString` throws): no span. |
| Feed.MinMaxDatesIsTightest | src/pages/Index.tsx:44-53 | Any span that holds every story day and whose ends are story days is the computed one. |
| Feed.CatalogueDateSpan | src/pages/Index.tsx:25-34 | For the catalogue the span is 2023-05-05 to 2023-05-12. |
| Feed.GetMinMaxDates | src/pages/Index.tsx:44-53 | On the catalogue: returns 2023-05-05 to 2023-05-12, and every story day lies inside that span. |
| Feed.CategoryAndSearch | src/pages/Index.tsx:70-87 | The category and search step keeps catalogue order. |
| Feed.GlobeStories | src/pages/Index.tsx:69-102 | The globe's stories keep catalogue order and all lie in the date range. A story of the category and search step is kept iff its day lies in the range. |
| Feed.BothActiveIsIntersection | src/pages/Index.tsx:76-82 | With both filters active and unique ids, the id-based intersection is exactly the catalogue filtered by "this category and matches the query". |
| Feed.BlankQueryIsNoSearch | src/pages/Index.tsx:72 | A query that is empty or only white space leaves the category filter alone in charge. |
| Feed.NoCategoryIsNoFilter | src/pages/Index.tsx:71 | A null or empty category means no category filter: the result is the search result, or the whole catalogue. |
| Feed.GlobeStoriesNoDuplicates | src/pages/Index.tsx:69-102 | Over a catalogue without repeats, the globe's stories repeat nothing. |
| Feed.Insert | src/pages/Index.tsx:117 | Inserting into a newest-first list gives a newest-first list with one more element, the same multiset plus the new story. |
| Feed.SortNewestFirst | src/pages/Index.tsx:117 | The sort's result is newest first and a permutation of its input. |
| Feed.VisibleStories | src/pages/Index.tsx:105-115 | With no visibility report: all globe stories. With an empty report: nothing. With a non-empty report: exactly the globe stories whose id was reported. In every case the result keeps the globe's order and drops stories without repeating any (a subsequence). |
| Feed.Take | src/pages/Index.tsx:119 | `slice(0, n)` holds min(length, n) elements, each equal to the input at the same index. |
| Feed.TakeNewestFirst | src/pages/Index.tsx:117-119 | Cutting a newest-first list keeps it newest first, and keeps only its own elements. |
| Feed.DisplayList | src/pages/Index.tsx:104-120 | The sidebar list has min(visible, 10) stories, newest first. All are globe stories with a reported id, and an empty report gives an empty list. No story appears more often than among the visible stories (a sub-multiset). |
| Feed.DisplayListNoDuplicates | src/pages/Index.tsx:104-120 | When the globe stories have no repeats, the sidebar list has none either. |
| Feed.DisplayListHoldsNewest | src/pages/Index.tsx:117-119 | A visible story left off the list is no newer than any listed story. |
| Feed.DisplayListShowsAllWhenFew | src/pages/Index.tsx:117-119 | When at most ten stories are visible, the list holds exactly them. |
| Feed.HighlightCodes | src/pages/Index.tsx:130 | One code per location, each that location's country looked up through the name-to-code table. |
| Feed.IndexPage.constructor | src/pages/Index.tsx:19-41 | The first render: no listed stories, all catalogue stories on the globe, nothing selected, no category, empty query, range 2023-05-05 to 2023-05-12, no visibility report, no focus, no highlights. |
| Feed.IndexPage.HandleVisibleStoriesChange | src/pages/Index.tsx:55-57 | Stores the globe's report of visible ids. |
| Feed.IndexPage.HandleDateRangeChange | src/pages/Index.tsx:59-61 | Stores the selector's range. |
| Feed.IndexPage.HandleSearch | src/pages/Index.tsx:122-124 | Stores the query. |
| Feed.IndexPage.ClickCategory | src/components/CategoryFilters.tsx:18 | The active category becomes the toggle of the old one by the clicked id. |
| Feed.IndexPage.HandleClosePreview | src/pages/Index.tsx:63-67 | Clears the selection, the focus and the highlights. |
| Feed.IndexPage.HandleStorySelect | src/pages/Index.tsx:126-136 | Selects the story. With locations, it focuses the first location's coordinates and highlights each location's country code, in order. Without locations, it clears focus and highlights. |
| Feed.IndexPage.RecomputeStoriesForGlobe | src/pages/Index.tsx:69-102 | The first effect stores `GlobeStories` of the current inputs: a subsequence of the catalogue, without repeats, inside the date range. |
| Feed.IndexPage.RecomputeDisplayList | src/pages/Index.tsx:104-120 | The second effect stores `DisplayList` of the globe stories and the visibility report: at most ten, newest first, globe stories with reported ids, empty for an empty report. It is a sub-multiset of the visible stories, and it has no repeats when the globe stories have none. |
| Feed.IndexPage.Refresh | src/pages/Index.tsx:69-120 | After both effects run in order, both derived lists agree with the inputs. |
| CategoryFilters.Toggle | src/components/CategoryFilters.tsx:18 | The new value is null iff the clicked category was active; otherwise it is the clicked category. |
| CategoryFilters.ToggleTwice | src/components/CategoryFilters.tsx:18 | Clicking the same button twice restores the state iff the state was "none" or that category. |
| CategoryFilters.ToggleStaysInCategories | src/components/CategoryFilters.tsx:12-18 | Clicking buttons keeps the active category among the five category ids. |
| CategoryFilters.AtMostOneRing | src/components/CategoryFilters.tsx:15-17 | No two buttons carry the ring. |
| CategoryFilters.RingAfterClick | src/components/CategoryFilters.tsx:15-18 | After a click, the clicked button has the ring iff it did not before; no other button has it. |
| CountryMapping.GetCountryIso | src/utils/countryMapping.ts:39-41 | A listed name gives its code; any other name comes back unchanged. |
| CountryMapping.CodesAreNotNames | src/utils/countryMapping.ts:2-36 | Every code is 2 or 3 letters long, every name at least 4, and no code is a listed name. |
| CountryMapping.GetCountryIsoIdempotent | src/utils/countryMapping.ts:39-41 | Looking up the result again changes nothing. |
| CountryMapping.IsoToCountryInverts | src/utils/countryMapping.ts:2-36 | The reverse table takes each name's code back to that name. |
| CountryMapping.CodesAreDistinct | src/utils/countryMapping.ts:2-36 | Distinct names have distinct codes, so a highlight code names one country. |
| CountryMapping.KnownCodes | src/utils/countryMapping.ts:15-40 | "Netherlands" gives "NLD", "European Union" gives "EU", "Palestine" gives "PSE"; an unlisted name such as "Antarctica" comes back unchanged. |
| CountryColors.ToInt32 | src/utils/countryColors.ts:36 | ECMAScript ToInt32: a signed 32-bit value congruent to the input modulo 2^32. |
| CountryColors.ShiftLeft5 | src/utils/countryColors.ts:36 | `h << 5`: a signed 32-bit value congruent to 32·h modulo 2^32. |
| CountryColors.StringHashBounded | src/utils/countryColors.ts:34-37 | The hash grows at most linearly with the length, so a double holds it exactly for any realistic code. |
| CountryColors.Hash | src/utils/countryColors.ts:34-37 | The loop computes the string hash of the whole code. |
| CountryColors.HashIndex | src/utils/countryColors.ts:38 | `Math.abs(hash) % palette.length` is a palette index. |
| CountryColors.ColorTable.constructor | src/utils/countryColors.ts:25-26 | The memo table starts empty and the counter at 0. |
| CountryColors.ColorTable.GetCountryColor | src/utils/countryColors.ts:28-42 | As written. The colour is a palette entry, given by the stored index. A truthy stored index leaves the state alone. Otherwise the next counter value is stored and the counter moves on; or, once the palette is used up, the hash index is stored. |
| CountryColors.ColorTable.GetCountryColorStable | src/utils/countryColors.ts:28-42 | Corrected. The same lookup, testing presence, so a stored code keeps its colour and the state is unchanged. |
| CountryColors.FirstCodeRecoloured | src/utils/countryColors.ts:29-31 | As written, a fresh table colours the first code "#FF6B6B" and then "#FFD93D" on the next call. |
| CountryColors.FirstCodeKeepsColour | src/utils/countryColors.ts:29-31 | With the presence test, the first code gets "#FF6B6B" on both calls. |
| Timeline.SliderOffset | src/components/TimelineSelector.tsx:39-40 | The floor of position·daysDiff/100. |
| Timeline.SliderOffsetInSpan | src/components/TimelineSelector.tsx:39-40 | A position in 0..100 gives an offset in 0..daysDiff. |
| Timeline.SelectedDatesFor | src/components/TimelineSelector.tsx:36-51 | The selected span is ordered, and its two ends are the two thumbs' days. |
| Timeline.SelectedDatesInSpan | src/components/TimelineSelector.tsx:36-51 | The selected days lie between the first and the last story day. |
| Timeline.InitialSliderSelectsLastDay | src/components/TimelineSelector.tsx:53-56 | The initial thumbs [100, 100] select the last day alone. |
| Timeline.AllDatesSelectsWholeSpan | src/components/TimelineSelector.tsx:190 | The thumbs [0, 100] select the whole span. |
| Timeline.ClampOffset | src/components/TimelineSelector.tsx:110-111 | The offset is clamped into 0..daysDiff and left unchanged inside it. |
| Timeline.PickerSliderValue | src/components/TimelineSelector.tsx:113-118 | Position = offset·100/daysDiff rounded to the nearest integer, halves up. |
| Timeline.PickerSliderValueInRange | src/components/TimelineSelector.tsx:113-118 | An offset in 0..daysDiff gives a position in 0..100. |
| Timeline.PickerSliderValueMonotone | src/components/TimelineSelector.tsx:113-118 | A later offset never gives a lower position. |
| Timeline.Ordered | src/components/TimelineSelector.tsx:102-103 | The picked days in order, the earlier one first. |
| Timeline.PickerToSlider | src/components/TimelineSelector.tsx:99-119 | As written. A complete picked range sets both thumbs into 0..100 with bottom <= top; a one-day span sets [100, 100]. |
| Timeline.PickedRangeLosesADay | src/components/TimelineSelector.tsx:39-40 | As written, over 2023-05-05..2023-05-12 the picked range 2023-05-06..2023-05-12 sets thumbs [14, 100], which select 2023-05-05..2023-05-12. |
| Timeline.PickerSliderValueCeil | src/components/TimelineSelector.tsx:113-118 | Corrected position: the smallest position whose offset reaches the picked one (a ceiling). |
| Timeline.PickerSliderValueCeilRoundTrip | src/components/TimelineSelector.tsx:39-40 | In exact arithmetic, for spans of at most 100 days, an offset's corrected position lies in 0..100 and reads back as that offset. |
| Timeline.PickerToSliderCeil | src/components/TimelineSelector.tsx:99-119 | Corrected thumbs for a complete range, each in 0..100. |
| Timeline.PickedRangeIsSelected | src/components/TimelineSelector.tsx:36-51 | In exact arithmetic, with the correction, over spans of at most 100 days, a range picked inside the span is exactly the range selected. |
| Timeline.TimelineSelector.constructor | src/components/TimelineSelector.tsx:27-64 | Thumbs start at [100, 100], the popover is closed, and the calendar shows the last day as its range. |
| Timeline.TimelineSelector.SelectedDates | src/components/TimelineSelector.tsx:36-51 | The reported range lies between the first and the last story day. |
| Timeline.TimelineSelector.SyncPicker | src/components/TimelineSelector.tsx:67-77 | The calendar's range becomes the selected days. |
| Timeline.TimelineSelector.SetSliderValues | src/components/TimelineSelector.tsx:173 | Dragging stores the thumbs and changes nothing else. |
| Timeline.TimelineSelector.HandleDatePickerSelect | src/components/TimelineSelector.tsx:93-124 | The calendar always takes the new range. A complete range closes the popover and sets the thumbs from the range ([100, 100] for a one-day span). An incomplete range leaves the thumbs and the popover alone. |
| Timeline.TimelineSelector.SetShowDatePicker | src/components/TimelineSelector.tsx:130 | The popover opens or closes as asked. |
| Timeline.TimelineSelector.ShowAllDates | src/components/TimelineSelector.tsx:189-190 | The thumbs become [0, 100], so the whole span is selected; nothing else changes. |

## Left out

- The globe: projection, rotation, visibility detection and rendering. `TheWorld` is not part of this model. Its report of visible ids is an input (`HandleVisibleStoriesChange`).
- React's scheduling. Each effect is a method that the model calls explicitly (`Refresh`, `SyncPicker`). The selector's effect that calls `onRangeChange` is the function `SelectedDates`; the page stores its result through `HandleDateRangeChange`. Dates travel as day numbers, not "yyyy-MM-dd" strings.
- JSX rendering, CSS classes, the header, story cards, the modal, the search bar's own input handling, the body-overflow effect, toasts, and Dutch date formatting.
- date-fns parsing, `toISOString` and time zones. Both sides of every date comparison are whole days, so they are compared as day numbers.
- Feed.GlobeStories: the model treats a range whose start is after its end as empty. The library's behaviour for such a range is not modelled. The only caller passes an ordered range (src/components/TimelineSelector.tsx:46-48).
- Feed.GlobeStories: the `dateRangeActive` test is always true for a two-element tuple, so the date filter always applies.
- Stories.StoriesBySearch: `toLowerCase` is modelled on ASCII letters only. Unicode case mapping is not modelled.
- Feed.SortNewestFirst: states a newest-first permutation, not stability. The sort is in place on a copy of the array; the model sorts a sequence.
- CountryMapping.GetCountryIso and CountryColors.ColorTable.GetCountryColor: JavaScript object lookups see inherited prototype keys such as "toString". Maps do not model that.
- CountryColors.Hash: `charCodeAt` reads UTF-16 code units. The model reads one Unicode scalar value per character. They differ only for characters above U+FFFF.
- Timeline.SliderOffset and Timeline.PickerSliderValue: exact rational arithmetic, not doubles. For example, `(29 / 100) * 100` is 28.999999999999996 in doubles, and its floor is 28, not 29.
- Timeline.PickerSliderValueCeil, Timeline.PickerSliderValueCeilRoundTrip and Timeline.PickedRangeIsSelected: proved in exact arithmetic only. In doubles, `Math.ceil((o / d) * 100)` read back by `Math.floor((p / 100) * d)` misses the offset for some spans, for example daysDiff 50 and offset 29 (it reads back 28), daysDiff 90 and offset 63, and daysDiff 100 and offset 7. The model does not capture double rounding.
- Timeline.TimelineSelector.constructor: requires minDay <= maxDay. The page always passes the catalogue's earliest and latest days.
- Timeline.TimelineSelector.SetSliderValues: requires positions in 0..100, which the slider component (max 100, step 1) guarantees.
- Story fields `region` and `imageUrl` are carried but used by no modelled operation.
- The catalogue declares no `locations`. Every catalogue story has `locations == []`, so selecting one clears focus and highlights.

## Findings

| source | as written | input that shows it | evidently intended | confidence | as-written member | corrected member |
|---|---|---|---|---|---|---|
| src/components/TimelineSelector.tsx:113-119 | The picker sets each thumb to `Math.round(offset / daysDiff * 100)`. The slider reads a thumb back with `Math.floor(position / 100 * daysDiff)`. Rounding down can land on the previous day. | Span 2023-05-05..2023-05-12 (daysDiff 7); pick 2023-05-06..2023-05-12. The thumbs become [14, 100], and floor(14·7/100) = 0 selects 2023-05-05..2023-05-12 (`PickedRangeLosesADay`). | The picked range is the selected range. In exact arithmetic, a ceiling instead of a rounding achieves it for spans of at most 100 days (`PickedRangeIsSelected`). In doubles the ceiling alone is not enough: with daysDiff 50 and offset 29, `Math.ceil((29 / 50) * 100)` is 58 and `Math.floor((58 / 100) * 50)` is 28. Multiplying before dividing on both sides, `Math.ceil(offset * 100 / daysDiff)` and `Math.floor(position * daysDiff / 100)`, avoids that; the model does not cover doubles. | not executed; derived from the arithmetic | Timeline.PickerToSlider | Timeline.PickerToSliderCeil |
| src/utils/countryColors.ts:29 | `!isoToPaletteIndex[iso]` is also true for a stored index of 0, so the first code coloured is recoloured on its next call, and the counter moves on. | A fresh table, `getCountryColor("NLD")` twice: "#FF6B6B", then "#FFD93D" (`FirstCodeRecoloured`). | A code keeps its colour once it has one (`FirstCodeKeepsColour`). | not executed; derived from JavaScript truthiness | CountryColors.ColorTable.GetCountryColor | CountryColors.ColorTable.GetCountryColorStable |

The page and the selector classes keep the code as written (`HandleDatePickerSelect` uses `PickerToSlider`). The corrected members stand beside them.
