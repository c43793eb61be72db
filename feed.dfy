/**
 * The feed page (src/pages/Index.tsx): it derives the stories plotted on the
 * globe from the category, the search query and the date range, derives the
 * sidebar list from those and the ids the globe reports as visible, and keeps
 * the selected story with the coordinates and country codes the globe focuses on.
 */
module Feed {
  import opened Wrappers
  import opened Filtering
  import opened Dates
  import opened Stories
  import opened CountryMapping
  import opened CategoryFilters

  /** The sidebar shows at most this many stories. */
  const MaxListed: nat := 10

  // ---------------------------------------------------------------- date span

  function MinDate(s: seq<Story>): (d: Day)
    requires |s| > 0
    ensures exists i :: 0 <= i < |s| && s[i].date == d
    ensures forall x <- s :: d <= x.date
  {
    if |s| == 1 then s[0].date
    else
      var rest := MinDate(s[1..]);
      assert forall x <- s :: x == s[0] || x in s[1..];
      if s[0].date <= rest then s[0].date else rest
  }

  function MaxDate(s: seq<Story>): (d: Day)
    requires |s| > 0
    ensures exists i :: 0 <= i < |s| && s[i].date == d
    ensures forall x <- s :: x.date <= d
  {
    if |s| == 1 then s[0].date
    else
      var rest := MaxDate(s[1..]);
      assert forall x <- s :: x == s[0] || x in s[1..];
      if s[0].date >= rest then s[0].date else rest
  }

  /**
   * `getMinMaxDates`: the earliest and the latest story day. For no stories `Math.min()`
   * is Infinity and `toISOString` throws; that failure is `None`.
   */
  function MinMaxDates(s: seq<Story>): (r: Option<DateSpan>)
    ensures r.Some? <==> |s| > 0
    ensures r.Some? ==> r.value.start <= r.value.end
    ensures r.Some? ==> forall x <- s :: WithinInterval(x.date, r.value)
    ensures r.Some? ==>
      (exists i :: 0 <= i < |s| && s[i].date == r.value.start) &&
      (exists j :: 0 <= j < |s| && s[j].date == r.value.end)
  {
    if |s| == 0 then None else Some(DateSpan(MinDate(s), MaxDate(s)))
  }

  /** The span is the tightest one around the stories' days. */
  lemma MinMaxDatesIsTightest(s: seq<Story>, span: DateSpan)
    requires forall i :: 0 <= i < |s| ==> WithinInterval(s[i].date, span)
    requires exists i :: 0 <= i < |s| && s[i].date == span.start
    requires exists j :: 0 <= j < |s| && s[j].date == span.end
    ensures MinMaxDates(s) == Some(span)
  {
    var i :| 0 <= i < |s| && s[i].date == span.start;
    var j :| 0 <= j < |s| && s[j].date == span.end;
    assert s[i] in s && s[j] in s;
  }

  /** The catalogue runs from 2023-05-05 to 2023-05-12. */
  lemma CatalogueDateSpan()
    ensures MinMaxDates(NewsStories) == Some(DateSpan(19482, 19489))
  {
    var span := DateSpan(19482, 19489);
    assert forall i :: 0 <= i < |NewsStories| ==> WithinInterval(NewsStories[i].date, span);
    assert NewsStories[7].date == span.start && NewsStories[0].date == span.end;
    MinMaxDatesIsTightest(NewsStories, span);
  }

  /** `getMinMaxDates` on the catalogue, as the page calls it. */
  method GetMinMaxDates() returns (span: DateSpan)
    ensures span == DateSpan(19482, 19489)
    ensures forall x <- NewsStories :: WithinInterval(x.date, span)
  {
    CatalogueDateSpan();
    span := MinMaxDates(NewsStories).value;
  }

  // ---------------------------------------------------------------- globe stories

  /** The characters `String.prototype.trim` removes: ECMAScript WhiteSpace and LineTerminator. */
  predicate IsJsWhitespace(c: char)
  {
    var n := c as int;
    n == 0x09 || n == 0x0A || n == 0x0B || n == 0x0C || n == 0x0D || n == 0x20 ||
    n == 0xA0 || n == 0x1680 || (0x2000 <= n <= 0x200A) || n == 0x2028 || n == 0x2029 ||
    n == 0x202F || n == 0x205F || n == 0x3000 || n == 0xFEFF
  }

  /** `query.trim() !== ""`. */
  predicate SearchActive(query: string)
  {
    exists i :: 0 <= i < |query| && !IsJsWhitespace(query[i])
  }

  /** `.some(s => s.id === id)`. */
  predicate SomeHasId(xs: seq<Story>, id: string)
  {
    exists x <- xs :: x.id == id
  }

  /** The test of the first branch: the story's id occurs in both results. */
  function InBoth(categoryStories: seq<Story>, searchResults: seq<Story>): Story -> bool
  {
    (x: Story) => SomeHasId(categoryStories, x.id) && SomeHasId(searchResults, x.id)
  }

  /** The date-range test. */
  function InRange(range: DateSpan): Story -> bool
  {
    (x: Story) => WithinInterval(x.date, range)
  }

  /** The category and search step of the first effect. */
  function CategoryAndSearch(catalogue: seq<Story>, activeCategory: Option<string>, query: string): (r: seq<Story>)
    ensures IsSubsequence(r, catalogue)
  {
    if IsTruthy(activeCategory) && SearchActive(query) then
      Filter(catalogue, InBoth(StoriesByCategory(catalogue, activeCategory), StoriesBySearch(catalogue, query)))
    else if IsTruthy(activeCategory) then
      StoriesByCategory(catalogue, activeCategory)
    else if SearchActive(query) then
      StoriesBySearch(catalogue, query)
    else
      SubsequenceReflexive(catalogue);
      catalogue
  }

  /** What the first effect stores in `storiesForGlobe`. */
  function GlobeStories(catalogue: seq<Story>, activeCategory: Option<string>, query: string, range: DateSpan): (r: seq<Story>)
    ensures IsSubsequence(r, catalogue)
    ensures forall x <- r :: WithinInterval(x.date, range)
    ensures forall x <- r :: x in CategoryAndSearch(catalogue, activeCategory, query)
    ensures forall x <- CategoryAndSearch(catalogue, activeCategory, query) ::
      WithinInterval(x.date, range) ==> x in r
  {
    var selected := CategoryAndSearch(catalogue, activeCategory, query);
    var r := Filter(selected, InRange(range));
    SubsequenceTransitive(r, selected, catalogue);
    r
  }

  /**
   * With both filters active, the id-based intersection keeps exactly the stories of the
   * category that match the query, in catalogue order, provided ids are unique.
   */
  lemma BothActiveIsIntersection(catalogue: seq<Story>, activeCategory: Option<string>, query: string)
    requires UniqueIds(catalogue) && IsTruthy(activeCategory) && SearchActive(query)
    ensures CategoryAndSearch(catalogue, activeCategory, query) ==
      Filter(catalogue, (x: Story) => x.category == activeCategory.value && MatchesQuery(x, ToLower(query)))
  {
    var byCategory := StoriesByCategory(catalogue, activeCategory);
    var bySearch := StoriesBySearch(catalogue, query);
    var both := (x: Story) => x.category == activeCategory.value && MatchesQuery(x, ToLower(query));
    forall x | x in catalogue ensures InBoth(byCategory, bySearch)(x) == both(x) {
      if SomeHasId(byCategory, x.id) {
        var y :| y in byCategory && y.id == x.id;
        SameIdSameStory(catalogue, x, y);
      }
      if SomeHasId(bySearch, x.id) {
        var y :| y in bySearch && y.id == x.id;
        SameIdSameStory(catalogue, x, y);
      }
    }
    FilterCongruent(catalogue, InBoth(byCategory, bySearch), both);
  }

  /** A blank query is no search: only the category, if any, filters. */
  lemma BlankQueryIsNoSearch(catalogue: seq<Story>, activeCategory: Option<string>, query: string)
    requires !SearchActive(query)
    ensures CategoryAndSearch(catalogue, activeCategory, query) == StoriesByCategory(catalogue, activeCategory)
  {
  }

  /** A missing or empty category is no category filter. */
  lemma NoCategoryIsNoFilter(catalogue: seq<Story>, activeCategory: Option<string>, query: string)
    requires !IsTruthy(activeCategory)
    ensures CategoryAndSearch(catalogue, activeCategory, query) ==
      if SearchActive(query) then StoriesBySearch(catalogue, query) else catalogue
  {
  }

  /** The globe's stories repeat none of the catalogue's. */
  lemma GlobeStoriesNoDuplicates(catalogue: seq<Story>, activeCategory: Option<string>, query: string, range: DateSpan)
    requires NoDuplicates(catalogue)
    ensures NoDuplicates(GlobeStories(catalogue, activeCategory, query, range))
  {
    SubsequenceNoDuplicates(GlobeStories(catalogue, activeCategory, query, range), catalogue);
  }

  // ---------------------------------------------------------------- sidebar list

  /** Sorted by date, newest first. */
  ghost predicate NewestFirst(s: seq<Story>)
  {
    forall i, j :: 0 <= i < j < |s| ==> s[i].date >= s[j].date
  }

  lemma PrependNewestFirst(y: Story, t: seq<Story>)
    requires NewestFirst(t)
    requires forall z <- t :: z.date <= y.date
    ensures NewestFirst([y] + t)
  {
    var r := [y] + t;
    forall i, j | 0 <= i < j < |r| ensures r[i].date >= r[j].date {
      assert r[j] == t[j - 1];
      if i > 0 {
        assert r[i] == t[i - 1];
      }
    }
  }

  lemma NewestFirstTail(t: seq<Story>)
    requires NewestFirst(t) && |t| > 0
    ensures NewestFirst(t[1..])
    ensures forall z <- t :: z.date <= t[0].date
  {
    forall i, j | 0 <= i < j < |t[1..]| ensures t[1..][i].date >= t[1..][j].date {
      assert t[1..][i] == t[i + 1] && t[1..][j] == t[j + 1];
    }
  }

  /** Inserts `x` in front of the first story that is not newer, so equal days keep their order. */
  function Insert(x: Story, t: seq<Story>): (r: seq<Story>)
    requires NewestFirst(t)
    ensures |r| == |t| + 1
    ensures multiset(r) == multiset(t) + multiset{x}
    ensures forall y <- r :: y == x || y in t
    ensures NewestFirst(r)
    decreases |t|
  {
    if |t| == 0 then
      [x]
    else
      NewestFirstTail(t);
      if t[0].date <= x.date then
        PrependNewestFirst(x, t);
        [x] + t
      else
        var rest := Insert(x, t[1..]);
        assert t == [t[0]] + t[1..];
        assert forall z <- t[1..] :: z in t;
        PrependNewestFirst(t[0], rest);
        [t[0]] + rest
  }

  /** The comparator sort `(a, b) => b.date - a.date`, a stable sort. */
  function SortNewestFirst(s: seq<Story>): (r: seq<Story>)
    ensures |r| == |s|
    ensures multiset(r) == multiset(s)
    ensures NewestFirst(r)
  {
    if |s| == 0 then []
    else
      assert s == [s[0]] + s[1..];
      Insert(s[0], SortNewestFirst(s[1..]))
  }

  /** The visibility step of the second effect: `null` filters nothing, `[]` empties the list. */
  function VisibleStories(globe: seq<Story>, visibleIds: Option<seq<string>>): (r: seq<Story>)
    ensures visibleIds == None ==> r == globe
    ensures visibleIds == Some([]) ==> r == []
    ensures visibleIds.Some? && visibleIds.value != [] ==>
      (forall x <- r :: x in globe && x.id in visibleIds.value) &&
      (forall x <- globe :: x.id in visibleIds.value ==> x in r)
    ensures IsSubsequence(r, globe)
  {
    match visibleIds
    case None =>
      SubsequenceReflexive(globe);
      globe
    case Some(ids) =>
      if |ids| > 0 then Filter(globe, (x: Story) => x.id in ids) else []
  }

  /** `.slice(0, n)`: the first `n` elements, or all of them when there are fewer. */
  function Take(s: seq<Story>, n: nat): (r: seq<Story>)
    ensures |r| == if |s| < n then |s| else n
    ensures forall k :: 0 <= k < |r| ==> r[k] == s[k]
    ensures multiset(r) <= multiset(s)
  {
    if |s| < n then s
    else
      assert s == s[..n] + s[n..];
      s[..n]
  }

  lemma TakeNewestFirst(s: seq<Story>, n: nat)
    requires NewestFirst(s)
    ensures NewestFirst(Take(s, n))
    ensures forall x <- Take(s, n) :: x in s
  {
    var r := Take(s, n);
    forall i, j | 0 <= i < j < |r| ensures r[i].date >= r[j].date {
      assert r[i] == s[i] && r[j] == s[j];
    }
  }

  /** What the second effect stores in `stories`: the newest visible globe stories, at most ten. */
  function DisplayList(globe: seq<Story>, visibleIds: Option<seq<string>>): (r: seq<Story>)
    ensures |r| <= MaxListed
    ensures NewestFirst(r)
    ensures forall x <- r :: x in globe
    ensures visibleIds == Some([]) ==> r == []
    ensures visibleIds.Some? ==> forall x <- r :: x.id in visibleIds.value
    ensures |r| == if |VisibleStories(globe, visibleIds)| < MaxListed then |VisibleStories(globe, visibleIds)| else MaxListed
    ensures multiset(r) <= multiset(VisibleStories(globe, visibleIds))
  {
    var visible := VisibleStories(globe, visibleIds);
    var sorted := SortNewestFirst(visible);
    TakeNewestFirst(sorted, MaxListed);
    assert forall x <- sorted :: x in visible by {
      forall x <- sorted ensures x in visible {
        assert x in multiset(sorted);
      }
    }
    Take(sorted, MaxListed)
  }

  /** A globe list without repeats gives a sidebar list without repeats. */
  lemma DisplayListNoDuplicates(globe: seq<Story>, visibleIds: Option<seq<string>>)
    requires NoDuplicates(globe)
    ensures NoDuplicates(DisplayList(globe, visibleIds))
  {
    var visible := VisibleStories(globe, visibleIds);
    SubsequenceNoDuplicates(visible, globe);
    SubMultisetNoDuplicates(DisplayList(globe, visibleIds), visible);
  }

  /** The list holds the newest ones: every visible story left out is no newer than any listed one. */
  lemma DisplayListHoldsNewest(globe: seq<Story>, visibleIds: Option<seq<string>>, listed: Story, omitted: Story)
    requires listed in DisplayList(globe, visibleIds)
    requires omitted in VisibleStories(globe, visibleIds) && omitted !in DisplayList(globe, visibleIds)
    ensures omitted.date <= listed.date
  {
    var sorted := SortNewestFirst(VisibleStories(globe, visibleIds));
    var r := DisplayList(globe, visibleIds);
    assert r == Take(sorted, MaxListed);
    assert omitted in multiset(sorted);
    var j :| 0 <= j < |sorted| && sorted[j] == omitted;
    var i :| 0 <= i < |r| && r[i] == listed;
    assert |r| <= j;
    assert sorted[i] == listed;
  }

  /** When at most ten stories are visible, the list shows them all. */
  lemma DisplayListShowsAllWhenFew(globe: seq<Story>, visibleIds: Option<seq<string>>)
    requires |VisibleStories(globe, visibleIds)| <= MaxListed
    ensures multiset(DisplayList(globe, visibleIds)) == multiset(VisibleStories(globe, visibleIds))
  {
    var sorted := SortNewestFirst(VisibleStories(globe, visibleIds));
    assert Take(sorted, MaxListed) == sorted;
  }

  // ---------------------------------------------------------------- selection

  /** `story.locations.map(loc => getCountryISO(loc.country))`. */
  function HighlightCodes(locations: seq<Location>): (codes: seq<string>)
    ensures |codes| == |locations|
    ensures forall i :: 0 <= i < |locations| ==> codes[i] == GetCountryIso(locations[i].country)
  {
    seq(|locations|, i requires 0 <= i < |locations| => GetCountryIso(locations[i].country))
  }

  /** The page's state. */
  class IndexPage {
    var stories: seq<Story>
    var storiesForGlobe: seq<Story>
    var selectedStory: Option<Story>
    var activeCategory: Option<string>
    var searchQuery: string
    var dateRange: DateSpan
    var visibleStoryIdsFromGlobe: Option<seq<string>>
    var focusedCoordinates: Option<Coordinates>
    var highlightedCountryIds: Option<seq<string>>

    /** Both derived lists agree with the inputs, as after the two effects have run. */
    ghost predicate Settled()
      reads this
    {
      storiesForGlobe == GlobeStories(NewsStories, activeCategory, searchQuery, dateRange) &&
      stories == DisplayList(storiesForGlobe, visibleStoryIdsFromGlobe)
    }

    /** The state of the first render, before any effect has run. */
    constructor ()
      ensures stories == [] && storiesForGlobe == NewsStories
      ensures selectedStory == None && activeCategory == None && searchQuery == ""
      ensures dateRange == DateSpan(19482, 19489)
      ensures visibleStoryIdsFromGlobe == None
      ensures focusedCoordinates == None && highlightedCountryIds == None
    {
      var span := GetMinMaxDates();
      stories := [];
      storiesForGlobe := NewsStories;
      selectedStory := None;
      activeCategory := None;
      searchQuery := "";
      dateRange := span;
      visibleStoryIdsFromGlobe := None;
      focusedCoordinates := None;
      highlightedCountryIds := None;
    }

    /** `handleVisibleStoriesChange`, the globe's callback. */
    method HandleVisibleStoriesChange(ids: seq<string>)
      modifies this`visibleStoryIdsFromGlobe
      ensures visibleStoryIdsFromGlobe == Some(ids)
    {
      visibleStoryIdsFromGlobe := Some(ids);
    }

    /** `handleDateRangeChange`, the selector's callback. */
    method HandleDateRangeChange(range: DateSpan)
      modifies this`dateRange
      ensures dateRange == range
    {
      dateRange := range;
    }

    /** `handleSearch`, the search bar's callback. */
    method HandleSearch(query: string)
      modifies this`searchQuery
      ensures searchQuery == query
    {
      searchQuery := query;
    }

    /** A click on the category button of `id`. */
    method ClickCategory(id: string)
      modifies this`activeCategory
      ensures activeCategory == Toggle(old(activeCategory), id)
    {
      activeCategory := Toggle(activeCategory, id);
    }

    /** `handleClosePreview`. */
    method HandleClosePreview()
      modifies this`selectedStory, this`focusedCoordinates, this`highlightedCountryIds
      ensures selectedStory == None && focusedCoordinates == None && highlightedCountryIds == None
    {
      selectedStory := None;
      focusedCoordinates := None;
      highlightedCountryIds := None;
    }

    /** `handleStorySelect`: focus on the first location and highlight the codes of all of them. */
    method HandleStorySelect(story: Story)
      modifies this`selectedStory, this`focusedCoordinates, this`highlightedCountryIds
      ensures selectedStory == Some(story)
      ensures |story.locations| > 0 ==>
        focusedCoordinates == Some(story.locations[0].coordinates) &&
        highlightedCountryIds.Some? && |highlightedCountryIds.value| == |story.locations| &&
        forall i :: 0 <= i < |story.locations| ==>
          highlightedCountryIds.value[i] == GetCountryIso(story.locations[i].country)
      ensures |story.locations| == 0 ==> focusedCoordinates == None && highlightedCountryIds == None
    {
      selectedStory := Some(story);
      if |story.locations| > 0 {
        focusedCoordinates := Some(story.locations[0].coordinates);
        var countryIsos := HighlightCodes(story.locations);
        highlightedCountryIds := Some(countryIsos);
      } else {
        focusedCoordinates := None;
        highlightedCountryIds := None;
      }
    }

    /** The first effect: the stories for the globe. */
    method RecomputeStoriesForGlobe()
      modifies this`storiesForGlobe
      ensures storiesForGlobe == GlobeStories(NewsStories, activeCategory, searchQuery, dateRange)
      ensures IsSubsequence(storiesForGlobe, NewsStories) && NoDuplicates(storiesForGlobe)
      ensures forall x <- storiesForGlobe :: WithinInterval(x.date, dateRange)
    {
      var result := NewsStories;
      var categoryFilterActive := IsTruthy(activeCategory);
      var searchQueryActive := SearchActive(searchQuery);
      if categoryFilterActive && searchQueryActive {
        var categoryStories := StoriesByCategory(NewsStories, activeCategory);
        var searchResults := StoriesBySearch(NewsStories, searchQuery);
        result := Filter(NewsStories, InBoth(categoryStories, searchResults));
      } else if categoryFilterActive {
        result := StoriesByCategory(NewsStories, activeCategory);
      } else if searchQueryActive {
        result := StoriesBySearch(NewsStories, searchQuery);
      }
      result := Filter(result, InRange(dateRange));
      storiesForGlobe := result;
      CatalogueIdsUnique();
      GlobeStoriesNoDuplicates(NewsStories, activeCategory, searchQuery, dateRange);
    }

    /** The second effect: the sidebar list. */
    method RecomputeDisplayList()
      modifies this`stories
      ensures stories == DisplayList(storiesForGlobe, visibleStoryIdsFromGlobe)
      ensures |stories| <= MaxListed && NewestFirst(stories)
      ensures forall x <- stories :: x in storiesForGlobe
      ensures visibleStoryIdsFromGlobe == Some([]) ==> stories == []
      ensures visibleStoryIdsFromGlobe.Some? ==> forall x <- stories :: x.id in visibleStoryIdsFromGlobe.value
      ensures multiset(stories) <= multiset(VisibleStories(storiesForGlobe, visibleStoryIdsFromGlobe))
      ensures NoDuplicates(storiesForGlobe) ==> NoDuplicates(stories)
    {
      var filteredForDisplay := storiesForGlobe;
      if visibleStoryIdsFromGlobe != None {
        var ids := visibleStoryIdsFromGlobe.value;
        if |ids| > 0 {
          filteredForDisplay := Filter(filteredForDisplay, (x: Story) => x.id in ids);
        } else {
          filteredForDisplay := [];
        }
      }
      assert filteredForDisplay == VisibleStories(storiesForGlobe, visibleStoryIdsFromGlobe);
      filteredForDisplay := SortNewestFirst(filteredForDisplay);
      stories := if |filteredForDisplay| < MaxListed then filteredForDisplay else filteredForDisplay[..MaxListed];
      if NoDuplicates(storiesForGlobe) {
        DisplayListNoDuplicates(storiesForGlobe, visibleStoryIdsFromGlobe);
      }
    }

    /** Both effects in order, as React runs them after a change. */
    method Refresh()
      modifies this`storiesForGlobe, this`stories
      ensures Settled()
    {
      RecomputeStoriesForGlobe();
      RecomputeDisplayList();
    }
  }
}
