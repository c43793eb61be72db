/**
 * The story catalogue and its two filters: by category and by a
 * case-insensitive text search over title, country and summary
 * (src/utils/mockData.ts).
 */
module Stories {
  import opened Wrappers
  import opened Filtering
  import opened Dates

  /** `[longitude, latitude]` of a place. */
  datatype Coordinates = Coordinates(lon: real, lat: real)

  /** One place a story is about, as the feed page reads `story.locations`. */
  datatype Location = Location(country: string, coordinates: Coordinates)

  /**
   * A news story. `country` and `coordinates` are the fields the catalogue declares;
   * `locations` is the list the feed page reads when a story is selected. The catalogue
   * below does not set it, so at run time it is absent, modelled as the empty list.
   */
  datatype Story = Story(
    id: string,
    title: string,
    category: string,
    country: string,
    region: string,
    coordinates: Coordinates,
    imageUrl: string,
    summary: string,
    date: Day,
    locations: seq<Location>)

  datatype Category = Category(id: string, name: string, className: string)

  const NewsStories: seq<Story> := [
    Story("1", "Paus roept op tot vrijlating journalisten bij eerste ontmoeting met pers",
      "politiek", "Vatican", "Europe", Coordinates(12.45, 41.9), "/placeholder.svg",
      "Paus Franciscus heeft opgeroepen tot de vrijlating van journalisten wereldwijd tijdens zijn eerste persontmoeting als nieuwe paus.",
      19489, []),
    Story("2", "VN-voedselwaarschuwing: iedereen in Gaza riskeert hongersnood",
      "politiek", "Palestine", "Middle East", Coordinates(34.3, 31.4), "/placeholder.svg",
      "De Verenigde Naties waarschuwen dat de gehele bevolking van Gaza hongersnood riskeert door aanhoudende conflicten en blokkades.",
      19487, []),
    Story("3", "Polen sluit Russisch consulaat als straf voor brand winkelcentrum",
      "politiek", "Poland", "Europe", Coordinates(19.12, 52.22), "/placeholder.svg",
      "Polen heeft besloten het Russische consulaat te sluiten als reactie op een brand in een winkelcentrum die aan Rusland wordt toegeschreven.",
      19486, []),
    Story("4", "Dankzij AI is leider Burkina Faso een hype op social media: \"Hij heeft de vibe\"",
      "techniek", "Burkina Faso", "Africa", Coordinates(-1.56, 12.36), "/placeholder.svg",
      "De leider van Burkina Faso is viral gegaan op sociale media dankzij AI-gegenereerde content die zijn charisma benadrukt.",
      19485, []),
    Story("5", "Recordtemperaturen gemeten in Zuidelijke Oceaan door klimaatverandering",
      "klimaat", "Antarctica", "Antarctica", Coordinates(0.0, -70.0), "/placeholder.svg",
      "Wetenschappers hebben alarmerende recordtemperaturen gemeten in de Zuidelijke Oceaan, met mogelijke gevolgen voor zeespiegelstijging.",
      19488, []),
    Story("6", "Europese economie toont veerkracht ondanks inflatiedruk",
      "economie", "European Union", "Europe", Coordinates(9.14, 48.52), "/placeholder.svg",
      "De Europese economie blijkt veerkrachtig te zijn ondanks aanhoudende inflatiedruk en geopolitieke spanningen.",
      19484, []),
    Story("7", "Nieuw festival viert culturele diversiteit in Aziatische gemeenschappen",
      "cultuur", "Japan", "Asia", Coordinates(139.83, 35.65), "/placeholder.svg",
      "Een nieuw internationaal festival brengt diverse Aziatische culturele tradities samen in een maand van vieringen en uitwisselingen.",
      19483, []),
    Story("8", "Doorbraak in kwantumcomputing bereikt door internationale samenwerking",
      "techniek", "United States", "North America", Coordinates(-122.33, 47.61), "/placeholder.svg",
      "Een internationaal team van wetenschappers heeft een significante doorbraak bereikt in kwantumcomputing door een nieuw type qubit te ontwikkelen.",
      19482, [])
  ]

  const Categories: seq<Category> := [
    Category("politiek", "Politiek", "category-politik"),
    Category("klimaat", "Klimaat", "category-klimaat"),
    Category("economie", "Economie", "category-economie"),
    Category("cultuur", "Cultuur", "category-cultuur"),
    Category("techniek", "Techniek", "category-techniek")
  ]

  /** JavaScript truthiness of a `string | null`: null and "" are falsy. */
  predicate IsTruthy(s: Option<string>)
  {
    s.Some? && s.value != ""
  }

  /** No two stories share an id (the intersection in the feed compares ids). */
  ghost predicate UniqueIds(s: seq<Story>)
  {
    forall i, j :: 0 <= i < j < |s| ==> s[i].id != s[j].id
  }

  /** With unique ids, an id determines the story. */
  lemma SameIdSameStory(s: seq<Story>, x: Story, y: Story)
    requires UniqueIds(s) && x in s && y in s && x.id == y.id
    ensures x == y
  {
    var i :| 0 <= i < |s| && s[i] == x;
    var j :| 0 <= j < |s| && s[j] == y;
    assert !(i < j) && !(j < i);
  }

  lemma UniqueIdsNoDuplicates(s: seq<Story>)
    requires UniqueIds(s)
    ensures NoDuplicates(s)
  {
    forall i, j | 0 <= i < j < |s| ensures s[i] != s[j] {
      assert s[i].id != s[j].id;
    }
  }

  /** `getStoriesByCategory`: the whole catalogue for a falsy id, else the stories of that category. */
  function StoriesByCategory(catalogue: seq<Story>, categoryId: Option<string>): (r: seq<Story>)
    ensures !IsTruthy(categoryId) ==> r == catalogue
    ensures IsTruthy(categoryId) ==>
      (forall x <- r :: x in catalogue && x.category == categoryId.value) &&
      (forall x <- catalogue :: x.category == categoryId.value ==> x in r)
    ensures IsSubsequence(r, catalogue)
  {
    if !IsTruthy(categoryId) then
      SubsequenceReflexive(catalogue);
      catalogue
    else
      Filter(catalogue, (x: Story) => x.category == categoryId.value)
  }

  /** `toLowerCase` on one character, restricted to ASCII letters. */
  function LowerChar(c: char): char
  {
    if 'A' <= c <= 'Z' then (c as int + 32) as char else c
  }

  function ToLower(s: string): (r: string)
    ensures |r| == |s|
    ensures forall i :: 0 <= i < |s| ==> r[i] == LowerChar(s[i])
  {
    seq(|s|, i requires 0 <= i < |s| => LowerChar(s[i]))
  }

  predicate StartsWith(hay: string, needle: string)
  {
    |needle| <= |hay| && hay[..|needle|] == needle
  }

  /** `String.prototype.includes`: `needle` occurs in `hay` as a contiguous block. */
  predicate Includes(hay: string, needle: string)
    decreases |hay|
  {
    StartsWith(hay, needle) || (|hay| > 0 && Includes(hay[1..], needle))
  }

  /** The search test of one story against an already lowercased query. */
  predicate MatchesQuery(story: Story, lowerQuery: string)
  {
    Includes(ToLower(story.title), lowerQuery) ||
    Includes(ToLower(story.country), lowerQuery) ||
    Includes(ToLower(story.summary), lowerQuery)
  }

  /** `getStoriesBySearch`: the stories whose title, country or summary contains the query, ignoring case. */
  function StoriesBySearch(catalogue: seq<Story>, query: string): (r: seq<Story>)
    ensures forall x <- r :: x in catalogue && MatchesQuery(x, ToLower(query))
    ensures forall x <- catalogue :: MatchesQuery(x, ToLower(query)) ==> x in r
    ensures IsSubsequence(r, catalogue)
  {
    var lowerQuery := ToLower(query);
    Filter(catalogue, (x: Story) => MatchesQuery(x, lowerQuery))
  }

  /** Two queries that differ only in the case of their letters. */
  predicate SameIgnoringCase(q1: string, q2: string)
  {
    |q1| == |q2| && forall i :: 0 <= i < |q1| ==> LowerChar(q1[i]) == LowerChar(q2[i])
  }

  lemma SearchIgnoresCase(catalogue: seq<Story>, q1: string, q2: string)
    requires SameIgnoringCase(q1, q2)
    ensures StoriesBySearch(catalogue, q1) == StoriesBySearch(catalogue, q2)
  {
    assert ToLower(q1) == ToLower(q2);
  }

  /** Lowercasing the query first changes nothing: the search lowercases it anyway. */
  lemma SearchByLoweredQuery(catalogue: seq<Story>, query: string)
    ensures StoriesBySearch(catalogue, ToLower(query)) == StoriesBySearch(catalogue, query)
  {
    assert ToLower(ToLower(query)) == ToLower(query);
  }

  /** The empty query is contained in every text, so it keeps every story. */
  lemma EmptyQueryKeepsAll(catalogue: seq<Story>)
    ensures StoriesBySearch(catalogue, "") == catalogue
  {
    var lowerQuery := ToLower("");
    forall x | x in catalogue ensures MatchesQuery(x, lowerQuery) {
      assert StartsWith(ToLower(x.title), lowerQuery);
    }
    FilterKeepsAll(catalogue, (x: Story) => MatchesQuery(x, lowerQuery));
  }

  /** The category and search results keep the catalogue's order and repeat no story. */
  lemma FilterResultsAreClean(catalogue: seq<Story>, categoryId: Option<string>, query: string)
    requires NoDuplicates(catalogue)
    ensures NoDuplicates(StoriesByCategory(catalogue, categoryId))
    ensures NoDuplicates(StoriesBySearch(catalogue, query))
  {
    SubsequenceNoDuplicates(StoriesByCategory(catalogue, categoryId), catalogue);
    SubsequenceNoDuplicates(StoriesBySearch(catalogue, query), catalogue);
  }

  /** The catalogue's ids are "1" to "8", in order. */
  lemma CatalogueIds()
    ensures |NewsStories| == 8
    ensures forall i :: 0 <= i < |NewsStories| ==> NewsStories[i].id == ["1", "2", "3", "4", "5", "6", "7", "8"][i]
  {
  }

  lemma CatalogueIdsUnique()
    ensures UniqueIds(NewsStories)
    ensures NoDuplicates(NewsStories)
  {
    var ids := ["1", "2", "3", "4", "5", "6", "7", "8"];
    CatalogueIds();
    forall i, j | 0 <= i < j < |NewsStories| ensures NewsStories[i].id != NewsStories[j].id {
      assert NewsStories[i].id == ids[i] && NewsStories[j].id == ids[j];
    }
    UniqueIdsNoDuplicates(NewsStories);
  }

  /** Every catalogue story names one of the five categories and, as shipped, no locations. */
  lemma CatalogueFields()
    ensures forall i :: 0 <= i < |NewsStories| ==> NewsStories[i].category in CategoryIds()
    ensures forall i :: 0 <= i < |NewsStories| ==> NewsStories[i].locations == []
  {
    assert CategoryIds() == ["politiek", "klimaat", "economie", "cultuur", "techniek"];
  }

  function CategoryIds(): (ids: seq<string>)
    ensures |ids| == |Categories|
    ensures forall i :: 0 <= i < |Categories| ==> ids[i] == Categories[i].id
  {
    seq(|Categories|, i requires 0 <= i < |Categories| => Categories[i].id)
  }
}
