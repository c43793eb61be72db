/**
 * The category buttons (src/components/CategoryFilters.tsx): clicking a
 * button selects its category, or clears the filter when that category is
 * already active; the active button carries a ring.
 */
module CategoryFilters {
  import opened Wrappers
  import opened Stories

  /** The value a click on the button of `clicked` hands to the parent's setter. */
  function Toggle(active: Option<string>, clicked: string): (next: Option<string>)
    ensures next == None <==> active == Some(clicked)
    ensures next != None ==> next == Some(clicked)
  {
    if active == Some(clicked) then None else Some(clicked)
  }

  /** Whether the button of `id` is drawn with the ring marker. */
  predicate HasRing(active: Option<string>, id: string)
  {
    active == Some(id)
  }

  /** A second click on the same button restores the first state exactly when that was "none" or that category. */
  lemma ToggleTwice(active: Option<string>, clicked: string)
    ensures Toggle(Toggle(active, clicked), clicked) == active <==> active == None || active == Some(clicked)
  {
  }

  /** Clicks on category buttons keep the active category among the catalogue's categories. */
  lemma ToggleStaysInCategories(active: Option<string>, i: int)
    requires active == None || active.value in CategoryIds()
    requires 0 <= i < |Categories|
    ensures Toggle(active, Categories[i].id) == None || Toggle(active, Categories[i].id).value in CategoryIds()
  {
  }

  /** At most one button carries the ring, because the category ids are distinct. */
  lemma AtMostOneRing(active: Option<string>, i: int, j: int)
    requires 0 <= i < |Categories| && 0 <= j < |Categories|
    requires HasRing(active, Categories[i].id) && HasRing(active, Categories[j].id)
    ensures i == j
  {
  }

  /** After a click, the clicked button carries the ring iff it did not before, and no other button does. */
  lemma RingAfterClick(active: Option<string>, i: int, j: int)
    requires 0 <= i < |Categories| && 0 <= j < |Categories|
    ensures HasRing(Toggle(active, Categories[i].id), Categories[j].id) <==>
      i == j && !HasRing(active, Categories[i].id)
  {
  }
}
