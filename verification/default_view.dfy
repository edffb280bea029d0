/**
 The view state of the default endpoint table and its event handlers.

 The component keeps six fields: the two dropdown selections (each `"All"` or a
 chosen value), the two dropdown open flags, the search text and the first
 rendered row. Each user event updates some of them. `ViewState` and `Apply` give
 the same behaviour as a value and a reducer; the class `URLsDefaultView` updates
 the fields in place and is proved against `Apply`.
 */
module DefaultView {
  import opened ScrollWindow

  /** The sentinel selection that disables a dropdown filter. */
  const All: string := "All"

  datatype ViewState = ViewState(
    selectedLocation: string,
    selectedWebpage: string,
    isOpenLocation: bool,
    isOpenWebpage: bool,
    searchQuery: string,
    startIndex: int)

  /** The state the component mounts with. */
  const Initial: ViewState := ViewState(All, All, false, false, "", 0)

  /**
   One user event. A scroll carries the table geometry (or its absence) and the
   current filtered-list length and window size, which the handler reads.
   */
  datatype Event =
    | SelectLocation(location: string)
    | SelectWebpage(webpage: string)
    | SearchChange(query: string)
    | Scroll(table: TableRef, len: nat, size: nat)
    | ToggleLocation
    | ToggleWebpage

  /** The three values that decide which records are listed. */
  function Filters(s: ViewState): (string, string, string)
  {
    (s.selectedLocation, s.selectedWebpage, s.searchQuery)
  }

  /** The first row lies within the window bounds for a list of `len` rows and windows of `size`. */
  predicate InWindow(s: ViewState, len: nat, size: nat)
  {
    0 <= s.startIndex <= LastStart(len, size)
  }

  /** The state after one event. */
  function Apply(s: ViewState, e: Event): (r: ViewState)
    ensures Filters(r) != Filters(s) ==> r.startIndex == 0
    ensures r.startIndex != s.startIndex ==> e.Scroll? || r.startIndex == 0
    ensures 0 <= s.startIndex ==> 0 <= r.startIndex
    ensures e.Scroll? ==> r == s.(startIndex := r.startIndex)
    ensures (e.ToggleLocation? || e.ToggleWebpage?) ==>
      Filters(r) == Filters(s) && r.startIndex == s.startIndex
  {
    match e
    case SelectLocation(location) =>
      s.(selectedLocation := location, isOpenLocation := false, startIndex := 0)
    case SelectWebpage(webpage) =>
      s.(selectedWebpage := webpage, isOpenWebpage := false, startIndex := 0)
    case SearchChange(query) =>
      s.(searchQuery := query, startIndex := 0)
    case Scroll(table, len, size) =>
      s.(startIndex := Scrolled(s.startIndex, table, len, size))
    case ToggleLocation =>
      s.(isOpenLocation := !s.isOpenLocation)
    case ToggleWebpage =>
      s.(isOpenWebpage := !s.isOpenWebpage)
  }

  /** The state after a sequence of events, in order. */
  function Run(s: ViewState, es: seq<Event>): ViewState
    decreases |es|
  {
    if es == [] then s else Run(Apply(s, es[0]), es[1..])
  }

  /** Every scroll event in `es` sees a list of `len` rows and windows of `size`. */
  predicate ScrollsSee(es: seq<Event>, len: nat, size: nat)
  {
    forall i :: 0 <= i < |es| && es[i].Scroll? ==> es[i].len == len && es[i].size == size
  }

  /** Any event keeps the first row within the window bounds, as long as scrolls see the same list length. */
  lemma ApplyKeepsWindow(s: ViewState, e: Event, len: nat, size: nat)
    requires InWindow(s, len, size)
    requires e.Scroll? ==> e.len == len && e.size == size
    ensures InWindow(Apply(s, e), len, size)
  {
  }

  /** Any sequence of events keeps the first row within the window bounds for a fixed list length. */
  lemma {:induction false} RunKeepsWindow(s: ViewState, es: seq<Event>, len: nat, size: nat)
    requires InWindow(s, len, size)
    requires ScrollsSee(es, len, size)
    ensures InWindow(Run(s, es), len, size)
    decreases |es|
  {
    if es != [] {
      ApplyKeepsWindow(s, es[0], len, size);
      assert ScrollsSee(es[1..], len, size) by {
        forall i | 0 <= i < |es| - 1 && es[1..][i].Scroll?
          ensures es[1..][i].len == len && es[1..][i].size == size
        {
          assert es[1..][i] == es[i + 1];
        }
      }
      RunKeepsWindow(Apply(s, es[0]), es[1..], len, size);
    }
  }

  /** A first row that starts non-negative stays so, whatever the events and list lengths. */
  lemma {:induction false} RunFromNonNegative(s: ViewState, es: seq<Event>)
    requires 0 <= s.startIndex
    ensures 0 <= Run(s, es).startIndex
    decreases |es|
  {
    if es != [] {
      RunFromNonNegative(Apply(s, es[0]), es[1..]);
    }
  }

  /** Every state reached from the initial one keeps its first row within the bounds of a fixed list length. */
  lemma ReachableInWindow(es: seq<Event>, len: nat, size: nat)
    requires ScrollsSee(es, len, size)
    ensures InWindow(Run(Initial, es), len, size)
  {
    RunKeepsWindow(Initial, es, len, size);
  }

  /**
   Every scroll in `es` sees the length `count` gives for the filters in force
   when it fires, and windows of `size`. `count` stands for the filtering of an
   unchanged record store.
   */
  predicate ScrollsSeeCurrent(s: ViewState, es: seq<Event>, count: ((string, string, string)) -> nat, size: nat)
    decreases |es|
  {
    es != [] ==>
      (es[0].Scroll? ==> es[0].len == count(Filters(s)) && es[0].size == size)
      && ScrollsSeeCurrent(Apply(s, es[0]), es[1..], count, size)
  }

  /**
   Any event keeps the first row within the bounds of the list that the current
   filters select: a filter change resets it to 0, any other event keeps the list.
   */
  lemma ApplyKeepsCurrentWindow(s: ViewState, e: Event, count: ((string, string, string)) -> nat, size: nat)
    requires InWindow(s, count(Filters(s)), size)
    requires e.Scroll? ==> e.len == count(Filters(s)) && e.size == size
    ensures InWindow(Apply(s, e), count(Filters(Apply(s, e))), size)
  {
    var r := Apply(s, e);
    if Filters(r) == Filters(s) {
      ApplyKeepsWindow(s, e, count(Filters(s)), size);
    }
  }

  /** Any sequence of events keeps the first row within the bounds of the list the current filters select. */
  lemma {:induction false} RunKeepsCurrentWindow(s: ViewState, es: seq<Event>, count: ((string, string, string)) -> nat, size: nat)
    requires InWindow(s, count(Filters(s)), size)
    requires ScrollsSeeCurrent(s, es, count, size)
    ensures InWindow(Run(s, es), count(Filters(Run(s, es))), size)
    decreases |es|
  {
    if es != [] {
      ApplyKeepsCurrentWindow(s, es[0], count, size);
      RunKeepsCurrentWindow(Apply(s, es[0]), es[1..], count, size);
    }
  }

  /** Every state reached from the initial one has its first row within the bounds of the list its filters select. */
  lemma ReachableInCurrentWindow(es: seq<Event>, count: ((string, string, string)) -> nat, size: nat)
    requires ScrollsSeeCurrent(Initial, es, count, size)
    ensures InWindow(Run(Initial, es), count(Filters(Run(Initial, es))), size)
  {
    RunKeepsCurrentWindow(Initial, es, count, size);
  }

  /** Opening a dropdown and closing it again restores the state. */
  lemma ToggleTwiceRestores(s: ViewState)
    ensures Apply(Apply(s, ToggleLocation), ToggleLocation) == s
    ensures Apply(Apply(s, ToggleWebpage), ToggleWebpage) == s
  {
  }

  /** Selecting the same location twice is the same as selecting it once; likewise webpages. */
  lemma SelectIdempotent(s: ViewState, location: string, webpage: string)
    ensures Apply(Apply(s, SelectLocation(location)), SelectLocation(location)) == Apply(s, SelectLocation(location))
    ensures Apply(Apply(s, SelectWebpage(webpage)), SelectWebpage(webpage)) == Apply(s, SelectWebpage(webpage))
  {
  }

  /** The location and webpage selections are independent: their order does not matter. */
  lemma SelectionsCommute(s: ViewState, location: string, webpage: string)
    ensures Apply(Apply(s, SelectLocation(location)), SelectWebpage(webpage))
         == Apply(Apply(s, SelectWebpage(webpage)), SelectLocation(location))
  {
  }

  /** Only the last search text matters. */
  lemma LastSearchWins(s: ViewState, first: string, second: string)
    ensures Apply(Apply(s, SearchChange(first)), SearchChange(second)) == Apply(s, SearchChange(second))
  {
  }

  /** The endpoint table component: its state fields and one method per event handler. */
  class URLsDefaultView {
    var selectedLocation: string
    var selectedWebpage: string
    var isOpenLocation: bool
    var isOpenWebpage: bool
    var searchQuery: string
    var startIndex: int

    /** The fields as a value. */
    ghost function State(): ViewState
      reads this
    {
      ViewState(selectedLocation, selectedWebpage, isOpenLocation, isOpenWebpage, searchQuery, startIndex)
    }

    ghost predicate Valid()
      reads this
    {
      0 <= startIndex
    }

    constructor ()
      ensures Valid() && State() == Initial
      ensures selectedLocation == All && selectedWebpage == All
      ensures !isOpenLocation && !isOpenWebpage
      ensures searchQuery == "" && startIndex == 0
    {
      selectedLocation := All;
      selectedWebpage := All;
      isOpenLocation := false;
      isOpenWebpage := false;
      searchQuery := "";
      startIndex := 0;
    }

    method HandleSelectLocation(location: string)
      requires Valid()
      modifies this
      ensures Valid() && State() == Apply(old(State()), SelectLocation(location))
      ensures selectedLocation == location && !isOpenLocation && startIndex == 0
      ensures selectedWebpage == old(selectedWebpage) && searchQuery == old(searchQuery)
      ensures isOpenWebpage == old(isOpenWebpage)
    {
      selectedLocation := location;
      isOpenLocation := false;
      startIndex := 0;
    }

    method HandleSelectWebpage(webpage: string)
      requires Valid()
      modifies this
      ensures Valid() && State() == Apply(old(State()), SelectWebpage(webpage))
      ensures selectedWebpage == webpage && !isOpenWebpage && startIndex == 0
      ensures selectedLocation == old(selectedLocation) && searchQuery == old(searchQuery)
      ensures isOpenLocation == old(isOpenLocation)
    {
      selectedWebpage := webpage;
      isOpenWebpage := false;
      startIndex := 0;
    }

    method HandleSearchChange(query: string)
      requires Valid()
      modifies this
      ensures Valid() && State() == Apply(old(State()), SearchChange(query))
      ensures searchQuery == query && startIndex == 0
      ensures selectedLocation == old(selectedLocation) && selectedWebpage == old(selectedWebpage)
      ensures isOpenLocation == old(isOpenLocation) && isOpenWebpage == old(isOpenWebpage)
    {
      searchQuery := query;
      startIndex := 0;
    }

    /**
     The scroll handler. `len` is the length of the filtered list and `size` the
     window size, both read by the handler when it runs.
     */
    method HandleScroll(table: TableRef, len: nat, size: nat)
      requires Valid()
      modifies this
      ensures Valid() && State() == Apply(old(State()), Scroll(table, len, size))
      ensures startIndex == Scrolled(old(startIndex), table, len, size)
      ensures old(startIndex) <= LastStart(len, size) ==> startIndex <= LastStart(len, size)
      ensures selectedLocation == old(selectedLocation) && selectedWebpage == old(selectedWebpage)
      ensures isOpenLocation == old(isOpenLocation) && isOpenWebpage == old(isOpenWebpage)
      ensures searchQuery == old(searchQuery)
    {
      if table.Mounted? {
        if table.scrollHeight - table.scrollTop - table.clientHeight < BottomThreshold {
          startIndex := Min(startIndex + Step, Max(0, len - size));
        } else if table.scrollTop < TopThreshold && startIndex > 0 {
          startIndex := Max(startIndex - Step, 0);
        }
      }
    }

    method ToggleLocationDropdown()
      requires Valid()
      modifies this
      ensures Valid() && State() == Apply(old(State()), ToggleLocation)
      ensures isOpenLocation == !old(isOpenLocation)
      ensures selectedLocation == old(selectedLocation) && selectedWebpage == old(selectedWebpage)
      ensures isOpenWebpage == old(isOpenWebpage)
      ensures searchQuery == old(searchQuery) && startIndex == old(startIndex)
    {
      isOpenLocation := !isOpenLocation;
    }

    method ToggleWebpageDropdown()
      requires Valid()
      modifies this
      ensures Valid() && State() == Apply(old(State()), ToggleWebpage)
      ensures isOpenWebpage == !old(isOpenWebpage)
      ensures selectedLocation == old(selectedLocation) && selectedWebpage == old(selectedWebpage)
      ensures isOpenLocation == old(isOpenLocation)
      ensures searchQuery == old(searchQuery) && startIndex == old(startIndex)
    {
      isOpenWebpage := !isOpenWebpage;
    }
  }
}
