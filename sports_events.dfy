/**
 * SportsEvents.tsx: the event list with a category filter and a search box.
 * The filter effect keeps the events of the selected category (unless it is
 * "All"), then, for a non-empty search term, the events whose lowered title,
 * category or venue contains the lowered term.
 */
module SportsEvents {
  import opened Text
  import opened Seqs

  /** The fields of an event the filters read. */
  datatype Event = Event(id: nat, title: string, category: string, venue: string)

  const AllCategories: string := "All"
  const Categories: seq<string> := ["All", "Sports", "Concert", "Comedy", "Food", "Conference"]

  /** The search test: title, category or venue contains the term, ignoring case. */
  predicate MatchesSearch(event: Event, searchTerm: string)
  {
    var term := Lower(searchTerm);
    Contains(Lower(event.title), term) || Contains(Lower(event.category), term) || Contains(Lower(event.venue), term)
  }

  function CategoryTest(selectedCategory: string): Event -> bool
  {
    (e: Event) => e.category == selectedCategory
  }

  function SearchTest(searchTerm: string): Event -> bool
  {
    (e: Event) => MatchesSearch(e, searchTerm)
  }

  /** Whether an event survives both stages. */
  predicate Shown(event: Event, selectedCategory: string, searchTerm: string)
  {
    (selectedCategory == AllCategories || event.category == selectedCategory)
    && (searchTerm == "" || MatchesSearch(event, searchTerm))
  }

  function ShownTest(selectedCategory: string, searchTerm: string): Event -> bool
  {
    (e: Event) => Shown(e, selectedCategory, searchTerm)
  }

  /** The filter effect: category first, then search. */
  function FilterEvents(events: seq<Event>, selectedCategory: string, searchTerm: string): (filtered: seq<Event>)
    ensures |filtered| <= |events|
    ensures forall e :: e in filtered <==> e in events && Shown(e, selectedCategory, searchTerm)
  {
    var byCategory := if selectedCategory != AllCategories then Filter(events, CategoryTest(selectedCategory)) else events;
    if searchTerm != "" then Filter(byCategory, SearchTest(searchTerm)) else byCategory
  }

  /** The two stages are one filter by the conjunction of their tests. */
  lemma FilterEventsIsOneFilter(events: seq<Event>, selectedCategory: string, searchTerm: string)
    ensures FilterEvents(events, selectedCategory, searchTerm) == Filter(events, ShownTest(selectedCategory, searchTerm))
  {
    var shown := ShownTest(selectedCategory, searchTerm);
    if selectedCategory == AllCategories && searchTerm == "" {
      FilterKeepAll(events, shown);
    } else if selectedCategory == AllCategories {
      FilterCongruent(events, SearchTest(searchTerm), shown);
    } else if searchTerm == "" {
      FilterCongruent(events, CategoryTest(selectedCategory), shown);
    } else {
      FilterFilter(events, CategoryTest(selectedCategory), SearchTest(searchTerm), shown);
    }
  }

  /** The result keeps the order of the full list. */
  lemma FilterEventsKeepsOrder(events: seq<Event>, selectedCategory: string, searchTerm: string)
    ensures IsSubsequence(FilterEvents(events, selectedCategory, searchTerm), events)
  {
    FilterEventsIsOneFilter(events, selectedCategory, searchTerm);
    FilterIsSubsequence(events, ShownTest(selectedCategory, searchTerm));
  }

  /** Filtering the filtered list again with the same settings changes nothing. */
  lemma FilterEventsIdempotent(events: seq<Event>, selectedCategory: string, searchTerm: string)
    ensures FilterEvents(FilterEvents(events, selectedCategory, searchTerm), selectedCategory, searchTerm)
            == FilterEvents(events, selectedCategory, searchTerm)
  {
    FilterEventsIsOneFilter(events, selectedCategory, searchTerm);
    FilterEventsIsOneFilter(FilterEvents(events, selectedCategory, searchTerm), selectedCategory, searchTerm);
    FilterIdempotent(events, ShownTest(selectedCategory, searchTerm));
  }

  /** A search by venue finds every event at that venue, whatever the case of the term. */
  lemma VenueSearchFindsEvent(event: Event, searchTerm: string)
    requires Contains(Lower(event.venue), Lower(searchTerm))
    ensures Shown(event, AllCategories, searchTerm)
  {
  }

  class SportsEventsPage {
    var events: seq<Event>
    var filteredEvents: seq<Event>
    var searchTerm: string
    var selectedCategory: string

    /** The effect has run: the shown list is the filter of the current state. */
    predicate Valid()
      reads this
    {
      filteredEvents == FilterEvents(events, selectedCategory, searchTerm)
    }

    constructor ()
      ensures Valid()
      ensures events == [] && filteredEvents == [] && searchTerm == "" && selectedCategory == AllCategories
    {
      events := [];
      filteredEvents := [];
      searchTerm := "";
      selectedCategory := AllCategories;
    }

    /** The load effect stores the list; the filter effect recomputes what is shown. */
    method Load(data: seq<Event>)
      modifies this
      ensures Valid()
      ensures events == data && searchTerm == old(searchTerm) && selectedCategory == old(selectedCategory)
    {
      events := data;
      filteredEvents := FilterEvents(events, selectedCategory, searchTerm);
    }

    /** Typing in the search box. */
    method SetSearchTerm(term: string)
      modifies this
      ensures Valid()
      ensures searchTerm == term && events == old(events) && selectedCategory == old(selectedCategory)
    {
      searchTerm := term;
      filteredEvents := FilterEvents(events, selectedCategory, searchTerm);
    }

    /** A category button. */
    method SelectCategory(category: string)
      modifies this
      ensures Valid()
      ensures selectedCategory == category && events == old(events) && searchTerm == old(searchTerm)
    {
      selectedCategory := category;
      filteredEvents := FilterEvents(events, selectedCategory, searchTerm);
    }

    /** "Clear Filters": every loaded event is shown again. */
    method ClearFilters()
      modifies this
      ensures Valid()
      ensures searchTerm == "" && selectedCategory == AllCategories && events == old(events)
      ensures filteredEvents == events
    {
      searchTerm := "";
      selectedCategory := AllCategories;
      filteredEvents := FilterEvents(events, selectedCategory, searchTerm);
    }
  }
}
