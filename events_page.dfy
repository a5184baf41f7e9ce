/**
 * The public events page: a search box, a category choice and a sort order
 * held as page state, and the list they select from the catalog (search,
 * then category, then an in-place sort of a copy).
 */
module EventsPage {
  import opened Strings
  import opened Seqs
  import opened MockEvents

  /** The category filter: `'All'` or one category. */
  datatype CategoryChoice = All | Only(category: Category)

  /** `'date'` (soonest first) or `'popular'` (most attendees first). */
  datatype SortOrder = ByDate | Popular

  /** The lower-cased query occurs in the lower-cased title, description, city or category. */
  predicate MatchesQuery(e: Event, q: string)
    ensures MatchesQuery(e, q) <==>
              Occurs(Lower(e.title), q) || Occurs(Lower(e.description), q) ||
              Occurs(Lower(e.location.city), q) || Occurs(Lower(CategoryName(e.category)), q)
    ensures q == "" ==> MatchesQuery(e, q)
  {
    assert q == "" ==> OccursAt(Lower(e.title), q, 0);
    Contains(Lower(e.title), q) || Contains(Lower(e.description), q) ||
    Contains(Lower(e.location.city), q) || Contains(Lower(CategoryName(e.category)), q)
  }

  predicate InCategory(e: Event, choice: CategoryChoice) {
    choice.All? || e.category == choice.category
  }

  /** What an event must satisfy to be listed: the one-event reading of both filters. */
  predicate Passes(e: Event, query: string, choice: CategoryChoice) {
    (query == "" || MatchesQuery(e, Lower(query))) && InCategory(e, choice)
  }

  /** The search step: no filtering for the empty query. */
  function Searched(events: seq<Event>, query: string): seq<Event> {
    if query == "" then events
    else
      var q := Lower(query);
      Filter(events, (e: Event) => MatchesQuery(e, q))
  }

  /** The category step: no filtering for `'All'`. */
  function OfCategory(events: seq<Event>, choice: CategoryChoice): seq<Event> {
    if choice.All? then events
    else Filter(events, (e: Event) => e.category == choice.category)
  }

  /**
   * The events the filters select, before sorting: exactly the events that
   * pass both filters, each as often as in the source.
   */
  function Selected(events: seq<Event>, query: string, choice: CategoryChoice): (r: seq<Event>)
    ensures forall i :: 0 <= i < |r| ==> Passes(r[i], query, choice)
    ensures forall i :: 0 <= i < |events| && Passes(events[i], query, choice) ==> events[i] in r
    ensures multiset(r) <= multiset(events)
    ensures forall x :: multiset(r)[x] == if Passes(x, query, choice) then multiset(events)[x] else 0
  {
    var searched := Searched(events, query);
    var r := OfCategory(searched, choice);
    assert forall x :: multiset(r)[x] == if Passes(x, query, choice) then multiset(events)[x] else 0 by {
      forall x ensures multiset(r)[x] == if Passes(x, query, choice) then multiset(events)[x] else 0 {
        if query != "" {
          var q := Lower(query);
          FilterCount(events, (e: Event) => MatchesQuery(e, q), x);
        }
        if choice != All {
          FilterCount(searched, (e: Event) => e.category == choice.category, x);
        }
      }
    }
    r
  }

  /** The empty query and `'All'` select the whole catalog. */
  lemma NoFilterSelectsAll(events: seq<Event>)
    ensures Selected(events, "", All) == events
  {
  }

  /** Queries that differ only in letter case select the same events. */
  lemma SearchIgnoresCase(events: seq<Event>, query: string, other: string, choice: CategoryChoice)
    requires Lower(query) == Lower(other)
    ensures Selected(events, query, choice) == Selected(events, other, choice)
  {
    assert |query| == |Lower(query)| == |other|;
  }

  /**
   * The sort key: ascending keys are the comparator's order, soonest date
   * first for `'date'` and most attendees first for `'popular'`.
   */
  function Key(e: Event, order: SortOrder): (k: int)
    ensures order == ByDate ==> k == DateKey(e.date)
    ensures order == Popular ==> k == -(e.attendeeCount as int)
  {
    match order
    case ByDate => DateKey(e.date)
    case Popular => -(e.attendeeCount as int)
  }

  /**
   * The page's comparator: `a` before `b` when negative. For `'date'` the
   * difference of the dates (of the same sign as the `getTime` difference),
   * for `'popular'` `b.attendeeCount - a.attendeeCount`.
   */
  function Compare(a: Event, b: Event, order: SortOrder): (c: int)
    ensures c < 0 <==> Key(a, order) < Key(b, order)
    ensures c == 0 <==> Key(a, order) == Key(b, order)
    ensures c > 0 <==> Key(a, order) > Key(b, order)
  {
    match order
    case ByDate => DateKey(a.date) - DateKey(b.date)
    case Popular => b.attendeeCount as int - a.attendeeCount as int
  }

  /** `sort` with the page's comparator, on an array in place (an insertion sort). */
  method SortInPlace(a: array<Event>, order: SortOrder)
    modifies a
    ensures forall k, l :: 0 <= k < l < a.Length ==> Key(a[k], order) <= Key(a[l], order)
    ensures multiset(a[..]) == multiset(old(a[..]))
  {
    var i := 0;
    while i < a.Length
      invariant 0 <= i <= a.Length
      invariant forall k, l :: 0 <= k < l < i ==> Key(a[k], order) <= Key(a[l], order)
      invariant multiset(a[..]) == multiset(old(a[..]))
    {
      Insert(a, i, order);
      i := i + 1;
    }
  }

  /** Moves `a[i]` down into the sorted prefix `a[..i]`, so that `a[..i + 1]` is sorted. */
  method Insert(a: array<Event>, i: nat, order: SortOrder)
    requires i < a.Length
    requires forall k, l :: 0 <= k < l < i ==> Key(a[k], order) <= Key(a[l], order)
    modifies a
    ensures forall k, l :: 0 <= k < l <= i ==> Key(a[k], order) <= Key(a[l], order)
    ensures multiset(a[..]) == multiset(old(a[..]))
  {
    var j := i;
    assert Sinking(a[..], i, j, order);
    while 0 < j && Key(a[j], order) < Key(a[j - 1], order)
      invariant 0 <= j <= i
      invariant Sinking(a[..], i, j, order)
      invariant multiset(a[..]) == multiset(old(a[..]))
    {
      SinkStep(a[..], i, j, order);
      Swap(a, j - 1, j);
      j := j - 1;
    }
    assert Sinking(a[..], i, j, order);
  }

  /**
   * `s[..i + 1]` while `s[j]` sinks into place: sorted apart from position
   * `j`, whose entry is smaller than every entry after it.
   */
  ghost predicate Sinking(s: seq<Event>, i: nat, j: nat, order: SortOrder) {
    j <= i < |s| &&
    (forall k, l :: 0 <= k < l <= i && k != j && l != j ==> Key(s[k], order) <= Key(s[l], order)) &&
    (forall l :: j < l <= i ==> Key(s[j], order) < Key(s[l], order))
  }

  /** One exchange moves the sinking entry one place down. */
  lemma SinkStep(s: seq<Event>, i: nat, j: nat, order: SortOrder)
    requires Sinking(s, i, j, order) && 0 < j && Key(s[j], order) < Key(s[j - 1], order)
    ensures Sinking(s[j - 1 := s[j]][j := s[j - 1]], i, j - 1, order)
  {
  }

  /** Exchanges two entries of `a`. */
  method Swap(a: array<Event>, p: nat, q: nat)
    requires p < a.Length && q < a.Length
    modifies a
    ensures a[..] == old(a[..])[p := old(a[q])][q := old(a[p])]
    ensures multiset(a[..]) == multiset(old(a[..]))
  {
    a[p], a[q] := a[q], a[p];
  }

  /**
   * `filteredEvents`: copy the catalog, apply the search and the category
   * filter, and sort the copy in place. The result lists the selected events
   * (a permutation of them: no event gained or lost) in the chosen order.
   */
  method FilteredEvents(catalog: seq<Event>, query: string, choice: CategoryChoice, order: SortOrder)
    returns (r: seq<Event>)
    ensures multiset(r) == multiset(Selected(catalog, query, choice))
    ensures multiset(r) <= multiset(catalog)
    ensures forall i :: 0 <= i < |r| ==> Passes(r[i], query, choice)
    ensures forall i :: 0 <= i < |catalog| && Passes(catalog[i], query, choice) ==> catalog[i] in r
    ensures order == ByDate ==> forall i, j :: 0 <= i < j < |r| ==> DateKey(r[i].date) <= DateKey(r[j].date)
    ensures order == Popular ==> forall i, j :: 0 <= i < j < |r| ==> r[i].attendeeCount >= r[j].attendeeCount
  {
    var filtered := ApplyFilters(catalog, query, choice);
    r := SortedCopy(filtered, order);
    ReorderingKeepsSelection(r, catalog, query, choice);
    SortedByKey(r, order);
  }

  /** Copies `s` into a fresh array, sorts the array in place and reads it back. */
  method SortedCopy(s: seq<Event>, order: SortOrder) returns (r: seq<Event>)
    ensures multiset(r) == multiset(s)
    ensures forall k, l :: 0 <= k < l < |r| ==> Key(r[k], order) <= Key(r[l], order)
  {
    var a := new Event[|s|](k requires 0 <= k < |s| => s[k]);
    assert a[..] == s;
    SortInPlace(a, order);
    r := a[..];
  }

  /** The two filter steps, each reassigning the working list. */
  method ApplyFilters(catalog: seq<Event>, query: string, choice: CategoryChoice)
    returns (filtered: seq<Event>)
    ensures filtered == Selected(catalog, query, choice)
  {
    filtered := catalog;
    if query != "" {
      var q := Lower(query);
      filtered := Filter(filtered, (e: Event) => MatchesQuery(e, q));
    }
    if choice != All {
      filtered := Filter(filtered, (e: Event) => e.category == choice.category);
    }
  }

  /** Ascending keys mean ascending dates, or descending attendee counts. */
  lemma SortedByKey(r: seq<Event>, order: SortOrder)
    requires forall k, l :: 0 <= k < l < |r| ==> Key(r[k], order) <= Key(r[l], order)
    ensures order == ByDate ==> forall i, j :: 0 <= i < j < |r| ==> DateKey(r[i].date) <= DateKey(r[j].date)
    ensures order == Popular ==> forall i, j :: 0 <= i < j < |r| ==> r[i].attendeeCount >= r[j].attendeeCount
  {
    forall i, j | 0 <= i < j < |r|
      ensures Key(r[i], order) <= Key(r[j], order)
    {
    }
  }

  /** A reordering of the selection lists the same events as the selection itself. */
  lemma ReorderingKeepsSelection(r: seq<Event>, catalog: seq<Event>, query: string, choice: CategoryChoice)
    requires multiset(r) == multiset(Selected(catalog, query, choice))
    ensures multiset(r) <= multiset(catalog)
    ensures forall i :: 0 <= i < |r| ==> Passes(r[i], query, choice)
    ensures forall i :: 0 <= i < |catalog| && Passes(catalog[i], query, choice) ==> catalog[i] in r
  {
    var s := Selected(catalog, query, choice);
    forall i | 0 <= i < |r|
      ensures r[i] in s
    {
      assert r[i] in multiset(r);
    }
    forall i | 0 <= i < |catalog| && Passes(catalog[i], query, choice)
      ensures catalog[i] in r
    {
      assert catalog[i] in multiset(s);
    }
  }

  /** Whether any filter differs from its default (`''`, `'All'`, `'date'`). */
  predicate Active(query: string, choice: CategoryChoice, order: SortOrder)
    ensures Active(query, choice, order) <==> (query, choice, order) != ("", All, ByDate)
  {
    query != "" || choice != All || order != ByDate
  }

  /** With no filter active the page lists the whole catalog. */
  lemma InactiveListsWholeCatalog(events: seq<Event>, query: string, choice: CategoryChoice, order: SortOrder)
    requires !Active(query, choice, order)
    ensures Selected(events, query, choice) == events
    ensures order == ByDate
  {
    NoFilterSelectsAll(events);
  }

  /** The page's filter state. */
  class EventsPage {
    var query: string
    var category: CategoryChoice
    var sortBy: SortOrder

    constructor()
      ensures query == "" && category == All && sortBy == ByDate
      ensures !HasActiveFilters()
    {
      query, category, sortBy := "", All, ByDate;
    }

    /** `hasActiveFilters`: some filter differs from the state `clearFilters` restores. */
    predicate HasActiveFilters()
      reads this
      ensures HasActiveFilters() <==> (query, category, sortBy) != ("", All, ByDate)
    {
      Active(query, category, sortBy)
    }

    /** Typing in the search box, or its clear button with `''`. */
    method SetQuery(q: string)
      modifies this
      ensures query == q && category == old(category) && sortBy == old(sortBy)
    {
      query := q;
    }

    /** A category button, or `'All'`. */
    method SelectCategory(c: CategoryChoice)
      modifies this
      ensures category == c && query == old(query) && sortBy == old(sortBy)
    {
      category := c;
    }

    /** The date and popularity buttons. */
    method SetSort(o: SortOrder)
      modifies this
      ensures sortBy == o && query == old(query) && category == old(category)
    {
      sortBy := o;
    }

    /** `clearFilters`: back to the defaults, so no filter is active. */
    method ClearFilters()
      modifies this
      ensures query == "" && category == All && sortBy == ByDate
      ensures !HasActiveFilters()
    {
      query := "";
      category := All;
      sortBy := ByDate;
    }

    /** The list the page renders for its current state from `catalog` (the page passes `Events`). */
    method Shown(catalog: seq<Event>) returns (r: seq<Event>)
      ensures multiset(r) == multiset(Selected(catalog, query, category))
      ensures forall i :: 0 <= i < |r| ==> Passes(r[i], query, category)
      ensures !HasActiveFilters() ==> multiset(r) == multiset(catalog)
      ensures sortBy == ByDate ==> forall i, j :: 0 <= i < j < |r| ==> DateKey(r[i].date) <= DateKey(r[j].date)
      ensures sortBy == Popular ==> forall i, j :: 0 <= i < j < |r| ==> r[i].attendeeCount >= r[j].attendeeCount
    {
      r := FilteredEvents(catalog, query, category, sortBy);
      if !HasActiveFilters() {
        InactiveListsWholeCatalog(catalog, query, category, sortBy);
      }
    }
  }
}
