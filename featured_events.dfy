/**
 * The landing page's featured events: the catalog's featured events, in
 * catalog order, cut to the first three (`filter(featured).slice(0, 3)`).
 */
module FeaturedEvents {
  import opened Seqs
  import opened MockEvents

  /** How many featured events the landing page shows at most. */
  const Limit: nat := 3

  predicate IsFeatured(e: Event) {
    e.featured
  }

  /** `s.slice(0, n)`: the first `n` elements, or all of them when there are fewer. */
  function Take<T>(s: seq<T>, n: nat): (r: seq<T>)
    ensures |r| == if |s| < n then |s| else n
    ensures r <= s
  {
    if |s| < n then s else s[..n]
  }

  function Featured(events: seq<Event>): (r: seq<Event>)
    ensures |r| <= Limit
    ensures |r| == if |Filter(events, IsFeatured)| < Limit then |Filter(events, IsFeatured)| else Limit
    ensures forall i :: 0 <= i < |r| ==> r[i].featured && r[i] in events
  {
    var all := Filter(events, IsFeatured);
    var shown := Take(all, Limit);
    assert forall i :: 0 <= i < |shown| ==> shown[i] == all[i];
    shown
  }

  /** The events shown keep their catalog order. */
  lemma FeaturedIsSubsequence(events: seq<Event>)
    ensures Subsequence(Featured(events), events)
  {
    var all := Filter(events, IsFeatured);
    FilterIsSubsequence(events, IsFeatured);
    PrefixIsSubsequence(all, events, |Featured(events)|);
    assert Featured(events) == all[..|Featured(events)|];
  }

  /** A featured event preceded by fewer than three featured events is shown: none is skipped. */
  lemma {:induction false} NoEarlierFeaturedSkipped(events: seq<Event>, i: nat)
    requires i < |events| && events[i].featured
    requires |Filter(events[..i], IsFeatured)| < Limit
    ensures events[i] in Featured(events)
  {
    var before := Filter(events[..i], IsFeatured);
    FilterAround(events, IsFeatured, i);
    var all := Filter(events, IsFeatured);
    assert all[|before|] == events[i];
    assert Featured(events)[|before|] == events[i];
  }

  /** With fewer than three featured events, every one of them is shown. */
  lemma AllFeaturedWhenFew(events: seq<Event>)
    requires |Filter(events, IsFeatured)| < Limit
    ensures forall i :: 0 <= i < |events| && events[i].featured ==> events[i] in Featured(events)
  {
  }

  /** When the first three events are featured, they are the ones shown. */
  lemma FirstThreeFeaturedAreShown(events: seq<Event>)
    requires |events| >= Limit
    requires events[0].featured && events[1].featured && events[2].featured
    ensures Featured(events) == events[..Limit]
  {
    var first := events[..Limit];
    assert events == first + events[Limit..];
    FilterKeepsAll(first, IsFeatured);
    FilterAppend(first, events[Limit..], IsFeatured);
    assert Filter(events, IsFeatured)[..Limit] == first;
  }

  /** On the mock catalog the landing page shows events 1, 2 and 3. */
  lemma CatalogFeatured()
    ensures Featured(Events) == Events[..Limit]
    ensures Events[0].id == "1" && Events[1].id == "2" && Events[2].id == "3"
  {
    CatalogFacts();
    FirstThreeFeaturedAreShown(Events);
  }
}
