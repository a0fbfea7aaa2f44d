/**
 * The tour search page (`pages/discover.tsx`): the four filters and the
 * predicate that decides which listed tours are shown.
 */
module Discover {
  import opened Wrappers
  import Text
  import Seqs
  import Store
  import TourForm

  /** The page's filter state; "" means the filter is off. */
  datatype Filters = Filters(search: string, location: string, difficulty: string, duration: string)

  /** The values offered by the difficulty and duration selects. */
  const DifficultyOptions: seq<string> := ["easy", "moderate", "hard", "expert"]
  const DurationOptions: seq<string> := ["1-day", "2-3-days", "1-week", "2-weeks"]

  /** `field.toLowerCase().includes(query.toLowerCase())`. */
  predicate MatchesText(field: string, query: string)
  {
    Text.Includes(Text.ToLower(field), Text.ToLower(query))
  }

  predicate MatchesSearch(t: Store.TourRow, q: string)
  {
    q == "" || MatchesText(t.tour.input.title, q) ||
    MatchesText(t.tour.input.startLocation, q) || MatchesText(t.tour.input.endLocation, q)
  }

  /** The location filter looks at the two locations only, never at the title. */
  predicate MatchesLocation(t: Store.TourRow, l: string)
  {
    l == "" || MatchesText(t.tour.input.startLocation, l) || MatchesText(t.tour.input.endLocation, l)
  }

  predicate Keep(t: Store.TourRow, f: Filters)
  {
    && MatchesSearch(t, f.search)
    && MatchesLocation(t, f.location)
    && (f.difficulty == "" || t.tour.input.difficulty == f.difficulty)
    && (f.duration == "" || t.tour.input.duration == f.duration)
  }

  /** `filteredTours`: the loaded tours that pass every filter, in listing order; [] before loading. */
  function FilteredTours(tours: Option<seq<Store.TourRow>>, f: Filters): (r: seq<Store.TourRow>)
    ensures tours.None? ==> r == []
    ensures tours.Some? ==> forall t :: t in r <==> t in tours.value && Keep(t, f)
  {
    match tours
    case None => []
    case Some(ts) => Seqs.Filter(t => Keep(t, f), ts)
  }

  /** `clearFilters`: every filter back to "". */
  function ClearFilters(f: Filters): (r: Filters)
  {
    Filters("", "", "", "")
  }

  /** The result keeps the listing's order: it is a subsequence of the loaded tours. */
  lemma Subsequence(ts: seq<Store.TourRow>, f: Filters)
    ensures Seqs.IsSubsequence(FilteredTours(Some(ts), f), ts)
  {
    Seqs.FilterIsSubsequence(t => Keep(t, f), ts);
  }

  /** After `clearFilters` every loaded tour is shown, in listing order. */
  lemma ClearedShowsAll(ts: seq<Store.TourRow>, f: Filters)
    ensures FilteredTours(Some(ts), ClearFilters(f)) == ts
  {
    Seqs.FilterKeepsAll(t => Keep(t, ClearFilters(f)), ts);
  }

  /** `g` sets every filter that `f` sets, to the same value (and possibly more). */
  predicate Refines(g: Filters, f: Filters)
  {
    && (f.search == "" || g.search == f.search)
    && (f.location == "" || g.location == f.location)
    && (f.difficulty == "" || g.difficulty == f.difficulty)
    && (f.duration == "" || g.duration == f.duration)
  }

  /** Turning on another filter can only remove tours; the remaining ones keep their order. */
  lemma MoreFiltersNarrow(ts: seq<Store.TourRow>, f: Filters, g: Filters)
    requires Refines(g, f)
    ensures Seqs.IsSubsequence(FilteredTours(Some(ts), g), FilteredTours(Some(ts), f))
    ensures |FilteredTours(Some(ts), g)| <= |FilteredTours(Some(ts), f)|
  {
    Seqs.FilterNarrows(t => Keep(t, g), t => Keep(t, f), ts);
    SubsequenceShorter(FilteredTours(Some(ts), g), FilteredTours(Some(ts), f));
  }

  lemma {:induction false} SubsequenceShorter(xs: seq<Store.TourRow>, ys: seq<Store.TourRow>)
    requires Seqs.IsSubsequence(xs, ys)
    ensures |xs| <= |ys|
    decreases |ys|
  {
    if xs != [] {
      if xs[0] == ys[0] {
        SubsequenceShorter(xs[1..], ys[1..]);
      } else {
        SubsequenceShorter(xs, ys[1..]);
      }
    }
  }

  /**
   * A non-empty search matches a tour exactly when the lower-cased query occurs
   * somewhere in the lower-cased title, start location or end location.
   */
  lemma SearchIsSubstring(t: Store.TourRow, q: string)
    requires q != ""
    ensures MatchesSearch(t, q) <==>
      || OccursIn(t.tour.input.title, q)
      || OccursIn(t.tour.input.startLocation, q)
      || OccursIn(t.tour.input.endLocation, q)
  {
    MatchesTextIffOccurs(t.tour.input.title, q);
    MatchesTextIffOccurs(t.tour.input.startLocation, q);
    MatchesTextIffOccurs(t.tour.input.endLocation, q);
  }

  /** The lower-cased query occurs at some index of the lower-cased field. */
  ghost predicate OccursIn(field: string, q: string)
  {
    exists i :: Text.OccursAt(Text.ToLower(field), Text.ToLower(q), i)
  }

  lemma MatchesTextIffOccurs(field: string, q: string)
    ensures MatchesText(field, q) <==> OccursIn(field, q)
  {
    Text.IncludesIffOccurs(Text.ToLower(field), Text.ToLower(q));
  }

  /**
   * The offered difficulty and duration values are lower-case slugs that the
   * creation form never produces, so choosing one hides every tour whose
   * difficulty (or duration) came from the form's choices.
   */
  lemma OptionsMissFormValues(ts: seq<Store.TourRow>, f: Filters)
    requires f.difficulty in DifficultyOptions || f.duration in DurationOptions
    requires forall t :: t in ts ==>
      t.tour.input.difficulty in TourForm.Difficulties && t.tour.input.duration in TourForm.DurationChoices
    ensures FilteredTours(Some(ts), f) == []
  {
    Seqs.FilterNone(t => Keep(t, f), ts);
  }
}
