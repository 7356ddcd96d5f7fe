/**
 * The filter every view re-implements over the dataset: a record is kept when
 * it passes the search, deployment, autonomy and price checks. The views
 * differ only in which text fields the search consults, so the predicate is
 * parameterised by that list of fields.
 */
module FilterEngine {
  import opened Text
  import opened Seqs
  import opened PlatformsData
  import opened AppContext

  datatype SearchField = NameField | TaglineField | DeploymentField

  function FieldText(p: Platform, f: SearchField): string
  {
    match f
    case NameField => p.name
    case TaglineField => p.tagline
    case DeploymentField => p.deployment
  }

  /** The lower-cased text of one of the fields contains the lower-cased term (fields tried in order). */
  predicate SearchHit(p: Platform, term: string, fields: seq<SearchField>)
    ensures SearchHit(p, term, fields) <==>
      exists f :: f in fields && Includes(Lower(FieldText(p, f)), Lower(term))
  {
    if fields == [] then false
    else Includes(Lower(FieldText(p, fields[0])), Lower(term)) || SearchHit(p, term, fields[1..])
  }

  /** The search check: an empty term passes every record; with no field searched, nothing else passes. */
  predicate MatchesSearch(p: Platform, term: string, fields: seq<SearchField>)
    ensures term == "" ==> MatchesSearch(p, term, fields)
    ensures fields == [] ==> (MatchesSearch(p, term, fields) <==> term == "")
  {
    term == "" || SearchHit(p, term, fields)
  }

  /**
   * Deployment is matched by substring: "Cloud" selects "Cloud/Hybrid" too, and
   * a selection longer than the record's deployment never selects it.
   */
  predicate MatchesDeployment(p: Platform, selected: string)
    ensures selected == "all" ==> MatchesDeployment(p, selected)
    ensures selected != "all" && |selected| > |p.deployment| ==> !MatchesDeployment(p, selected)
  {
    selected == "all" || Includes(p.deployment, selected)
  }

  /** Autonomy is matched exactly, not by substring: "Medium" does not select "Medium-High". */
  predicate MatchesAutonomy(p: Platform, selected: string)
    ensures selected == "all" || selected == p.autonomyLevel ==> MatchesAutonomy(p, selected)
    ensures MatchesAutonomy(p, selected) && selected != "all" ==> selected == p.autonomyLevel
  {
    selected == "all" || p.autonomyLevel == selected
  }

  /**
   * Both price bounds are inclusive: a range whose bounds cross keeps nothing,
   * and a one-point range keeps exactly that price.
   */
  predicate MatchesPrice(p: Platform, range: PriceRange)
    ensures MatchesPrice(p, range) ==> range.lo <= range.hi
    ensures range.lo == range.hi ==> (MatchesPrice(p, range) <==> p.monthlyPrice == range.lo)
  {
    p.monthlyPrice >= range.lo && p.monthlyPrice <= range.hi
  }

  /** A record that passes the filter satisfies each of the four selections on its own. */
  predicate Matches(p: Platform, st: FilterState, fields: seq<SearchField>)
    ensures Matches(p, st, fields) && st.searchTerm != "" ==> SearchHit(p, st.searchTerm, fields)
    ensures Matches(p, st, fields) && st.selectedDeployment != "all" ==> Includes(p.deployment, st.selectedDeployment)
    ensures Matches(p, st, fields) && st.selectedAutonomy != "all" ==> p.autonomyLevel == st.selectedAutonomy
    ensures Matches(p, st, fields) ==> st.priceRange.lo <= p.monthlyPrice <= st.priceRange.hi
  {
    && MatchesSearch(p, st.searchTerm, fields)
    && MatchesDeployment(p, st.selectedDeployment)
    && MatchesAutonomy(p, st.selectedAutonomy)
    && MatchesPrice(p, st.priceRange)
  }

  /** `platformsData.filter(...)`: the records that match, in their original order. */
  function FilterPlatforms(ps: seq<Platform>, st: FilterState, fields: seq<SearchField>): (r: seq<Platform>)
    ensures |r| <= |ps|
  {
    if ps == [] then []
    else if Matches(ps[0], st, fields) then [ps[0]] + FilterPlatforms(ps[1..], st, fields)
    else FilterPlatforms(ps[1..], st, fields)
  }

  /** The filtered list keeps the records in their original order: it is a subsequence of the input. */
  lemma {:induction false} FilterIsSubsequence(ps: seq<Platform>, st: FilterState, fields: seq<SearchField>)
    ensures IsSubsequence(FilterPlatforms(ps, st, fields), ps)
  {
    if ps != [] {
      FilterIsSubsequence(ps[1..], st, fields);
    }
  }

  /** A record is in the filtered list exactly when it is in the input and passes all four checks. */
  lemma {:induction false} FilterKeepsExactlyMatching(ps: seq<Platform>, st: FilterState, fields: seq<SearchField>)
    ensures forall p :: p in FilterPlatforms(ps, st, fields) <==> p in ps && Matches(p, st, fields)
  {
    if ps != [] {
      FilterKeepsExactlyMatching(ps[1..], st, fields);
      assert ps == [ps[0]] + ps[1..];
    }
  }

  /** Filtering distributes over concatenation: each part is filtered where it stands. */
  lemma {:induction false} FilterAppend(a: seq<Platform>, b: seq<Platform>, st: FilterState, fields: seq<SearchField>)
    ensures FilterPlatforms(a + b, st, fields) == FilterPlatforms(a, st, fields) + FilterPlatforms(b, st, fields)
    decreases |a|
  {
    if a == [] {
      assert a + b == b;
    } else {
      assert (a + b)[0] == a[0] && (a + b)[1..] == a[1..] + b;
      FilterAppend(a[1..], b, st, fields);
    }
  }

  /** The search ignores case: a term and its lower-cased form keep the same records. */
  lemma SearchIgnoresCase(p: Platform, term: string, fields: seq<SearchField>)
    ensures MatchesSearch(p, term, fields) <==> MatchesSearch(p, Lower(term), fields)
  {
    LowerIdempotent(term);
  }

  /** Searching more fields can only keep more records. */
  lemma WiderSearchMatches(p: Platform, st: FilterState, narrow: seq<SearchField>, wide: seq<SearchField>)
    requires forall f :: f in narrow ==> f in wide
    ensures Matches(p, st, narrow) ==> Matches(p, st, wide)
  {
  }

  /**
   * The result of a search over fewer fields is the result over more fields,
   * filtered again: it is an order-preserving subsequence of it.
   */
  lemma {:induction false} NarrowerSearchRefines(ps: seq<Platform>, st: FilterState,
                                                 narrow: seq<SearchField>, wide: seq<SearchField>)
    requires forall f :: f in narrow ==> f in wide
    ensures FilterPlatforms(ps, st, narrow) == FilterPlatforms(FilterPlatforms(ps, st, wide), st, narrow)
    ensures IsSubsequence(FilterPlatforms(ps, st, narrow), FilterPlatforms(ps, st, wide))
  {
    if ps != [] {
      WiderSearchMatches(ps[0], st, narrow, wide);
      NarrowerSearchRefines(ps[1..], st, narrow, wide);
    }
  }

  /** With every filter at its default, every record priced within [0, 500] is kept, in order. */
  lemma {:induction false} DefaultsKeepAll(ps: seq<Platform>, fields: seq<SearchField>)
    requires forall p :: p in ps ==> 0 <= p.monthlyPrice <= 500
    ensures FilterPlatforms(ps, DefaultFilters, fields) == ps
  {
    if ps != [] {
      DefaultsKeepAll(ps[1..], fields);
    }
  }

  /** The number of records that match. */
  function CountMatching(ps: seq<Platform>, st: FilterState, fields: seq<SearchField>): (n: nat)
    ensures n <= |ps|
  {
    Count(ps, (p: Platform) => Matches(p, st, fields))
  }

  /** The filtered list is empty exactly when no record matches. */
  lemma EmptyIffNoneMatch(ps: seq<Platform>, st: FilterState, fields: seq<SearchField>)
    ensures FilterPlatforms(ps, st, fields) == [] <==> forall p :: p in ps ==> !Matches(p, st, fields)
  {
  }

  /** The filtered list has one entry per matching record. */
  lemma {:induction false} FilteredLength(ps: seq<Platform>, st: FilterState, fields: seq<SearchField>)
    ensures |FilterPlatforms(ps, st, fields)| == CountMatching(ps, st, fields)
  {
    if ps != [] {
      FilteredLength(ps[1..], st, fields);
    }
  }
}
