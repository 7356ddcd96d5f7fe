/**
 * The feature comparison table: its filter (name and tagline searched), the
 * sortable columns with their comparator, the stable sort of a copy of the
 * filtered list, the sort-control state, and the feature-status glyphs.
 */
module FeatureComparisonTable {
  import opened Wrappers
  import opened Text
  import opened PlatformsData
  import opened AppContext
  import opened FilterEngine
  import opened ArraySort

  /** The table searches the name and the tagline. */
  const TableFields := [NameField, TaglineField]

  /** `filteredPlatforms` of the table. */
  function FilteredPlatforms(st: FilterState): (r: seq<Platform>)
    ensures |r| <= |Platforms|
  {
    FilterPlatforms(Platforms, st, TableFields)
  }

  // ---------------------------------------------------------------- sorting

  datatype Column = NameColumn | PriceColumn | DeploymentColumn | AutonomyColumn

  datatype Direction = Asc | Desc

  /** The rank table of the autonomy column. */
  const AutonomyOrder: map<string, int> :=
    map["Low" := 1, "Low-Medium" := 2, "Medium" := 3, "Medium-High" := 4, "High" := 5]

  /** `autonomyOrder[level] || 0`: a level's position in the ordered list of levels, 0 when unknown. */
  function AutonomyRank(level: string): (r: int)
    ensures 0 <= r <= |AutonomyLevels|
    ensures r == 0 <==> level !in AutonomyLevels
    ensures r > 0 ==> AutonomyLevels[r - 1] == level
  {
    if level in AutonomyOrder then AutonomyOrder[level] else 0
  }

  /** The value a column compares: a number or a string. */
  datatype SortKey = Num(n: int) | Str(s: string)

  /** The name and deployment columns compare strings; price and autonomy compare numbers, ranks within 0..5. */
  function KeyOf(p: Platform, column: Column): (k: SortKey)
    ensures k.Num? <==> column == PriceColumn || column == AutonomyColumn
    ensures column == AutonomyColumn ==> 0 <= k.n <= |AutonomyLevels|
  {
    match column
    case NameColumn => Str(p.name)
    case PriceColumn => Num(p.monthlyPrice)
    case DeploymentColumn => Str(p.deployment)
    case AutonomyColumn => Num(AutonomyRank(p.autonomyLevel))
  }

  /**
   * `aValue < bValue`. One column only ever yields one kind of key; ordering
   * numbers before strings merely makes the relation total.
   */
  predicate KeyLess(a: SortKey, b: SortKey)
  {
    match (a, b)
    case (Num(x), Num(y)) => x < y
    case (Str(x), Str(y)) => LexLess(x, y)
    case (Num(_), Str(_)) => true
    case (Str(_), Num(_)) => false
  }

  /** KeyLess is a strict total order. */
  lemma KeyLessIrreflexive(a: SortKey)
    ensures !KeyLess(a, a)
  {
    if a.Str? {
      LexLessIrreflexive(a.s);
    }
  }

  lemma KeyLessTransitive(a: SortKey, b: SortKey, c: SortKey)
    requires KeyLess(a, b) && KeyLess(b, c)
    ensures KeyLess(a, c)
  {
    if a.Str? && b.Str? && c.Str? {
      LexLessTransitive(a.s, b.s, c.s);
    }
  }

  lemma KeyLessTotal(a: SortKey, b: SortKey)
    requires a != b
    ensures KeyLess(a, b) || KeyLess(b, a)
  {
    if a.Str? && b.Str? {
      LexLessTotal(a.s, b.s);
    }
  }

  /** Of two keys, at most one is less than the other. */
  lemma KeyLessAsymmetric(a: SortKey, b: SortKey)
    requires KeyLess(a, b)
    ensures !KeyLess(b, a)
  {
    if KeyLess(b, a) {
      KeyLessTransitive(a, b, a);
      KeyLessIrreflexive(a);
    }
  }

  /** The comparator handed to `sort`: negative when a goes first, positive when b does. */
  function Compare(a: Platform, b: Platform, column: Column, direction: Direction): (r: int)
    ensures r == -1 || r == 0 || r == 1
    ensures r > 0 <==>
      if direction == Asc then KeyLess(KeyOf(b, column), KeyOf(a, column))
      else KeyLess(KeyOf(a, column), KeyOf(b, column))
  {
    var ka, kb := KeyOf(a, column), KeyOf(b, column);
    if KeyLess(ka, kb) then KeyLessAsymmetric(ka, kb); (if direction == Asc then -1 else 1)
    else if KeyLess(kb, ka) then (if direction == Asc then 1 else -1)
    else 0
  }

  /** The comparator is consistent: swapping its arguments negates it, and it is 0 exactly on equal keys. */
  lemma CompareConsistent(a: Platform, b: Platform, column: Column, direction: Direction)
    ensures Compare(a, b, column, direction) == -Compare(b, a, column, direction)
    ensures Compare(a, b, column, direction) == 0 <==> KeyOf(a, column) == KeyOf(b, column)
  {
    var ka, kb := KeyOf(a, column), KeyOf(b, column);
    KeyLessIrreflexive(ka);
    if KeyLess(ka, kb) && KeyLess(kb, ka) {
      KeyLessTransitive(ka, kb, ka);
    }
    if ka != kb {
      KeyLessTotal(ka, kb);
    }
  }

  /** a must come before b. */
  predicate Precedes(a: Platform, b: Platform, column: Column, direction: Direction)
  {
    Compare(a, b, column, direction) < 0
  }

  /** Ascending puts the smaller key first, descending the larger. */
  lemma PrecedesByDirection(a: Platform, b: Platform, column: Column, direction: Direction)
    ensures Precedes(a, b, column, direction) <==>
      if direction == Asc then KeyLess(KeyOf(a, column), KeyOf(b, column))
      else KeyLess(KeyOf(b, column), KeyOf(a, column))
  {
    CompareConsistent(a, b, column, direction);
  }

  /** Records with equal keys never have to be reordered. */
  lemma PrecedesKeysDiffer(a: Platform, b: Platform, column: Column, direction: Direction)
    requires Precedes(a, b, column, direction)
    ensures KeyOf(a, column) != KeyOf(b, column)
  {
    CompareConsistent(a, b, column, direction);
  }

  lemma PrecedesAsymmetric(a: Platform, b: Platform, column: Column, direction: Direction)
    requires Precedes(a, b, column, direction)
    ensures !Precedes(b, a, column, direction)
  {
    CompareConsistent(a, b, column, direction);
  }

  /** If neither a before b nor b before c is required, a before c is not either. */
  lemma NotPrecedesTransitive(a: Platform, b: Platform, c: Platform, column: Column, direction: Direction)
    requires !Precedes(a, b, column, direction) && !Precedes(b, c, column, direction)
    ensures !Precedes(a, c, column, direction)
  {
    var ka, kb, kc := KeyOf(a, column), KeyOf(b, column), KeyOf(c, column);
    PrecedesByDirection(a, b, column, direction);
    PrecedesByDirection(b, c, column, direction);
    PrecedesByDirection(a, c, column, direction);
    if ka != kb { KeyLessTotal(ka, kb); }
    if kb != kc { KeyLessTotal(kb, kc); }
    if direction == Asc {
      if KeyLess(ka, kc) {
        if ka == kb || kb == kc {
        } else {
          KeyLessTransitive(kc, kb, ka);
          KeyLessTransitive(ka, kc, ka);
          KeyLessIrreflexive(ka);
        }
      }
    } else {
      if KeyLess(kc, ka) {
        if ka == kb || kb == kc {
        } else {
          KeyLessTransitive(ka, kb, kc);
          KeyLessTransitive(kc, ka, kc);
          KeyLessIrreflexive(kc);
        }
      }
    }
  }

  /** The comparator handed to `sort` for a column and a direction. */
  function Comparator(column: Column, direction: Direction): (Platform, Platform) -> int
  {
    (a, b) => Compare(a, b, column, direction)
  }

  /** The key a column sorts on, as a function. */
  function KeyFn(column: Column): Platform -> SortKey
  {
    p => KeyOf(p, column)
  }

  /**
   * The comparator is consistent, so the sort is well defined, and it only
   * ever orders records whose keys differ, so records with equal keys keep
   * their order.
   */
  lemma ComparatorConsistent(column: Column, direction: Direction)
    ensures Consistent(Comparator(column, direction))
    ensures KeyCompatible(Comparator(column, direction), KeyFn(column))
  {
    var cmp := Comparator(column, direction);
    forall a, b | Before(cmp, a, b)
      ensures !Before(cmp, b, a)
    {
      PrecedesAsymmetric(a, b, column, direction);
    }
    forall a, b, c | !Before(cmp, a, b) && !Before(cmp, b, c)
      ensures !Before(cmp, a, c)
    {
      NotPrecedesTransitive(a, b, c, column, direction);
    }
    forall a, b | Before(cmp, a, b)
      ensures KeyFn(column)(a) != KeyFn(column)(b)
    {
      PrecedesKeysDiffer(a, b, column, direction);
    }
  }

  /** Keys are non-decreasing for ascending and non-increasing for descending order. */
  lemma SortedKeys(s: seq<Platform>, column: Column, direction: Direction, i: int, j: int)
    requires SortedBy(s, Comparator(column, direction))
    requires 0 <= i < j < |s|
    ensures var ki, kj := KeyOf(s[i], column), KeyOf(s[j], column);
      if direction == Asc then ki == kj || KeyLess(ki, kj) else ki == kj || KeyLess(kj, ki)
  {
    var ki, kj := KeyOf(s[i], column), KeyOf(s[j], column);
    assert !Before(Comparator(column, direction), s[j], s[i]);
    PrecedesByDirection(s[j], s[i], column, direction);
    if ki != kj {
      KeyLessTotal(ki, kj);
    }
  }

  /**
   * `sortedPlatforms`: with no column the filtered array itself; otherwise a
   * fresh copy of it (`[...filteredPlatforms]`), sorted. The method may not
   * modify anything, so the filtered array keeps its order.
   */
  method SortedPlatforms(filtered: array<Platform>, column: Option<Column>, direction: Direction)
    returns (r: array<Platform>)
    ensures column.None? ==> r == filtered
    ensures column.Some? ==> fresh(r) && r[..] == StableSort(filtered[..], Comparator(column.value, direction))
    ensures multiset(r[..]) == multiset(filtered[..])
    ensures column.Some? ==> SortedBy(r[..], Comparator(column.value, direction))
    ensures column.Some? ==> forall k :: Select(r[..], KeyFn(column.value), k) == Select(filtered[..], KeyFn(column.value), k)
  {
    if column.None? {
      return filtered;
    }
    var cmp := Comparator(column.value, direction);
    r := new Platform[filtered.Length](i reads filtered requires 0 <= i < filtered.Length => filtered[i]);
    assert r[..] == filtered[..];
    SortInPlace(r, cmp);
    ComparatorConsistent(column.value, direction);
    StableSortSorted(filtered[..], cmp);
    StableSortPermutes(filtered[..], cmp);
    forall k {
      StableSortStable(filtered[..], cmp, KeyFn(column.value), k);
    }
  }

  // ----------------------------------------------------- sort-control state

  function Flip(d: Direction): Direction
  {
    if d == Asc then Desc else Asc
  }

  /**
   * `handleSort` on values: the column and direction after a click on a column
   * header. The clicked column becomes the sorted one; a click on the sorted
   * column changes the direction, a click on another column sorts ascending.
   */
  function NextSort(current: Option<Column>, direction: Direction, clicked: Column): (r: (Option<Column>, Direction))
    ensures r.0 == Some(clicked)
    ensures current == Some(clicked) ==> r.1 != direction
    ensures current != Some(clicked) ==> r.1 == Asc
  {
    if current == Some(clicked) then (current, Flip(direction)) else (Some(clicked), Asc)
  }

  /** Two clicks on the sorted column restore its direction. */
  lemma TwoClicksRestore(column: Column, direction: Direction)
    ensures var (c1, d1) := NextSort(Some(column), direction, column);
            NextSort(c1, d1, column) == (Some(column), direction)
  {
  }

  /** Two clicks on a column not yet sorted sort it ascending, then descending. */
  lemma TwoClicksOnNewColumn(current: Option<Column>, direction: Direction, clicked: Column)
    requires current != Some(clicked)
    ensures var (c1, d1) := NextSort(current, direction, clicked);
            (c1, d1) == (Some(clicked), Asc) && NextSort(c1, d1, clicked) == (Some(clicked), Desc)
  {
  }

  /** The table's own sort state: no column and ascending until a header is clicked. */
  class SortControl {
    var sortColumn: Option<Column>
    var sortDirection: Direction

    constructor ()
      ensures sortColumn == None && sortDirection == Asc
    {
      sortColumn := None;
      sortDirection := Asc;
    }

    /** `handleSort(column)`. */
    method HandleSort(column: Column)
      modifies this
      ensures (sortColumn, sortDirection) == NextSort(old(sortColumn), old(sortDirection), column)
    {
      var next := NextSort(sortColumn, sortDirection, column);
      sortColumn, sortDirection := next.0, next.1;
    }

    /** The rows the table shows for the current sort state. */
    method Rows(filtered: array<Platform>) returns (r: array<Platform>)
      ensures multiset(r[..]) == multiset(filtered[..])
      ensures sortColumn.None? ==> r == filtered
      ensures sortColumn.Some? ==> fresh(r) && r[..] == StableSort(filtered[..], Comparator(sortColumn.value, sortDirection))
    {
      r := SortedPlatforms(filtered, sortColumn, sortDirection);
    }

    /**
     * The table body for a filter state: the table's filtered records, laid
     * out as the array `filteredPlatforms`, then sorted as the control says.
     */
    method TableRows(st: FilterState) returns (r: array<Platform>)
      ensures fresh(r)
      ensures multiset(r[..]) == multiset(FilteredPlatforms(st))
      ensures sortColumn.None? ==> r[..] == FilteredPlatforms(st)
      ensures sortColumn.Some? ==> r[..] == StableSort(FilteredPlatforms(st), Comparator(sortColumn.value, sortDirection))
    {
      var filtered := FromSeq(FilteredPlatforms(st));
      r := Rows(filtered);
    }
  }

  // ---------------------------------------------------------- feature cells

  /** The four glyphs of a feature cell: ✓, ◐, ✗ and a grey "-". */
  datatype FeatureGlyph = Supported | PartlySupported | Unsupported | NoData

  /** `getFeatureIcon`: a missing status (`undefined`) and any unknown string show "-". */
  function FeatureIcon(status: Option<string>): (g: FeatureGlyph)
    ensures g == NoData <==> status.None? || status.value !in FeatureStatuses
  {
    match status
    case Some("present") => Supported
    case Some("partial") => PartlySupported
    case Some("absent") => Unsupported
    case _ => NoData
  }

  /** The status of one feature of one record, `undefined` when the key is missing. */
  function FeatureStatus(p: Platform, key: string): (r: Option<string>)
    ensures r.None? <==> key !in p.features
    ensures r.Some? ==> r.value == p.features[key]
  {
    if key in p.features then Some(p.features[key]) else None
  }

  /** Distinct statuses get distinct glyphs. */
  lemma FeatureIconInjective(a: string, b: string)
    requires a in FeatureStatuses && b in FeatureStatuses && a != b
    ensures FeatureIcon(Some(a)) != FeatureIcon(Some(b))
  {
  }

  /** Every cell of the shipped table shows one of the three legend glyphs, never "-". */
  lemma EveryShippedCellHasLegendGlyph(p: Platform, key: string)
    requires p in Platforms && key in FeatureKeys
    ensures FeatureIcon(FeatureStatus(p, key)) != NoData
  {
    PlatformsWellFormed();
    FeatureKeysAreDescribed();
  }
}
