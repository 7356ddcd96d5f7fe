/**
 * The shared filter state and its provider: the five filter fields with
 * their defaults and setters, the dark-mode flag restored from and written
 * back to the browser's key-value store, and the guard that refuses to hand
 * out the state outside a provider.
 */
module AppContext {
  import opened Wrappers

  /** `priceRange`: the pair [min, max] of monthly prices. */
  datatype PriceRange = PriceRange(lo: int, hi: int)

  /** The filter fields the views read. */
  datatype FilterState = FilterState(
    searchTerm: string,
    selectedDeployment: string,
    selectedAutonomy: string,
    priceRange: PriceRange,
    selectedFeatures: seq<string>)

  /** The initial value of every filter field, and what `resetFilters` restores. */
  const DefaultFilters := FilterState("", "all", "all", PriceRange(0, MaxSliderPrice), [])

  /** The key under which the dark-mode flag is stored. */
  const DarkModeKey := "darkMode"

  /** The highest value of the price slider. */
  const MaxSliderPrice := 500

  /** `b.toString()`. */
  function BoolString(b: bool): string
  {
    if b then "true" else "false"
  }

  /** The flag read at start-up: only the exact stored string "true" turns dark mode on. */
  function RestoredDarkMode(storage: map<string, string>): (dark: bool)
    ensures dark <==> DarkModeKey in storage && storage[DarkModeKey] == BoolString(true)
  {
    DarkModeKey in storage && storage[DarkModeKey] == "true"
  }

  /** Writing a flag and starting again reads back the same flag, whatever else the store holds. */
  lemma PersistRoundTrip(storage: map<string, string>, b: bool)
    ensures RestoredDarkMode(storage[DarkModeKey := BoolString(b)]) == b
  {
  }

  /** Of all stored strings, exactly "true" restores dark mode ("True", "1", "yes" do not). */
  lemma OnlyTrueRestoresDark(storage: map<string, string>, stored: string)
    ensures RestoredDarkMode(storage[DarkModeKey := stored]) <==> stored == "true"
  {
  }

  /** With no stored entry the light theme is restored. */
  lemma MissingFlagIsLight(storage: map<string, string>)
    requires DarkModeKey !in storage
    ensures !RestoredDarkMode(storage)
  {
  }

  /** The error `useAppContext` throws when no provider is above the caller. */
  const OutsideProviderError := "useAppContext must be used within AppProvider"

  /** `useAppContext`: the provider's value, or the error when there is none. */
  function UseAppContext<T>(context: Option<T>): (r: Result<T, string>)
    ensures r.Ok? <==> context.Some?
    ensures r.Ok? ==> r.value == context.value
    ensures r.Err? ==> r.error == OutsideProviderError
  {
    match context
    case Some(v) => Ok(v)
    case None => Err(OutsideProviderError)
  }

  /** `AppProvider`: the state fields, updated only through the methods below. */
  class AppProvider {
    var darkMode: bool
    var searchTerm: string
    var selectedDeployment: string
    var selectedAutonomy: string
    var priceRange: PriceRange
    var selectedFeatures: seq<string>
    /** The browser's key-value store as the provider sees it. */
    var storage: map<string, string>

    /** The store always mirrors the current dark-mode flag (the effect runs on every change). */
    ghost predicate Valid()
      reads this
    {
      DarkModeKey in storage && storage[DarkModeKey] == BoolString(darkMode)
    }

    /** The filter fields as one value, as the views receive them. */
    function Filters(): FilterState
      reads this
    {
      FilterState(searchTerm, selectedDeployment, selectedAutonomy, priceRange, selectedFeatures)
    }

    /** The price bounds are ordered: the slider only ever moves the upper bound above 0. */
    predicate PriceRangeOrdered()
      reads this
    {
      0 <= priceRange.lo <= priceRange.hi <= MaxSliderPrice
    }

    /**
     * Mounting the provider: dark mode is restored from the store, every filter
     * takes its default, and the mount effect writes the flag back.
     */
    constructor (initialStorage: map<string, string>)
      ensures Valid() && PriceRangeOrdered()
      ensures darkMode == RestoredDarkMode(initialStorage)
      ensures Filters() == DefaultFilters
      ensures storage == initialStorage[DarkModeKey := BoolString(darkMode)]
    {
      darkMode := RestoredDarkMode(initialStorage);
      searchTerm := DefaultFilters.searchTerm;
      selectedDeployment := DefaultFilters.selectedDeployment;
      selectedAutonomy := DefaultFilters.selectedAutonomy;
      priceRange := DefaultFilters.priceRange;
      selectedFeatures := DefaultFilters.selectedFeatures;
      new;
      storage := initialStorage[DarkModeKey := BoolString(darkMode)];
    }

    /** `toggleDarkMode`, followed by the effect that stores the new flag. */
    method ToggleDarkMode()
      requires Valid()
      modifies this`darkMode, this`storage
      ensures Valid()
      ensures darkMode == !old(darkMode)
      ensures storage == old(storage)[DarkModeKey := BoolString(darkMode)]
    {
      darkMode := !darkMode;
      storage := storage[DarkModeKey := BoolString(darkMode)];
    }

    /** `resetFilters`: every filter field back to its default; dark mode and the store untouched. */
    method ResetFilters()
      modifies this`searchTerm, this`selectedDeployment, this`selectedAutonomy,
               this`priceRange, this`selectedFeatures
      ensures Filters() == DefaultFilters
      ensures PriceRangeOrdered()
    {
      searchTerm := DefaultFilters.searchTerm;
      selectedDeployment := DefaultFilters.selectedDeployment;
      selectedAutonomy := DefaultFilters.selectedAutonomy;
      priceRange := DefaultFilters.priceRange;
      selectedFeatures := DefaultFilters.selectedFeatures;
    }

    method SetSearchTerm(term: string)
      modifies this`searchTerm
      ensures searchTerm == term
    {
      searchTerm := term;
    }

    method SetSelectedDeployment(deployment: string)
      modifies this`selectedDeployment
      ensures selectedDeployment == deployment
    {
      selectedDeployment := deployment;
    }

    method SetSelectedAutonomy(autonomy: string)
      modifies this`selectedAutonomy
      ensures selectedAutonomy == autonomy
    {
      selectedAutonomy := autonomy;
    }

    method SetPriceRange(range: PriceRange)
      modifies this`priceRange
      ensures priceRange == range
    {
      priceRange := range;
    }

    method SetSelectedFeatures(features: seq<string>)
      modifies this`selectedFeatures
      ensures selectedFeatures == features
    {
      selectedFeatures := features;
    }

    /** The price slider's change handler: the range becomes [0, v] for a slider value v. */
    method SlidePriceMax(v: int)
      requires 0 <= v <= MaxSliderPrice
      modifies this`priceRange
      ensures priceRange == PriceRange(0, v)
      ensures PriceRangeOrdered()
    {
      SetPriceRange(PriceRange(0, v));
    }
  }

  /** Toggling twice returns the flag and the stored string to what they were. */
  method ToggleTwice(app: AppProvider)
    requires app.Valid()
    modifies app
    ensures app.Valid()
    ensures app.darkMode == old(app.darkMode) && app.storage == old(app.storage)
    ensures app.Filters() == old(app.Filters())
  {
    app.ToggleDarkMode();
    app.ToggleDarkMode();
  }

  /** Resetting twice is resetting once; dark mode and the store survive both. */
  method ResetTwice(app: AppProvider)
    modifies app
    ensures app.Filters() == DefaultFilters
    ensures app.darkMode == old(app.darkMode) && app.storage == old(app.storage)
  {
    app.ResetFilters();
    app.ResetFilters();
  }

  /** A page reload: a new provider over the same store restores the flag the old one left. */
  method Reload(app: AppProvider) returns (next: AppProvider)
    requires app.Valid()
    ensures fresh(next) && next.Valid()
    ensures next.darkMode == app.darkMode
    ensures next.Filters() == DefaultFilters
  {
    next := new AppProvider(app.storage);
  }
}
