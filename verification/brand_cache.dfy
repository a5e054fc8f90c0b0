/**
 * The brand-filter cache protocol the service writes by hand, as pure functions of
 * the region's entries and the car list: read-through (hit returns the stored list,
 * miss computes the brand filter, stores it and returns it) and refresh (recompute
 * and overwrite one key). The class methods in module Service are proved against
 * these functions.
 */
module BrandCache {
  import opened CarDto
  import opened CarQueries
  import opened SpringCache

  /** The entries of the `brandFilterCache` region. */
  type Region = map<SimpleKey, seq<Car>>

  /** `new SimpleKey(brand)`. */
  function BrandKey(brand: string): SimpleKey {
    SimpleKey([brand])
  }

  /**
   * The outcome of one read-through: the list returned, the region afterwards, and
   * whether the brand filter was evaluated.
   */
  datatype Lookup = Lookup(value: seq<Car>, entries: Region, computed: bool)

  /**
   * Read-through for one brand. The filter is evaluated only on a miss (the
   * computation is supplied lazily), and an entry already present is never changed.
   */
  function ReadThrough(entries: Region, cars: seq<Car>, brand: string): (l: Lookup)
    ensures BrandKey(brand) in l.entries && l.entries[BrandKey(brand)] == l.value
    ensures l.entries.Keys == entries.Keys + {BrandKey(brand)}
    ensures forall k :: k in entries ==> l.entries[k] == entries[k]
    ensures l.computed <==> BrandKey(brand) !in entries
    ensures l.computed ==> l.value == BrandFilter(cars, brand)
  {
    var key := BrandKey(brand);
    if key in entries then Lookup(entries[key], entries, false)
    else
      var computed := BrandFilter(cars, brand);
      Lookup(computed, entries[key := computed], true)
  }

  /** The region after the brand's entry is recomputed and overwritten. */
  function Refresh(entries: Region, cars: seq<Car>, brand: string): (r: Region)
    ensures r.Keys == entries.Keys + {BrandKey(brand)}
    ensures r[BrandKey(brand)] == BrandFilter(cars, brand)
    ensures forall k :: k in entries && k != BrandKey(brand) ==> r[k] == entries[k]
  {
    entries[BrandKey(brand) := BrandFilter(cars, brand)]
  }

  /**
   * Recomputing the same brand twice leaves the region as recomputing it once:
   * an explicit put repeated without a change to the list is a no-op.
   */
  lemma RefreshIdempotent(entries: Region, cars: seq<Car>, brand: string)
    ensures Refresh(Refresh(entries, cars, brand), cars, brand) == Refresh(entries, cars, brand)
  {
  }

  /** Every single-argument entry holds the current brand filter for that argument. */
  ghost predicate Coherent(entries: Region, cars: seq<Car>) {
    forall k :: k in entries && |k.elements| == 1 ==> entries[k] == BrandFilter(cars, k.elements[0])
  }

  /**
   * Two read-throughs in a row: the second is a hit that returns the same list,
   * leaves the region as the first left it, and does not evaluate the filter, so
   * the filter runs at most once over both calls, and exactly once when the key
   * was missing at first.
   */
  lemma ReadThroughSecondIsHit(entries: Region, cars: seq<Car>, brand: string)
    ensures var first := ReadThrough(entries, cars, brand);
      var second := ReadThrough(first.entries, cars, brand);
      && second.value == first.value
      && second.entries == first.entries
      && !second.computed
      && (first.computed <==> BrandKey(brand) !in entries)
  {
  }

  /**
   * While the region is coherent, read-through returns exactly what the uncached
   * brand filter returns, and the region stays coherent.
   */
  lemma ReadThroughTransparent(entries: Region, cars: seq<Car>, brand: string)
    requires Coherent(entries, cars)
    ensures ReadThrough(entries, cars, brand).value == BrandFilter(cars, brand)
    ensures Coherent(ReadThrough(entries, cars, brand).entries, cars)
  {
  }

  /** Refreshing a brand keeps a coherent region coherent; clearing makes any region coherent. */
  lemma RefreshAndClearKeepCoherent(entries: Region, cars: seq<Car>, brand: string)
    ensures Coherent(entries, cars) ==> Coherent(Refresh(entries, cars, brand), cars)
    ensures Coherent(map[], cars)
  {
  }

  /**
   * Appending a car leaves the region's entry for that car's brand stale: a hit
   * returns the list from before the append, which lacks the new car. Entries for
   * every other brand stay correct, so refreshing the one brand makes the region
   * coherent again.
   */
  lemma {:induction false} AppendStalesOnlyItsBrand(entries: Region, cars: seq<Car>, car: Car)
    requires Coherent(entries, cars)
    ensures BrandKey(car.brand) in entries ==>
      ReadThrough(entries, cars + [car], car.brand).value != BrandFilter(cars + [car], car.brand)
    ensures Coherent(Refresh(entries, cars + [car], car.brand), cars + [car])
  {
    forall b: string
      ensures BrandFilter(cars + [car], b) == BrandFilter(cars, b) + (if car.brand == b then [car] else [])
    {
      FilterAppend(cars, [car], BrandEquals(b));
      FilterSingleton(car, BrandEquals(b));
    }
    if BrandKey(car.brand) in entries {
      assert |BrandFilter(cars + [car], car.brand)| == |BrandFilter(cars, car.brand)| + 1;
    }
    var refreshed := Refresh(entries, cars + [car], car.brand);
    forall k | k in refreshed && |k.elements| == 1
      ensures refreshed[k] == BrandFilter(cars + [car], k.elements[0])
    {
      if k.elements[0] == car.brand {
        assert k.elements == [car.brand];
      }
    }
  }
}
