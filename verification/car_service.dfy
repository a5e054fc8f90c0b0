/**
 * The car service: an in-memory list of cars, updated in place by `create`, the
 * stream filters over it, and the brand-filter cache region it reads through,
 * refreshes and clears by hand.
 */
module Service {
  import opened Wrappers
  import opened CarDto
  import opened CarQueries
  import opened SpringCache
  import opened BrandCache

  /** The five records the service's list starts with. */
  function InitialCars(): seq<Car> {
    [ Car(1, "Astra", "Opel", 100, 18000.0),
      Car(2, "Insignia", "Opel", 120, 22000.0),
      Car(3, "Golf", "VW", 90, 17000.0),
      Car(4, "Golf", "VW", 120, 19000.0),
      Car(5, "Gallardo", "Lamborghini", 400, 100000.0) ]
  }

  /** The id `create` hands out first on the starting list. */
  lemma InitialNextId()
    ensures NextId(InitialCars()) == 6
  {
  }

  /** The brand query for "VW" on the starting list: the two Golfs, in list order. */
  lemma InitialBrandQuery()
    ensures BrandFilter(InitialCars(), "VW") == [InitialCars()[2], InitialCars()[3]]
  {
  }

  /** The price query for 18000 to 20000 on the starting list: the Astra and the second Golf. */
  lemma InitialPriceQuery()
    ensures PriceFilter(InitialCars(), 18000.0, 20000.0) == [InitialCars()[0], InitialCars()[3]]
  {
  }

  class CarService {
    /** The list of cars; `create` appends to it. */
    var cars: seq<Car>
    /** The region the brand cache manager returns for "brandFilterCache", assumed present. */
    const brandFilterCache: Cache<seq<Car>>
    /** How many times the cache methods have evaluated the brand filter. */
    ghost var filterRuns: nat

    /** Every id fits in a Java `long` and no two cars share one. */
    ghost predicate Valid()
      reads this
    {
      (forall i :: 0 <= i < |cars| ==> IsLong(cars[i].id)) && DistinctIds(cars)
    }

    constructor (brandFilterCache: Cache<seq<Car>>)
      requires brandFilterCache.name == "brandFilterCache"
      ensures Valid()
      ensures cars == InitialCars() && this.brandFilterCache == brandFilterCache
      ensures filterRuns == 0
    {
      cars := InitialCars();
      this.brandFilterCache := brandFilterCache;
      filterRuns := 0;
    }

    /** The cars priced between `min` and `max`, both inclusive, in list order. */
    function GetCarsWithPriceFilter(min: real, max: real): (r: seq<Car>)
      reads this
      ensures |r| <= |cars|
      ensures forall c :: c in r <==> c in cars && min <= c.price && c.price <= max
    {
      PriceFilter(cars, min, max)
    }

    /** The cars of the given brand, in list order. */
    function GetCarsWithBrandFilter(brand: string): (r: seq<Car>)
      reads this
      ensures |r| <= |cars|
      ensures forall c :: c in r <==> c in cars && c.brand == brand
    {
      BrandFilter(cars, brand)
    }

    /** The value the annotated cache put stores: the same list the brand query returns. */
    function PutBrandFilterCache(brand: string): (r: seq<Car>)
      reads this
      ensures r == GetCarsWithBrandFilter(brand)
      ensures forall c :: c in r ==> c.brand == brand
    {
      BrandFilter(cars, brand)
    }

    /**
     * Stamps the car with one more than the largest id (1 for an empty list),
     * appends it, and returns the one car that carries the new id.
     */
    method Create(car: Car) returns (created: Car)
      requires Valid()
      requires NextId(cars) <= LONG_MAX
      modifies this
      ensures Valid()
      ensures created == car.(id := NextId(old(cars)))
      ensures forall i :: 0 <= i < |old(cars)| ==> old(cars)[i].id < created.id
      ensures cars == old(cars) + [created]
      ensures brandFilterCache.entries == old(brandFilterCache.entries)
      ensures filterRuns == old(filterRuns)
    {
      var newId := NextId(cars);
      var stamped := car.(id := newId);
      NewIdLookup(cars, car);
      NewIdKeepsIdsDistinct(cars, car);
      cars := cars + [stamped];
      var found := FindById(cars, newId);
      assert found == Some(stamped);
      created := found.value;
    }

    /**
     * Read-through on the brand key: a hit returns the stored list and changes
     * nothing, without evaluating the filter; a miss evaluates the filter once,
     * stores the result and returns it.
     */
    method GetCarsWithBrandFilterWithoutCacheable(brand: string) returns (r: seq<Car>)
      modifies this, brandFilterCache
      ensures cars == old(cars)
      ensures r == ReadThrough(old(brandFilterCache.entries), cars, brand).value
      ensures brandFilterCache.entries == ReadThrough(old(brandFilterCache.entries), cars, brand).entries
      ensures filterRuns == old(filterRuns) + (if BrandKey(brand) in old(brandFilterCache.entries) then 0 else 1)
      ensures filterRuns == old(filterRuns) + (if ReadThrough(old(brandFilterCache.entries), cars, brand).computed then 1 else 0)
    {
      var hit := brandFilterCache.Get(BrandKey(brand));
      match hit
      case Some(v) =>
        r := v;
      case None =>
        r := InsertInCacheAndReturn(brand);
    }

    /** The miss branch: computes the brand filter, stores it under the brand key, returns it. */
    method InsertInCacheAndReturn(brand: string) returns (r: seq<Car>)
      modifies this, brandFilterCache
      ensures cars == old(cars)
      ensures r == BrandFilter(cars, brand)
      ensures brandFilterCache.entries == old(brandFilterCache.entries)[BrandKey(brand) := r]
      ensures filterRuns == old(filterRuns) + 1
    {
      r := BrandFilter(cars, brand);
      filterRuns := filterRuns + 1;
      brandFilterCache.Put(BrandKey(brand), r);
    }

    /** Empties the brand cache region. */
    method EvictAllBrandCacheEntriesWithoutCacheable()
      modifies brandFilterCache
      ensures cars == old(cars)
      ensures brandFilterCache.entries == map[]
    {
      brandFilterCache.Clear();
    }

    /** Recomputes the brand filter and overwrites only the brand's entry. */
    method PutBrandFilterCacheWithoutCacheable(brand: string)
      modifies this, brandFilterCache
      ensures cars == old(cars)
      ensures brandFilterCache.entries == Refresh(old(brandFilterCache.entries), cars, brand)
      ensures filterRuns == old(filterRuns) + 1
    {
      var resultToBePut := BrandFilter(cars, brand);
      filterRuns := filterRuns + 1;
      brandFilterCache.Put(BrandKey(brand), resultToBePut);
    }
  }

  /**
   * Two read-throughs for the same brand in a row: the second returns the same
   * list and leaves the region as the first left it, and the filter is evaluated
   * once over both calls when the key was missing, never when it was present.
   */
  method ReadThroughTwice(service: CarService, brand: string) returns (first: seq<Car>, second: seq<Car>)
    modifies service, service.brandFilterCache
    ensures second == first
    ensures service.cars == old(service.cars)
    ensures service.brandFilterCache.entries == ReadThrough(old(service.brandFilterCache.entries), service.cars, brand).entries
    ensures service.filterRuns == old(service.filterRuns) + (if BrandKey(brand) in old(service.brandFilterCache.entries) then 0 else 1)
  {
    first := service.GetCarsWithBrandFilterWithoutCacheable(brand);
    second := service.GetCarsWithBrandFilterWithoutCacheable(brand);
  }
}
