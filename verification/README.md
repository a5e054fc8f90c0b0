# CarService: in-memory car list with a hand-written brand cache

This project models the service layer of a small Spring Boot caching tutorial. The
service keeps a mutable in-memory list of `Car` records (id, model, brand, horses,
price). It allocates ids for new cars as "largest id plus one", and it answers
brand and price queries with order-preserving stream filters. On top of one cache
region, `brandFilterCache`, it implements a cache protocol by hand: read-through on
the key `SimpleKey(brand)`, an explicit put that recomputes one key, and a clear.

Files:

- `car.dfy` (module `CarDto`): the `Car` record and the Java `long` range of its id.
- `spring_cache.dfy` (module `SpringCache`): `SimpleKey` and one cache region
  (`Cache<V>`). A region is a plain map updated in place by `Put` and `Clear`.
- `car_queries.dfy` (module `CarQueries`): the stream pipelines as pure functions.
  These are the filter, the maximum id, the next id and the lookup by id. The
  module also holds the lemmas that characterise them.
- `brand_cache.dfy` (module `BrandCache`): the cache protocol as pure functions of
  the region's entries and the car list: `ReadThrough` and `Refresh`. It also
  defines what it means for the region to agree with the list (`Coherent`).
- `car_service.dfy` (module `Service`): the class `CarService`. Its field `cars` is
  reassigned by `Create`. The region is a `const` reference, so it always exists.
  The methods are proved against the functions above.

Design notes:

- Prices are Java `Double`s that the code only compares, so the model keeps them
  as exact `real`s.
- The two stream lambdas (brand equality and the inclusive price range) become one
  `Criterion` datatype, and both filters use the same `Filter`.
- The list the cache stores is a snapshot (`toList()`). Appending a car therefore
  leaves the entry for that car's brand stale until it is refreshed or cleared.
  `BrandCache.AppendStalesOnlyItsBrand` states exactly which entry goes stale.

## Model

| member | source | states |
|---|---|---|
| `CarQueries.Filter` | src/main/java/com/learning/springbootcache/service/CarService.java:149-151 | a car is in the result exactly when it is in the list and meets the criterion; the result is never longer than the list |
| `CarQueries.FilterAppend` | src/main/java/com/learning/springbootcache/service/CarService.java:157-159 | filtering keeps list order: the filter of a concatenation is the concatenation of the filters |
| `CarQueries.FilterSingleton` | src/main/java/com/learning/springbootcache/service/CarService.java:158 | a single car is kept exactly when it meets the criterion |
| `CarQueries.FilterIsUnique` | src/main/java/com/learning/springbootcache/service/CarService.java:149-151 | any list function that maps the empty list to empty, distributes over concatenation and keeps a single car exactly when it matches equals the filter, so the filter's result is fully determined, order and duplicates included |
| `CarQueries.FilterCount` | src/main/java/com/learning/springbootcache/service/CarService.java:157-159 | a matching car occurs in the result as many times as in the list; a non-matching car never occurs |
| `CarQueries.FilterUnsatisfiable` | src/main/java/com/learning/springbootcache/service/CarService.java:150 | a criterion no car can meet yields the empty list |
| `CarQueries.PriceFilterBounds` | src/main/java/com/learning/springbootcache/service/CarService.java:150 | both price bounds are inclusive: min > max yields the empty list, and min == max keeps exactly the cars at that price |
| `CarQueries.MaxId` | src/main/java/com/learning/springbootcache/service/CarService.java:193 | the maximum is absent exactly for the empty list; otherwise it is the id of some car and no car's id exceeds it |
| `CarQueries.NextId` | src/main/java/com/learning/springbootcache/service/CarService.java:193 | the new id exceeds every existing id; it is 1 for an empty list and otherwise exactly one more than some car's id |
| `CarQueries.FindById` | src/main/java/com/learning/springbootcache/service/CarService.java:196-199 | the lookup finds nothing exactly when no car has the id; what it finds is a car of the list with that id |
| `CarQueries.FindByIdAppend` | src/main/java/com/learning/springbootcache/service/CarService.java:195-199 | when no earlier car carries the id, looking it up after the append finds the appended car |
| `CarQueries.NewIdLookup` | src/main/java/com/learning/springbootcache/service/CarService.java:193-199 | for any list, distinct ids or not: after stamping and appending, the appended car is the only one with the new id, so the lookup cannot fail or return another car |
| `CarQueries.NewIdKeepsIdsDistinct` | src/main/java/com/learning/springbootcache/service/CarService.java:193-195 | when the ids were distinct, they stay distinct after the stamped car is appended |
| `BrandCache.ReadThrough` | src/main/java/com/learning/springbootcache/service/CarService.java:213-231 | afterwards the brand key maps to the returned list; no existing entry changes and only the brand key can be added; it is flagged as computing exactly on a miss, and then the result is the current brand filter (the evaluation itself is counted in `Service.CarService.GetCarsWithBrandFilterWithoutCacheable`) |
| `BrandCache.Refresh` | src/main/java/com/learning/springbootcache/service/CarService.java:243-249 | the brand key is set to the current brand filter; every other key keeps its entry and no other key is added |
| `BrandCache.RefreshIdempotent` | src/main/java/com/learning/springbootcache/service/CarService.java:243-249 | repeating the explicit put for a brand over an unchanged list leaves the region as one put does |
| `BrandCache.ReadThroughSecondIsHit` | src/main/java/com/learning/springbootcache/service/CarService.java:215-230 | in the pure model, a second read-through right after the first is a hit: same list, same region, flagged as not computing; the first is flagged as computing exactly when the key was missing |
| `BrandCache.ReadThroughTransparent` | src/main/java/com/learning/springbootcache/service/CarService.java:223-230 | while every entry holds the current filter, read-through returns what the uncached filter returns and keeps the region coherent |
| `BrandCache.RefreshAndClearKeepCoherent` | src/main/java/com/learning/springbootcache/service/CarService.java:236-249 | refreshing one brand keeps a coherent region coherent; the cleared region is coherent |
| `BrandCache.AppendStalesOnlyItsBrand` | src/main/java/com/learning/springbootcache/service/CarService.java:225-228 | after a car is appended, a hit on its brand returns a list that differs from the current filter, while every other brand's entry stays correct, so refreshing that one brand restores coherence |
| `Service.InitialNextId` | src/main/java/com/learning/springbootcache/service/CarService.java:99-106 | on the starting list the first id handed out is 6 |
| `Service.InitialBrandQuery` | src/main/java/com/learning/springbootcache/service/CarService.java:99-106 | on the starting list the "VW" query returns the two Golfs in list order |
| `Service.InitialPriceQuery` | src/main/java/com/learning/springbootcache/service/CarService.java:99-106 | on the starting list the 18000 to 20000 query returns the Astra and the second Golf |
| `Service.CarService.constructor` | src/main/java/com/learning/springbootcache/service/CarService.java:99-106 | given the region named "brandFilterCache", the service starts with the five listed cars, whose ids are distinct longs, with that region and with no filter evaluations counted |
| `Service.CarService.GetCarsWithPriceFilter` | src/main/java/com/learning/springbootcache/service/CarService.java:148-152 | a car is returned exactly when it is in the list and min <= price <= max |
| `Service.CarService.GetCarsWithBrandFilter` | src/main/java/com/learning/springbootcache/service/CarService.java:156-160 | a car is returned exactly when it is in the list and has the brand |
| `Service.CarService.PutBrandFilterCache` | src/main/java/com/learning/springbootcache/service/CarService.java:186-190 | the value the cache put stores is the same list the brand query returns, all of that brand |
| `Service.CarService.Create` | src/main/java/com/learning/springbootcache/service/CarService.java:192-200 | the list grows by exactly the stamped car at the end, with earlier cars unchanged; its id exceeds every earlier id; the returned car is the appended one; ids stay distinct longs; the cache is untouched and no brand filter is evaluated |
| `Service.CarService.GetCarsWithBrandFilterWithoutCacheable` | src/main/java/com/learning/springbootcache/service/CarService.java:213-221 | the returned list and the new region are those of `ReadThrough` on the old region; the brand filter is evaluated once on a miss and not at all on a hit (the ghost counter `filterRuns`); the car list is unchanged |
| `Service.CarService.InsertInCacheAndReturn` | src/main/java/com/learning/springbootcache/service/CarService.java:223-231 | evaluates the brand filter once, stores the result under the brand key, overwriting nothing else, and returns it |
| `Service.CarService.EvictAllBrandCacheEntriesWithoutCacheable` | src/main/java/com/learning/springbootcache/service/CarService.java:236-238 | the region is empty afterwards; the car list is unchanged |
| `Service.CarService.PutBrandFilterCacheWithoutCacheable` | src/main/java/com/learning/springbootcache/service/CarService.java:243-249 | the region becomes `Refresh` of the old region: only the brand key changes; the filter is evaluated once; the car list is unchanged |
| `Service.ReadThroughTwice` | src/main/java/com/learning/springbootcache/service/CarService.java:213-230 | two read-through calls in a row return the same list; the region ends as one read-through leaves it; the brand filter is evaluated once over both calls when the key was missing and never when it was present |
| `SpringCache.Cache.Get` | src/main/java/com/learning/springbootcache/service/CarService.java:217 | a hit exactly when the key is present, returning the stored value |
| `SpringCache.Cache.Put` | src/main/java/com/learning/springbootcache/service/CarService.java:228 | the key maps to the value; every other entry is kept |
| `SpringCache.Cache.Clear` | src/main/java/com/learning/springbootcache/service/CarService.java:237 | the region has no entries |
| `SpringCache.Cache.constructor` | src/main/java/com/learning/springbootcache/config/CacheConfig.java:60-68 | a new region carries its name and starts empty |

## Left out

- Annotation-driven caching (`@Cacheable`, `@CacheEvict`, `@CachePut` in CarService.java) is done by the framework. The model covers only the method bodies. `evictAllBrandCacheEntries` and `evictSpecificCaches` only log, so they are not modelled.
- The annotated methods would store under the bare brand string (Spring's default key for a single argument), not under `SimpleKey(brand)`. Keys other than `SimpleKey` are not modelled.
- The `brandFilterCache` region is built in CacheConfig.java:31-35 with expiry 10 seconds after write and a maximum size of 1 entry. The cache library enforces both bounds. Expiry depends on the clock; the size bound means the real region holds about one brand at a time. The model's region is an unbounded map that never drops an entry on its own. So the clauses of `SpringCache.Cache.Put`, `BrandCache.ReadThrough`, `BrandCache.Refresh` and `BrandCache.AppendStalesOnlyItsBrand` that say other entries are kept describe that map, not the configured region, which may evict them.
- The custom key generator (CacheConfig.java:25) and the `KeyGenerator` interface are not modelled. They build keys from `toString` of objects and reflected method names.
- Bean wiring is not modelled. The `brandFilterCacheManager` field is qualified with `"priceFilterCacheManager"` (CarService.java:91). Which manager is injected, and so whether a `brandFilterCache` region exists, depends on how that qualifier is resolved. A `getCache` that returns null (CarService.java:214-216) is not modelled either. The region is a non-null field, so it always exists.
- Service.CarService.InsertInCacheAndReturn: the source returns a deferred `Cache.ValueWrapper` that computes and stores only when its `get()` is called (CarService.java:219, 223-231). The model computes and stores on the call itself. This is equivalent for the service, because its only caller calls `get()` at once.
- Evaluations of the brand filter are counted by a ghost field, `CarService.filterRuns`. The pure `BrandCache.ReadThrough` only records them as a flag.
- Service.CarService.Create: requires the largest existing id to be below `Long.MAX_VALUE`, because `max + 1` would wrap around in Java; the wrapped case is not modelled.
- Service.CarService.Create: the source stamps the id on the caller's own `Car` object with `setId`, so the caller's object and the list element are the same object afterwards. The model works on values and returns the stamped car; that aliasing is not modelled. One consequence is lost with it. If a caller passes back an object that is already in the list, such as the car an earlier `create` returned, then `setId` (CarService.java:194) re-stamps the stored element and `add` (CarService.java:195) stores the same object a second time under the same id.
- `findAny` may return any matching car. The model takes the first one. `NewIdLookup` shows that only one car matches, so the choice makes no difference.
- Distinct ids are an invariant of the model (`CarService.Valid`). The source never checks this. It holds for the starting list, and the model's `Create` preserves it. The source's `create` preserves it only when its argument is not already in the list (see the aliasing line above). The only caller in the repository (CarController.java:73-74) passes a freshly deserialized `Car`, so `Valid()` holds at every visible call site.
- Null ids, null brands, null or NaN prices and `Double` boxing are not modelled; every field of the model's `Car` has a value. In the source, `create` accepts a car whose brand is null. From then on, every brand filter throws a `NullPointerException` when it reaches that car, because `car.getBrand().equals(brand)` is called on it (CarService.java:158, 188, 226, 246). On a read-through miss the exception comes before the put at CarService.java:228, so nothing is cached.
- The HTTP controller, Lombok accessors, logging, and all concurrency are not modelled. With concurrency, two racing read-throughs could both compute and both store.
