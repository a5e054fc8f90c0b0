/**
 * The stream pipelines of the car service, as pure functions over the list of cars:
 * the brand and price filters, the "max id plus one" id allocation and the lookup
 * by id that `create` ends with.
 */
module CarQueries {
  import opened Wrappers
  import opened CarDto

  /** The condition a filter keeps a car by. */
  datatype Criterion =
    | BrandEquals(brand: string)            // the car's brand equals the argument
    | PriceBetween(min: real, max: real)    // the price lies in the range, both bounds included

  predicate Matches(crit: Criterion, c: Car) {
    match crit
    case BrandEquals(b) => c.brand == b
    case PriceBetween(lo, hi) => lo <= c.price && c.price <= hi
  }

  /** The stream filter collected into a new list: the matching cars, in list order. */
  function Filter(cars: seq<Car>, crit: Criterion): (r: seq<Car>)
    ensures |r| <= |cars|
    ensures forall c :: c in r <==> c in cars && Matches(crit, c)
  {
    if cars == [] then []
    else (if Matches(crit, cars[0]) then [cars[0]] else []) + Filter(cars[1..], crit)
  }

  function BrandFilter(cars: seq<Car>, brand: string): seq<Car> {
    Filter(cars, BrandEquals(brand))
  }

  function PriceFilter(cars: seq<Car>, min: real, max: real): seq<Car> {
    Filter(cars, PriceBetween(min, max))
  }

  /** Filtering a concatenation filters each part and keeps the parts in order. */
  lemma {:induction false} FilterAppend(a: seq<Car>, b: seq<Car>, crit: Criterion)
    ensures Filter(a + b, crit) == Filter(a, crit) + Filter(b, crit)
  {
    if a == [] {
      assert a + b == b;
    } else {
      assert (a + b)[1..] == a[1..] + b;
      FilterAppend(a[1..], b, crit);
    }
  }

  /** A one-car list is kept exactly when the car matches. */
  lemma FilterSingleton(c: Car, crit: Criterion)
    ensures Filter([c], crit) == if Matches(crit, c) then [c] else []
  {
  }

  /**
   * Filter is the only list function that is a homomorphism for concatenation and
   * keeps a single car exactly when it matches: any such function agrees with it,
   * so the filter keeps order and duplicates and adds nothing.
   */
  lemma {:induction false} FilterIsUnique(cars: seq<Car>, crit: Criterion, f: seq<Car> -> seq<Car>)
    requires f([]) == []
    requires forall a, b :: f(a + b) == f(a) + f(b)
    requires forall c :: f([c]) == if Matches(crit, c) then [c] else []
    ensures f(cars) == Filter(cars, crit)
  {
    if cars != [] {
      assert cars == [cars[0]] + cars[1..];
      FilterIsUnique(cars[1..], crit, f);
      FilterAppend([cars[0]], cars[1..], crit);
      FilterSingleton(cars[0], crit);
    }
  }

  /** Each car occurs in the result as often as in the list when it matches, never otherwise. */
  lemma {:induction false} FilterCount(cars: seq<Car>, crit: Criterion, c: Car)
    ensures multiset(Filter(cars, crit))[c] == if Matches(crit, c) then multiset(cars)[c] else 0
  {
    if cars != [] {
      FilterCount(cars[1..], crit, c);
      var head := if Matches(crit, cars[0]) then [cars[0]] else [];
      assert Filter(cars, crit) == head + Filter(cars[1..], crit);
      assert multiset(Filter(cars, crit)) == multiset(head) + multiset(Filter(cars[1..], crit));
      assert cars == [cars[0]] + cars[1..];
      assert multiset(cars) == multiset([cars[0]]) + multiset(cars[1..]);
    }
  }

  /** A criterion no car can meet keeps nothing. */
  lemma {:induction false} FilterUnsatisfiable(cars: seq<Car>, crit: Criterion)
    requires forall c :: !Matches(crit, c)
    ensures Filter(cars, crit) == []
  {
    if cars != [] {
      FilterUnsatisfiable(cars[1..], crit);
    }
  }

  /** Both price bounds are inclusive, so an inverted range keeps nothing and a point range keeps exactly that price. */
  lemma PriceFilterBounds(cars: seq<Car>, min: real, max: real)
    ensures min > max ==> PriceFilter(cars, min, max) == []
    ensures forall c :: c in PriceFilter(cars, min, min) <==> c in cars && c.price == min
  {
    if min > max {
      FilterUnsatisfiable(cars, PriceBetween(min, max));
    }
  }

  /** The largest id over the list, or nothing for an empty list. */
  function MaxId(cars: seq<Car>): (m: Option<int>)
    ensures m.None? <==> cars == []
    ensures m.Some? ==> exists i :: 0 <= i < |cars| && cars[i].id == m.value
    ensures m.Some? ==> forall i :: 0 <= i < |cars| ==> cars[i].id <= m.value
  {
    if cars == [] then None
    else match MaxId(cars[1..])
      case None => Some(cars[0].id)
      case Some(rest) => Some(if cars[0].id < rest then rest else cars[0].id)
  }

  /** The id `create` allocates: the largest id plus one, or 1 when there are no cars. */
  function NextId(cars: seq<Car>): (n: int)
    ensures forall i :: 0 <= i < |cars| ==> cars[i].id < n
    ensures cars == [] ==> n == 1
    ensures cars != [] ==> exists i :: 0 <= i < |cars| && cars[i].id == n - 1
  {
    MaxId(cars).GetOr(0) + 1
  }

  /** Some car whose id equals `id`, if there is one; the model takes the first. */
  function FindById(cars: seq<Car>, id: int): (r: Option<Car>)
    ensures r.None? <==> forall i :: 0 <= i < |cars| ==> cars[i].id != id
    ensures r.Some? ==> r.value in cars && r.value.id == id
  {
    if cars == [] then None
    else if cars[0].id == id then Some(cars[0])
    else FindById(cars[1..], id)
  }

  /** No two cars share an id. */
  predicate DistinctIds(cars: seq<Car>) {
    forall i, j :: 0 <= i < j < |cars| ==> cars[i].id != cars[j].id
  }

  /**
   * After the stamped car is appended, it is the only car with the new id, so
   * `findAny` cannot fail and cannot return any other car; this holds whether or
   * not the earlier ids were distinct.
   */
  lemma NewIdLookup(cars: seq<Car>, car: Car)
    ensures var stamped := car.(id := NextId(cars));
      && (forall i :: 0 <= i < |cars + [stamped]| && (cars + [stamped])[i].id == stamped.id ==> i == |cars|)
      && FindById(cars + [stamped], stamped.id) == Some(stamped)
  {
    var stamped := car.(id := NextId(cars));
    FindByIdAppend(cars, stamped, stamped.id);
  }

  /** Appending the stamped car keeps distinct ids distinct. */
  lemma NewIdKeepsIdsDistinct(cars: seq<Car>, car: Car)
    requires DistinctIds(cars)
    ensures DistinctIds(cars + [car.(id := NextId(cars))])
  {
  }

  /** Looking up an id no earlier car carries finds the appended car. */
  lemma {:induction false} FindByIdAppend(cars: seq<Car>, last: Car, id: int)
    requires forall i :: 0 <= i < |cars| ==> cars[i].id != id
    requires last.id == id
    ensures FindById(cars + [last], id) == Some(last)
  {
    if cars == [] {
      assert cars + [last] == [last];
    } else {
      assert (cars + [last])[1..] == cars[1..] + [last];
      FindByIdAppend(cars[1..], last, id);
    }
  }
}
