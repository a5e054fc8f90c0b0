/** The `Car` record the service stores and filters. */
module CarDto {

  /** Bounds of a Java `long`, the type of a car's id. */
  const LONG_MIN: int := -0x8000_0000_0000_0000
  const LONG_MAX: int := 0x7FFF_FFFF_FFFF_FFFF

  /**
   * One car. `id` is a Java `Long`, `horses` an `Integer` and `price` a `Double`
   * in the source; the price is only ever compared, so it is kept as an exact real.
   */
  datatype Car = Car(id: int, model: string, brand: string, horses: int, price: real)

  /** True when `id` fits in a Java `long`. */
  predicate IsLong(id: int) {
    LONG_MIN <= id <= LONG_MAX
  }
}
