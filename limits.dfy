/**
 * The `std::numeric_limits` values the library compares against.
 * `netfloat_t` is taken to be `float`; only comparisons with these
 * values matter, so reals stand for the floating-point values.
 */
module Limits {
  /** `numeric_limits<float>::lowest()`, that is `-FLT_MAX` = -(2 - 2^-23) * 2^127. */
  const Lowest: real := -340282346638528859811704183484516925440.0

  /** `numeric_limits<float>::min()`, the smallest positive normal float, 2^-126. */
  const FltMin: real := 1.0 / 85070591730234615865843651857942052864.0

  /** `numeric_limits<double>::min()`, the smallest positive normal double, 2^-1022. */
  const DblMin: real := 1.0 / 44942328371557897693232629769725618340449424473557664318357520289433168951375240783177119330601884005280028469967848339414697442203604155623211857659868531094441973356216371319075554900311523529863270738021251442209537670585615720368478277635206809290837627671146574559986811484619929076208839082406056034304.0
}
