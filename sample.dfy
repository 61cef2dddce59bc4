/**
 * A labelled training sample (`Sample` in librichard/include/richard/data_loader.hpp):
 * a label and an `Array3` of values, kept here as its extents and its flat
 * storage.
 */
module Samples {
  import opened Utils

  datatype Sample = Sample(classLabel: string, shape: Size3, data: seq<real>)

  /** The data holds exactly one value per cell of the shape. */
  predicate WellShaped(s: Sample) {
    |s.data| == CalcProduct(s.shape)
  }
}
