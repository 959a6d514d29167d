/** Optional values: Kotlin's nullable types (`T?`). */
module Wrappers {
  datatype Option<+T> = None | Some(value: T)
}

/** Map coordinates. `LatLng` is Google's coordinate pair; the app does no arithmetic on it. */
module Geo {
  /** A Kotlin `Double`, kept opaque: it is only stored, compared and passed along. */
  type Double = real

  datatype LatLng = LatLng(latitude: Double, longitude: Double)
}
