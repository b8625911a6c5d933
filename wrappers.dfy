/** Optional values: `None` stands for a missing key, an absent handle or JavaScript's `undefined`. */
module Wrappers {
  datatype Option<+T> = None | Some(value: T)
}
