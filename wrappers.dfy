/** Optional values. In this model `None` also stands for JavaScript's `NaN`
    where a number is parsed from text. */
module Wrappers {
  datatype Option<+T> = None | Some(value: T)
}
