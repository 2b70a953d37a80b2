/** An optional value: `None` stands for the page's missing element or absent result. */
module Wrappers {
  datatype Option<T> = None | Some(value: T)
}
