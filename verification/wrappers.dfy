/** The optional-value datatype shared by both components: JavaScript's null and
    undefined are both modelled as `None`. */
module Wrappers {
  datatype Option<+T> = None | Some(value: T)
}
