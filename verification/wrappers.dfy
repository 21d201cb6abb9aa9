/** The optional value used for the lookups that may find nothing
    (`Array.prototype.find`, `parseFloat` returning NaN). */
module Wrappers {

  datatype Option<+T> = None | Some(value: T)
}
