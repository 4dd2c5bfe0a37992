/** A nullable value: `None` stands for SQL NULL or an absent optional form field. */
module Wrappers {
  datatype Option<+T> = None | Some(value: T)
}
