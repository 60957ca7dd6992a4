/** The optional-value datatype shared by the modules of the pricing report. */
module Wrappers {
  /** `None` stands for a computation that cannot produce a value (in the
      report: a Python call that would raise). */
  datatype Option<+T> = None | Some(value: T)
}
