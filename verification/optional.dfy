/** The conventional present/absent wrapper used by the trace projections and
    by policy-variant selection. */
module Optional {
  datatype Option<+T> = None | Some(value: T)
}
