/** The Some/None wrapper used wherever the tool may have no value to report. */
module Optional {

  datatype Option<+T> = None | Some(value: T)

}
