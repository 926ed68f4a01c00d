/** The optional value used for "no AFK channel", "no target" and "no voice client". */
module Wrappers {

  datatype Option<+T> = None | Some(value: T)
}
