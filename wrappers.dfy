/** The optional value the bot uses for "no signal" and "no trade yet". */
module Wrappers {

  datatype Option<+T> = None | Some(value: T)
}
