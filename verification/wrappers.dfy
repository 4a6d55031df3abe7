/** An optional value: used for "no call was made" versus "a call with this argument was made". */
module Wrappers {

  datatype Option<+T> = None | Some(value: T)

}
