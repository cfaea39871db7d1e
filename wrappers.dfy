/** The optional value used for collaborator answers that may be missing
    (a failed SDP parse, a relay stream without a bound port). */
module Wrappers {

  datatype Option<+T> = None | Some(value: T)

}
