/** The one failure-carrying datatype the model needs: a read that may fall
    outside a fixed table yields None instead of undefined behaviour. */
module Wrappers {

  datatype Option<+T> = None | Some(value: T)

}
