/** The optional-value wrapper used for "a hit result may carry no pose" and
    for the reference model, which the handlers guard with `if (model)`. */
module Wrappers {

  datatype Option<+T> = None | Some(value: T)
}
