/** The null-or-value shape used for the framework's nullable references
    (a selector's route model, its constraint list, a parameter's binding info). */
module Wrappers {

  datatype Option<+T> = None | Some(value: T)
}
