/** The optional-value datatype the rest of the model uses for TypeScript's
    `T | null` / `T | undefined`. */
module Wrappers {

  datatype Option<+T> = None | Some(value: T)
}
