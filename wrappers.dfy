/** An optional value: stands for a TypeScript field marked `?`, an `undefined`
    lookup result, or a `null` that a component checks before rendering. */
module Wrappers {

  datatype Option<+T> = None | Some(value: T)
}
