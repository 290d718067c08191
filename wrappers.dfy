/** Optional values: the model's counterpart of a TypeScript property declared
    with `?` or a zod schema marked `.optional()`. */
module Wrappers {

  datatype Option<+T> = None | Some(value: T)
}
