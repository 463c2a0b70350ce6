/** Optional values: `undefined`/`null` in the modelled TypeScript, or "absent". */
module Wrappers {

  datatype Option<+T> = None | Some(value: T)

}
