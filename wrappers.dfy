/** Small result types shared by the model. */
module Wrappers {

  datatype Option<+T> = None | Some(value: T)

  /** What one awaited remote call did: it resolved with a value, or it threw
      (the promise rejected). A write that is only acknowledged resolves with (). */
  datatype Remote<+T> = Done(value: T) | Failed
}
