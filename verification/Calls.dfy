/** The small vocabulary shared by the write gate and the pending-plan store. */
module Calls {
  datatype Option<+T> = None | Some(value: T)

  /** One requested tool call. `args` is the canonical (sorted-key) JSON text of its arguments,
      so two calls carry equal arguments exactly when the texts are equal. */
  datatype Call = Call(name: string, args: string)
}
