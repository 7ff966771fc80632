/** Small failure-compatible datatypes shared by the whole model. */
module Wrappers {

  datatype Option<+T> = None | Some(value: T)

  /** The result of one technology-mapping hook.
      Done: the element was mapped.
      Unsupported: the element is reported and skipped; the netlist is unchanged.
      Fatal: the source aborts the whole compilation (an assert); the model
      reports the reason. Each hook's contract says what the netlist holds
      then: unchanged when the assert comes before any cell is created. */
  datatype Outcome = Done | Unsupported(what: string) | Fatal(reason: string)
}
