/** The persisted record of the counter contract and the contract's error type.
    The host stores one `State` in a single storage slot; the model
    keeps it as a value and lets the contract class hold its fields. */
module CounterState {

  /** An account address, as the host hands it to the contract (the message sender). */
  type Addr = string

  /** The persisted counter: its current value and the address that instantiated it.
      The width of `count` is not visible in the source, so it is an unbounded `int`. */
  datatype State = State(count: int, owner: Addr)

  /** The one error the counter raises itself; storage and serialization errors
      belong to the host and are not part of this model. */
  datatype ContractError = Unauthorized
}
