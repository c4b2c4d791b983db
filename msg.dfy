/** Messages exchanged with the counter contract. */
module CounterMsg {

  /** Instantiation carries the initial count. */
  datatype InstantiateMsg = InstantiateMsg(count: int)

  /** The two commands. Both carry a `direction` that neither handler reads.
      `Attack` also carries the value the owner resets the counter to: the
      handler assigns from a name the source never binds, and the reset test
      supplies that value in the message. */
  datatype ExecuteMsg =
    | Move(direction: int)
    | Attack(direction: int, count: int)

  /** The answer to a count query. */
  datatype CountResponse = CountResponse(count: int)
}
