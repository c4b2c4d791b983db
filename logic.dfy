/** The counter contract as pure transitions over the persisted `State`.
    Each entry point either commits a new state together with its response,
    or aborts with an error; the host then leaves storage untouched. */
module CounterLogic {
  import opened CounterState
  import opened CounterMsg

  /** The response a committed call returns; only its "method" attribute is modelled. */
  datatype Response = Response(tag: string)

  /** The result of one call: the state written back and the response, or an error. */
  datatype Outcome =
    | Committed(state: State, response: Response)
    | Aborted(error: ContractError)

  /** The state `instantiate` saves: the supplied count, owned by the sender.
      Querying it gives back the supplied count. */
  function Instantiate(msg: InstantiateMsg, sender: Addr): (s: State)
    ensures Query(s) == CountResponse(msg.count)
    ensures s.owner == sender
  {
    State(msg.count, sender)
  }

  /** `try_move`: increments the counter. There is no caller check, so it
      commits for every sender, and it never touches the owner. */
  function TryMove(s: State, sender: Addr): (r: Outcome)
    ensures r.Committed?
    ensures r.state.count == s.count + 1
    ensures r.state.owner == s.owner
    ensures r.response.tag == "try_increment"
  {
    Committed(s.(count := s.count + 1), Response("try_increment"))
  }

  /** `try_attack`: the owner-gated reset. It commits exactly when the sender
      is the owner, and then the count is the supplied value; any other sender
      gets `Unauthorized`. */
  function TryAttack(s: State, sender: Addr, value: int): (r: Outcome)
    ensures r.Committed? <==> sender == s.owner
    ensures r.Aborted? ==> r.error == Unauthorized
    ensures r.Committed? ==> r.state.count == value && r.state.owner == s.owner
    ensures r.Committed? ==> r.response.tag == "reset"
  {
    if sender != s.owner then Aborted(Unauthorized)
    else Committed(s.(count := value), Response("reset"))
  }

  /** `execute`: routes `Move` to the increment and `Attack` to the guarded
      reset. The only way a command fails is an attack by someone other than
      the owner, and no command changes the owner. */
  function Execute(s: State, sender: Addr, msg: ExecuteMsg): (r: Outcome)
    ensures r.Aborted? <==> msg.Attack? && sender != s.owner
    ensures r.Aborted? ==> r.error == Unauthorized
    ensures r.Committed? ==> r.state.owner == s.owner
    ensures msg.Move? ==> r.Committed? && r.state.count == s.count + 1 && r.response.tag == "try_increment"
    ensures msg.Attack? && r.Committed? ==> r.state.count == msg.count && r.response.tag == "reset"
  {
    match msg
    case Move(_) => TryMove(s, sender)
    case Attack(_, value) => TryAttack(s, sender, value)
  }

  /** The answer a count query gives on state `s`; the specification that
      `CounterContract.Contract.GetCount`, the model of `char_position`, meets. */
  function Query(s: State): CountResponse
  {
    CountResponse(s.count)
  }

  /** The stored state after a call: the committed state, or the old one when
      the call aborts (the host's all-or-nothing commit). */
  function After(s: State, sender: Addr, msg: ExecuteMsg): State
  {
    match Execute(s, sender, msg)
    case Committed(t, _) => t
    case Aborted(_) => s
  }
}
