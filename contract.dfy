/** The counter contract with its storage slot as mutable fields. Every
    entry point updates the fields in place, exactly as the matching
    transition in `CounterLogic` prescribes; an aborted call leaves them as
    they were. */
module CounterContract {
  import opened CounterState
  import opened CounterMsg
  import CounterLogic

  /** What a call hands back to the host: its response, or the error that aborted it. */
  datatype Result<T> = Ok(value: T) | Err(error: ContractError)

  /** The call went from `before` to `after` and answered `r` as the transition `o` says:
      a committed transition is written and answered, an aborted one writes nothing. */
  predicate Follows(before: State, after: State, r: Result<CounterLogic.Response>, o: CounterLogic.Outcome)
  {
    match o
    case Committed(t, resp) => after == t && r == Ok(resp)
    case Aborted(e) => after == before && r == Err(e)
  }

  class Contract {
    var count: int
    var owner: Addr

    /** The persisted record these fields hold. */
    function Current(): State
      reads this
    {
      State(count, owner)
    }

    /** `instantiate`: saves the supplied count with the sender as owner. */
    constructor Instantiate(msg: InstantiateMsg, sender: Addr)
      ensures Current() == CounterLogic.Instantiate(msg, sender)
      ensures count == msg.count && owner == sender
    {
      count := msg.count;
      owner := sender;
    }

    /** `try_move`: any sender increments the count; the owner stays. */
    method Move(sender: Addr) returns (r: Result<CounterLogic.Response>)
      modifies this
      ensures Follows(old(Current()), Current(), r, CounterLogic.TryMove(old(Current()), sender))
      ensures r.Ok? && count == old(count) + 1 && owner == old(owner)
    {
      count := count + 1;
      r := Ok(CounterLogic.Response("try_increment"));
    }

    /** `try_attack`: the owner sets the count to `value`; anyone else is
        refused with `Unauthorized` and nothing is written. */
    method Attack(sender: Addr, value: int) returns (r: Result<CounterLogic.Response>)
      modifies this
      ensures Follows(old(Current()), Current(), r, CounterLogic.TryAttack(old(Current()), sender, value))
      ensures sender != old(owner) ==> r == Err(Unauthorized) && count == old(count) && owner == old(owner)
      ensures sender == old(owner) ==> r.Ok? && count == value && owner == old(owner)
    {
      if sender != owner {
        return Err(Unauthorized);
      }
      count := value;
      r := Ok(CounterLogic.Response("reset"));
    }

    /** `execute`: routes each command to its handler. */
    method Execute(sender: Addr, msg: ExecuteMsg) returns (r: Result<CounterLogic.Response>)
      modifies this
      ensures Follows(old(Current()), Current(), r, CounterLogic.Execute(old(Current()), sender, msg))
      ensures Current() == CounterLogic.After(old(Current()), sender, msg)
      ensures owner == old(owner)
    {
      match msg
      case Move(_) =>
        r := Move(sender);
      case Attack(_, value) =>
        r := Attack(sender, value);
    }

    /** `char_position`: the stored count, read without changing anything. */
    function GetCount(): (r: CountResponse)
      reads this
      ensures r == CounterLogic.Query(Current())
      ensures r.count == count
    {
      CountResponse(count)
    }
  }
}
