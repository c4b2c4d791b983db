/** The contract's own test scenarios, run against the contract class. */
module CounterTests {
  import opened CounterState
  import opened CounterMsg
  import opened CounterContract

  /** Instantiating with 17 and querying gives 17. */
  method ProperInitialization() returns (value: CountResponse)
    ensures value.count == 17
  {
    var c := new Contract.Instantiate(InstantiateMsg(17), "creator");
    value := c.GetCount();
  }

  /** Anyone may increment: 17 becomes 18. */
  method Increment() returns (res: Result<CounterLogic.Response>, value: CountResponse)
    ensures res.Ok?
    ensures value.count == 18
  {
    var c := new Contract.Instantiate(InstantiateMsg(17), "creator");
    res := c.Execute("anyone", ExecuteMsg.Move(0));
    value := c.GetCount();
  }

  /** A reset by someone other than the creator is refused; the creator's reset to 5 gives 5. */
  method Reset() returns (denied: Result<CounterLogic.Response>, granted: Result<CounterLogic.Response>, value: CountResponse)
    ensures denied == Err(Unauthorized)
    ensures granted.Ok?
    ensures value.count == 5
  {
    var c := new Contract.Instantiate(InstantiateMsg(17), "creator");
    denied := c.Execute("anyone", ExecuteMsg.Attack(0, 5));
    granted := c.Execute("creator", ExecuteMsg.Attack(0, 5));
    value := c.GetCount();
  }
}
