# Counter contract model

A Dafny model of the counter smart contract in `counter/src/contract.rs`: a single
persisted record `{count, owner}` that `instantiate` creates, two commands routed by
`execute` (`Move`, which increments the count for any sender, and `Attack`, an
owner-only reset of the count), and a query that reads the count back.

The host runs each call on its own, to completion or not at all, and keeps the record
in one storage slot. The model keeps that record in the fields of a class. It also
gives each entry point as a pure transition on the record. The class methods are
proved against those transitions, and sequences of calls are reasoned about with the
same transitions.

- `state.dfy` (`CounterState`): the persisted `State`, addresses, and `ContractError`.
- `msg.dfy` (`CounterMsg`): the instantiate and execute messages and the count query's response.
- `logic.dfy` (`CounterLogic`): each entry point as a transition that either commits
  a new state with its response or aborts with an error.
- `contract.dfy` (`CounterContract`): the `Contract` class. Its fields `count` and
  `owner` are updated in place, and every method states its effect through
  `CounterLogic`.
- `trace.dfy` (`CounterTrace`): runs of many calls. The owner never changes. Without
  an owner reset, the count grows by one per `Move`. After the owner's last reset, the
  count is that reset's value plus the `Move`s that followed.
- `tests.dfy` (`CounterTests`): the contract's three unit tests, replayed on the class.

Assumptions about code that does not compile as written:
- `counter/src/msg.rs` and `counter/src/state.rs` declare none of the counter's own types:
  no `InstantiateMsg { count }`, `ExecuteMsg` with `Move`/`Attack`, `QueryMsg`,
  `CountResponse`, `State` or `STATE`. `msg.dfy` and `state.dfy` rebuild them from how
  `counter/src/contract.rs` uses them.
- `try_attack` assigns `state.count = count`, but `count` is never bound. The reset test
  sends `Reset { count: 5 }` and expects 5. So the model's `Attack` message carries the
  value, and the owner's reset stores it.
- The tests name the commands `Increment`/`Reset` and the query `GetCount`. The
  dispatch names them `Move`/`Attack` and `GetPos`. The model uses the dispatch's
  names with the tests' behaviour.
- Both handlers take a `direction` and never read it. It stays in the message only.

## Model

| member | source | states |
|---|---|---|
| CounterLogic.Instantiate | counter/src/contract.rs:22-25 | the saved record is owned by the sender, and a query on it returns the supplied count |
| CounterLogic.TryMove | counter/src/contract.rs:65-72 | commits for every sender, with no caller check; the count goes up by exactly one; the owner is unchanged; the response tag is "try_increment" |
| CounterLogic.TryAttack | counter/src/contract.rs:73-82 | commits if and only if the sender is the owner; otherwise the error is `Unauthorized`; on commit the count is the supplied value, the owner is unchanged, and the tag is "reset" |
| CounterLogic.Execute | counter/src/contract.rs:53-63 | dispatch is total; a call aborts exactly when it is an `Attack` from a non-owner, and then with `Unauthorized`; a `Move` always commits with count + 1; a committed `Attack` stores its value; no committed call changes the owner |
| CounterContract.Contract.Instantiate | counter/src/contract.rs:22-41 | the fields hold the supplied count, and the owner is the sender |
| CounterContract.Contract.Move | counter/src/contract.rs:65-72 | follows `TryMove`: returns Ok; the count is old count + 1; the owner is unchanged |
| CounterContract.Contract.Attack | counter/src/contract.rs:73-82 | follows `TryAttack`: a non-owner gets `Unauthorized` and both fields are unchanged (the update closure errors before saving); the owner's call sets count to the value, with the owner unchanged |
| CounterContract.Contract.Execute | counter/src/contract.rs:53-63 | the new fields and the result are what `CounterLogic.Execute` prescribes (an aborted call writes nothing); the owner is unchanged |
| CounterContract.Contract.GetCount | counter/src/contract.rs:91-94 | returns the stored count; a function that only reads the object, so it changes nothing and repeated queries with no call in between agree |
| CounterTrace.RunKeepsOwner | counter/src/contract.rs:65-82 | no sequence of commands, from any sender, changes the owner |
| CounterTrace.OwnerIsInstantiator | counter/src/contract.rs:22-25 | after instantiate and any sequence of commands, the owner is still the instantiating sender |
| CounterTrace.RunWithoutOwnerReset | counter/src/contract.rs:65-80 | if the owner sends no reset, the final count is the initial count plus the number of `Move`s, and non-owner resets change nothing |
| CounterTrace.CountAfterLastReset | counter/src/contract.rs:73-80 | after a run, the count is the value of the owner's last reset plus the number of `Move`s after it |
| CounterTests.ProperInitialization | counter/src/contract.rs:103-117 | instantiating with 17 and then querying gives 17 |
| CounterTests.Increment | counter/src/contract.rs:120-136 | after instantiating with 17, a `Move` by a non-creator succeeds, and the query gives 18 |
| CounterTests.Reset | counter/src/contract.rs:139-164 | a reset by a non-creator is `Unauthorized`; the creator's reset to 5 succeeds, and the query gives 5 |

## Left out

- The board, character and tile values built in `instantiate` (counter/src/contract.rs:27-38): unlike the counter's types, which the model rebuilds from their use, these have no shape to rebuild from. They have no behaviour beyond being built, and the character is never saved. Saving the board and the `host`/`layout` response attributes go with them.
- The student-accreditation records and messages in `counter/src/state.rs` and `counter/src/msg.rs` are declarations only, with no logic.
- `set_contract_version` (migration metadata), the storage slot's load/save, and message serialization are host library calls. Storage is modelled as the class's fields, updated atomically per call. Storage and serialization errors (`ContractError::Std`) are not modelled.
- The `query` entry point's dispatch on `QueryMsg` (counter/src/contract.rs:85-89) and the binary encoding of its answer: it has a single arm, which leads to `char_position`, so the model only has the count query itself (`Contract.GetCount`).
- Response attributes other than the "method" tag of `execute`'s two handlers: the `instantiate` response and its owner/count attributes, and the test's check that no sub-messages are emitted.
- An `execute` or query issued before `instantiate`: the host would fail to load the empty slot. In the model, a contract object exists only after `Instantiate`.
- Overflow of `count`: the record's integer width is not visible, so `count` is an unbounded `int`, and `Move` never wraps or fails.
- The mock environment, the funds attached to calls (`coins(...)`) and the `entry_point` macros play no part in the logic.
