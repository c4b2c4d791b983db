/** Sequences of `execute` calls. The host runs one call at a time, each to
    completion or not at all, so the state after a run is the fold of
    `After` over the calls. */
module CounterTrace {
  import opened CounterState
  import opened CounterMsg
  import opened CounterLogic

  /** One `execute` invocation: who sent it and what it asks for. */
  datatype Call = Call(sender: Addr, msg: ExecuteMsg)

  /** The stored state after running `calls` in order from `s`. */
  function Run(s: State, calls: seq<Call>): State
    decreases |calls|
  {
    if calls == [] then s
    else Run(After(s, calls[0].sender, calls[0].msg), calls[1..])
  }

  /** The number of `Move` commands in `calls`. */
  function Moves(calls: seq<Call>): nat
    decreases |calls|
  {
    if calls == [] then 0
    else (if calls[0].msg.Move? then 1 else 0) + Moves(calls[1..])
  }

  /** Whether `c` is a reset sent by `owner`, the only command that can set the count. */
  predicate IsOwnerReset(c: Call, owner: Addr)
  {
    c.msg.Attack? && c.sender == owner
  }

  /** The owner is written only by `instantiate`: no run of commands changes it. */
  lemma {:induction false} RunKeepsOwner(s: State, calls: seq<Call>)
    ensures Run(s, calls).owner == s.owner
    decreases |calls|
  {
    if calls != [] {
      RunKeepsOwner(After(s, calls[0].sender, calls[0].msg), calls[1..]);
    }
  }

  /** Whatever runs after `instantiate`, the owner is still the instantiating sender. */
  lemma OwnerIsInstantiator(msg: InstantiateMsg, sender: Addr, calls: seq<Call>)
    ensures Run(Instantiate(msg, sender), calls).owner == sender
  {
    RunKeepsOwner(Instantiate(msg, sender), calls);
  }

  /** Without a reset by the owner, the count only moves up, by one per `Move`,
      whoever sends the commands; a reset by anyone else changes nothing. */
  lemma {:induction false} RunWithoutOwnerReset(s: State, calls: seq<Call>)
    requires forall i :: 0 <= i < |calls| ==> !IsOwnerReset(calls[i], s.owner)
    ensures Run(s, calls) == State(s.count + Moves(calls), s.owner)
    decreases |calls|
  {
    if calls != [] {
      var t := After(s, calls[0].sender, calls[0].msg);
      assert !IsOwnerReset(calls[0], s.owner);
      assert t == State(s.count + (if calls[0].msg.Move? then 1 else 0), s.owner);
      forall i | 0 <= i < |calls[1..]|
        ensures !IsOwnerReset(calls[1..][i], t.owner)
      {
        assert calls[1..][i] == calls[i + 1];
      }
      RunWithoutOwnerReset(t, calls[1..]);
    }
  }

  /** Running `a` and then `b` is running `a + b`. */
  lemma {:induction false} RunAppend(s: State, a: seq<Call>, b: seq<Call>)
    ensures Run(s, a + b) == Run(Run(s, a), b)
    decreases |a|
  {
    if a != [] {
      assert (a + b)[0] == a[0];
      assert (a + b)[1..] == a[1..] + b;
      RunAppend(After(s, a[0].sender, a[0].msg), a[1..], b);
    } else {
      assert a + b == b;
    }
  }

  /** The count after a run is fixed by the owner's last reset: its value plus
      one for every `Move` that came after it. */
  lemma CountAfterLastReset(s: State, calls: seq<Call>, k: nat)
    requires k < |calls| && IsOwnerReset(calls[k], s.owner)
    requires forall i :: k < i < |calls| ==> !IsOwnerReset(calls[i], s.owner)
    ensures Run(s, calls).count == calls[k].msg.count + Moves(calls[k + 1..])
  {
    var pre, rest := calls[..k], calls[k + 1..];
    assert calls == pre + ([calls[k]] + rest);
    RunAppend(s, pre, [calls[k]] + rest);
    var m := Run(s, pre);
    RunKeepsOwner(s, pre);
    var t := After(m, calls[k].sender, calls[k].msg);
    assert Run(m, [calls[k]] + rest) == Run(t, rest);
    assert t == State(calls[k].msg.count, s.owner);
    forall i | 0 <= i < |rest|
      ensures !IsOwnerReset(rest[i], t.owner)
    {
      assert rest[i] == calls[k + 1 + i];
    }
    RunWithoutOwnerReset(t, rest);
  }
}
