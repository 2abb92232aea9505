/**
 Transfer states, the change logs the bin functions emit, and the replay of a log over a state map.
 */
module Ledger {

  type Id = string

  /** The name under which the hub sends its own messages. */
  const HUB_NAME := "Hub"

  datatype Option<+T> = None | Some(value: T)

  datatype TransferState =
    | ReceivedPrepare
    | Reserved
    | ReservedTimeout
    | ReceivedFulfil
    | ReceivedFulfilDependent
    | ReceivedError
    | Committed
    | AbortedRejected
    | AbortedError
    | ExpiredReserved
    | OtherState(name: string)

  type States = map<Id, TransferState>

  /** The state read for an id; a missing id reads as `undefined`. */
  function Lookup(states: States, id: Id): Option<TransferState> {
    if id in states then Some(states[id]) else None
  }

  /** The reasons recorded with state changes; the source stores their message texts. */
  datatype Reason =
    | NoReason
    | IncorrectStateReason
    | InsufficientLiquidityReason
    | PayerLimitReason
    | TransferExpiredReason

  datatype StateChange = StateChange(id: Id, state: TransferState, reason: Reason)

  /** The states after a log of changes is applied in order. */
  function Replay(states: States, log: seq<StateChange>): States {
    if log == [] then states
    else
      var last := log[|log| - 1];
      Replay(states, log[..|log| - 1])[last.id := last.state]
  }

  lemma {:induction false} ReplayConcat(states: States, a: seq<StateChange>, b: seq<StateChange>)
    ensures Replay(states, a + b) == Replay(Replay(states, a), b)
  {
    if b == [] {
      assert a + b == a;
    } else {
      ReplayConcat(states, a, b[..|b| - 1]);
      assert (a + b)[..|a + b| - 1] == a + b[..|b| - 1];
    }
  }

  /** Replay leaves an id without a change alone, and gives every other id the state of one of its changes. */
  lemma {:induction false} ReplayLookup(states: States, log: seq<StateChange>, id: Id)
    ensures (forall c :: c in log ==> c.id != id) ==> Lookup(Replay(states, log), id) == Lookup(states, id)
    ensures (exists c :: c in log && c.id == id) ==>
              exists c :: c in log && c.id == id && Lookup(Replay(states, log), id) == Some(c.state)
  {
    if log != [] {
      var init, last := log[..|log| - 1], log[|log| - 1];
      assert log == init + [last];
      ReplayLookup(states, init, id);
      if last.id == id {
        assert last in log;
      }
    }
  }
}
