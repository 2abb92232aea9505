/**
 The fx-fulfil position bin. Every message is judged against the states the bin was given, while the
 rejections are written to a copy of them.
 */
module FxFulfil {
  import opened Ledger
  import opened Sequences

  const DESTINATION := "fspiop-destination"
  const SOURCE := "fspiop-source"
  const CONTENT_LENGTH := "content-length"

  type Headers = map<string, string>

  /** `counterParty` is the sender of the message and `initiator` its addressee. */
  datatype Message = Message(id: Id, counterParty: string, initiator: string, headers: Headers, payload: string)

  /** An error names the state that was found; a success forwards the payload. */
  datatype Body = InvalidState(found: Option<TransferState>) | Fulfilment(payload: string)

  datatype Notification = Notification(id: Id, to: string, from: string, headers: Headers, body: Body)

  /** The mutable part of a bin item is its result. */
  class BinItem {
    const message: Message
    var success: Option<bool>

    constructor (message: Message)
      ensures this.message == message && success == None
    {
      this.message := message;
      success := None;
    }
  }

  function Messages(items: seq<BinItem>): (ms: seq<Message>)
    ensures |ms| == |items|
  {
    seq(|items|, i requires 0 <= i < |items| => items[i].message)
  }

  // ----- reference form: what a bin amounts to

  predicate Rejected(input: States, m: Message) {
    Lookup(input, m.id) != Some(ReceivedFulfilDependent)
  }

  function NotificationFor(input: States, m: Message): Notification {
    if Rejected(input, m) then
      Notification(m.id, m.counterParty, HUB_NAME,
                   m.headers[DESTINATION := m.counterParty][SOURCE := HUB_NAME] - {CONTENT_LENGTH},
                   InvalidState(Lookup(input, m.id)))
    else
      Notification(m.id, m.initiator, m.counterParty, m.headers - {CONTENT_LENGTH}, Fulfilment(m.payload))
  }

  function Notifications(input: States, ms: seq<Message>): (ns: seq<Notification>)
    ensures |ns| == |ms|
  {
    seq(|ms|, i requires 0 <= i < |ms| => NotificationFor(input, ms[i]))
  }

  /** A rejected message yields one change. */
  function ChangesFor(input: States): Message -> seq<StateChange> {
    m => if Rejected(input, m) then [StateChange(m.id, AbortedRejected, IncorrectStateReason)] else []
  }

  function Changes(input: States, ms: seq<Message>): seq<StateChange> {
    FlatMap(ChangesFor(input), ms)
  }

  lemma ChangesSnoc(input: States, ms: seq<Message>, m: Message)
    ensures Rejected(input, m) ==>
              var change := StateChange(m.id, AbortedRejected, IncorrectStateReason);
              Changes(input, ms + [m]) == Changes(input, ms) + [change] &&
              Replay(input, Changes(input, ms + [m])) == Replay(input, Changes(input, ms))[m.id := AbortedRejected]
    ensures !Rejected(input, m) ==> Changes(input, ms + [m]) == Changes(input, ms)
    ensures Notifications(input, ms + [m]) == Notifications(input, ms) + [NotificationFor(input, m)]
  {
    FlatMapSnoc(ChangesFor(input), ms, m);
    ReplayConcat(input, Changes(input, ms), ChangesFor(input)(m));
  }

  ghost function RejectedIds(input: States, ms: seq<Message>): set<Id> {
    set m | m in ms && Rejected(input, m) :: m.id
  }

  /** The input states with every rejected id moved to AbortedRejected. */
  ghost function Final(input: States, ms: seq<Message>): States {
    map id | id in input.Keys + RejectedIds(input, ms) ::
      if id in RejectedIds(input, ms) then AbortedRejected else input[id]
  }

  // ----- the bin function

  method ProcessPositionFxFulfilBin(items: seq<BinItem>, input: States)
    returns (states: States, changes: seq<StateChange>, notifications: seq<Notification>)
    modifies items
    ensures states == Final(input, Messages(items))
    ensures states == Replay(input, changes)
    ensures changes == Changes(input, Messages(items))
    ensures notifications == Notifications(input, Messages(items))
    ensures forall item :: item in items ==>
              item.success == if Rejected(input, item.message) then old(item.success) else Some(true)
  {
    states, changes, notifications := input, [], [];
    ghost var ms := Messages(items);
    for i := 0 to |items|
      invariant states == Replay(input, changes)
      invariant changes == Changes(input, ms[..i])
      invariant notifications == Notifications(input, ms[..i])
      invariant forall item :: item in items && Rejected(input, item.message) ==> item.success == old(item.success)
      invariant forall k :: 0 <= k < i && !Rejected(input, items[k].message) ==> items[k].success == Some(true)
    {
      var m := items[i].message;
      TakeNext(ms, i);
      ChangesSnoc(input, ms[..i], m);
      var headers := m.headers;
      var note: Notification;
      if Lookup(input, m.id) != Some(ReceivedFulfilDependent) {
        headers := headers[DESTINATION := m.counterParty][SOURCE := HUB_NAME] - {CONTENT_LENGTH};
        note := Notification(m.id, m.counterParty, HUB_NAME, headers, InvalidState(Lookup(input, m.id)));
        changes := changes + [StateChange(m.id, AbortedRejected, IncorrectStateReason)];
        states := states[m.id := AbortedRejected];
      } else {
        headers := headers - {CONTENT_LENGTH};
        note := Notification(m.id, m.initiator, m.counterParty, headers, Fulfilment(m.payload));
        items[i].success := Some(true);
      }
      notifications := notifications + [note];
    }
    assert ms[..|items|] == ms;
    ReplayIsFinal(input, ms);
  }

  // ----- laws

  lemma {:induction false} ReplayIsFinal(input: States, ms: seq<Message>)
    ensures Replay(input, Changes(input, ms)) == Final(input, ms)
  {
    if ms != [] {
      var init, m := ms[..|ms| - 1], ms[|ms| - 1];
      assert ms == init + [m];
      ReplayIsFinal(input, init);
      ChangesSnoc(input, init, m);
      FinalSnoc(input, init, m);
    }
  }

  lemma FinalSnoc(input: States, ms: seq<Message>, m: Message)
    ensures Final(input, ms + [m]) ==
              if Rejected(input, m) then Final(input, ms)[m.id := AbortedRejected] else Final(input, ms)
  {
    if Rejected(input, m) {
      assert RejectedIds(input, ms + [m]) == RejectedIds(input, ms) + {m.id};
    } else {
      assert RejectedIds(input, ms + [m]) == RejectedIds(input, ms);
    }
  }

  /** Running a bin never changes whether a message is rejected. */
  lemma VerdictsStable(input: States, ms: seq<Message>, m: Message)
    ensures Rejected(Final(input, ms), m) <==> Rejected(input, m)
  {
    if m.id in RejectedIds(input, ms) {
      var r :| r in ms && Rejected(input, r) && r.id == m.id;
    }
  }

  lemma SameChanges(input: States, a: seq<Message>, b: seq<Message>)
    ensures Changes(Final(input, a), b) == Changes(input, b)
  {
    forall m | m in b
      ensures ChangesFor(Final(input, a))(m) == ChangesFor(input)(m)
    {
      VerdictsStable(input, a, m);
    }
    FlatMapCongruence(ChangesFor(Final(input, a)), ChangesFor(input), b);
  }

  /** The part of a notification that does not depend on which wrong state was found. */
  function Essence(n: Notification): Notification {
    if n.body.InvalidState? then n.(body := InvalidState(None)) else n
  }

  /**
   Splitting a bin: the second part may be run on the states the first part returned.
   */
  lemma BinSplitting(input: States, a: seq<Message>, b: seq<Message>)
    ensures Final(input, a + b) == Final(Final(input, a), b)
    ensures Changes(input, a + b) == Changes(input, a) + Changes(Final(input, a), b)
  {
    FlatMapConcat(ChangesFor(input), a, b);
    SameChanges(input, a, b);
    ReplayIsFinal(input, a + b);
    ReplayIsFinal(input, a);
    ReplayIsFinal(Final(input, a), b);
    ReplayConcat(input, Changes(input, a), Changes(Final(input, a), b));
  }

  /**
   The notifications of a split bin: only the state named in an error text can differ, and it does exactly for a
   message on an id the first part moved from another state.
   */
  lemma NotificationSplitting(input: States, a: seq<Message>, b: seq<Message>)
    ensures Notifications(input, a + b)[..|a|] == Notifications(input, a)
    ensures forall i :: 0 <= i < |b| ==>
              Essence(Notifications(input, a + b)[|a| + i]) == Essence(Notifications(Final(input, a), b)[i])
    ensures forall i :: 0 <= i < |b| ==>
              (Notifications(input, a + b)[|a| + i] == Notifications(Final(input, a), b)[i]
               <==> (b[i].id in RejectedIds(input, a) ==> Lookup(input, b[i].id) == Some(AbortedRejected)))
  {
    forall i | 0 <= i < |b|
      ensures Essence(Notifications(input, a + b)[|a| + i]) == Essence(Notifications(Final(input, a), b)[i])
      ensures Notifications(input, a + b)[|a| + i] == Notifications(Final(input, a), b)[i]
              <==> (b[i].id in RejectedIds(input, a) ==> Lookup(input, b[i].id) == Some(AbortedRejected))
    {
      assert (a + b)[|a| + i] == b[i];
      SplitNotification(input, a, b[i]);
    }
  }

  lemma SplitNotification(input: States, a: seq<Message>, m: Message)
    ensures Essence(NotificationFor(input, m)) == Essence(NotificationFor(Final(input, a), m))
    ensures NotificationFor(input, m) == NotificationFor(Final(input, a), m)
            <==> (m.id in RejectedIds(input, a) ==> Lookup(input, m.id) == Some(AbortedRejected))
  {
    VerdictsStable(input, a, m);
    if m.id in RejectedIds(input, a) {
      var r :| r in a && Rejected(input, r) && r.id == m.id;
    }
  }

  /** Redelivery: a second run on the returned states moves nothing and repeats the verdict of every message. */
  lemma Redelivery(input: States, ms: seq<Message>)
    ensures Final(Final(input, ms), ms) == Final(input, ms)
    ensures Changes(Final(input, ms), ms) == Changes(input, ms)
    ensures forall m :: m in ms ==> (Rejected(Final(input, ms), m) <==> Rejected(input, m))
  {
    forall m | m in ms
      ensures Rejected(Final(input, ms), m) <==> Rejected(input, m)
    {
      VerdictsStable(input, ms, m);
    }
    assert RejectedIds(Final(input, ms), ms) == RejectedIds(input, ms);
    SameChanges(input, ms, ms);
  }

  /** Reordering a bin: same final states, and the notifications and changes are reordered with it. */
  lemma OrderIndependence(input: States, a: seq<Message>, b: seq<Message>)
    requires multiset(a) == multiset(b)
    ensures Final(input, a) == Final(input, b)
    ensures multiset(Changes(input, a)) == multiset(Changes(input, b))
    ensures multiset(Notifications(input, a)) == multiset(Notifications(input, b))
  {
    SameRejectedIds(input, a, b);
    FlatMapPermutation(ChangesFor(input), a, b);
    NotificationsPermuted(input, a, b);
  }

  lemma SameRejectedIds(input: States, a: seq<Message>, b: seq<Message>)
    requires multiset(a) == multiset(b)
    ensures RejectedIds(input, a) == RejectedIds(input, b)
  {
    forall m: Message
      ensures m in a <==> m in b
    {
      assert m in multiset(a) <==> m in multiset(b);
    }
  }

  lemma NotificationsPermuted(input: States, a: seq<Message>, b: seq<Message>)
    requires multiset(a) == multiset(b)
    ensures multiset(Notifications(input, a)) == multiset(Notifications(input, b))
  {
    FlatMapPermutation(NoteFor(input), a, b);
    NotificationsAreFlat(input, a);
    NotificationsAreFlat(input, b);
  }

  function NoteFor(input: States): Message -> seq<Notification> {
    m => [NotificationFor(input, m)]
  }

  lemma {:induction false} NotificationsAreFlat(input: States, ms: seq<Message>)
    ensures Notifications(input, ms) == FlatMap(NoteFor(input), ms)
  {
    if ms != [] {
      NotificationsAreFlat(input, ms[..|ms| - 1]);
    }
  }

  /** Positions of the rejected messages in a bin. */
  ghost function RejectedAt(input: States, ms: seq<Message>): set<nat> {
    set i: nat | i < |ms| && Rejected(input, ms[i])
  }

  lemma RejectedAtLast(input: States, ms: seq<Message>, n: nat)
    requires n + 1 == |ms|
    ensures RejectedAt(input, ms) == RejectedAt(input, ms[..n]) + if Rejected(input, ms[n]) then {n} else {}
  {
  }

  /** There are as many changes as rejected messages, repeats counted. */
  lemma {:induction false} OneChangePerRejection(input: States, ms: seq<Message>)
    ensures |Changes(input, ms)| == |RejectedAt(input, ms)|
  {
    if ms != [] {
      var n := |ms| - 1;
      OneChangePerRejection(input, ms[..n]);
      RejectedAtLast(input, ms, n);
      TakeNext(ms, n);
      ChangesSnoc(input, ms[..n], ms[n]);
    }
  }

  /** An id that waits for its dependent fulfilment never moves; any other ends as it was or AbortedRejected. */
  lemma MovesOnlyToRejected(input: States, ms: seq<Message>, id: Id)
    ensures Lookup(input, id) == Some(ReceivedFulfilDependent) ==>
              Lookup(Final(input, ms), id) == Some(ReceivedFulfilDependent)
    ensures Lookup(Final(input, ms), id) == Lookup(input, id)
            || (Lookup(Final(input, ms), id) == Some(AbortedRejected) && exists m :: m in ms && m.id == id)
  {
    if id in RejectedIds(input, ms) {
      var r :| r in ms && Rejected(input, r) && r.id == id;
    }
  }

  /**
   Terminal states do not absorb. Exactly these ids keep their state: those that wait for their dependent
   fulfilment, those that were rejected before, and those that no message names.
   */
  lemma StateKeptIff(input: States, ms: seq<Message>, id: Id)
    ensures Lookup(Final(input, ms), id) == Lookup(input, id)
            <==> || Lookup(input, id) == Some(ReceivedFulfilDependent)
                 || Lookup(input, id) == Some(AbortedRejected)
                 || forall m :: m in ms ==> m.id != id
  {
    if m :| m in ms && m.id == id {
      assert Rejected(input, m) ==> id in RejectedIds(input, ms);
    }
  }

  /** Its smallest witness: a stale fulfil moves a committed fx transfer to AbortedRejected. */
  lemma CommittedIsNotAbsorbing(m: Message)
    ensures Final(map[m.id := Committed], [m]) == map[m.id := AbortedRejected]
  {
    assert m in [m];
  }

  // ----- who is told what

  /** A header of the notification: the length is dropped, and a rejection is readdressed from the hub. */
  ghost predicate HeaderOf(m: Message, rejected: bool, name: string, value: string) {
    && name != CONTENT_LENGTH
    && if rejected && name == SOURCE then value == HUB_NAME
       else if rejected && name == DESTINATION then value == m.counterParty
       else Carries(m.headers, name, value)
  }

  predicate Carries(headers: Headers, name: string, value: string) {
    name in headers && headers[name] == value
  }

  /**
   Each item has one notification. If its fx transfer waits for its dependent fulfilment, the initiator is sent the
   payload by the counterparty; otherwise the counterparty is told by the hub which state was found.
   */
  lemma Notified(input: States, ms: seq<Message>, i: nat)
    requires i < |ms|
    ensures var n, m := Notifications(input, ms)[i], ms[i];
            var found := if m.id in input then Some(input[m.id]) else None;
            && n.id == m.id
            && (if found == Some(ReceivedFulfilDependent)
                then n.to == m.initiator && n.from == m.counterParty && n.body == Fulfilment(m.payload)
                else n.to == m.counterParty && n.from == HUB_NAME && n.body == InvalidState(found))
            && forall name, value :: Carries(n.headers, name, value)
                                     <==> HeaderOf(m, found != Some(ReceivedFulfilDependent), name, value)
  {
  }

  /** The changes are those of the other items, in order: to ABORTED_REJECTED, for an incorrect state. */
  lemma {:induction false} RejectionsLogged(input: States, ms: seq<Message>, c: StateChange)
    ensures c in Changes(input, ms) <==>
              && c.state == AbortedRejected && c.reason == IncorrectStateReason
              && exists m :: m in ms && m.id == c.id && Lookup(input, m.id) != Some(ReceivedFulfilDependent)
  {
    FlatMapMembers(ChangesFor(input), ms, c);
    if m :| m in ms && m.id == c.id && Lookup(input, m.id) != Some(ReceivedFulfilDependent) {
      assert StateChange(m.id, AbortedRejected, IncorrectStateReason) in ChangesFor(input)(m);
    }
  }
}
