/**
 The view of a bulk transfer. One promise per individual transfer builds its result; the promise of an errored
 transfer runs to its end at once, every other one is suspended until its extension lookup answers, and the
 lookups answer in any order. All of them push into one payee list.
 */
module BulkView {
  import opened Ledger
  import opened Sequences

  /** Processing states of an individual transfer, numbered as the seed numbers them. */
  const PROCESSING_STATE_ACCEPTED := 4
  const PROCESSING_STATE_PROCESSING := 5

  datatype BulkState = BulkAccepted | BulkCompleted | OtherBulkState(name: string)

  datatype Extension = Extension(key: string, value: string, isFulfilment: bool)

  datatype Pair = Pair(key: string, value: string)

  /** `stored` are the extension rows that the lookup of this transfer will answer. */
  datatype Transfer = Transfer(
    transferId: Id, errorCode: Option<int>, errorDescription: string, amount: string, currency: string,
    ilpPacket: string, condition: string, fulfilment: Option<string>, processingState: int, stored: seq<Extension>)

  datatype Bulk = Bulk(
    bulkTransferId: Id, state: BulkState, completed: Option<string>, payerFsp: string, payeeFsp: string,
    transfers: seq<Transfer>, stored: seq<Extension>)

  datatype ErrorInformation = ErrorInformation(code: int, description: string)

  datatype Prepared = Prepared(amount: string, currency: string, ilpPacket: string, condition: string)

  datatype Result = Result(
    transferId: Id, errorInformation: Option<ErrorInformation>, prepared: Option<Prepared>,
    fulfilment: Option<string>, extensionList: Option<seq<Pair>>)

  datatype Side = Side(
    destination: string, bulkTransferId: Id, state: BulkState, completed: Option<string>,
    extensionList: Option<seq<Pair>>, results: Option<seq<Result>>)

  // ----- one result

  /** An error code of zero counts as no error. */
  predicate Errored(t: Transfer) {
    t.errorCode.Some? && t.errorCode.value != 0
  }

  /** An empty fulfilment counts as no fulfilment. */
  predicate HasFulfilment(t: Transfer) {
    t.fulfilment.Some? && t.fulfilment.value != ""
  }

  predicate Eligible(state: BulkState, t: Transfer) {
    || (state == BulkAccepted && t.processingState == PROCESSING_STATE_ACCEPTED)
    || (state == BulkCompleted && t.processingState > PROCESSING_STATE_PROCESSING)
  }

  function PairOf(e: Extension): Pair {
    Pair(e.key, e.value)
  }

  function FulfilmentPair(): Extension -> seq<Pair> {
    (e: Extension) => if e.isFulfilment then [PairOf(e)] else []
  }

  /** The pairs listed from stored rows: those of the fulfilment once there is one, all of them before. */
  function Listed(rows: seq<Extension>, fulfilled: bool): seq<Pair> {
    if fulfilled then FlatMap(FulfilmentPair(), rows) else seq(|rows|, i requires 0 <= i < |rows| => PairOf(rows[i]))
  }

  /** An empty list is left out. */
  function ExtensionList(rows: seq<Extension>, fulfilled: bool): Option<seq<Pair>> {
    if Listed(rows, fulfilled) == [] then None else Some(Listed(rows, fulfilled))
  }

  /** A pair is listed iff a stored row carries it and, once fulfilled, belongs to the fulfilment. */
  lemma ListedPairs(rows: seq<Extension>, fulfilled: bool, p: Pair)
    ensures (ExtensionList(rows, fulfilled).Some? && p in ExtensionList(rows, fulfilled).value)
            <==> exists e :: e in rows && e.key == p.key && e.value == p.value && (fulfilled ==> e.isFulfilment)
  {
    FlatMapMembers(FulfilmentPair(), rows, p);
    if !fulfilled {
      if e :| e in rows && e.key == p.key && e.value == p.value {
        var i :| 0 <= i < |rows| && rows[i] == e;
        assert Listed(rows, fulfilled)[i] == p;
      }
    }
  }

  function ResultFor(t: Transfer): Result {
    if Errored(t) then
      Result(t.transferId, Some(ErrorInformation(t.errorCode.value, t.errorDescription)), None, None, None)
    else if HasFulfilment(t) then
      Result(t.transferId, None, None, t.fulfilment, ExtensionList(t.stored, true))
    else
      Result(t.transferId, None, Some(Prepared(t.amount, t.currency, t.ilpPacket, t.condition)), None,
             ExtensionList(t.stored, false))
  }

  /**
   A result tells exactly one of the error, the fulfilment and the prepared data, whichever comes first, as they are
   stored. An error code of zero and an empty fulfilment count as none. Its list of extensions is left out or not empty,
   and holds the pairs of the stored rows, those of the fulfilment alone once there is one, and none for an error.
   */
  lemma ResultFields(t: Transfer, p: Pair)
    ensures var r := ResultFor(t);
            var errored := t.errorCode.Some? && t.errorCode.value != 0;
            var fulfilled := !errored && t.fulfilment.Some? && t.fulfilment.value != "";
            && r.transferId == t.transferId
            && (r.errorInformation.Some? <==> errored)
            && (errored ==> r.errorInformation.value.code == t.errorCode.value
                            && r.errorInformation.value.description == t.errorDescription)
            && r.fulfilment == (if fulfilled then t.fulfilment else None)
            && (r.prepared.Some? <==> !errored && !fulfilled)
            && (r.prepared.Some? ==>
                  && r.prepared.value.amount == t.amount && r.prepared.value.currency == t.currency
                  && r.prepared.value.ilpPacket == t.ilpPacket && r.prepared.value.condition == t.condition)
            && r.extensionList != Some([])
            && ((r.extensionList.Some? && p in r.extensionList.value)
                <==> !errored && exists e :: e in t.stored && e.key == p.key && e.value == p.value
                                             && (fulfilled ==> e.isFulfilment))
  {
    ListedPairs(t.stored, HasFulfilment(t), p);
  }

  function Results(ts: seq<Transfer>): (rs: seq<Result>)
    ensures |rs| == |ts|
  {
    seq(|ts|, i requires 0 <= i < |ts| => ResultFor(ts[i]))
  }

  // ----- what the promises push

  function Push(state: BulkState): Transfer -> seq<Result> {
    t => if Eligible(state, t) then [ResultFor(t)] else []
  }

  function EarlyPush(state: BulkState): Transfer -> seq<Result> {
    t => if Errored(t) && Eligible(state, t) then [ResultFor(t)] else []
  }

  function LatePush(state: BulkState): Transfer -> seq<Result> {
    t => if !Errored(t) && Eligible(state, t) then [ResultFor(t)] else []
  }

  /** The results that the test on states selects. */
  function Selected(b: Bulk): seq<Result> {
    FlatMap(Push(b.state), b.transfers)
  }

  /** What the synchronous start pushes: the eligible errored results, in input order. */
  function Early(b: Bulk): seq<Result> {
    FlatMap(EarlyPush(b.state), b.transfers)
  }

  /** The eligible results of the suspended promises, in input order. */
  function Late(b: Bulk): seq<Result> {
    FlatMap(LatePush(b.state), b.transfers)
  }

  function ResumedPush(b: Bulk): nat -> seq<Result> {
    (i: nat) =>
      if i < |b.transfers| && !Errored(b.transfers[i]) && Eligible(b.state, b.transfers[i]) then
        [ResultFor(b.transfers[i])]
      else []
  }

  /** The promises that wait for their lookup. */
  function Suspended(ts: seq<Transfer>): seq<nat> {
    if ts == [] then []
    else Suspended(ts[..|ts| - 1]) + if Errored(ts[|ts| - 1]) then [] else [|ts| - 1]
  }

  /** A schedule resumes every suspended promise exactly once. */
  ghost predicate Schedule(b: Bulk, order: seq<nat>) {
    multiset(order) == multiset(Suspended(b.transfers))
  }

  lemma {:induction false} SuspendedTasks(ts: seq<Transfer>, i: nat)
    ensures i in Suspended(ts) <==> i < |ts| && !Errored(ts[i])
  {
    if ts != [] {
      SuspendedTasks(ts[..|ts| - 1], i);
    }
  }

  /** The payee list before the fallback, when the promises resume in the given order. */
  function PayeeList(b: Bulk, order: seq<nat>): seq<Result> {
    Early(b) + FlatMap(ResumedPush(b), order)
  }

  lemma EarlyNext(state: BulkState, ts: seq<Transfer>, i: nat)
    requires i < |ts|
    ensures FlatMap(EarlyPush(state), ts[..i + 1]) ==
              FlatMap(EarlyPush(state), ts[..i]) +
              if Errored(ts[i]) && Eligible(state, ts[i]) then [ResultFor(ts[i])] else []
  {
    TakeNext(ts, i);
    FlatMapSnoc(EarlyPush(state), ts[..i], ts[i]);
  }

  lemma ResumedSnoc(b: Bulk, order: seq<nat>, i: nat)
    requires i < |b.transfers| && !Errored(b.transfers[i])
    ensures FlatMap(ResumedPush(b), order + [i]) ==
              FlatMap(ResumedPush(b), order) +
              if Eligible(b.state, b.transfers[i]) then [ResultFor(b.transfers[i])] else []
  {
    FlatMapSnoc(ResumedPush(b), order, i);
  }

  // ----- the promises

  /** The promises that have ended, and no others, have their result. */
  ghost predicate Answered(ts: seq<Transfer>, resumed: seq<nat>, results: seq<Option<Result>>) {
    && |results| == |ts|
    && forall i :: 0 <= i < |ts| ==>
         results[i] == if Errored(ts[i]) || i in resumed then Some(ResultFor(ts[i])) else None
  }

  lemma AnsweredSnoc(ts: seq<Transfer>, resumed: seq<nat>, results: seq<Option<Result>>, i: nat)
    requires Answered(ts, resumed, results) && i < |ts|
    ensures Answered(ts, resumed + [i], results[i := Some(ResultFor(ts[i]))])
  {
    assert i in resumed + [i];
  }

  /** The promise of a transfer without error, field by field. */
  method BuildResult(t: Transfer) returns (result: Result)
    requires !Errored(t)
    ensures result == ResultFor(t)
    ensures (result.prepared.Some? <==> result.fulfilment.None?) && result.extensionList != Some([])
  {
    result := Result(t.transferId, None, None, None, None);
    if !HasFulfilment(t) {
      result := result.(prepared := Some(Prepared(t.amount, t.currency, t.ilpPacket, t.condition)));
    } else {
      result := result.(fulfilment := t.fulfilment);
    }
    var extension := Listed(t.stored, HasFulfilment(t));
    if |extension| > 0 {
      result := result.(extensionList := Some(extension));
    }
  }

  class Assembly {
    const bulk: Bulk
    var results: seq<Option<Result>>
    var payee: seq<Result>
    ghost var resumed: seq<nat>

    ghost predicate Valid()
      reads this
    {
      && payee == PayeeList(bulk, resumed)
      && Answered(bulk.transfers, resumed, results)
    }

    /** The start phase: every promise runs until it ends or waits for its lookup. */
    constructor (bulk: Bulk)
      ensures this.bulk == bulk && Valid() && resumed == []
    {
      this.bulk := bulk;
      results, payee, resumed := [], [], [];
      new;
      var ts := bulk.transfers;
      for i := 0 to |ts|
        invariant |results| == i && resumed == []
        invariant payee == FlatMap(EarlyPush(bulk.state), ts[..i])
        invariant forall k :: 0 <= k < i ==> results[k] == if Errored(ts[k]) then Some(ResultFor(ts[k])) else None
      {
        var t := ts[i];
        EarlyNext(bulk.state, ts, i);
        if Errored(t) {
          var result := Result(t.transferId, Some(ErrorInformation(t.errorCode.value, t.errorDescription)), None, None, None);
          if Eligible(bulk.state, t) {
            payee := payee + [result];
          }
          results := results + [Some(result)];
        } else {
          results := results + [None];
        }
      }
      assert ts[..|ts|] == ts;
    }

    /** The lookup of promise `i` answers and the promise runs to its end. */
    method Resume(i: nat)
      requires Valid() && i < |bulk.transfers| && !Errored(bulk.transfers[i]) && i !in resumed
      modifies this
      ensures Valid() && resumed == old(resumed) + [i]
    {
      var t := bulk.transfers[i];
      ResumedSnoc(bulk, resumed, i);
      AnsweredSnoc(bulk.transfers, resumed, results, i);
      var result := BuildResult(t);
      if Eligible(bulk.state, t) {
        payee := payee + [result];
      }
      results := results[i := Some(result)];
      resumed := resumed + [i];
    }
  }

  /** No index repeats: a legal schedule never resumes a finished promise. */
  lemma {:induction false} SuspendedOnce(ts: seq<Transfer>, i: nat)
    ensures multiset(Suspended(ts))[i] <= 1
  {
    if ts != [] {
      SuspendedOnce(ts[..|ts| - 1], i);
      SuspendedTasks(ts[..|ts| - 1], i);
    }
  }

  lemma NextIsSuspended(b: Bulk, order: seq<nat>, k: nat)
    requires Schedule(b, order) && k < |order|
    ensures order[k] < |b.transfers| && !Errored(b.transfers[order[k]]) && order[k] !in order[..k]
  {
    var i := order[k];
    assert i in multiset(order);
    SuspendedTasks(b.transfers, i);
    SuspendedOnce(b.transfers, i);
    assert order == order[..k] + ([i] + order[k + 1..]);
    assert multiset(order)[i] == multiset(order[..k])[i] + (1 + multiset(order[k + 1..])[i]);
  }

  lemma AllAnswered(b: Bulk, order: seq<nat>, results: seq<Option<Result>>)
    requires Schedule(b, order) && Answered(b.transfers, order, results)
    ensures forall i :: 0 <= i < |results| ==> results[i] == Some(Results(b.transfers)[i])
  {
    forall i: nat | i < |results|
      ensures results[i] == Some(ResultFor(b.transfers[i]))
    {
      SuspendedTasks(b.transfers, i);
      assert i in order <==> i in multiset(order);
    }
  }

  method GetBulkTransferById(b: Bulk, order: seq<nat>) returns (payer: Side, payee: Side)
    requires Schedule(b, order)
    ensures payer.destination == b.payerFsp && payee.destination == b.payeeFsp
    ensures payer.bulkTransferId == payee.bulkTransferId == b.bulkTransferId
    ensures payer.state == payee.state == b.state && payer.completed == payee.completed == b.completed
    ensures payer.extensionList == payee.extensionList == ExtensionList(b.stored, b.completed.Some?)
    ensures payer.results == if b.transfers == [] then None else Some(Results(b.transfers))
    ensures payee.results ==
              Some(if PayeeList(b, order) == [] then Results(b.transfers) else PayeeList(b, order))
  {
    var assembly := new Assembly(b);
    for k := 0 to |order|
      invariant assembly.Valid() && assembly.bulk == b && assembly.resumed == order[..k]
      invariant fresh(assembly)
    {
      NextIsSuspended(b, order, k);
      assembly.Resume(order[k]);
      assert order[..k + 1] == order[..k] + [order[k]];
    }
    assert order[..|order|] == order;
    AllAnswered(b, order, assembly.results);
    var answered := assembly.results;
    var individual := seq(|answered|, i requires 0 <= i < |answered| && answered[i].Some? => answered[i].value);
    assert individual == Results(b.transfers);
    var extensionList := ExtensionList(b.stored, b.completed.Some?);
    payer := Side(b.payerFsp, b.bulkTransferId, b.state, b.completed, extensionList, None);
    payee := Side(b.payeeFsp, b.bulkTransferId, b.state, b.completed, extensionList, None);
    if |individual| > 0 {
      payer := payer.(results := Some(individual));
    }
    if |assembly.payee| > 0 {
      payee := payee.(results := Some(assembly.payee));
    } else {
      payee := payee.(results := Some(individual));
    }
  }

  // ----- laws over every schedule

  /** Resuming the suspended promises in input order pushes the late results in input order. */
  lemma {:induction false} ResumedInOrder(b: Bulk, n: nat)
    requires n <= |b.transfers|
    ensures FlatMap(ResumedPush(b), Suspended(b.transfers[..n])) == FlatMap(LatePush(b.state), b.transfers[..n])
  {
    if n > 0 {
      ResumedInOrder(b, n - 1);
      ResumedStep(b, b.transfers[..n - 1], b.transfers[n - 1]);
      TakeNext(b.transfers, n - 1);
    }
  }

  lemma ResumedStep(b: Bulk, before: seq<Transfer>, t: Transfer)
    requires |before| < |b.transfers| && b.transfers[|before|] == t
    requires FlatMap(ResumedPush(b), Suspended(before)) == FlatMap(LatePush(b.state), before)
    ensures FlatMap(ResumedPush(b), Suspended(before + [t])) == FlatMap(LatePush(b.state), before + [t])
  {
    FlatMapSnoc(LatePush(b.state), before, t);
    SuspendedSnoc(before, t);
    if !Errored(t) {
      ResumedSnoc(b, Suspended(before), |before|);
    }
  }

  lemma SuspendedSnoc(ts: seq<Transfer>, t: Transfer)
    ensures Suspended(ts + [t]) == if Errored(t) then Suspended(ts) else Suspended(ts) + [|ts|]
  {
    assert (ts + [t])[..|ts|] == ts;
  }

  lemma LateInOrder(b: Bulk)
    ensures FlatMap(ResumedPush(b), Suspended(b.transfers)) == Late(b)
  {
    ResumedInOrder(b, |b.transfers|);
    assert b.transfers[..|b.transfers|] == b.transfers;
  }

  lemma {:induction false} EarlyAndLate(state: BulkState, ts: seq<Transfer>)
    ensures multiset(FlatMap(Push(state), ts))
            == multiset(FlatMap(EarlyPush(state), ts)) + multiset(FlatMap(LatePush(state), ts))
  {
    if ts != [] {
      EarlyAndLate(state, ts[..|ts| - 1]);
    }
  }

  /**
   Exactly these payee lists can appear: the eligible errored results in input order, followed by any
   permutation of the other eligible results.
   */
  lemma PayeeListsExactly(b: Bulk, payee: seq<Result>)
    ensures (exists order :: Schedule(b, order) && PayeeList(b, order) == payee)
            <==> Early(b) <= payee && multiset(payee[|Early(b)|..]) == multiset(Late(b))
  {
    LateInOrder(b);
    if order :| Schedule(b, order) && PayeeList(b, order) == payee {
      FlatMapPermutation(ResumedPush(b), order, Suspended(b.transfers));
      DropPrefix(Early(b), FlatMap(ResumedPush(b), order));
    }
    if Early(b) <= payee && multiset(payee[|Early(b)|..]) == multiset(Late(b)) {
      var order := Reorder(ResumedPush(b), Suspended(b.transfers), payee[|Early(b)|..]);
      PrefixAndRest(Early(b), payee);
      assert Schedule(b, order) && PayeeList(b, order) == payee;
    }
  }

  lemma PrefixAndRest<A>(a: seq<A>, b: seq<A>)
    requires a <= b
    ensures a + b[|a|..] == b
  {
  }

  /** As a multiset the payee list is what the test on states selects, whatever the schedule. */
  lemma PayeeMultiset(b: Bulk, order: seq<nat>)
    requires Schedule(b, order)
    ensures multiset(PayeeList(b, order)) == multiset(Selected(b))
  {
    LateInOrder(b);
    FlatMapPermutation(ResumedPush(b), order, Suspended(b.transfers));
    EarlyAndLate(b.state, b.transfers);
  }

  lemma {:induction false} SelectedAmongResults(state: BulkState, ts: seq<Transfer>, n: nat)
    requires n <= |ts|
    ensures multiset(FlatMap(Push(state), ts[..n])) <= multiset(Results(ts[..n]))
  {
    if n > 0 {
      SelectedAmongResults(state, ts, n - 1);
      SelectedStep(state, ts[..n - 1], ts[n - 1]);
      TakeNext(ts, n - 1);
    }
  }

  lemma SelectedStep(state: BulkState, ts: seq<Transfer>, t: Transfer)
    requires multiset(FlatMap(Push(state), ts)) <= multiset(Results(ts))
    ensures multiset(FlatMap(Push(state), ts + [t])) <= multiset(Results(ts + [t]))
  {
    FlatMapSnoc(Push(state), ts, t);
    ResultsSnoc(ts, t);
    BothGrow(FlatMap(Push(state), ts), Results(ts), Push(state)(t), ResultFor(t));
  }

  lemma ResultsSnoc(ts: seq<Transfer>, t: Transfer)
    ensures Results(ts + [t]) == Results(ts) + [ResultFor(t)]
  {
  }

  lemma BothGrow<A>(a: seq<A>, b: seq<A>, tail: seq<A>, x: A)
    requires multiset(a) <= multiset(b) && (tail == [] || tail == [x])
    ensures multiset(a + tail) <= multiset(b + [x])
  {
  }

  /** After the fallback the payee is shown part of what the payer is shown, and nothing iff there is nothing. */
  lemma PayeeShownPart(b: Bulk, order: seq<nat>)
    requires Schedule(b, order)
    ensures var shown := if PayeeList(b, order) == [] then Results(b.transfers) else PayeeList(b, order);
            multiset(shown) <= multiset(Results(b.transfers)) && (shown == [] <==> b.transfers == [])
  {
    PayeeMultiset(b, order);
    SelectedAmongResults(b.state, b.transfers, |b.transfers|);
    assert b.transfers[..|b.transfers|] == b.transfers;
    if b.transfers == [] {
      NoneFromNothing(PayeeList(b, order), Results(b.transfers));
    }
  }

  lemma NoneFromNothing<A>(a: seq<A>, b: seq<A>)
    requires multiset(a) <= multiset(b) && b == []
    ensures a == []
  {
    assert |multiset(a)| == |a|;
    assert multiset(a) == multiset{};
  }

  /** The payee list is the same under every schedule iff the late results are all the same result. */
  lemma ScheduleVisibleIff(b: Bulk)
    ensures (forall p, q :: Schedule(b, p) && Schedule(b, q) ==> PayeeList(b, p) == PayeeList(b, q))
            <==> forall i, j :: 0 <= i < j < |Late(b)| ==> Late(b)[i] == Late(b)[j]
  {
    var late := Late(b);
    if i, j :| 0 <= i < j < |late| && late[i] != late[j] {
      var swapped := late[i := late[j]][j := late[i]];
      assert multiset(swapped) == multiset(late);
      PayeeListsExactly(b, Early(b) + late);
      PayeeListsExactly(b, Early(b) + swapped);
      var p :| Schedule(b, p) && PayeeList(b, p) == Early(b) + late;
      var q :| Schedule(b, q) && PayeeList(b, q) == Early(b) + swapped;
      assert (Early(b) + late)[|Early(b)| + i] != (Early(b) + swapped)[|Early(b)| + i];
    } else {
      forall p, q | Schedule(b, p) && Schedule(b, q)
        ensures PayeeList(b, p) == PayeeList(b, q)
      {
        LateInOrder(b);
        FlatMapPermutation(ResumedPush(b), p, Suspended(b.transfers));
        FlatMapPermutation(ResumedPush(b), q, Suspended(b.transfers));
        OnlyOneOrder(late, FlatMap(ResumedPush(b), p));
        OnlyOneOrder(late, FlatMap(ResumedPush(b), q));
      }
    }
  }

  /** A list of equal values has no other permutation. */
  lemma OnlyOneOrder<A>(a: seq<A>, b: seq<A>)
    requires multiset(a) == multiset(b) && forall i, j :: 0 <= i < j < |a| ==> a[i] == a[j]
    ensures a == b
  {
    assert |multiset(a)| == |a| && |multiset(b)| == |b|;
    forall k | 0 <= k < |b|
      ensures a[k] == b[k]
    {
      assert b[k] in multiset(a);
      var i :| 0 <= i < |a| && a[i] == b[k];
    }
  }

  /**
   Whom the payee list shows: the results of the accepted transfers while the bulk is accepted, and of those past
   processing once it is completed.
   */
  lemma ShownToPayee(b: Bulk, order: seq<nat>, r: Result)
    requires Schedule(b, order)
    ensures r in PayeeList(b, order) <==>
              exists t :: t in b.transfers && r == ResultFor(t)
                          && (|| (b.state == BulkAccepted && t.processingState == 4)
                              || (b.state == BulkCompleted && t.processingState > 5))
  {
    PayeeMultiset(b, order);
    SameMembers(PayeeList(b, order), Selected(b), r);
    FlatMapMembers(Push(b.state), b.transfers, r);
    PushedIff(b.state, b.transfers, r);
  }

  lemma SameMembers<A>(a: seq<A>, b: seq<A>, x: A)
    requires multiset(a) == multiset(b)
    ensures x in a <==> x in b
  {
    assert x in multiset(a) <==> x in multiset(b);
  }

  lemma PushedIff(state: BulkState, ts: seq<Transfer>, r: Result)
    ensures (exists t :: t in ts && r in Push(state)(t))
            <==> exists t :: t in ts && r == ResultFor(t)
                             && (|| (state == BulkAccepted && t.processingState == 4)
                                 || (state == BulkCompleted && t.processingState > 5))
  {
  }
}
