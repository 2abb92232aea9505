/**
 How an abort is turned into position movements that give back what was reserved, and which aborts their
 circulation carries out in full.
 */
module Reversal {
  import opened Ledger
  import opened Sequences
  import A = AccountBin
  import C = Circulation

  /** A recorded position change of a reservation. */
  datatype Reserved = Reserved(account: nat, change: int)

  /** An fx transfer with the position changes of its reservation; names are the external ones where there are any. */
  datatype FxRecord = FxRecord(
    id: Id, initiator: string, counterParty: string, counterPartyIsProxy: bool, reserved: seq<Reserved>)

  datatype TransferRecord = TransferRecord(id: Id, payer: string, payeeIsProxy: bool, reserved: seq<Reserved>)

  // ----- reference form

  /** Each reservation on its own account, with the sign turned. */
  function FxHops(original: Id, isAbort: bool): FxRecord -> seq<A.Hop> {
    (r: FxRecord) => seq(|r.reserved|, i requires 0 <= i < |r.reserved| =>
      A.Hop(true, r.id, r.reserved[i].account, -r.reserved[i].change, false,
            if isAbort && original != r.id then None else Some(r.initiator), original == r.id))
  }

  function TransferHops(original: Id, t: TransferRecord): (hops: seq<A.Hop>)
    ensures |hops| == |t.reserved|
  {
    seq(|t.reserved|, i requires 0 <= i < |t.reserved| =>
      A.Hop(false, t.id, t.reserved[i].account, -t.reserved[i].change, false, Some(t.payer), original == t.id))
  }

  function Hops(fxs: seq<FxRecord>, t: TransferRecord, original: Id, isAbort: bool): seq<A.Hop> {
    FlatMap(FxHops(original, isAbort), fxs) + TransferHops(original, t)
  }

  /** The fx providers of this scheme hear of an abort that started with the transfer. */
  function PatchFor(original: Id, isAbort: bool): FxRecord -> seq<A.Patch> {
    (r: FxRecord) =>
      if isAbort && original != r.id && !r.counterPartyIsProxy then [A.Patch(r.id, r.counterParty)] else []
  }

  /** The transfer to a proxied payee moved no position here, so it is aborted by a bare state change. */
  function BareChange(fxs: seq<FxRecord>, t: TransferRecord, original: Id, isAbort: bool): seq<A.ExtraChange> {
    if isAbort && t.payeeIsProxy && t.reserved == [] && fxs != [] && original == t.id
    then [A.ExtraChange(t.id, AbortedError, t.payer, true)] else []
  }

  // ----- the lists of an abort message

  method GetPositionChanges(fxs: seq<FxRecord>, t: TransferRecord, original: Id, isAbort: bool)
    returns (hops: seq<A.Hop>, extras: seq<A.ExtraChange>, patches: seq<A.Patch>)
    ensures hops == Hops(fxs, t, original, isAbort)
    ensures extras == BareChange(fxs, t, original, isAbort)
    ensures extras == if isAbort && t.payeeIsProxy && t.reserved == [] && fxs != [] && original == t.id
                      then [A.ExtraChange(t.id, AbortedError, t.payer, true)] else []
    ensures patches == FlatMap(PatchFor(original, isAbort), fxs)
  {
    hops, extras, patches := [], [], [];
    for i := 0 to |fxs|
      invariant hops == FlatMap(FxHops(original, isAbort), fxs[..i])
      invariant patches == FlatMap(PatchFor(original, isAbort), fxs[..i])
    {
      var r := fxs[i];
      RecordNext(fxs, i, original, isAbort);
      var own := FxMovements(r, original, isAbort);
      hops := hops + own;
      if isAbort && original != r.id && !r.counterPartyIsProxy {
        patches := patches + [A.Patch(r.id, r.counterParty)];
      }
    }
    assert fxs[..|fxs|] == fxs;
    if isAbort && t.payeeIsProxy && |t.reserved| == 0 && |fxs| > 0 && original == t.id {
      extras := [A.ExtraChange(t.id, AbortedError, t.payer, original == t.id)];
    } else {
      var own := TransferMovements(t, original);
      hops := hops + own;
    }
  }

  lemma RecordNext(fxs: seq<FxRecord>, i: nat, original: Id, isAbort: bool)
    requires i < |fxs|
    ensures FlatMap(FxHops(original, isAbort), fxs[..i + 1]) ==
              FlatMap(FxHops(original, isAbort), fxs[..i]) + FxHops(original, isAbort)(fxs[i])
    ensures FlatMap(PatchFor(original, isAbort), fxs[..i + 1]) ==
              FlatMap(PatchFor(original, isAbort), fxs[..i]) +
              if isAbort && original != fxs[i].id && !fxs[i].counterPartyIsProxy
              then [A.Patch(fxs[i].id, fxs[i].counterParty)] else []
  {
    TakeNext(fxs, i);
    FlatMapSnoc(FxHops(original, isAbort), fxs[..i], fxs[i]);
    FlatMapSnoc(PatchFor(original, isAbort), fxs[..i], fxs[i]);
  }

  method FxMovements(r: FxRecord, original: Id, isAbort: bool) returns (hops: seq<A.Hop>)
    ensures hops == FxHops(original, isAbort)(r)
  {
    hops := [];
    var notifyTo := if isAbort && original != r.id then None else Some(r.initiator);
    for i := 0 to |r.reserved|
      invariant |hops| == i
      invariant forall k :: 0 <= k < i ==> hops[k] == FxHops(original, isAbort)(r)[k]
    {
      hops := hops + [A.Hop(true, r.id, r.reserved[i].account, -r.reserved[i].change, false, notifyTo, original == r.id)];
    }
  }

  method TransferMovements(t: TransferRecord, original: Id) returns (hops: seq<A.Hop>)
    ensures hops == TransferHops(original, t)
  {
    hops := [];
    for i := 0 to |t.reserved|
      invariant |hops| == i
      invariant forall k :: 0 <= k < i ==> hops[k] == TransferHops(original, t)[k]
    {
      hops := hops + [A.Hop(false, t.id, t.reserved[i].account, -t.reserved[i].change, false, Some(t.payer), original == t.id)];
    }
  }

  // ----- the movements give back exactly the reservations

  function Pairs(reserved: seq<Reserved>): seq<(nat, int)> {
    seq(|reserved|, i requires 0 <= i < |reserved| => (reserved[i].account, reserved[i].change))
  }

  function FxPairs(): FxRecord -> seq<(nat, int)> {
    (r: FxRecord) => Pairs(r.reserved)
  }

  /** Everything that was reserved for a transfer and its fx transfers. */
  function Reservations(fxs: seq<FxRecord>, t: TransferRecord): seq<(nat, int)> {
    FlatMap(FxPairs(), fxs) + Pairs(t.reserved)
  }

  ghost predicate Mirrors(hops: seq<A.Hop>, reservations: seq<(nat, int)>) {
    && |hops| == |reservations|
    && forall k :: 0 <= k < |hops| ==> hops[k].account == reservations[k].0 && hops[k].amount == -reservations[k].1
  }

  lemma {:induction false} FxHopsMirror(fxs: seq<FxRecord>, original: Id, isAbort: bool)
    ensures Mirrors(FlatMap(FxHops(original, isAbort), fxs), FlatMap(FxPairs(), fxs))
  {
    if fxs != [] {
      var init, r := fxs[..|fxs| - 1], fxs[|fxs| - 1];
      FxHopsMirror(init, original, isAbort);
      MirrorsConcat(FlatMap(FxHops(original, isAbort), init), FlatMap(FxPairs(), init),
                    FxHops(original, isAbort)(r), FxPairs()(r));
    }
  }

  lemma MirrorsConcat(a: seq<A.Hop>, b: seq<(nat, int)>, c: seq<A.Hop>, d: seq<(nat, int)>)
    requires Mirrors(a, b) && Mirrors(c, d)
    ensures Mirrors(a + c, b + d)
  {
  }

  lemma HopsMirror(fxs: seq<FxRecord>, t: TransferRecord, original: Id, isAbort: bool)
    ensures Mirrors(Hops(fxs, t, original, isAbort), Reservations(fxs, t))
  {
    FxHopsMirror(fxs, original, isAbort);
    MirrorsConcat(FlatMap(FxHops(original, isAbort), fxs), FlatMap(FxPairs(), fxs), TransferHops(original, t), Pairs(t.reserved));
  }

  // ----- who hears of it

  /** The movement gives back one of the reservations. */
  ghost predicate Returns(reserved: seq<Reserved>, h: A.Hop) {
    exists k :: 0 <= k < |reserved| && h.account == reserved[k].account && h.amount == -reserved[k].change
  }

  /**
   Every movement gives back a reservation of the transfer it names. One of an fx transfer has its initiator told,
   except where an abort of the transfer carries it along, and one of the transfer has the payer told. The error is
   the message's own exactly for the id the abort started with.
   */
  lemma WhoHears(fxs: seq<FxRecord>, t: TransferRecord, original: Id, isAbort: bool, h: A.Hop)
    requires h in Hops(fxs, t, original, isAbort)
    ensures h.isOriginal <==> h.id == original
    ensures !h.isFx ==> h.id == t.id && h.notifyTo == Some(t.payer) && Returns(t.reserved, h)
    ensures h.isFx ==> exists r :: r in fxs && r.id == h.id && Returns(r.reserved, h)
                                   && (if isAbort && r.id != original then h.notifyTo == None
                                       else h.notifyTo == Some(r.initiator))
  {
    if h in FlatMap(FxHops(original, isAbort), fxs) {
      FlatMapMembers(FxHops(original, isAbort), fxs, h);
      var r :| r in fxs && h in FxHops(original, isAbort)(r);
      var k :| 0 <= k < |r.reserved| && FxHops(original, isAbort)(r)[k] == h;
      assert Returns(r.reserved, h);
    } else {
      assert h in TransferHops(original, t);
      var k :| 0 <= k < |t.reserved| && TransferHops(original, t)[k] == h;
    }
  }

  /** An abort that started with the transfer patches the fx provider of each fx transfer, unless it is behind a proxy. */
  lemma PatchedProviders(fxs: seq<FxRecord>, original: Id, isAbort: bool, p: A.Patch)
    ensures p in FlatMap(PatchFor(original, isAbort), fxs) <==>
              && isAbort
              && exists r :: r in fxs && r.id != original && !r.counterPartyIsProxy && p == A.Patch(r.id, r.counterParty)
  {
    FlatMapMembers(PatchFor(original, isAbort), fxs, p);
  }

  // ----- which aborts circulate to the end

  lemma {:induction false} FxHopsAreFx(fxs: seq<FxRecord>, original: Id, isAbort: bool)
    ensures forall h :: h in FlatMap(FxHops(original, isAbort), fxs) ==> h.isFx
  {
    if fxs != [] {
      FxHopsAreFx(fxs[..|fxs| - 1], original, isAbort);
    }
  }

  /** The token of an abort that started with the transfer. */
  ghost predicate TransferAbort(token: C.Token, fxs: seq<FxRecord>, t: TransferRecord) {
    token.kind == C.Abort && token.message.id == t.id && C.Hops(token) == Hops(fxs, t, t.id, true)
  }

  /** It makes every movement iff the transfer itself has at most one reservation. */
  lemma TransferAbortSerialIff(token: C.Token, fxs: seq<FxRecord>, t: TransferRecord)
    requires TransferAbort(token, fxs, t)
    ensures C.Serial(token) <==> |t.reserved| <= 1
  {
    var first, own := FlatMap(FxHops(t.id, true), fxs), TransferHops(t.id, t);
    FxHopsAreFx(fxs, t.id, true);
    forall k | 0 <= k < |C.Hops(token)|
      ensures C.Closes(C.Hops(token)[k], token) <==> k >= |first|
    {
      if k < |first| {
        assert C.Hops(token)[k] == first[k] && first[k] in first;
      } else {
        assert C.Hops(token)[k] == own[k - |first|];
      }
    }
    if |t.reserved| > 1 {
      assert C.Closes(C.Hops(token)[|first|], token);
    }
  }

  /** The token of an abort that started with one of the fx transfers. */
  ghost predicate FxAbort(token: C.Token, fxs: seq<FxRecord>, t: TransferRecord, original: Id) {
    token.kind == C.FxAbort && token.message.id == original && C.Hops(token) == Hops(fxs, t, original, false)
  }

  /** How many movements stand from fx transfer `i` on. */
  function Remaining(fxs: seq<FxRecord>, t: TransferRecord, i: nat): nat
    requires i <= |fxs|
    decreases |fxs| - i
  {
    if i == |fxs| then |t.reserved| else |fxs[i].reserved| + Remaining(fxs, t, i + 1)
  }

  /** The aborted fx transfer has no reservation, or its only one is the last movement of all. */
  predicate OriginalLast(fxs: seq<FxRecord>, t: TransferRecord, original: Id) {
    forall i :: 0 <= i < |fxs| && fxs[i].id == original ==> fxs[i].reserved == [] || Remaining(fxs, t, i) == 1
  }

  /** Where the movements of fx transfer `i` start. */
  lemma {:induction false} RemainingHops(fxs: seq<FxRecord>, t: TransferRecord, original: Id, isAbort: bool, i: nat)
    requires i <= |fxs|
    ensures |FlatMap(FxHops(original, isAbort), fxs[..i])| + Remaining(fxs, t, i) == |Hops(fxs, t, original, isAbort)|
    decreases |fxs| - i
  {
    if i == |fxs| {
      assert fxs[..i] == fxs;
    } else {
      RemainingHops(fxs, t, original, isAbort, i + 1);
      TakeNext(fxs, i);
      FlatMapSnoc(FxHops(original, isAbort), fxs[..i], fxs[i]);
    }
  }

  /** Movement `j` of fx transfer `i`, by its place in the whole list. */
  lemma HopAt(fxs: seq<FxRecord>, t: TransferRecord, original: Id, isAbort: bool, i: nat, j: nat)
    requires i < |fxs| && j < |fxs[i].reserved|
    ensures var k := |FlatMap(FxHops(original, isAbort), fxs[..i])| + j;
            k < |FlatMap(FxHops(original, isAbort), fxs)|
            && Hops(fxs, t, original, isAbort)[k] == FxHops(original, isAbort)(fxs[i])[j]
  {
    var f := FxHops(original, isAbort);
    TakeNext(fxs, i);
    FlatMapSnoc(f, fxs[..i], fxs[i]);
    FlatMapConcat(f, fxs[..i + 1], fxs[i + 1..]);
    assert fxs[..i + 1] + fxs[i + 1..] == fxs;
  }

  lemma {:induction false} Locate(fxs: seq<FxRecord>, original: Id, isAbort: bool, k: nat) returns (i: nat, j: nat)
    requires k < |FlatMap(FxHops(original, isAbort), fxs)|
    ensures i < |fxs| && j < |fxs[i].reserved| && k == |FlatMap(FxHops(original, isAbort), fxs[..i])| + j
    decreases |fxs|
  {
    var n := |fxs| - 1;
    var init := fxs[..n];
    if k < |FlatMap(FxHops(original, isAbort), init)| {
      i, j := Locate(init, original, isAbort, k);
      assert init[..i] == fxs[..i];
    } else {
      i, j := n, k - |FlatMap(FxHops(original, isAbort), init)|;
    }
  }

  /** An fx abort makes every movement iff no movement follows that of the fx transfer it started with. */
  lemma FxAbortSerialIff(token: C.Token, fxs: seq<FxRecord>, t: TransferRecord, original: Id)
    requires FxAbort(token, fxs, t, original)
    ensures C.Serial(token) <==> OriginalLast(fxs, t, original)
  {
    if C.Serial(token) {
      SerialFxAbort(token, fxs, t, original);
    }
    if OriginalLast(fxs, t, original) {
      forall k: nat | k < |C.Hops(token)| - 1
        ensures !C.Closes(C.Hops(token)[k], token)
      {
        OpenUntilLast(token, fxs, t, original, k);
      }
    }
  }

  lemma SerialFxAbort(token: C.Token, fxs: seq<FxRecord>, t: TransferRecord, original: Id)
    requires FxAbort(token, fxs, t, original) && C.Serial(token)
    ensures OriginalLast(fxs, t, original)
  {
    forall i | 0 <= i < |fxs| && fxs[i].id == original && fxs[i].reserved != []
      ensures Remaining(fxs, t, i) == 1
    {
      HopAt(fxs, t, original, false, i, 0);
      RemainingHops(fxs, t, original, false, i);
      assert C.Closes(C.Hops(token)[|FlatMap(FxHops(original, false), fxs[..i])|], token);
    }
  }

  lemma OpenUntilLast(token: C.Token, fxs: seq<FxRecord>, t: TransferRecord, original: Id, k: nat)
    requires FxAbort(token, fxs, t, original) && OriginalLast(fxs, t, original) && k < |C.Hops(token)| - 1
    ensures !C.Closes(C.Hops(token)[k], token)
  {
    if k < |FlatMap(FxHops(original, false), fxs)| {
      var i, j := Locate(fxs, original, false, k);
      HopAt(fxs, t, original, false, i, j);
      RemainingHops(fxs, t, original, false, i);
    } else {
      assert !C.Hops(token)[k].isFx;
    }
  }

  /**
   An abort that started with the transfer gives every account back exactly what was reserved on it, whatever
   independent messages circulate beside it.
   */
  lemma TransferAbortRestores(start: C.World, ts: seq<C.Token>, i: nat, fxs: seq<FxRecord>, t: TransferRecord,
                              schedule: seq<nat>, account: nat)
    requires C.Launched(start, ts) && C.Independent(ts) && C.Quiescent(C.Run(start, schedule))
    requires i < |ts| && TransferAbort(ts[i], fxs, t) && |t.reserved| <= 1
    ensures var reservations := Reservations(fxs, t);
            C.Balance(C.Run(start, schedule), account)
            == C.Balance(start, account) + C.PaidByOthers(ts, i, account)
               - C.ReservedOn(reservations, |reservations|, account)
  {
    HopsMirror(fxs, t, t.id, true);
    TransferAbortSerialIff(ts[i], fxs, t);
    C.AbortRestores(start, ts, i, Reservations(fxs, t), schedule, account);
  }

  /** So does an abort that started with an fx transfer whose reservation is the last. */
  lemma FxAbortRestores(start: C.World, ts: seq<C.Token>, i: nat, fxs: seq<FxRecord>, t: TransferRecord, original: Id,
                        schedule: seq<nat>, account: nat)
    requires C.Launched(start, ts) && C.Independent(ts) && C.Quiescent(C.Run(start, schedule))
    requires i < |ts| && FxAbort(ts[i], fxs, t, original) && OriginalLast(fxs, t, original)
    ensures var reservations := Reservations(fxs, t);
            C.Balance(C.Run(start, schedule), account)
            == C.Balance(start, account) + C.PaidByOthers(ts, i, account)
               - C.ReservedOn(reservations, |reservations|, account)
  {
    HopsMirror(fxs, t, original, false);
    FxAbortSerialIff(ts[i], fxs, t, original);
    C.AbortRestores(start, ts, i, Reservations(fxs, t), schedule, account);
  }

  // ----- how an abort is launched, and the states it leaves

  /** The message that starts an abort: keyed by the account of its first movement. */
  function Launch(kind: C.Kind, id: Id, hops: seq<A.Hop>, extras: seq<A.ExtraChange>, patches: seq<A.Patch>): C.Token
    requires hops != []
  {
    C.Token(kind, A.Message(id, "payee", HUB_NAME, hops[0].account, false, Some(A.Cyril(false, hops, extras, patches))))
  }

  function LaunchAbort(fxs: seq<FxRecord>, t: TransferRecord): C.Token
    requires Hops(fxs, t, t.id, true) != []
  {
    Launch(C.Abort, t.id, Hops(fxs, t, t.id, true), BareChange(fxs, t, t.id, true), FlatMap(PatchFor(t.id, true), fxs))
  }

  function LaunchFxAbort(fxs: seq<FxRecord>, t: TransferRecord, original: Id): C.Token
    requires Hops(fxs, t, original, false) != []
  {
    Launch(C.FxAbort, original, Hops(fxs, t, original, false), BareChange(fxs, t, original, false),
           FlatMap(PatchFor(original, false), fxs))
  }

  lemma {:induction false} NothingDone(fxs: seq<FxRecord>, t: TransferRecord, original: Id, isAbort: bool)
    ensures forall h :: h in Hops(fxs, t, original, isAbort) ==> !h.done
  {
    if fxs != [] {
      NothingDone(fxs[..|fxs| - 1], t, original, isAbort);
    }
  }

  /** Whatever the records are, both kinds of abort can circulate once their guard is open. */
  lemma AbortsLaunch(fxs: seq<FxRecord>, t: TransferRecord, original: Id)
    requires Reservations(fxs, t) != []
    ensures Hops(fxs, t, original, false) != [] && Hops(fxs, t, t.id, true) != []
    ensures C.Fresh(LaunchAbort(fxs, t)) && TransferAbort(LaunchAbort(fxs, t), fxs, t)
    ensures C.Extras(LaunchAbort(fxs, t)) == BareChange(fxs, t, t.id, true)
    ensures C.Fresh(LaunchFxAbort(fxs, t, original)) && FxAbort(LaunchFxAbort(fxs, t, original), fxs, t, original)
    ensures C.Extras(LaunchFxAbort(fxs, t, original)) == []
  {
    HopsMirror(fxs, t, original, false);
    HopsMirror(fxs, t, t.id, true);
    NothingDone(fxs, t, original, false);
    NothingDone(fxs, t, t.id, true);
  }

  /** Some fx transfer of that id has a reservation. */
  ghost predicate FxReserved(fxs: seq<FxRecord>, id: Id) {
    exists r :: r in fxs && r.id == id && r.reserved != []
  }

  lemma FxHopIff(fxs: seq<FxRecord>, t: TransferRecord, original: Id, isAbort: bool, id: Id)
    ensures (exists h :: h in Hops(fxs, t, original, isAbort) && h.isFx && h.id == id) <==> FxReserved(fxs, id)
  {
    var hops, first := Hops(fxs, t, original, isAbort), FlatMap(FxHops(original, isAbort), fxs);
    if h :| h in hops && h.isFx && h.id == id {
      assert h in first;
      FlatMapMembers(FxHops(original, isAbort), fxs, h);
    }
    if r :| r in fxs && r.id == id && r.reserved != [] {
      var h := FxHops(original, isAbort)(r)[0];
      FlatMapMembers(FxHops(original, isAbort), fxs, h);
      assert h in hops;
    }
  }

  lemma OwnHopIff(fxs: seq<FxRecord>, t: TransferRecord, original: Id, isAbort: bool)
    ensures (exists h :: h in Hops(fxs, t, original, isAbort) && !h.isFx && h.id == t.id) <==> t.reserved != []
  {
    FxHopsAreFx(fxs, original, isAbort);
    if t.reserved != [] {
      assert TransferHops(original, t)[0] in Hops(fxs, t, original, isAbort);
    }
  }

  /**
   Where a transfer whose abort has come to rest ends, whatever independent messages circulate beside it: aborted iff it
   has a reservation here or its payee is behind a proxy, and otherwise still in RECEIVED_ERROR. The fx transfers that no
   other message is about are aborted iff they have a reservation.
   */
  lemma TransferAbortOutcome(start: C.World, ts: seq<C.Token>, i: nat, fxs: seq<FxRecord>, t: TransferRecord,
                             schedule: seq<nat>, fxId: Id)
    requires C.Launched(start, ts) && C.Independent(ts) && C.Quiescent(C.Run(start, schedule))
    requires i < |ts| && TransferAbort(ts[i], fxs, t) && C.Extras(ts[i]) == BareChange(fxs, t, t.id, true)
    ensures Lookup(C.Run(start, schedule).states, t.id) ==
              Some(if t.reserved != [] || t.payeeIsProxy then AbortedError else ReceivedError)
    ensures |t.reserved| <= 1 && (forall j :: 0 <= j < |ts| && j != i ==> !C.Affects(ts[j], |C.Hops(ts[j])|, true, fxId)) ==>
              Lookup(C.Run(start, schedule).fxStates, fxId) ==
              if FxReserved(fxs, fxId) then Some(AbortedError) else Lookup(start.fxStates, fxId)
  {
    C.Completion(start, ts, schedule);
    assert C.Waiting(start, ts[i], start.flights[i]);
    assert C.GuardState(C.Run(start, schedule), ts[i]) == Lookup(C.Run(start, schedule).states, t.id);
    BareSettles(ts[i], fxs, t);
    if |t.reserved| <= 1 && forall j :: 0 <= j < |ts| && j != i ==> !C.Affects(ts[j], |C.Hops(ts[j])|, true, fxId) {
      TransferAbortSerialIff(ts[i], fxs, t);
      FxStateAtRest(start, ts, i, schedule, fxId);
      FxHopIff(fxs, t, t.id, true, fxId);
    }
  }

  lemma BareSettles(token: C.Token, fxs: seq<FxRecord>, t: TransferRecord)
    requires TransferAbort(token, fxs, t) && C.Extras(token) == BareChange(fxs, t, t.id, true) && C.Hops(token) != []
    ensures C.Settles(token) <==> t.reserved != [] || t.payeeIsProxy
  {
    OwnHopIff(fxs, t, t.id, true);
    if t.reserved != [] {
      var h :| h in C.Hops(token) && !h.isFx && h.id == t.id;
      assert C.Closes(h, token);
    } else if t.payeeIsProxy {
      assert fxs != [];
      assert C.Extras(token)[0] in C.Extras(token);
    } else {
      assert C.Extras(token) == [];
    }
  }

  lemma FxStateAtRest(start: C.World, ts: seq<C.Token>, i: nat, schedule: seq<nat>, id: Id)
    requires C.Launched(start, ts) && C.Independent(ts) && C.Quiescent(C.Run(start, schedule))
    requires i < |ts| && ts[i].kind != C.Fulfil && C.Serial(ts[i])
    requires forall j :: 0 <= j < |ts| && j != i ==> !C.Affects(ts[j], |C.Hops(ts[j])|, true, id)
    ensures Lookup(C.Run(start, schedule).fxStates, id) ==
              if exists h :: h in C.Hops(ts[i]) && h.isFx && h.id == id then Some(AbortedError)
              else Lookup(start.fxStates, id)
  {
    C.Completion(start, ts, schedule);
    C.RunStates(start, ts, schedule, true, id, AbortedError);
    C.AffectedByOne(ts, C.Progress(start, ts, schedule), i, true, id);
    C.AffectedFx(ts[i], id);
  }

  /** An fx abort at rest has aborted its fx transfer iff that has a reservation here. */
  lemma FxAbortOutcome(start: C.World, ts: seq<C.Token>, i: nat, fxs: seq<FxRecord>, t: TransferRecord, original: Id,
                       schedule: seq<nat>)
    requires C.Launched(start, ts) && C.Independent(ts) && C.Quiescent(C.Run(start, schedule))
    requires i < |ts| && FxAbort(ts[i], fxs, t, original)
    ensures Lookup(C.Run(start, schedule).fxStates, original) ==
              Some(if FxReserved(fxs, original) then AbortedError else ReceivedError)
  {
    C.Completion(start, ts, schedule);
    FxHopIff(fxs, t, original, false, original);
    assert C.GuardState(C.Run(start, schedule), ts[i]) == Lookup(C.Run(start, schedule).fxStates, original);
  }

  // ----- an fx abort that stops too early

  /** A world in which the guards of the transfer and of the fx transfer are open for aborts. */
  function Rejected(id: Id, fxId: Id, tokens: seq<Option<C.Token>>): C.World {
    C.World(map[], map[id := ReceivedError], map[fxId := ReceivedError], tokens, [])
  }

  function FxReservation(id: Id, account: nat, amount: int): FxRecord {
    FxRecord(id, "payer", "fxp", false, [Reserved.Reserved(account, amount)])
  }

  function TransferReservation(id: Id, account: nat, amount: int): TransferRecord {
    TransferRecord(id, "payer", false, [Reserved.Reserved(account, amount)])
  }

  lemma OneOfEach(fxId: Id, id: Id, amount: int, original: Id, isAbort: bool)
    ensures var hops := Hops([FxReservation(fxId, 1, amount)], TransferReservation(id, 2, amount), original, isAbort);
            && |hops| == 2 && (forall h :: h in hops ==> !h.done)
            && hops[0].isFx && hops[0].id == fxId && hops[0].account == 1 && hops[0].amount == -amount
            && !hops[1].isFx && hops[1].id == id && hops[1].account == 2 && hops[1].amount == -amount
  {
    FlatMapOne(FxHops(original, isAbort), FxReservation(fxId, 1, amount));
    var first := FxHops(original, isAbort)(FxReservation(fxId, 1, amount));
    assert |first| == 1;
    var own := TransferHops(original, TransferReservation(id, 2, amount));
    assert (first + own)[0] == first[0] && (first + own)[1] == own[0];
  }

  /** A message that circulates alone pays its movements up to the first that closes its guard. */
  lemma AloneAtRest(start: C.World, token: C.Token, schedule: seq<nat>, account: nat)
    requires C.Launched(start, [token]) && C.Quiescent(C.Run(start, schedule))
    ensures C.Balance(C.Run(start, schedule), account) ==
              C.Balance(start, account) + C.Paid(C.Hops(token), C.Reach(token, C.Hops(token)), account)
  {
    var n := C.Reach(token, C.Hops(token));
    C.Completion(start, [token], schedule);
    assert C.Reaches([token]) == [n];
    C.PaidByOne(token, n, account);
  }

  lemma FirstCloses(fxId: Id, id: Id, amount: int)
    ensures var fxs, t := [FxReservation(fxId, 1, amount)], TransferReservation(id, 2, amount);
            var hops := Hops(fxs, t, fxId, false);
            && |hops| == 2 && !OriginalLast(fxs, t, fxId)
            && var token := LaunchFxAbort(fxs, t, fxId);
            && C.Fresh(token) && C.Reach(token, hops) == 1
            && C.Paid(hops, 1, 1) == -amount && C.Paid(hops, 1, 2) == 0
  {
    var fxs, t := [FxReservation(fxId, 1, amount)], TransferReservation(id, 2, amount);
    OneOfEach(fxId, id, amount, fxId, false);
    var hops := Hops(fxs, t, fxId, false);
    assert C.Paid(hops, 0, 1) == 0 && C.Paid(hops, 0, 2) == 0;
    assert fxs[0].id == fxId && Remaining(fxs, t, 0) == 1 + Remaining(fxs, t, 1);
  }

  /**
   One reservation of an fx transfer on account 1 and one of its transfer on account 2. An abort that starts with the
   fx transfer and circulates alone always ends with the first given back and the second not.
   */
  lemma FxAbortStopsEarly(fxId: Id, id: Id, amount: int, schedule: seq<nat>)
    ensures var fxs, t := [FxReservation(fxId, 1, amount)], TransferReservation(id, 2, amount);
            && |Hops(fxs, t, fxId, false)| == 2
            && var token := LaunchFxAbort(fxs, t, fxId);
            var start := Rejected(id, fxId, [Some(token)]);
            && FxAbort(token, fxs, t, fxId) && C.Launched(start, [token]) && !OriginalLast(fxs, t, fxId)
            && (C.Quiescent(C.Run(start, schedule)) ==>
                  C.Balance(C.Run(start, schedule), 1) == -amount && C.Balance(C.Run(start, schedule), 2) == 0)
  {
    FirstCloses(fxId, id, amount);
    var token := LaunchFxAbort([FxReservation(fxId, 1, amount)], TransferReservation(id, 2, amount), fxId);
    var start := Rejected(id, fxId, [Some(token)]);
    assert C.Waiting(start, token, start.flights[0]);
    if C.Quiescent(C.Run(start, schedule)) {
      AloneAtRest(start, token, schedule, 1);
      AloneAtRest(start, token, schedule, 2);
    }
  }
}
