/**
 Remittances with several position movements. A message applies one movement to one account, marks it
 done and is sent on, keyed by the account of the next movement. Here any number of such messages is
 delivered in any order, one at a time.
 */
module Circulation {
  import opened Ledger
  import opened Sequences
  import A = AccountBin

  datatype Kind = Fulfil | Abort | FxAbort

  /** A message in circulation and the stage that processes it. */
  datatype Token = Token(kind: Kind, message: A.Message)

  /** `flights[i]` is where token i stands; None once no message for it is left. */
  datatype World = World(positions: map<nat, int>, states: States, fxStates: States,
                         flights: seq<Option<Token>>, notes: seq<A.Note>)

  function Balance(w: World, account: nat): int {
    if account in w.positions then w.positions[account] else 0
  }

  function EffectOf(w: World, t: Token): A.Result<A.Effect> {
    match t.kind
    case Fulfil => A.FulfilEffect(w.states, map[], t.message)
    case Abort => A.AbortEffect(w.states, w.fxStates, false, t.message)
    case FxAbort => A.AbortEffect(w.states, w.fxStates, true, t.message)
  }

  /** Commit of one delivered message: position, states and follow-up together; a failing bin is rolled back. */
  function Deliver(w: World, i: nat): World
    requires i < |w.flights|
  {
    match w.flights[i]
    case None => w
    case Some(t) =>
      match EffectOf(w, t)
      case Failed => w
      case Ok(e) =>
        var acc := A.Apply(A.Start(Balance(w, t.message.account), w.states, w.fxStates), true, 0, e);
        World(w.positions[t.message.account := acc.position], acc.states, acc.fxStates,
              w.flights[i := if acc.followUps != [] then Some(t.(message := acc.followUps[0])) else None],
              w.notes + acc.notes)
  }

  function Run(w: World, schedule: seq<nat>): World {
    if schedule == [] then w
    else
      var before := Run(w, schedule[..|schedule| - 1]);
      var i := schedule[|schedule| - 1];
      if i < |before.flights| then Deliver(before, i) else before
  }

  // ----- one token

  function Hops(t: Token): seq<A.Hop> {
    match t.message.cyril
    case Some(c) => c.hops
    case None => []
  }

  function Extras(t: Token): seq<A.ExtraChange> {
    match t.message.cyril
    case Some(c) => c.extras
    case None => []
  }

  function FinalState(kind: Kind): TransferState {
    if kind == Fulfil then Committed else AbortedError
  }

  function Guarded(fxStates: bool, w: World): States {
    if fxStates then w.fxStates else w.states
  }

  /** The state in which the guard of the stage lets the message pass. */
  function OpenState(kind: Kind): TransferState {
    if kind == Fulfil then ReceivedFulfil else ReceivedError
  }

  /** The state that the guard of the token reads. */
  function GuardState(w: World, t: Token): Option<TransferState> {
    Lookup(Guarded(t.kind == FxAbort, w), t.message.id)
  }

  predicate Open(w: World, t: Token) {
    GuardState(w, t) == Some(OpenState(t.kind))
  }

  /** The movement also changes the state the token's guard reads. */
  predicate Closes(hop: A.Hop, t: Token) {
    hop.isFx == (t.kind == FxAbort) && hop.id == t.message.id
  }

  /** A message as the handlers launch it: nothing done, keyed by the account of the first movement. */
  ghost predicate Fresh(t: Token) {
    && t.message.cyril.Some? && Hops(t) != []
    && (t.kind == Fulfil ==> t.message.cyril.value.isFx)
    && (forall h :: h in Hops(t) ==> !h.done)
    && (forall x :: x in Extras(t) ==> x.state == FinalState(t.kind))
    && t.message.account == Hops(t)[0].account
  }

  /** How many movements pass the guard: up to and including the first that closes it. */
  function Reach(t: Token, hops: seq<A.Hop>): (n: nat)
    ensures n <= |hops|
  {
    if hops == [] then 0
    else if Closes(hops[0], t) then 1
    else 1 + Reach(t, hops[1..])
  }

  /** No movement but the last closes the guard. */
  predicate Serial(t: Token) {
    forall k :: 0 <= k < |Hops(t)| - 1 ==> !Closes(Hops(t)[k], t)
  }

  lemma {:induction false} ReachIsFirst(t: Token, hops: seq<A.Hop>)
    ensures forall k :: 0 <= k < Reach(t, hops) - 1 ==> !Closes(hops[k], t)
    ensures Reach(t, hops) < |hops| ==> Reach(t, hops) > 0 && Closes(hops[Reach(t, hops) - 1], t)
  {
    if hops != [] && !Closes(hops[0], t) {
      ReachIsFirst(t, hops[1..]);
    }
  }

  lemma SerialIffReached(t: Token)
    ensures Serial(t) <==> Reach(t, Hops(t)) == |Hops(t)|
  {
    ReachIsFirst(t, Hops(t));
  }

  /** The first n movements marked done. */
  function Done(hops: seq<A.Hop>, n: nat): seq<A.Hop>
    requires n <= |hops|
  {
    seq(|hops|, k requires 0 <= k < |hops| => if k < n then hops[k].(done := true) else hops[k])
  }

  /** The fresh token after n movements. */
  function At(t: Token, n: nat): Token
    requires t.message.cyril.Some? && n < |Hops(t)|
  {
    var c := t.message.cyril.value;
    t.(message := t.message.(account := c.hops[n].account, cyril := Some(c.(hops := Done(c.hops, n)))))
  }

  lemma DoneSteps(hops: seq<A.Hop>, n: nat)
    requires n < |hops| && forall h :: h in hops ==> !h.done
    ensures A.FirstPending(Done(hops, n)) == n
    ensures A.MarkDone(Done(hops, n), n) == Done(hops, n + 1)
    ensures A.FirstPending(Done(hops, n + 1)) == n + 1
    ensures Done(hops, 0) == hops
  {
    var p, q := A.FirstPending(Done(hops, n)), A.FirstPending(Done(hops, n + 1));
    assert !Done(hops, n)[n].done by { assert hops[n] in hops; }
    if n + 1 < |hops| {
      assert !Done(hops, n + 1)[n + 1].done by { assert hops[n + 1] in hops; }
    }
  }

  // ----- what has been paid

  /** The amounts of the first n movements that touch an account. */
  function Paid(hops: seq<A.Hop>, n: nat, account: nat): int
    requires n <= |hops|
  {
    if n == 0 then 0
    else Paid(hops, n - 1, account) + if hops[n - 1].account == account then hops[n - 1].amount else 0
  }

  /** No token has made more movements than it has. */
  predicate Within(ts: seq<Token>, progress: seq<nat>) {
    |ts| == |progress| && forall i :: 0 <= i < |ts| ==> progress[i] <= |Hops(ts[i])|
  }

  function PaidAll(ts: seq<Token>, progress: seq<nat>, account: nat): int
    requires Within(ts, progress)
  {
    if ts == [] then 0
    else
      var n := |ts| - 1;
      PaidAll(ts[..n], progress[..n], account) + Paid(Hops(ts[n]), progress[n], account)
  }

  lemma {:induction false} PaidAllStep(ts: seq<Token>, progress: seq<nat>, i: nat, account: nat)
    requires Within(ts, progress) && i < |ts| && progress[i] < |Hops(ts[i])|
    ensures var hop := Hops(ts[i])[progress[i]];
            PaidAll(ts, progress[i := progress[i] + 1], account)
              == PaidAll(ts, progress, account) + if hop.account == account then hop.amount else 0
  {
    var n := |ts| - 1;
    var next := progress[i := progress[i] + 1];
    if i == n {
      assert next[..n] == progress[..n];
    } else {
      assert next[..n] == progress[..n][i := progress[i] + 1];
      PaidAllStep(ts[..n], progress[..n], i, account);
    }
  }

  // ----- one delivery

  /** The effect moves exactly the n-th movement of the token, and sends it on unless it was the last. */
  ghost predicate MovesHop(e: A.Effect, t: Token, n: nat)
    requires t.message.cyril.Some? && n < |Hops(t)|
  {
    var hop := Hops(t)[n];
    var change := [StateChange(hop.id, FinalState(t.kind), NoReason)];
    var extras := if n + 1 == |Hops(t)| then A.ExtraChanges(Extras(t)) else [];
    && e.movement == Some(A.Movement(hop.id, hop.isFx, hop.amount, hop.amount))
    && e.changes == (if hop.isFx then [] else change) + extras
    && e.fxChanges == (if hop.isFx then change else [])
    && e.followUp == (if n + 1 < |Hops(t)| then Some(At(t, n + 1).message) else None)
    && forall id :: Succeeded(e.notes, id) <==> t.kind == Fulfil && n + 1 == |Hops(t)| && id == t.message.id
  }

  /** The transfer has been reported as fulfilled. */
  ghost predicate Succeeded(notes: seq<A.Note>, id: Id) {
    exists x :: x in notes && x.Success? && x.id == id
  }

  lemma OpenEffect(w: World, t: Token, n: nat)
    requires Fresh(t) && n < |Hops(t)| && Open(w, t)
    ensures EffectOf(w, At(t, n)).Ok? && MovesHop(EffectOf(w, At(t, n)).value, t, n)
  {
    DoneSteps(Hops(t), n);
    assert At(t, n).message.cyril.value.hops[n] == Hops(t)[n];
    if t.kind == Fulfil {
      OpenFulfil(w, t, n);
    } else {
      OpenAbort(w, t, n);
    }
  }

  lemma OpenFulfil(w: World, t: Token, n: nat)
    requires Fresh(t) && n < |Hops(t)| && Open(w, t) && t.kind == Fulfil
    requires A.FirstPending(Done(Hops(t), n)) == n
    requires A.MarkDone(Done(Hops(t), n), n) == Done(Hops(t), n + 1)
    requires A.FirstPending(Done(Hops(t), n + 1)) == n + 1
    ensures EffectOf(w, At(t, n)).Ok? && MovesHop(EffectOf(w, At(t, n)).value, t, n)
  {
    var e, now := EffectOf(w, At(t, n)).value, At(t, n).message;
    if n + 1 == |Hops(t)| {
      assert A.Success(t.message.id, now.to, now.from) in e.notes;
    }
  }

  lemma OpenAbort(w: World, t: Token, n: nat)
    requires Fresh(t) && n < |Hops(t)| && Open(w, t) && t.kind != Fulfil
    requires A.FirstPending(Done(Hops(t), n)) == n
    requires A.MarkDone(Done(Hops(t), n), n) == Done(Hops(t), n + 1)
    requires A.FirstPending(Done(Hops(t), n + 1)) == n + 1
    ensures EffectOf(w, At(t, n)).Ok? && MovesHop(EffectOf(w, At(t, n)).value, t, n)
  {
    if n + 1 == |Hops(t)| {
      LastAbort(w, t, n);
    } else {
      ForwardedAbort(w, t, n);
    }
  }

  lemma ForwardedAbort(w: World, t: Token, n: nat)
    requires Fresh(t) && n + 1 < |Hops(t)| && Open(w, t) && t.kind != Fulfil
    requires A.FirstPending(Done(Hops(t), n)) == n
    requires A.MarkDone(Done(Hops(t), n), n) == Done(Hops(t), n + 1)
    requires A.FirstPending(Done(Hops(t), n + 1)) == n + 1
    ensures EffectOf(w, At(t, n)).Ok? && MovesHop(EffectOf(w, At(t, n)).value, t, n)
  {
  }

  lemma LastAbort(w: World, t: Token, n: nat)
    requires Fresh(t) && n + 1 == |Hops(t)| && Open(w, t) && t.kind != Fulfil
    requires A.FirstPending(Done(Hops(t), n)) == n
    requires A.MarkDone(Done(Hops(t), n), n) == Done(Hops(t), n + 1)
    requires A.FirstPending(Done(Hops(t), n + 1)) == n + 1
    ensures EffectOf(w, At(t, n)).Ok? && MovesHop(EffectOf(w, At(t, n)).value, t, n)
  {
    AbortNotesFail(At(t, n).message, Done(Hops(t), n + 1));
  }

  lemma {:induction false} AbortNotesFail(m: A.Message, hops: seq<A.Hop>)
    ensures forall x :: x in A.AbortNotes(m, hops) ==> x.Failure?
  {
    if hops != [] {
      AbortNotesFail(m, hops[..|hops| - 1]);
    }
  }

  /** A closed guard consumes a fulfil without effect, and rolls an abort back. */
  lemma ClosedEffect(w: World, t: Token, n: nat)
    requires t.message.cyril.Some? && n < |Hops(t)| && !Open(w, t)
    ensures var r := EffectOf(w, At(t, n));
            if t.kind == Fulfil
            then r.Ok? && r.value == A.Effect(None, [], [], r.value.notes, None)
                 && forall x :: x in r.value.notes ==> x.InvalidState?
            else r.Failed?
  {
  }

  // ----- one delivery and the guards

  ghost predicate ExtraFor(t: Token, id: Id) {
    exists x :: x in Extras(t) && x.id == id
  }

  /** The n-th movement of a token changes the state of an id; the last one brings the extra changes with it. */
  ghost predicate Changes(t: Token, n: nat, isFx: bool, id: Id)
    requires n < |Hops(t)|
  {
    || (Hops(t)[n].isFx == isFx && Hops(t)[n].id == id)
    || (!isFx && n + 1 == |Hops(t)| && ExtraFor(t, id))
  }

  /** The n-th movement of `s` changes the state that the guard of `t` reads. */
  ghost predicate Hits(s: Token, n: nat, t: Token)
    requires n < |Hops(s)|
  {
    Changes(s, n, t.kind == FxAbort, t.message.id)
  }

  lemma ExtrasReplay(t: Token, states: States, id: Id)
    requires forall x :: x in Extras(t) ==> x.state == FinalState(t.kind)
    ensures Lookup(Replay(states, A.ExtraChanges(Extras(t))), id) ==
              if ExtraFor(t, id) then Some(FinalState(t.kind)) else Lookup(states, id)
  {
    var log := A.ExtraChanges(Extras(t));
    ReplayLookup(states, log, id);
    if x :| x in Extras(t) && x.id == id {
      var k :| 0 <= k < |Extras(t)| && Extras(t)[k] == x;
      assert log[k] in log && log[k].id == id;
    }
  }

  lemma OneChange(states: States, c: StateChange)
    ensures Replay(states, [c]) == states[c.id := c.state]
  {
    assert [c][..0] == [];
  }

  /** The states after the effect of the n-th movement. */
  lemma EffectStates(w: World, t: Token, n: nat, e: A.Effect, id: Id)
    requires Fresh(t) && n < |Hops(t)| && MovesHop(e, t, n)
    ensures Lookup(Replay(w.states, e.changes), id) ==
              if Changes(t, n, false, id) then Some(FinalState(t.kind)) else Lookup(w.states, id)
    ensures Lookup(Replay(w.fxStates, e.fxChanges), id) ==
              if Changes(t, n, true, id) then Some(FinalState(t.kind)) else Lookup(w.fxStates, id)
  {
    var hop := Hops(t)[n];
    var change := StateChange(hop.id, FinalState(t.kind), NoReason);
    var first := if hop.isFx then [] else [change];
    var extras := if n + 1 == |Hops(t)| then A.ExtraChanges(Extras(t)) else [];
    OneChange(w.states, change);
    OneChange(w.fxStates, change);
    ReplayConcat(w.states, first, extras);
    ExtrasReplay(t, Replay(w.states, first), id);
  }

  /** Delivering to an open guard makes one movement, on one account. */
  lemma OpenDelivery(w: World, t: Token, i: nat, n: nat)
    requires i < |w.flights| && Fresh(t) && n < |Hops(t)| && w.flights[i] == Some(At(t, n)) && Open(w, t)
    ensures var v, hop := Deliver(w, i), Hops(t)[n];
            && v.flights == w.flights[i := if n + 1 < |Hops(t)| then Some(At(t, n + 1)) else None]
            && (forall a: nat :: Balance(v, a) == Balance(w, a) + if hop.account == a then hop.amount else 0)
            && forall id :: Succeeded(v.notes, id) <==> Succeeded(w.notes, id) || Finished(t, n + 1, id)
  {
    OpenEffect(w, t, n);
    var e := EffectOf(w, At(t, n)).value;
    assert At(t, n).message.account == Hops(t)[n].account;
    forall id
      ensures Succeeded(w.notes + e.notes, id) <==> Succeeded(w.notes, id) || Finished(t, n + 1, id)
    {
      SucceededConcat(w.notes, e.notes, id);
    }
  }

  /** The token has made all its movements and reported the transfer. */
  predicate Finished(t: Token, n: nat, id: Id) {
    t.kind == Fulfil && n == |Hops(t)| && id == t.message.id
  }

  /** What such a delivery does to any state: it can only make it final. */
  lemma OpenStates(w: World, t: Token, i: nat, n: nat, isFx: bool, id: Id)
    requires i < |w.flights| && Fresh(t) && n < |Hops(t)| && w.flights[i] == Some(At(t, n)) && Open(w, t)
    ensures Lookup(Guarded(isFx, Deliver(w, i)), id) ==
              if Changes(t, n, isFx, id) then Some(FinalState(t.kind)) else Lookup(Guarded(isFx, w), id)
  {
    OpenEffect(w, t, n);
    EffectStates(w, t, n, EffectOf(w, At(t, n)).value, id);
  }

  /** So the guard of a token, its own or another, can only be closed. */
  lemma OpenGuards(w: World, t: Token, i: nat, n: nat, u: Token)
    requires i < |w.flights| && Fresh(t) && n < |Hops(t)| && w.flights[i] == Some(At(t, n)) && Open(w, t)
    ensures GuardState(Deliver(w, i), u) == if Hits(t, n, u) then Some(FinalState(t.kind)) else GuardState(w, u)
  {
    OpenStates(w, t, i, n, u.kind == FxAbort, u.message.id);
  }

  lemma SucceededConcat(a: seq<A.Note>, b: seq<A.Note>, id: Id)
    ensures Succeeded(a + b, id) <==> Succeeded(a, id) || Succeeded(b, id)
  {
    if Succeeded(a, id) {
      var x :| x in a && x.Success? && x.id == id;
      assert x in a + b;
    }
    if Succeeded(b, id) {
      var x :| x in b && x.Success? && x.id == id;
      assert x in a + b;
    }
  }

  lemma ClosedDelivery(w: World, t: Token, i: nat, n: nat)
    requires i < |w.flights| && Fresh(t) && n < |Hops(t)| && w.flights[i] == Some(At(t, n)) && !Open(w, t)
    ensures var v := Deliver(w, i);
            if t.kind == Fulfil
            then v.flights == w.flights[i := None] && v.states == w.states && v.fxStates == w.fxStates
                 && (forall a: nat :: Balance(v, a) == Balance(w, a))
                 && forall id :: Succeeded(v.notes, id) <==> Succeeded(w.notes, id)
            else v == w
  {
    ClosedEffect(w, t, n);
    if t.kind == Fulfil {
      var notes := EffectOf(w, At(t, n)).value.notes;
      forall id
        ensures Succeeded(w.notes + notes, id) <==> Succeeded(w.notes, id)
      {
        SucceededConcat(w.notes, notes, id);
      }
    }
  }

  // ----- what every run keeps

  /** Where a token stands after n movements. A fulfil that met a closed guard is gone for good. */
  ghost predicate TokenInv(w: World, t: Token, f: Option<Token>, n: nat) {
    && Fresh(t)
    && n <= |Hops(t)|
    && match f
       case Some(now) => n < |Hops(t)| && now == At(t, n)
       case None => n == |Hops(t)| || (t.kind == Fulfil && !Open(w, t))
  }

  /** A transfer is reported iff it was before, or one of its fulfils has made all its movements. */
  ghost predicate Reports(start: World, w: World, ts: seq<Token>, progress: seq<nat>)
    requires |ts| == |progress|
  {
    forall id :: Succeeded(w.notes, id) <==> Succeeded(start.notes, id) || SomeFinished(ts, progress, id)
  }

  ghost predicate SomeFinished(ts: seq<Token>, progress: seq<nat>, id: Id)
    requires |ts| == |progress|
  {
    exists i :: 0 <= i < |ts| && Finished(ts[i], progress[i], id)
  }

  /** Every account has moved by exactly the movements its tokens have made so far. */
  ghost predicate Inv(start: World, w: World, ts: seq<Token>, progress: seq<nat>) {
    && |w.flights| == |ts| == |progress|
    && (forall i :: 0 <= i < |ts| ==> TokenInv(w, ts[i], w.flights[i], progress[i]))
    && (forall a: nat :: Balance(w, a) == Balance(start, a) + PaidAll(ts, progress, a))
    && Reports(start, w, ts, progress)
  }

  /** The world in which the tokens have just been launched. */
  ghost predicate Launched(w: World, ts: seq<Token>) {
    && |w.flights| == |ts|
    && forall i :: 0 <= i < |ts| ==> Waiting(w, ts[i], w.flights[i])
  }

  ghost predicate Waiting(w: World, t: Token, f: Option<Token>) {
    Fresh(t) && f == Some(t) && Open(w, t)
  }

  function Zeros(n: nat): (z: seq<nat>)
    ensures |z| == n
  {
    seq(n, i => 0)
  }

  lemma AtStart(t: Token)
    requires Fresh(t)
    ensures At(t, 0) == t
  {
    DoneSteps(Hops(t), 0);
  }

  lemma LaunchedInv(w: World, ts: seq<Token>)
    requires Launched(w, ts)
    ensures Inv(w, w, ts, Zeros(|ts|))
  {
    forall i | 0 <= i < |ts|
      ensures TokenInv(w, ts[i], w.flights[i], 0) && Hops(ts[i]) != []
    {
      assert Waiting(w, ts[i], w.flights[i]);
      AtStart(ts[i]);
    }
    forall a: nat
      ensures PaidAll(ts, Zeros(|ts|), a) == 0
    {
      NothingPaid(ts, a);
    }
    forall id
      ensures !SomeFinished(ts, Zeros(|ts|), id)
    {
    }
  }

  lemma {:induction false} NothingPaid(ts: seq<Token>, account: nat)
    ensures PaidAll(ts, Zeros(|ts|), account) == 0
  {
    if ts != [] {
      var n := |ts| - 1;
      NothingPaid(ts[..n], account);
      assert Zeros(|ts|)[..n] == Zeros(n);
    }
  }

  /** A closed guard never opens again. */
  lemma StaysClosed(w: World, t: Token, i: nat, n: nat, u: Token)
    requires i < |w.flights| && TokenInv(w, t, w.flights[i], n) && !Open(w, u)
    ensures !Open(Deliver(w, i), u)
  {
    if w.flights[i].Some? {
      if Open(w, t) {
        OpenGuards(w, t, i, n, u);
      } else {
        ClosedDelivery(w, t, i, n);
      }
    }
  }

  lemma ReportsStep(start: World, w: World, v: World, ts: seq<Token>, progress: seq<nat>, i: nat)
    requires |ts| == |progress| && i < |ts| && progress[i] < |Hops(ts[i])| && Reports(start, w, ts, progress)
    requires forall id :: Succeeded(v.notes, id) <==> Succeeded(w.notes, id) || Finished(ts[i], progress[i] + 1, id)
    ensures Reports(start, v, ts, progress[i := progress[i] + 1])
  {
    var next := progress[i := progress[i] + 1];
    forall id
      ensures SomeFinished(ts, next, id) <==> SomeFinished(ts, progress, id) || Finished(ts[i], next[i], id)
    {
      if k :| 0 <= k < |ts| && Finished(ts[k], progress[k], id) {
        assert next[k] == progress[k];
      }
      if k :| 0 <= k < |ts| && Finished(ts[k], next[k], id) {
        assert k != i ==> next[k] == progress[k];
      }
    }
  }

  /** A delivery past the guard keeps the invariant, with one movement more. */
  lemma OpenInv(start: World, w: World, ts: seq<Token>, progress: seq<nat>, i: nat)
    requires Inv(start, w, ts, progress) && i < |ts| && w.flights[i].Some? && Open(w, ts[i])
    ensures Inv(start, Deliver(w, i), ts, progress[i := progress[i] + 1])
  {
    var next, v := progress[i := progress[i] + 1], Deliver(w, i);
    assert TokenInv(w, ts[i], w.flights[i], progress[i]);
    OpenDelivery(w, ts[i], i, progress[i]);
    forall j | 0 <= j < |ts|
      ensures TokenInv(v, ts[j], v.flights[j], next[j])
    {
      assert TokenInv(w, ts[j], w.flights[j], progress[j]);
      if !Open(w, ts[j]) {
        StaysClosed(w, ts[i], i, progress[i], ts[j]);
      }
    }
    forall a: nat
      ensures Balance(v, a) == Balance(start, a) + PaidAll(ts, next, a)
    {
      PaidAllStep(ts, progress, i, a);
    }
    ReportsStep(start, w, v, ts, progress, i);
  }

  /** A delivery to a closed guard keeps it too, and moves nothing. */
  lemma ClosedInv(start: World, w: World, ts: seq<Token>, progress: seq<nat>, i: nat)
    requires Inv(start, w, ts, progress) && i < |ts| && w.flights[i].Some? && !Open(w, ts[i])
    ensures Inv(start, Deliver(w, i), ts, progress)
  {
    var v := Deliver(w, i);
    assert TokenInv(w, ts[i], w.flights[i], progress[i]);
    ClosedDelivery(w, ts[i], i, progress[i]);
    forall j | 0 <= j < |ts|
      ensures TokenInv(v, ts[j], v.flights[j], progress[j])
    {
      assert TokenInv(w, ts[j], w.flights[j], progress[j]);
    }
  }

  /** The movements made after one more delivery. */
  function StepOf(w: World, ts: seq<Token>, progress: seq<nat>, i: nat): (next: seq<nat>)
    requires |w.flights| == |ts| == |progress|
    ensures |next| == |progress|
  {
    if i < |ts| && w.flights[i].Some? && Open(w, ts[i]) then progress[i := progress[i] + 1] else progress
  }

  /** Every delivery keeps the invariant, whatever the other tokens are. */
  lemma DeliverInv(start: World, w: World, ts: seq<Token>, progress: seq<nat>, i: nat)
    requires Inv(start, w, ts, progress) && i < |ts|
    ensures Inv(start, Deliver(w, i), ts, StepOf(w, ts, progress, i))
  {
    if w.flights[i].Some? {
      if Open(w, ts[i]) {
        OpenInv(start, w, ts, progress, i);
      } else {
        ClosedInv(start, w, ts, progress, i);
      }
    }
  }

  lemma {:induction false} FlightsKept(start: World, schedule: seq<nat>)
    ensures |Run(start, schedule).flights| == |start.flights|
  {
    if schedule != [] {
      FlightsKept(start, schedule[..|schedule| - 1]);
    }
  }

  /** The movements each token has made after a schedule. */
  ghost function Progress(start: World, ts: seq<Token>, schedule: seq<nat>): (progress: seq<nat>)
    requires |start.flights| == |ts|
    ensures |progress| == |ts|
  {
    if schedule == [] then Zeros(|ts|)
    else
      var n := |schedule| - 1;
      FlightsKept(start, schedule[..n]);
      StepOf(Run(start, schedule[..n]), ts, Progress(start, ts, schedule[..n]), schedule[n])
  }

  /** Whatever the order of deliveries, every account has moved by exactly what its tokens have paid. */
  lemma {:induction false} RunInv(start: World, ts: seq<Token>, schedule: seq<nat>)
    requires Launched(start, ts)
    ensures Inv(start, Run(start, schedule), ts, Progress(start, ts, schedule))
  {
    if schedule == [] {
      LaunchedInv(start, ts);
    } else {
      var n := |schedule| - 1;
      RunInv(start, ts, schedule[..n]);
      if schedule[n] < |ts| {
        DeliverInv(start, Run(start, schedule[..n]), ts, Progress(start, ts, schedule[..n]), schedule[n]);
      }
    }
  }

  // ----- every state along a run

  /** Some movement of the token changes the state of an id. */
  ghost predicate Affects(t: Token, n: nat, isFx: bool, id: Id)
    requires n <= |Hops(t)|
  {
    exists k: nat :: k < n && Changes(t, k, isFx, id)
  }

  /** Some token has made such a movement. */
  ghost predicate Affected(ts: seq<Token>, progress: seq<nat>, isFx: bool, id: Id)
    requires Within(ts, progress)
  {
    exists j :: 0 <= j < |ts| && Affects(ts[j], progress[j], isFx, id)
  }

  /** Every token that can change the state brings the same final one. */
  ghost predicate Agreed(ts: seq<Token>, isFx: bool, id: Id, final: TransferState) {
    forall j :: 0 <= j < |ts| && Affects(ts[j], |Hops(ts[j])|, isFx, id) ==> FinalState(ts[j].kind) == final
  }

  /**
   A state is final along a run exactly from the first movement on that changes it, and before that it is what it was
   at the start. This needs no more than that the tokens which change it agree on the final state.
   */
  lemma {:induction false} RunStates(start: World, ts: seq<Token>, schedule: seq<nat>, isFx: bool, id: Id,
                                     final: TransferState)
    requires Launched(start, ts) && Agreed(ts, isFx, id, final)
    ensures Within(ts, Progress(start, ts, schedule))
    ensures Lookup(Guarded(isFx, Run(start, schedule)), id) ==
              if Affected(ts, Progress(start, ts, schedule), isFx, id) then Some(final)
              else Lookup(Guarded(isFx, start), id)
  {
    if schedule == [] {
      assert !Affected(ts, Zeros(|ts|), isFx, id);
    } else {
      var n := |schedule| - 1;
      var w, progress, i := Run(start, schedule[..n]), Progress(start, ts, schedule[..n]), schedule[n];
      RunStates(start, ts, schedule[..n], isFx, id, final);
      RunInv(start, ts, schedule[..n]);
      if i < |ts| {
        DeliveredState(start, w, ts, progress, i, isFx, id, final);
      }
    }
  }

  lemma DeliveredState(start: World, w: World, ts: seq<Token>, progress: seq<nat>, i: nat, isFx: bool, id: Id,
                       final: TransferState)
    requires Inv(start, w, ts, progress) && Within(ts, progress) && i < |ts| && Agreed(ts, isFx, id, final)
    ensures Within(ts, StepOf(w, ts, progress, i))
    ensures var before, after := Lookup(Guarded(isFx, w), id), Lookup(Guarded(isFx, Deliver(w, i)), id);
            if Affected(ts, StepOf(w, ts, progress, i), isFx, id) && !Affected(ts, progress, isFx, id)
            then after == Some(final)
            else after == before || (Affected(ts, progress, isFx, id) && after == Some(final))
    ensures Affected(ts, progress, isFx, id) ==> Affected(ts, StepOf(w, ts, progress, i), isFx, id)
  {
    var t, m := ts[i], progress[i];
    assert TokenInv(w, t, w.flights[i], m);
    if w.flights[i].Some? {
      if Open(w, t) {
        OpenStates(w, t, i, m, isFx, id);
        AffectedStep(ts, progress, i, isFx, id);
        assert Changes(t, m, isFx, id) ==> Affects(t, |Hops(t)|, isFx, id);
      } else {
        ClosedDelivery(w, t, i, m);
      }
    }
  }

  lemma AffectedStep(ts: seq<Token>, progress: seq<nat>, i: nat, isFx: bool, id: Id)
    requires Within(ts, progress) && i < |ts| && progress[i] < |Hops(ts[i])|
    ensures Within(ts, progress[i := progress[i] + 1])
    ensures Affected(ts, progress[i := progress[i] + 1], isFx, id)
            <==> Affected(ts, progress, isFx, id) || Changes(ts[i], progress[i], isFx, id)
  {
    var next := progress[i := progress[i] + 1];
    assert Affects(ts[i], next[i], isFx, id) <==> Affects(ts[i], progress[i], isFx, id) || Changes(ts[i], progress[i], isFx, id);
    if j :| 0 <= j < |ts| && Affects(ts[j], progress[j], isFx, id) {
      assert Affects(ts[j], next[j], isFx, id);
    }
    if j :| 0 <= j < |ts| && Affects(ts[j], next[j], isFx, id) {
      assert j != i ==> next[j] == progress[j];
    }
  }

  /** If no other token can change the state, the movements of one decide. */
  lemma AffectedByOne(ts: seq<Token>, progress: seq<nat>, i: nat, isFx: bool, id: Id)
    requires Within(ts, progress) && i < |ts|
    requires forall j :: 0 <= j < |ts| && j != i ==> !Affects(ts[j], |Hops(ts[j])|, isFx, id)
    ensures Affected(ts, progress, isFx, id) <==> Affects(ts[i], progress[i], isFx, id)
  {
    if j :| 0 <= j < |ts| && Affects(ts[j], progress[j], isFx, id) {
      assert Affects(ts[j], |Hops(ts[j])|, isFx, id);
    }
  }

  lemma AffectedFx(t: Token, id: Id)
    ensures Affects(t, |Hops(t)|, true, id) <==> exists h :: h in Hops(t) && h.isFx && h.id == id
  {
    if h :| h in Hops(t) && h.isFx && h.id == id {
      var k: nat :| k < |Hops(t)| && Hops(t)[k] == h;
      assert Changes(t, k, true, id);
    }
  }

  // ----- where every run ends

  /** No delivery changes anything any more. */
  ghost predicate Quiescent(w: World) {
    forall i :: 0 <= i < |w.flights| ==> Deliver(w, i) == w
  }

  /** At rest, every token has made all its movements or found its guard closed. */
  lemma AtRest(start: World, ts: seq<Token>, schedule: seq<nat>, i: nat)
    requires Launched(start, ts) && Quiescent(Run(start, schedule)) && i < |ts|
    ensures Progress(start, ts, schedule)[i] == |Hops(ts[i])| || !Open(Run(start, schedule), ts[i])
  {
    RunInv(start, ts, schedule);
    var w, n := Run(start, schedule), Progress(start, ts, schedule)[i];
    assert TokenInv(w, ts[i], w.flights[i], n);
    if w.flights[i].Some? {
      RestingIsClosed(w, ts[i], i, n);
    }
  }

  lemma RestingIsClosed(w: World, t: Token, i: nat, n: nat)
    requires i < |w.flights| && TokenInv(w, t, w.flights[i], n) && w.flights[i].Some? && Deliver(w, i) == w
    ensures !Open(w, t)
  {
    if Open(w, t) {
      if n + 1 < |Hops(t)| {
        StepDiffers(t, n);
      }
      OpenDelivery(w, t, i, n);
    }
  }

  lemma StepDiffers(t: Token, n: nat)
    requires Fresh(t) && n + 1 < |Hops(t)|
    ensures At(t, n + 1) != At(t, n)
  {
    assert At(t, n + 1).message.cyril.value.hops[n].done;
    assert Hops(t)[n] in Hops(t);
  }

  // ----- tokens that do not change each other's guards

  ghost predicate Independent(ts: seq<Token>) {
    forall i, j :: 0 <= i < |ts| && 0 <= j < |ts| && i != j ==> Apart(ts[i], ts[j])
  }

  ghost predicate Apart(s: Token, t: Token) {
    && (forall h :: h in Hops(s) ==> !Closes(h, t))
    && (t.kind != FxAbort ==> forall x :: x in Extras(s) ==> x.id != t.message.id)
    && (s.kind == Fulfil && t.kind == Fulfil ==> s.message.id != t.message.id)
  }

  /** One of the first n movements of the token has changed the state its own guard reads. */
  ghost predicate Stopped(t: Token, n: nat)
    requires n <= |Hops(t)|
  {
    exists k: nat :: k < n && Hits(t, k, t)
  }

  /** A token that only its own movements can stop. */
  ghost predicate OnCourse(w: World, t: Token, f: Option<Token>, n: nat) {
    && n <= |Hops(t)| && n <= Reach(t, Hops(t))
    && GuardState(w, t) == Some(if Stopped(t, n) then FinalState(t.kind) else OpenState(t.kind))
    && (f.None? ==> n == Reach(t, Hops(t)))
  }

  lemma StoppedBeforeReach(t: Token, n: nat)
    requires n <= |Hops(t)|
    ensures Stopped(t, n) && n < |Hops(t)| ==> Reach(t, Hops(t)) <= n
    ensures !Stopped(t, n) && n < |Hops(t)| && n <= Reach(t, Hops(t)) ==> n < Reach(t, Hops(t))
    ensures n < |Hops(t)| ==> (Stopped(t, n + 1) <==> Stopped(t, n) || Hits(t, n, t))
  {
    var r := Reach(t, Hops(t));
    ReachIsFirst(t, Hops(t));
    if n < |Hops(t)| {
      if k: nat :| k < n && Hits(t, k, t) {
        assert Closes(Hops(t)[k], t);
      }
      if n == r {
        assert Hits(t, (r - 1) as nat, t);
      }
    }
  }

  /** The course of the token that is delivered. */
  lemma CourseStep(w: World, t: Token, i: nat, n: nat)
    requires i < |w.flights| && TokenInv(w, t, w.flights[i], n) && OnCourse(w, t, w.flights[i], n)
    ensures var moved := w.flights[i].Some? && Open(w, t);
            n + (if moved then 1 else 0) <= |Hops(t)|
            && OnCourse(Deliver(w, i), t, Deliver(w, i).flights[i], n + if moved then 1 else 0)
            && (w.flights[i].Some? && !moved ==> n == Reach(t, Hops(t)))
  {
    if w.flights[i].Some? {
      StoppedBeforeReach(t, n);
      ReachIsFirst(t, Hops(t));
      if Open(w, t) {
        OpenDelivery(w, t, i, n);
        OpenGuards(w, t, i, n, t);
      } else {
        ClosedDelivery(w, t, i, n);
      }
    }
  }

  /** A token apart from the delivered one stays on its course. */
  lemma CourseKept(w: World, t: Token, i: nat, n: nat, u: Token, j: nat, m: nat)
    requires i < |w.flights| && TokenInv(w, t, w.flights[i], n)
    requires j < |w.flights| && i != j && OnCourse(w, u, w.flights[j], m) && Apart(t, u)
    ensures OnCourse(Deliver(w, i), u, Deliver(w, i).flights[j], m)
  {
    if w.flights[i].Some? {
      if Open(w, t) {
        OpenDelivery(w, t, i, n);
        OpenGuards(w, t, i, n, u);
        assert Hops(t)[n] in Hops(t);
      } else {
        ClosedDelivery(w, t, i, n);
      }
    }
  }

  ghost predicate AllOnCourse(w: World, ts: seq<Token>, progress: seq<nat>) {
    && |w.flights| == |ts| == |progress|
    && forall i :: 0 <= i < |ts| ==> OnCourse(w, ts[i], w.flights[i], progress[i])
  }

  lemma LaunchedOnCourse(w: World, ts: seq<Token>)
    requires Launched(w, ts)
    ensures AllOnCourse(w, ts, Zeros(|ts|))
  {
    forall i | 0 <= i < |ts|
      ensures OnCourse(w, ts[i], w.flights[i], 0)
    {
      assert Waiting(w, ts[i], w.flights[i]);
    }
  }

  lemma {:induction false} RunOnCourse(start: World, ts: seq<Token>, schedule: seq<nat>)
    requires Launched(start, ts) && Independent(ts)
    ensures AllOnCourse(Run(start, schedule), ts, Progress(start, ts, schedule))
  {
    if schedule == [] {
      LaunchedOnCourse(start, ts);
    } else {
      var n := |schedule| - 1;
      var w, progress, i := Run(start, schedule[..n]), Progress(start, ts, schedule[..n]), schedule[n];
      RunOnCourse(start, ts, schedule[..n]);
      RunInv(start, ts, schedule[..n]);
      if i < |ts| {
        CourseDelivery(start, w, ts, progress, i);
      }
    }
  }

  lemma CourseDelivery(start: World, w: World, ts: seq<Token>, progress: seq<nat>, i: nat)
    requires Independent(ts) && Inv(start, w, ts, progress) && AllOnCourse(w, ts, progress) && i < |ts|
    ensures AllOnCourse(Deliver(w, i), ts, StepOf(w, ts, progress, i))
  {
    assert TokenInv(w, ts[i], w.flights[i], progress[i]);
    CourseStep(w, ts[i], i, progress[i]);
    forall j | 0 <= j < |ts| && j != i
      ensures OnCourse(Deliver(w, i), ts[j], Deliver(w, i).flights[j], progress[j])
    {
      assert Apart(ts[i], ts[j]);
      CourseKept(w, ts[i], i, progress[i], ts[j], j, progress[j]);
    }
    DeliverInv(start, w, ts, progress, i);
  }

  function Reaches(ts: seq<Token>): seq<nat> {
    seq(|ts|, i requires 0 <= i < |ts| => Reach(ts[i], Hops(ts[i])))
  }

  /** Some movement or extra change of the remittance is for the very transfer the message is about. */
  ghost predicate Settles(t: Token) {
    (exists h :: h in Hops(t) && Closes(h, t)) || (t.kind != FxAbort && ExtraFor(t, t.message.id))
  }

  lemma SettlesIffStopped(t: Token)
    requires Hops(t) != []
    ensures Reach(t, Hops(t)) <= |Hops(t)|
    ensures Stopped(t, Reach(t, Hops(t))) <==> Settles(t)
  {
    var r := Reach(t, Hops(t));
    ReachIsFirst(t, Hops(t));
    if k: nat :| k < r && Hits(t, k, t) {
      assert Hops(t)[k] in Hops(t);
    }
    if h :| h in Hops(t) && Closes(h, t) {
      var k :| 0 <= k < |Hops(t)| && Hops(t)[k] == h;
      if r < |Hops(t)| {
        assert Hits(t, (r - 1) as nat, t);
      } else {
        assert Hits(t, k as nat, t);
      }
    } else if Settles(t) {
      assert r == |Hops(t)| && Hits(t, (r - 1) as nat, t);
    }
  }

  /**
   Every run of independent tokens that has come to rest has made, for each token, the movements up to the first
   that closes its guard: all of them if and only if the token is serial. The transfer ends in its final state if
   and only if the remittance names it at all. Nothing of this depends on the order of deliveries.
   */
  lemma Completion(start: World, ts: seq<Token>, schedule: seq<nat>)
    requires Launched(start, ts) && Independent(ts) && Quiescent(Run(start, schedule))
    ensures Progress(start, ts, schedule) == Reaches(ts)
    ensures Inv(start, Run(start, schedule), ts, Reaches(ts))
    ensures forall i :: 0 <= i < |ts| ==> (Reaches(ts)[i] == |Hops(ts[i])| <==> Serial(ts[i]))
    ensures forall i :: 0 <= i < |ts| ==>
              GuardState(Run(start, schedule), ts[i]) ==
              Some(if Settles(ts[i]) then FinalState(ts[i].kind) else OpenState(ts[i].kind))
  {
    var w, progress := Run(start, schedule), Progress(start, ts, schedule);
    RunInv(start, ts, schedule);
    RunOnCourse(start, ts, schedule);
    forall i | 0 <= i < |ts|
      ensures progress[i] == Reaches(ts)[i]
      ensures Reaches(ts)[i] == |Hops(ts[i])| <==> Serial(ts[i])
      ensures GuardState(w, ts[i]) == Some(if Settles(ts[i]) then FinalState(ts[i].kind) else OpenState(ts[i].kind))
    {
      CompletedToken(w, ts[i], i, progress[i]);
    }
    assert progress == Reaches(ts);
  }

  lemma CompletedToken(w: World, t: Token, i: nat, n: nat)
    requires i < |w.flights| && TokenInv(w, t, w.flights[i], n) && OnCourse(w, t, w.flights[i], n) && Deliver(w, i) == w
    ensures n == Reach(t, Hops(t)) && (n == |Hops(t)| <==> Serial(t))
    ensures GuardState(w, t) == Some(if Settles(t) then FinalState(t.kind) else OpenState(t.kind))
  {
    if w.flights[i].Some? {
      RestingIsClosed(w, t, i, n);
      CourseStep(w, t, i, n);
    }
    SerialIffReached(t);
    SettlesIffStopped(t);
  }

  /** A fulfil that was not reported before is reported at rest iff it is serial. */
  lemma ReportedIffSerial(start: World, ts: seq<Token>, schedule: seq<nat>, i: nat)
    requires Launched(start, ts) && Independent(ts) && Quiescent(Run(start, schedule))
    requires i < |ts| && ts[i].kind == Fulfil && !Succeeded(start.notes, ts[i].message.id)
    ensures Succeeded(Run(start, schedule).notes, ts[i].message.id) <==> Serial(ts[i])
  {
    Completion(start, ts, schedule);
    if Serial(ts[i]) {
      assert Finished(ts[i], Reaches(ts)[i], ts[i].message.id);
    }
    if SomeFinished(ts, Reaches(ts), ts[i].message.id) {
      var k :| 0 <= k < |ts| && Finished(ts[k], Reaches(ts)[k], ts[i].message.id);
      assert k != i ==> Apart(ts[k], ts[i]);
    }
  }

  // ----- every run comes to rest

  function Undone(hops: seq<A.Hop>): nat {
    if hops == [] then 0 else (if hops[0].done then 0 else 1) + Undone(hops[1..])
  }

  lemma {:induction false} UndoneMarked(hops: seq<A.Hop>)
    requires A.FirstPending(hops) < |hops|
    ensures Undone(A.MarkDone(hops, A.FirstPending(hops))) + 1 == Undone(hops)
  {
    if hops[0].done {
      UndoneMarked(hops[1..]);
      var i := A.FirstPending(hops);
      assert A.MarkDone(hops, i)[1..] == A.MarkDone(hops[1..], i - 1);
    } else {
      assert A.MarkDone(hops, 0)[1..] == hops[1..];
    }
  }

  /** The deliveries a world can still make. */
  function Work(flights: seq<Option<Token>>): nat {
    if flights == [] then 0
    else (match flights[0] case None => 0 case Some(t) => 1 + Undone(Hops(t))) + Work(flights[1..])
  }

  lemma {:induction false} WorkUpdate(flights: seq<Option<Token>>, i: nat, t: Token, f: Option<Token>)
    requires i < |flights| && flights[i] == Some(t)
    requires f.Some? ==> Undone(Hops(f.value)) < Undone(Hops(t))
    ensures Work(flights[i := f]) < Work(flights)
  {
    if i == 0 {
      assert flights[i := f][1..] == flights[1..];
    } else {
      assert flights[i := f][1..] == flights[1..][i - 1 := f];
      WorkUpdate(flights[1..], i - 1, t, f);
    }
  }

  /** Every delivery that changes anything uses up work, so no run changes the world for ever. */
  lemma DeliveriesRunOut(w: World, i: nat)
    requires i < |w.flights|
    ensures Deliver(w, i) == w || Work(Deliver(w, i).flights) < Work(w.flights)
  {
    if w.flights[i].Some? && EffectOf(w, w.flights[i].value).Ok? {
      var t := w.flights[i].value;
      var e := EffectOf(w, t).value;
      if e.followUp.Some? {
        FollowUpHasLess(w, t);
      }
      WorkUpdate(w.flights, i, t, if e.followUp.Some? then Some(t.(message := e.followUp.value)) else None);
    }
  }

  lemma FollowUpHasLess(w: World, t: Token)
    requires EffectOf(w, t).Ok? && EffectOf(w, t).value.followUp.Some?
    ensures Undone(Hops(t.(message := EffectOf(w, t).value.followUp.value))) < Undone(Hops(t))
  {
    UndoneMarked(Hops(t));
  }

  lemma {:induction false} RunConcat(w: World, a: seq<nat>, b: seq<nat>)
    ensures Run(w, a + b) == Run(Run(w, a), b)
  {
    if b == [] {
      assert a + b == a;
    } else {
      ConcatInit(a, b);
      RunConcat(w, a, b[..|b| - 1]);
    }
  }

  lemma RunOne(w: World, i: nat)
    requires i < |w.flights|
    ensures Run(w, [i]) == Deliver(w, i)
  {
    assert [i][..0] == [];
  }

  /** From every world some deliveries lead to rest: so every run can be continued until nothing changes. */
  lemma {:induction false} ComesToRest(w: World) returns (schedule: seq<nat>)
    ensures Quiescent(Run(w, schedule))
    decreases Work(w.flights)
  {
    if Quiescent(w) {
      schedule := [];
    } else {
      var i: nat :| i < |w.flights| && Deliver(w, i) != w;
      DeliveriesRunOut(w, i);
      var rest := ComesToRest(Deliver(w, i));
      RunOne(w, i);
      RunConcat(w, [i], rest);
      schedule := [i] + rest;
    }
  }

  lemma EveryRunCanRest(start: World, schedule: seq<nat>) returns (more: seq<nat>)
    ensures Quiescent(Run(start, schedule + more))
  {
    more := ComesToRest(Run(start, schedule));
    RunConcat(start, schedule, more);
  }

  // ----- an abort gives back what was reserved

  /** The movements of a token are the reservations of its accounts with the sign turned. */
  ghost predicate Reverses(t: Token, reservations: seq<(nat, int)>) {
    && |Hops(t)| == |reservations|
    && forall k :: 0 <= k < |Hops(t)| ==>
         Hops(t)[k].account == reservations[k].0 && Hops(t)[k].amount == -reservations[k].1
  }

  function ReservedOn(reservations: seq<(nat, int)>, n: nat, account: nat): int
    requires n <= |reservations|
  {
    if n == 0 then 0
    else ReservedOn(reservations, n - 1, account) + if reservations[n - 1].0 == account then reservations[n - 1].1 else 0
  }

  lemma {:induction false} PaidReverses(t: Token, reservations: seq<(nat, int)>, n: nat, account: nat)
    requires Reverses(t, reservations) && n <= |Hops(t)|
    ensures Paid(Hops(t), n, account) == -ReservedOn(reservations, n, account)
  {
    if n > 0 {
      PaidReverses(t, reservations, n - 1, account);
    }
  }

  lemma PaidAllSnoc(ts: seq<Token>, progress: seq<nat>, t: Token, n: nat, account: nat)
    requires Within(ts, progress) && n <= |Hops(t)|
    ensures Within(ts + [t], progress + [n])
    ensures PaidAll(ts + [t], progress + [n], account) == PaidAll(ts, progress, account) + Paid(Hops(t), n, account)
  {
    assert (ts + [t])[..|ts|] == ts && (progress + [n])[..|ts|] == progress;
  }

  lemma {:induction false} PaidAllConcat(a: seq<Token>, p: seq<nat>, b: seq<Token>, q: seq<nat>, account: nat)
    requires Within(a, p) && Within(b, q)
    ensures Within(a + b, p + q)
    ensures PaidAll(a + b, p + q, account) == PaidAll(a, p, account) + PaidAll(b, q, account)
  {
    if b == [] {
      assert a + b == a && p + q == p;
    } else {
      var n := |b| - 1;
      ConcatSnoc(a, b);
      ConcatSnoc(p, q);
      PaidAllConcat(a, p, b[..n], q[..n], account);
      PaidAllSnoc(a + b[..n], p + q[..n], b[n], q[n], account);
    }
  }

  lemma PaidByOne(t: Token, n: nat, account: nat)
    requires n <= |Hops(t)|
    ensures PaidAll([t], [n], account) == Paid(Hops(t), n, account)
  {
    assert [t][..0] == [] && [n][..0] == [];
    assert PaidAll([], [], account) == 0;
  }

  lemma PaidAllWithout(ts: seq<Token>, progress: seq<nat>, i: nat, account: nat)
    requires Within(ts, progress) && i < |ts|
    ensures Within(Without(ts, i), Without(progress, i))
    ensures PaidAll(ts, progress, account) ==
              PaidAll(Without(ts, i), Without(progress, i), account) + Paid(Hops(ts[i]), progress[i], account)
  {
    SplitAround(ts, i);
    SplitAround(progress, i);
    WithinParts(ts, progress, i);
    var a, p, b, q := ts[..i], progress[..i], ts[i + 1..], progress[i + 1..];
    PaidAllConcat(a, p, b, q, account);
    PaidAllConcat(a, p, [ts[i]], [progress[i]], account);
    PaidAllConcat(a + [ts[i]], p + [progress[i]], b, q, account);
    PaidByOne(ts[i], progress[i], account);
  }

  lemma WithinParts(ts: seq<Token>, progress: seq<nat>, i: nat)
    requires Within(ts, progress) && i < |ts|
    ensures Within(ts[..i], progress[..i]) && Within([ts[i]], [progress[i]]) && Within(ts[i + 1..], progress[i + 1..])
  {
  }

  /** What the tokens other than one pay in the end. */
  function PaidByOthers(ts: seq<Token>, i: nat, account: nat): int
    requires i < |ts|
  {
    PaidAll(Without(ts, i), Reaches(Without(ts, i)), account)
  }

  /** A serial abort at rest has taken exactly its reservations off every account, whatever else circulated. */
  lemma AbortRestores(start: World, ts: seq<Token>, i: nat, reservations: seq<(nat, int)>, schedule: seq<nat>, account: nat)
    requires Launched(start, ts) && Independent(ts) && Quiescent(Run(start, schedule))
    requires i < |ts| && ts[i].kind != Fulfil && Serial(ts[i]) && Reverses(ts[i], reservations)
    ensures Balance(Run(start, schedule), account)
         == Balance(start, account) + PaidByOthers(ts, i, account) - ReservedOn(reservations, |reservations|, account)
  {
    Completion(start, ts, schedule);
    PaidReverses(ts[i], reservations, |reservations|, account);
    PaidByAll(ts, i, account);
  }

  lemma PaidByAll(ts: seq<Token>, i: nat, account: nat)
    requires i < |ts|
    ensures PaidAll(ts, Reaches(ts), account) == PaidByOthers(ts, i, account) + Paid(Hops(ts[i]), Reaches(ts)[i], account)
  {
    PaidAllWithout(ts, Reaches(ts), i, account);
    ReachesWithout(ts, i);
  }

  lemma ReachesWithout(ts: seq<Token>, i: nat)
    requires i < |ts|
    ensures Without(Reaches(ts), i) == Reaches(Without(ts, i))
  {
  }
}
