/**
 One stage of an account bin against its messages one by one. A stage judges all its messages against the states it
 was given; one by one, each is judged against the states the one before it left.
 */
module StageBatching {
  import opened Ledger
  import opened AccountBin
  import C = Circulation
  import FxFulfil
  import Reservation

  datatype Kind = Fulfils | Aborts | FxAborts | Timeouts | FxTimeouts

  function RuleOf(k: Kind, acc: Acc, c: Context): Message -> Result<Effect> {
    match k
    case Fulfils => FulfilRule(acc.states, c.amounts)
    case Aborts => AbortRule(acc.states, acc.fxStates, false)
    case FxAborts => AbortRule(acc.states, acc.fxStates, true)
    case Timeouts => TimeoutRule(acc.states, c.amounts)
    case FxTimeouts => FxTimeoutRule(acc.fxStates, c.reserves)
  }

  predicate OnFx(k: Kind) {
    k == FxAborts || k == FxTimeouts
  }

  /** The state in which the guard of the stage lets a message pass. */
  function PassingState(k: Kind): TransferState {
    match k
    case Fulfils => ReceivedFulfil
    case Aborts => ReceivedError
    case FxAborts => ReceivedError
    case Timeouts => ReservedTimeout
    case FxTimeouts => ReservedTimeout
  }

  predicate Passes(k: Kind, acc: Acc, m: Message) {
    Lookup(if OnFx(k) then acc.fxStates else acc.states, m.id) == Some(PassingState(k))
  }

  function Batched(acc: Acc, c: Context, k: Kind, ms: seq<Message>): Result<Acc> {
    Stage(acc, c.charging, c.account.reserved, RuleOf(k, acc, c), ms)
  }

  function Singly(acc: Acc, c: Context, k: Kind, ms: seq<Message>): Result<Acc> {
    if ms == [] then Ok(acc)
    else
      match Singly(acc, c, k, ms[..|ms| - 1])
      case Failed => Failed
      case Ok(a) => Batched(a, c, k, [ms[|ms| - 1]])
  }

  // ----- what changes a guard

  predicate Final(s: TransferState) {
    s == Committed || s == AbortedError || s == ExpiredReserved
  }

  /** The extra changes of a remittance carry final states, as its builders make them. */
  ghost predicate FinalExtras(m: Message) {
    m.cyril.Some? ==> forall x :: x in m.cyril.value.extras ==> Final(x.state)
  }

  function GuardLog(k: Kind, e: Effect): seq<StateChange> {
    if OnFx(k) then e.fxChanges else e.changes
  }

  /** The effect changes the state that the guard of this stage reads for an id. */
  ghost predicate Names(k: Kind, e: Effect, id: Id) {
    exists c :: c in GuardLog(k, e) && c.id == id
  }

  ghost predicate FinalEffect(e: Effect) {
    (forall c :: c in e.changes ==> Final(c.state)) && forall c :: c in e.fxChanges ==> Final(c.state)
  }

  function Weight(e: Effect): nat {
    |e.changes| + |e.fxChanges|
  }

  /** Effects carry final states only; those of messages that pass change something, and the others nothing. */
  lemma RuleFacts(k: Kind, acc: Acc, c: Context, m: Message)
    requires FinalExtras(m) && RuleOf(k, acc, c)(m).Ok?
    ensures FinalEffect(RuleOf(k, acc, c)(m).value)
    ensures Passes(k, acc, m) ==> Weight(RuleOf(k, acc, c)(m).value) > 0
    ensures !Passes(k, acc, m) ==> k == Fulfils && Weight(RuleOf(k, acc, c)(m).value) == 0
  {
    match k
    case Fulfils => FulfilFacts(acc.states, c.amounts, m);
    case Aborts => AbortFacts(acc.states, acc.fxStates, false, m);
    case FxAborts => AbortFacts(acc.states, acc.fxStates, true, m);
    case Timeouts =>
    case FxTimeouts =>
  }

  lemma FulfilFacts(states: States, amounts: map<Id, int>, m: Message)
    requires FinalExtras(m) && FulfilEffect(states, amounts, m).Ok?
    ensures FinalEffect(FulfilEffect(states, amounts, m).value)
    ensures if Lookup(states, m.id) == Some(ReceivedFulfil) then Weight(FulfilEffect(states, amounts, m).value) > 0
            else Weight(FulfilEffect(states, amounts, m).value) == 0
  {
  }

  lemma AbortFacts(states: States, fxStates: States, isFx: bool, m: Message)
    requires FinalExtras(m) && AbortEffect(states, fxStates, isFx, m).Ok?
    ensures FinalEffect(AbortEffect(states, fxStates, isFx, m).value)
    ensures Weight(AbortEffect(states, fxStates, isFx, m).value) > 0
  {
  }

  /** A message that passes has the same effect whatever else the states hold. */
  lemma SameWhenPassing(k: Kind, a: Acc, b: Acc, c: Context, m: Message)
    requires Passes(k, a, m) && Passes(k, b, m)
    ensures RuleOf(k, a, c)(m) == RuleOf(k, b, c)(m)
  {
  }

  /** Effects with final states only close guards, and do so for the ids they name. */
  lemma PassesAfter(k: Kind, acc: Acc, charging: bool, reserved: int, e: Effect, m: Message)
    requires FinalEffect(e)
    ensures Passes(k, Apply(acc, charging, reserved, e), m) <==> Passes(k, acc, m) && !Names(k, e, m.id)
  {
    ReplayLookup(if OnFx(k) then acc.fxStates else acc.states, GuardLog(k, e), m.id);
  }

  lemma {:induction false} PassesAfterAll(k: Kind, acc: Acc, charging: bool, reserved: int, es: seq<Effect>, m: Message)
    requires forall e :: e in es ==> FinalEffect(e)
    ensures Passes(k, ApplyAll(acc, charging, reserved, es), m) <==>
              Passes(k, acc, m) && forall j :: 0 <= j < |es| ==> !Names(k, es[j], m.id)
  {
    if es != [] {
      var n := |es| - 1;
      PassesAfterAll(k, acc, charging, reserved, es[..n], m);
      PassesAfter(k, ApplyAll(acc, charging, reserved, es[..n]), charging, reserved, es[n], m);
      assert forall j :: 0 <= j < n ==> es[..n][j] == es[j];
    }
  }

  // ----- the law

  /** No message that passes finds its transfer changed by one before it. */
  ghost predicate Undisturbed(k: Kind, acc: Acc, ms: seq<Message>, es: seq<Effect>)
    requires |es| == |ms|
  {
    forall i, j :: 0 <= j < i < |ms| && Passes(k, acc, ms[i]) ==> !Names(k, es[j], ms[i].id)
  }

  /** The state that an error note names does not count. */
  function Unnamed(ns: seq<Note>): (r: seq<Note>)
    ensures |r| == |ns|
  {
    seq(|ns|, i requires 0 <= i < |ns| => if ns[i].InvalidState? then ns[i].(found := None) else ns[i])
  }

  /** Equal but for the states that error notes name. */
  predicate Alike(a: Acc, b: Acc) {
    a.(notes := b.notes) == b && Unnamed(a.notes) == Unnamed(b.notes)
  }

  lemma AlikeStep(a: Acc, b: Acc, charging: bool, reserved: int, e: Effect, f: Effect)
    requires Alike(a, b) && e.(notes := f.notes) == f && Unnamed(e.notes) == Unnamed(f.notes)
    ensures Alike(Apply(a, charging, reserved, e), Apply(b, charging, reserved, f))
  {
    UnnamedConcat(a.notes, e.notes);
    UnnamedConcat(b.notes, f.notes);
  }

  lemma UnnamedConcat(a: seq<Note>, b: seq<Note>)
    ensures Unnamed(a + b) == Unnamed(a) + Unnamed(b)
  {
  }

  lemma {:induction false} EffectsAre(f: Message -> Result<Effect>, ms: seq<Message>)
    requires Effects(f, ms).Ok?
    ensures var es := Effects(f, ms).value;
            |es| == |ms| && forall i :: 0 <= i < |ms| ==> f(ms[i]) == Ok(es[i])
  {
    if ms != [] {
      EffectsAre(f, ms[..|ms| - 1]);
    }
  }

  lemma EffectsSnoc(f: Message -> Result<Effect>, ms: seq<Message>, m: Message)
    requires Effects(f, ms).Ok? && f(m).Ok?
    ensures Effects(f, ms + [m]) == Ok(Effects(f, ms).value + [f(m).value])
  {
    assert (ms + [m])[..|ms|] == ms;
  }

  lemma ApplySnoc(acc: Acc, c: Context, es: seq<Effect>, e: Effect)
    ensures ApplyAll(acc, c.charging, c.account.reserved, es + [e]) ==
              Apply(ApplyAll(acc, c.charging, c.account.reserved, es), c.charging, c.account.reserved, e)
  {
    assert (es + [e])[..|es|] == es;
  }

  /** What the batch has applied after its first n messages. */
  function BatchAt(acc: Acc, c: Context, es: seq<Effect>, n: nat): Acc
    requires n <= |es|
  {
    ApplyAll(acc, c.charging, c.account.reserved, es[..n])
  }

  ghost predicate EffectsOf(k: Kind, acc: Acc, c: Context, ms: seq<Message>, es: seq<Effect>) {
    && |es| == |ms|
    && (forall i :: 0 <= i < |ms| ==> RuleOf(k, acc, c)(ms[i]) == Ok(es[i]))
    && forall m :: m in ms ==> FinalExtras(m)
  }

  lemma BatchStep(acc: Acc, c: Context, es: seq<Effect>, n: nat)
    requires n < |es|
    ensures BatchAt(acc, c, es, n + 1) == Apply(BatchAt(acc, c, es, n), c.charging, c.account.reserved, es[n])
  {
    assert es[..n + 1][..n] == es[..n];
  }

  lemma SinglyStep(acc: Acc, c: Context, k: Kind, ms: seq<Message>, n: nat)
    requires n < |ms|
    ensures Singly(acc, c, k, ms[..n + 1]) ==
              match Singly(acc, c, k, ms[..n])
              case Failed => Failed
              case Ok(a) => Batched(a, c, k, [ms[n]])
  {
    assert ms[..n + 1][..n] == ms[..n];
  }

  ghost predicate UndisturbedUpTo(k: Kind, acc: Acc, ms: seq<Message>, es: seq<Effect>, n: nat)
    requires n <= |ms| == |es|
  {
    forall i, j :: 0 <= j < i < n && Passes(k, acc, ms[i]) ==> !Names(k, es[j], ms[i].id)
  }

  lemma AllFinal(k: Kind, acc: Acc, c: Context, ms: seq<Message>, es: seq<Effect>)
    requires EffectsOf(k, acc, c, ms, es)
    ensures forall e :: e in es ==> FinalEffect(e)
  {
    forall i | 0 <= i < |es|
      ensures FinalEffect(es[i])
    {
      assert ms[i] in ms;
      RuleFacts(k, acc, c, ms[i]);
    }
  }

  /** A message passes after the first n of the batch iff it passed at first and none of them named it. */
  lemma PassesInBatch(k: Kind, acc: Acc, c: Context, ms: seq<Message>, es: seq<Effect>, n: nat, m: Message)
    requires EffectsOf(k, acc, c, ms, es) && n <= |es|
    ensures Passes(k, BatchAt(acc, c, es, n), m) <==> Passes(k, acc, m) && forall j :: 0 <= j < n ==> !Names(k, es[j], m.id)
  {
    AllFinal(k, acc, c, ms, es);
    PassesAfterAll(k, acc, c.charging, c.account.reserved, es[..n], m);
    assert forall j :: 0 <= j < n ==> es[..n][j] == es[j];
  }

  /** As long as nothing is disturbed, one by one goes like the batch. */
  lemma {:induction false} GoesAlike(k: Kind, acc: Acc, c: Context, ms: seq<Message>, es: seq<Effect>, n: nat)
    requires EffectsOf(k, acc, c, ms, es) && n <= |ms| && UndisturbedUpTo(k, acc, ms, es, n)
    ensures Singly(acc, c, k, ms[..n]).Ok?
    ensures Alike(Singly(acc, c, k, ms[..n]).value, BatchAt(acc, c, es, n))
  {
    if n > 0 {
      var i := n - 1;
      GoesAlike(k, acc, c, ms, es, i);
      SinglyStep(acc, c, k, ms, i);
      BatchStep(acc, c, es, i);
      PassesInBatch(k, acc, c, ms, es, i, ms[i]);
      AlikeNext(k, acc, Singly(acc, c, k, ms[..i]).value, BatchAt(acc, c, es, i), c, ms[i], es[i]);
    }
  }

  lemma AlikeNext(k: Kind, acc: Acc, a: Acc, b: Acc, c: Context, m: Message, e: Effect)
    requires Alike(a, b) && RuleOf(k, acc, c)(m) == Ok(e) && (Passes(k, b, m) <==> Passes(k, acc, m))
    ensures Batched(a, c, k, [m]).Ok?
    ensures Alike(Batched(a, c, k, [m]).value, Apply(b, c.charging, c.account.reserved, e))
  {
    StageOfOne(a, c.charging, c.account.reserved, RuleOf(k, a, c), m);
    assert Passes(k, a, m) <==> Passes(k, b, m);
    AlikeEffects(k, acc, a, c, m);
    AlikeStep(a, b, c.charging, c.account.reserved, RuleOf(k, a, c)(m).value, e);
  }

  lemma AlikeEffects(k: Kind, acc: Acc, a: Acc, c: Context, m: Message)
    requires (Passes(k, a, m) <==> Passes(k, acc, m)) && RuleOf(k, acc, c)(m).Ok?
    ensures RuleOf(k, a, c)(m).Ok?
    ensures var e, f := RuleOf(k, a, c)(m).value, RuleOf(k, acc, c)(m).value;
            e.(notes := f.notes) == f && Unnamed(e.notes) == Unnamed(f.notes)
  {
    if Passes(k, acc, m) {
      SameWhenPassing(k, a, acc, c, m);
    }
  }

  function LogSize(a: Acc): nat {
    |a.changes| + |a.fxChanges|
  }

  /** One by one never changes more than the batch, and less once something is disturbed; it never opens a guard. */
  ghost predicate NoMore(k: Kind, acc: Acc, a: Acc, b: Acc, disturbed: bool) {
    && (forall m :: Passes(k, a, m) ==> Passes(k, acc, m))
    && LogSize(a) <= LogSize(b)
    && (disturbed ==> LogSize(a) < LogSize(b))
  }

  lemma {:induction false} ChangesNoMore(k: Kind, acc: Acc, c: Context, ms: seq<Message>, es: seq<Effect>, n: nat)
    requires EffectsOf(k, acc, c, ms, es) && n <= |ms| && Singly(acc, c, k, ms[..n]).Ok?
    ensures NoMore(k, acc, Singly(acc, c, k, ms[..n]).value, BatchAt(acc, c, es, n), !UndisturbedUpTo(k, acc, ms, es, n))
  {
    if n > 0 {
      var i := n - 1;
      SinglyStep(acc, c, k, ms, i);
      ChangesNoMore(k, acc, c, ms, es, i);
      BatchStep(acc, c, es, i);
      assert ms[i] in ms;
      var a, b := Singly(acc, c, k, ms[..i]).value, BatchAt(acc, c, es, i);
      var before, now := !UndisturbedUpTo(k, acc, ms, es, i), !UndisturbedUpTo(k, acc, ms, es, n);
      if !before && now {
        NewlyDisturbed(k, acc, c, ms, es, i);
      }
      NoMoreNext(k, acc, a, b, c, ms[i], es[i], before, now);
    }
  }

  /** The first disturbed message is stopped when the messages go one by one. */
  lemma NewlyDisturbed(k: Kind, acc: Acc, c: Context, ms: seq<Message>, es: seq<Effect>, i: nat)
    requires EffectsOf(k, acc, c, ms, es) && i < |ms|
    requires UndisturbedUpTo(k, acc, ms, es, i) && !UndisturbedUpTo(k, acc, ms, es, i + 1)
    ensures Singly(acc, c, k, ms[..i]).Ok?
    ensures Passes(k, acc, ms[i]) && !Passes(k, Singly(acc, c, k, ms[..i]).value, ms[i])
  {
    DisturbedAt(k, acc, ms, es, i);
    GoesAlike(k, acc, c, ms, es, i);
    PassesInBatch(k, acc, c, ms, es, i, ms[i]);
  }

  lemma DisturbedAt(k: Kind, acc: Acc, ms: seq<Message>, es: seq<Effect>, i: nat)
    requires i < |ms| == |es|
    requires UndisturbedUpTo(k, acc, ms, es, i) && !UndisturbedUpTo(k, acc, ms, es, i + 1)
    ensures Passes(k, acc, ms[i]) && exists j :: 0 <= j < i && Names(k, es[j], ms[i].id)
  {
    var p, q :| 0 <= q < p < i + 1 && Passes(k, acc, ms[p]) && Names(k, es[q], ms[p].id);
  }

  lemma NoMoreNext(k: Kind, acc: Acc, a: Acc, b: Acc, c: Context, m: Message, e: Effect, before: bool, now: bool)
    requires NoMore(k, acc, a, b, before) && FinalExtras(m) && RuleOf(k, acc, c)(m) == Ok(e) && RuleOf(k, a, c)(m).Ok?
    requires now && !before ==> Passes(k, acc, m) && !Passes(k, a, m)
    ensures Batched(a, c, k, [m]).Ok?
    ensures NoMore(k, acc, Batched(a, c, k, [m]).value, Apply(b, c.charging, c.account.reserved, e), now)
  {
    StageOfOne(a, c.charging, c.account.reserved, RuleOf(k, a, c), m);
    NoMoreStep(k, acc, a, c, m, e);
  }

  lemma NoMoreStep(k: Kind, acc: Acc, a: Acc, c: Context, m: Message, e: Effect)
    requires FinalExtras(m) && RuleOf(k, acc, c)(m) == Ok(e) && RuleOf(k, a, c)(m).Ok?
    requires Passes(k, a, m) ==> Passes(k, acc, m)
    ensures var f := RuleOf(k, a, c)(m).value;
            && Weight(f) <= Weight(e)
            && (Passes(k, acc, m) && !Passes(k, a, m) ==> Weight(f) < Weight(e))
            && forall x :: Passes(k, Apply(a, c.charging, c.account.reserved, f), x) ==> Passes(k, a, x)
  {
    RuleFacts(k, acc, c, m);
    RuleFacts(k, a, c, m);
    if Passes(k, a, m) {
      SameWhenPassing(k, a, acc, c, m);
    }
    forall x
      ensures Passes(k, Apply(a, c.charging, c.account.reserved, RuleOf(k, a, c)(m).value), x) ==> Passes(k, a, x)
    {
      PassesAfter(k, a, c.charging, c.account.reserved, RuleOf(k, a, c)(m).value, x);
    }
  }

  /**
   When a stage is the same as its messages one by one: a stage that goes through equals them, but for the states that
   error notes name, if and only if no message that passes finds its transfer changed by one before it.
   */
  lemma BatchedIff(acc: Acc, c: Context, k: Kind, ms: seq<Message>)
    requires Effects(RuleOf(k, acc, c), ms).Ok? && forall m :: m in ms ==> FinalExtras(m)
    ensures |Effects(RuleOf(k, acc, c), ms).value| == |ms| && Batched(acc, c, k, ms).Ok?
    ensures (Singly(acc, c, k, ms).Ok? && Alike(Singly(acc, c, k, ms).value, Batched(acc, c, k, ms).value))
            <==> Undisturbed(k, acc, ms, Effects(RuleOf(k, acc, c), ms).value)
  {
    var es := Effects(RuleOf(k, acc, c), ms).value;
    EffectsAre(RuleOf(k, acc, c), ms);
    WholeBatch(k, acc, c, ms, es);
  }

  lemma WholeBatch(k: Kind, acc: Acc, c: Context, ms: seq<Message>, es: seq<Effect>)
    requires EffectsOf(k, acc, c, ms, es)
    ensures var b := ApplyAll(acc, c.charging, c.account.reserved, es);
            (Singly(acc, c, k, ms).Ok? && Alike(Singly(acc, c, k, ms).value, b)) <==> Undisturbed(k, acc, ms, es)
  {
    WholeSequence(ms);
    WholeSequence(es);
    if Undisturbed(k, acc, ms, es) {
      GoesAlike(k, acc, c, ms, es, |ms|);
    } else if Singly(acc, c, k, ms).Ok? {
      ChangesNoMore(k, acc, c, ms, es, |ms|);
    }
  }

  lemma WholeSequence<T>(s: seq<T>)
    ensures s[..|s|] == s
  {
  }

  /** So a stage of timeouts that goes through is the same as its messages one by one iff no id repeats. */
  lemma TimeoutsBatchedIff(acc: Acc, c: Context, k: Kind, ms: seq<Message>)
    requires (k == Timeouts || k == FxTimeouts) && Effects(RuleOf(k, acc, c), ms).Ok?
    requires forall m :: m in ms ==> FinalExtras(m)
    ensures Batched(acc, c, k, ms).Ok?
    ensures (Singly(acc, c, k, ms).Ok? && Alike(Singly(acc, c, k, ms).value, Batched(acc, c, k, ms).value))
            <==> forall i, j :: 0 <= j < i < |ms| ==> ms[j].id != ms[i].id
  {
    var es := Effects(RuleOf(k, acc, c), ms).value;
    EffectsAre(RuleOf(k, acc, c), ms);
    BatchedIff(acc, c, k, ms);
    forall i, j | 0 <= j < i < |ms|
      ensures Passes(k, acc, ms[i]) && (Names(k, es[j], ms[i].id) <==> ms[j].id == ms[i].id)
    {
      TimeoutNames(acc, c, k, ms[i], ms[i].id);
      TimeoutNames(acc, c, k, ms[j], ms[i].id);
    }
  }

  lemma TimeoutNames(acc: Acc, c: Context, k: Kind, m: Message, id: Id)
    requires (k == Timeouts || k == FxTimeouts) && RuleOf(k, acc, c)(m).Ok?
    ensures Passes(k, acc, m) && (Names(k, RuleOf(k, acc, c)(m).value, id) <==> m.id == id)
  {
    var log := GuardLog(k, RuleOf(k, acc, c)(m).value);
    assert log == [StateChange(m.id, ExpiredReserved, TransferExpiredReason)];
    assert log[0] in log;
  }

  /** Two copies of one plain fulfil in one bin move its amount twice; one by one the second is stopped. */
  lemma FulfilledTwice(acc: Acc, c: Context, m: Message)
    requires c.charging && Passes(Fulfils, acc, m) && m.cyril.None? && m.id in c.amounts
    ensures Batched(acc, c, Fulfils, [m, m]).Ok? && Singly(acc, c, Fulfils, [m, m]).Ok?
    ensures Batched(acc, c, Fulfils, [m, m]).value.position == acc.position + 2 * c.amounts[m.id]
    ensures Singly(acc, c, Fulfils, [m, m]).value.position == acc.position + c.amounts[m.id]
  {
    var rule := RuleOf(Fulfils, acc, c);
    var e := rule(m).value;
    assert [] + [m] == [m] && [m] + [m] == [m, m];
    EffectsSnoc(rule, [], m);
    EffectsSnoc(rule, [m], m);
    ApplySnoc(acc, c, [], e);
    ApplySnoc(acc, c, [e], e);
    SecondStopped(acc, c, m, e);
  }

  lemma SecondStopped(acc: Acc, c: Context, m: Message, e: Effect)
    requires Passes(Fulfils, acc, m) && m.cyril.None? && RuleOf(Fulfils, acc, c)(m) == Ok(e)
    ensures Singly(acc, c, Fulfils, [m, m]).Ok?
    ensures Singly(acc, c, Fulfils, [m, m]).value.position == Apply(acc, c.charging, c.account.reserved, e).position
  {
    var a := Apply(acc, c.charging, c.account.reserved, e);
    assert [m, m][..0] == [] && [m, m][..2] == [m, m];
    SinglyStep(acc, c, Fulfils, [m, m], 0);
    SinglyStep(acc, c, Fulfils, [m, m], 1);
    StageOfOne(acc, c.charging, c.account.reserved, RuleOf(Fulfils, acc, c), m);
    assert GuardLog(Fulfils, e)[0] in GuardLog(Fulfils, e);
    PassesAfter(Fulfils, acc, c.charging, c.account.reserved, e, m);
    StageOfOne(a, c.charging, c.account.reserved, RuleOf(Fulfils, a, c), m);
  }

  // ----- a delivery is a bin of one message

  function BinOf(t: C.Token): Bin {
    var ms := [t.message];
    match t.kind
    case Fulfil => Bin([], [], ms, [], [], [], [], [])
    case Abort => Bin([], [], [], ms, [], [], [], [])
    case FxAbort => Bin([], [], [], [], ms, [], [], [])
  }

  lemma EmptyFront(acc: Acc, c: Context, bin: Bin)
    requires bin.fxReserves == [] && bin.fxTimeouts == []
    ensures Front(acc, c, bin) == Ok(acc)
  {
    assert FxFulfil.Changes(acc.fxStates, []) == [];
    assert FxFulfilNotes(FxFulfil.Notifications(acc.fxStates, [])) == [];
    assert acc.fxChanges + [] == acc.fxChanges && acc.notes + [] == acc.notes;
  }

  lemma EmptyBack(acc: Acc, c: Context, bin: Bin)
    requires bin.prepares == [] && bin.fxPrepares == []
    ensures Back(acc, c, bin) == acc
  {
    assert ReserveStage(acc, c, false, []) == acc && ReserveStage(acc, c, true, []) == acc;
  }

  function StageFor(kind: C.Kind): Kind {
    match kind
    case Fulfil => Fulfils
    case Abort => Aborts
    case FxAbort => FxAborts
  }

  lemma OneInTheMiddle(acc: Acc, c: Context, t: C.Token)
    ensures Middle(acc, c, BinOf(t)) == Batched(acc, c, StageFor(t.kind), [t.message])
  {
  }

  /** The bin of one message fails with it, and else applies its effect. */
  lemma BinOfOne(acc: Acc, c: Context, t: C.Token)
    ensures Process(acc, c, BinOf(t)) ==
              match RuleOf(StageFor(t.kind), acc, c)(t.message)
              case Failed => Failed
              case Ok(e) => Ok(Apply(acc, c.charging, c.account.reserved, e))
  {
    EmptyFront(acc, c, BinOf(t));
    OneInTheMiddle(acc, c, t);
    var rule := RuleOf(StageFor(t.kind), acc, c);
    StageOfOne(acc, c.charging, c.account.reserved, rule, t.message);
    if rule(t.message).Ok? {
      EmptyBack(Apply(acc, c.charging, c.account.reserved, rule(t.message).value), c, BinOf(t));
    }
  }

  /**
   A delivery of the circulation is what the processor makes of a bin with that message alone: the new position and
   states, the notes told, and the message sent on if there is one; and nothing if the bin fails.
   */
  lemma DeliveryIsBin(w: C.World, i: nat, t: C.Token, c: Context)
    requires i < |w.flights| && w.flights[i] == Some(t) && c.charging && c.amounts == map[]
    ensures var r := Process(Start(C.Balance(w, t.message.account), w.states, w.fxStates), c, BinOf(t));
            if r.Failed? then C.Deliver(w, i) == w
            else
              && |r.value.followUps| <= 1
              && C.Deliver(w, i) ==
                   C.World(w.positions[t.message.account := r.value.position], r.value.states, r.value.fxStates,
                           w.flights[i := if r.value.followUps == [] then None
                                          else Some(C.Token(t.kind, r.value.followUps[0]))],
                           w.notes + r.value.notes)
  {
    var start := Start(C.Balance(w, t.message.account), w.states, w.fxStates);
    BinOfOne(start, c, t);
    SameRule(w, start, c, t);
    if C.EffectOf(w, t).Ok? {
      Delivered(w, i, t, C.EffectOf(w, t).value, c.account.reserved);
    }
  }

  lemma SameRule(w: C.World, acc: Acc, c: Context, t: C.Token)
    requires acc.states == w.states && acc.fxStates == w.fxStates && c.amounts == map[]
    ensures RuleOf(StageFor(t.kind), acc, c)(t.message) == C.EffectOf(w, t)
  {
  }

  /** The reserved value only shows in the ledger entries. */
  lemma Delivered(w: C.World, i: nat, t: C.Token, e: Effect, reserved: int)
    requires i < |w.flights| && w.flights[i] == Some(t) && C.EffectOf(w, t) == Ok(e)
    ensures var acc := Apply(Start(C.Balance(w, t.message.account), w.states, w.fxStates), true, reserved, e);
            && |acc.followUps| <= 1
            && C.Deliver(w, i) ==
                 C.World(w.positions[t.message.account := acc.position], acc.states, acc.fxStates,
                         w.flights[i := if acc.followUps == [] then None else Some(C.Token(t.kind, acc.followUps[0]))],
                         w.notes + acc.notes)
  {
  }
}
