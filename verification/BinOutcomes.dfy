/**
 What a bin tells, records and enters in the ledger, message by message: exactly who hears what, which states are logged
 and which movements get an entry.
 */
module BinOutcomes {
  import opened Ledger
  import opened Sequences
  import opened AccountBin
  import opened StageBatching
  import FxFulfil
  import Reservation

  // ----- what one message is about

  /** Movement `i` is the first that is still to be made. */
  ghost predicate FirstAt(m: Message, i: nat) {
    && m.cyril.Some? && i < |m.cyril.value.hops| && !m.cyril.value.hops[i].done
    && forall k :: 0 <= k < i ==> m.cyril.value.hops[k].done
  }

  /** The next movement of the message is of that kind, for that id and of that amount. */
  ghost predicate NextMoves(m: Message, isFx: bool, id: Id, amount: int) {
    exists i: nat ::
      FirstAt(m, i)
      && var h := m.cyril.value.hops[i]; h.isFx == isFx && h.id == id && h.amount == amount
  }

  ghost predicate NextIsFx(m: Message) {
    exists i: nat :: FirstAt(m, i) && m.cyril.value.hops[i].isFx
  }

  predicate Converts(m: Message) {
    m.cyril.Some? && m.cyril.value.isFx
  }

  /** What a message of a stage moves: the next movement of its remittance, or what is recorded for its id. */
  ghost predicate Moves(k: Kind, c: Context, m: Message, isFx: bool, id: Id, amount: int) {
    if k == Timeouts || (k == Fulfils && !Converts(m)) then
      !isFx && id == m.id && m.id in c.amounts && amount == c.amounts[m.id]
    else if k == FxTimeouts then
      isFx && id == m.id && (m.id, m.account) in c.reserves && amount == c.reserves[(m.id, m.account)]
    else NextMoves(m, isFx, id, amount)
  }

  /** The state a stage moves to. */
  function Outcome(k: Kind): TransferState {
    if k == Fulfils then Committed else if k == Timeouts || k == FxTimeouts then ExpiredReserved else AbortedError
  }

  function Why(k: Kind): Reason {
    if k == Timeouts || k == FxTimeouts then TransferExpiredReason else NoReason
  }

  predicate CarriesRemittance(k: Kind, m: Message) {
    k == Aborts || k == FxAborts || (k == Fulfils && Converts(m))
  }

  /** A state change a message brings: of what it moves, and the extra changes with the last movement. */
  ghost predicate Logs(k: Kind, c: Context, m: Message, isFx: bool, x: StateChange) {
    || ((exists amount :: Moves(k, c, m, isFx, x.id, amount)) && x.state == Outcome(k) && x.reason == Why(k))
    || (!isFx && CarriesRemittance(k, m) && m.cyril.Some? && !HasNext(m) && x.reason == NoReason
        && exists e :: e in m.cyril.value.extras && e.id == x.id && e.state == x.state)
  }

  /** The sender of an abort's error: the message's own, unless the hub rejected it or it is carried along. */
  ghost predicate SentBy(m: Message, isOriginal: bool, from: string) {
    from == if isOriginal && !m.failedValidation then m.from else HUB_NAME
  }

  /** An abort that has made its last movement tells everyone it names. */
  ghost predicate AbortTells(m: Message, id: Id, to: string, from: string) {
    && m.cyril.Some?
    && (|| (exists h :: h in m.cyril.value.hops && h.id == id && SentBy(m, h.isOriginal, from)
                        && (h.notifyTo == Some(to) || (h.notifyTo.None? && !h.isFx && to == "")))
        || (exists e :: e in m.cyril.value.extras && e.id == id && e.notifyTo == to && SentBy(m, e.isOriginal, from)))
  }

  /** A fulfil only goes through for a transfer that waits for it; any other message that does not fails its bin. */
  predicate Goes(k: Kind, s: States, m: Message) {
    k == Fulfils ==> Lookup(s, m.id) == Some(ReceivedFulfil)
  }

  /** What a message of a stage makes the bin tell. */
  ghost predicate Tells(k: Kind, s: States, m: Message, x: Note) {
    if !Goes(k, s, m) then x == InvalidState(m.id, m.from, HUB_NAME, Lookup(s, m.id))
    else
      match x
      case Success(id, to, from) =>
        k == Fulfils && (Converts(m) ==> !HasNext(m)) && id == m.id && to == m.to && from == m.from
      case Failure(id, to, from) =>
        || ((k == Timeouts || k == FxTimeouts) && id == m.id && to == m.to && from == m.from)
        || ((k == Aborts || k == FxAborts) && !HasNext(m) && AbortTells(m, id, to, from))
      case PatchNote(id, to, state) =>
        && CarriesRemittance(k, m) && NextIsFx(m) && state == Outcome(k)
        && exists p :: p in m.cyril.value.patches && p.id == id && p.fxp == to
      case _ => false
  }

  // ----- one message

  /** The effect of a message is exactly what it is about. */
  ghost predicate Answers(k: Kind, s: States, c: Context, m: Message, e: Effect) {
    && (forall x :: x in e.notes <==> Tells(k, s, m, x))
    && (forall x :: x in e.changes <==> Goes(k, s, m) && Logs(k, c, m, false, x))
    && (forall x :: x in e.fxChanges <==> Goes(k, s, m) && Logs(k, c, m, true, x))
    && MovesRightly(k, s, c, m, e)
  }

  ghost predicate MovesRightly(k: Kind, s: States, c: Context, m: Message, e: Effect) {
    && (e.movement.Some? <==> Goes(k, s, m))
    && (e.movement.Some? ==> Moves(k, c, m, e.movement.value.isFx, e.movement.value.id, e.movement.value.change))
  }

  lemma FirstIs(m: Message)
    requires m.cyril.Some?
    ensures forall i: nat :: FirstAt(m, i) <==> i == FirstPending(m.cyril.value.hops) < |m.cyril.value.hops|
  {
    var hops := m.cyril.value.hops;
    var p := FirstPending(hops);
    forall i: nat
      ensures FirstAt(m, i) <==> i == p < |hops|
    {
    }
  }

  lemma LastIff(m: Message)
    requires m.cyril.Some? && FirstPending(m.cyril.value.hops) < |m.cyril.value.hops|
    ensures var done := MarkDone(m.cyril.value.hops, FirstPending(m.cyril.value.hops));
            HasNext(m) <==> FirstPending(done) < |done|
  {
    FirstTwoFound(m.cyril.value.hops, FirstPending(m.cyril.value.hops));
  }

  lemma PatchesTold(patches: seq<Patch>, state: TransferState, x: Note)
    ensures x in PatchNotes(patches, state)
            <==> x.PatchNote? && x.state == state && exists p :: p in patches && p.id == x.id && p.fxp == x.to
  {
    if x in PatchNotes(patches, state) {
      var i :| 0 <= i < |patches| && PatchNotes(patches, state)[i] == x;
      assert patches[i] in patches;
    }
    if x.PatchNote? && x.state == state && exists p :: p in patches && p.id == x.id && p.fxp == x.to {
      var p :| p in patches && p.id == x.id && p.fxp == x.to;
      var i :| 0 <= i < |patches| && patches[i] == p;
      assert PatchNotes(patches, state)[i] == x;
    }
  }

  lemma ExtrasLogged(extras: seq<ExtraChange>, x: StateChange)
    ensures x in ExtraChanges(extras)
            <==> x.reason == NoReason && exists e :: e in extras && e.id == x.id && e.state == x.state
  {
    if x in ExtraChanges(extras) {
      var i :| 0 <= i < |extras| && ExtraChanges(extras)[i] == x;
      assert extras[i] in extras;
    }
    if x.reason == NoReason && exists e :: e in extras && e.id == x.id && e.state == x.state {
      var e :| e in extras && e.id == x.id && e.state == x.state;
      var i :| 0 <= i < |extras| && extras[i] == e;
      assert ExtraChanges(extras)[i] == x;
    }
  }

  ghost predicate HopTells(m: Message, h: Hop, x: Note) {
    && x.Failure? && h.id == x.id && SentBy(m, h.isOriginal, x.from)
    && (h.notifyTo == Some(x.to) || (h.notifyTo.None? && !h.isFx && x.to == ""))
  }

  lemma {:induction false} HopsTell(m: Message, hops: seq<Hop>, x: Note)
    ensures x in AbortNotes(m, hops) <==> exists h :: h in hops && HopTells(m, h, x)
  {
    if hops != [] {
      var init, last := hops[..|hops| - 1], hops[|hops| - 1];
      HopsTell(m, init, x);
      assert hops == init + [last];
      assert x in AbortNotes(m, hops) <==> x in AbortNotes(m, init) || HopTells(m, last, x);
    }
  }

  lemma ExtrasTell(m: Message, extras: seq<ExtraChange>, x: Note)
    ensures x in ExtraNotes(m, extras)
            <==> x.Failure? && exists e :: e in extras && e.id == x.id && e.notifyTo == x.to && SentBy(m, e.isOriginal, x.from)
  {
    if x in ExtraNotes(m, extras) {
      var i :| 0 <= i < |extras| && ExtraNotes(m, extras)[i] == x;
      assert extras[i] in extras;
    }
    if x.Failure? && exists e :: e in extras && e.id == x.id && e.notifyTo == x.to && SentBy(m, e.isOriginal, x.from) {
      var e :| e in extras && e.id == x.id && e.notifyTo == x.to && SentBy(m, e.isOriginal, x.from);
      var i :| 0 <= i < |extras| && extras[i] == e;
      assert ExtraNotes(m, extras)[i] == x;
    }
  }

  /** Marking a movement done changes nothing of what is told. */
  lemma SameTold(m: Message, i: nat, x: Note)
    requires m.cyril.Some? && i < |m.cyril.value.hops|
    ensures (exists h :: h in MarkDone(m.cyril.value.hops, i) && HopTells(m, h, x))
            <==> exists h :: h in m.cyril.value.hops && HopTells(m, h, x)
  {
    var hops, done := m.cyril.value.hops, MarkDone(m.cyril.value.hops, i);
    if h :| h in done && HopTells(m, h, x) {
      var k :| 0 <= k < |done| && done[k] == h;
      assert hops[k] in hops && HopTells(m, hops[k], x);
    }
    if h :| h in hops && HopTells(m, h, x) {
      var k :| 0 <= k < |hops| && hops[k] == h;
      assert done[k] in done && HopTells(m, done[k], x);
    }
  }

  lemma TimeoutAnswers(k: Kind, acc: Acc, c: Context, m: Message)
    requires (k == Timeouts || k == FxTimeouts) && RuleOf(k, acc, c)(m).Ok?
    ensures Answers(k, acc.states, c, m, RuleOf(k, acc, c)(m).value)
  {
    var e := RuleOf(k, acc, c)(m).value;
    forall x
      ensures x in e.notes <==> Tells(k, acc.states, m, x)
    {
    }
    var amount := e.movement.value.change;
    assert Moves(k, c, m, k == FxTimeouts, m.id, amount);
  }

  lemma PlainAnswers(acc: Acc, c: Context, m: Message)
    requires RuleOf(Fulfils, acc, c)(m).Ok? && (!Goes(Fulfils, acc.states, m) || !Converts(m))
    ensures Answers(Fulfils, acc.states, c, m, RuleOf(Fulfils, acc, c)(m).value)
  {
    var e := RuleOf(Fulfils, acc, c)(m).value;
    forall x
      ensures x in e.notes <==> Tells(Fulfils, acc.states, m, x)
    {
    }
    if Goes(Fulfils, acc.states, m) {
      assert Moves(Fulfils, c, m, false, m.id, c.amounts[m.id]);
    }
  }

  /** The first pending movement of a message that carries a remittance. */
  ghost predicate Pends(k: Kind, m: Message, i: nat) {
    && CarriesRemittance(k, m) && m.cyril.Some? && i == FirstPending(m.cyril.value.hops) < |m.cyril.value.hops|
  }

  lemma NextIs(k: Kind, c: Context, m: Message, i: nat)
    requires Pends(k, m, i)
    ensures NextIsFx(m) <==> m.cyril.value.hops[i].isFx
    ensures forall isFx, id, amount :: Moves(k, c, m, isFx, id, amount) <==>
              var h := m.cyril.value.hops[i]; h.isFx == isFx && h.id == id && h.amount == amount
  {
    FirstIs(m);
    assert FirstAt(m, i);
  }

  lemma Logged(k: Kind, c: Context, m: Message, i: nat, isFx: bool, x: StateChange)
    requires Pends(k, m, i)
    ensures Logs(k, c, m, isFx, x) <==>
              || (m.cyril.value.hops[i].isFx == isFx && x == StateChange(m.cyril.value.hops[i].id, Outcome(k), NoReason))
              || (!isFx && !HasNext(m) && x in ExtraChanges(m.cyril.value.extras))
  {
    NextIs(k, c, m, i);
    ExtrasLogged(m.cyril.value.extras, x);
    var h := m.cyril.value.hops[i];
    assert Moves(k, c, m, h.isFx, h.id, h.amount);
  }

  lemma RemittanceLogs(k: Kind, acc: Acc, c: Context, m: Message, i: nat)
    requires Pends(k, m, i) && Goes(k, acc.states, m) && RuleOf(k, acc, c)(m).Ok?
    ensures var e := RuleOf(k, acc, c)(m).value;
            && (forall x :: x in e.changes <==> Logs(k, c, m, false, x))
            && (forall x :: x in e.fxChanges <==> Logs(k, c, m, true, x))
            && e.movement.Some?
            && Moves(k, c, m, e.movement.value.isFx, e.movement.value.id, e.movement.value.change)
  {
    var e := RuleOf(k, acc, c)(m).value;
    LastIff(m);
    NextIs(k, c, m, i);
    forall x
      ensures x in e.changes <==> Logs(k, c, m, false, x)
      ensures x in e.fxChanges <==> Logs(k, c, m, true, x)
    {
      Logged(k, c, m, i, false, x);
      Logged(k, c, m, i, true, x);
    }
  }

  lemma FulfilTells(acc: Acc, c: Context, m: Message, i: nat, x: Note)
    requires Pends(Fulfils, m, i) && Goes(Fulfils, acc.states, m) && RuleOf(Fulfils, acc, c)(m).Ok?
    ensures x in RuleOf(Fulfils, acc, c)(m).value.notes <==> Tells(Fulfils, acc.states, m, x)
  {
    LastIff(m);
    NextIs(Fulfils, c, m, i);
    PatchesTold(m.cyril.value.patches, Committed, x);
  }

  lemma AbortTellsAll(k: Kind, acc: Acc, c: Context, m: Message, i: nat, x: Note)
    requires (k == Aborts || k == FxAborts) && Pends(k, m, i) && RuleOf(k, acc, c)(m).Ok?
    ensures x in RuleOf(k, acc, c)(m).value.notes <==> Tells(k, acc.states, m, x)
  {
    LastIff(m);
    NextIs(k, c, m, i);
    PatchesTold(m.cyril.value.patches, AbortedError, x);
    ErrorsTold(m, i, x);
  }

  lemma ErrorsTold(m: Message, i: nat, x: Note)
    requires m.cyril.Some? && i < |m.cyril.value.hops|
    ensures var all := AbortNotes(m, MarkDone(m.cyril.value.hops, i)) + ExtraNotes(m, m.cyril.value.extras);
            x in all <==> x.Failure? && AbortTells(m, x.id, x.to, x.from)
  {
    HopsTell(m, MarkDone(m.cyril.value.hops, i), x);
    SameTold(m, i, x);
    ExtrasTell(m, m.cyril.value.extras, x);
    if x.Failure? {
      if h :| h in m.cyril.value.hops && HopTells(m, h, x) {
        assert h.id == x.id;
      }
    }
  }

  /** Every message of a stage that goes through is answered by exactly what it is about. */
  lemma MessageAnswers(k: Kind, acc: Acc, c: Context, m: Message)
    requires RuleOf(k, acc, c)(m).Ok?
    ensures Answers(k, acc.states, c, m, RuleOf(k, acc, c)(m).value)
  {
    if k == Timeouts || k == FxTimeouts {
      TimeoutAnswers(k, acc, c, m);
    } else if k == Fulfils && (!Goes(k, acc.states, m) || !Converts(m)) {
      PlainAnswers(acc, c, m);
    } else {
      var i := FirstPending(m.cyril.value.hops);
      RemittanceLogs(k, acc, c, m, i);
      forall x
        ensures x in RuleOf(k, acc, c)(m).value.notes <==> Tells(k, acc.states, m, x)
      {
        if k == Fulfils {
          FulfilTells(acc, c, m, i, x);
        } else {
          AbortTellsAll(k, acc, c, m, i, x);
        }
      }
    }
  }

  // ----- one stage

  function Told(): Effect -> seq<Note> {
    (e: Effect) => e.notes
  }

  function Changed(isFx: bool): Effect -> seq<StateChange> {
    (e: Effect) => if isFx then e.fxChanges else e.changes
  }

  function Sent(): Effect -> seq<Message> {
    (e: Effect) => if e.followUp.Some? then [e.followUp.value] else []
  }

  function Moving(): Effect -> seq<Movement> {
    (e: Effect) => if e.movement.Some? then [e.movement.value] else []
  }

  ghost predicate Entered(entries: seq<Entry>, movements: seq<Movement>, reserved: int) {
    && |entries| == |movements|
    && forall n :: 0 <= n < |entries| ==>
         && entries[n].id == movements[n].id && entries[n].isFx == movements[n].isFx
         && entries[n].change == movements[n].change && entries[n].reserved == reserved
  }

  /** Applying effects appends what each of them brings, in order, and nothing else. */
  lemma {:induction false} AllApplied(acc: Acc, charging: bool, reserved: int, es: seq<Effect>)
    ensures Appended(acc, charging, reserved, es, ApplyAll(acc, charging, reserved, es))
  {
    if es != [] {
      var n := |es| - 1;
      AllApplied(acc, charging, reserved, es[..n]);
      AppliedOne(acc, charging, reserved, es[..n], ApplyAll(acc, charging, reserved, es[..n]), es[n]);
      assert es[..n] + [es[n]] == es;
    }
  }

  ghost predicate Appended(acc: Acc, charging: bool, reserved: int, es: seq<Effect>, r: Acc) {
    && r.notes == acc.notes + FlatMap(Told(), es)
    && r.changes == acc.changes + FlatMap(Changed(false), es)
    && r.fxChanges == acc.fxChanges + FlatMap(Changed(true), es)
    && r.followUps == acc.followUps + FlatMap(Sent(), es)
    && acc.entries <= r.entries
    && Entered(r.entries[|acc.entries|..], if charging then FlatMap(Moving(), es) else [], reserved)
  }

  lemma AppliedOne(acc: Acc, charging: bool, reserved: int, es: seq<Effect>, before: Acc, e: Effect)
    requires Appended(acc, charging, reserved, es, before)
    ensures Appended(acc, charging, reserved, es + [e], Apply(before, charging, reserved, e))
  {
    OneAppended(Told(), acc.notes, es, e);
    OneAppended(Changed(false), acc.changes, es, e);
    OneAppended(Changed(true), acc.fxChanges, es, e);
    OneAppended(Sent(), acc.followUps, es, e);
    FlatMapSnoc(Moving(), es, e);
    EntryApplied(acc, before, charging, reserved, FlatMap(Moving(), es), e);
  }

  lemma OneAppended<T>(f: Effect -> seq<T>, first: seq<T>, es: seq<Effect>, e: Effect)
    ensures first + FlatMap(f, es + [e]) == first + FlatMap(f, es) + f(e)
  {
    FlatMapSnoc(f, es, e);
  }

  lemma EntryApplied(acc: Acc, before: Acc, charging: bool, reserved: int, movements: seq<Movement>, e: Effect)
    requires acc.entries <= before.entries
    requires Entered(before.entries[|acc.entries|..], if charging then movements else [], reserved)
    ensures var r := Apply(before, charging, reserved, e);
            && acc.entries <= r.entries
            && Entered(r.entries[|acc.entries|..], if charging then movements + Moving()(e) else [], reserved)
  {
    if charging && e.movement.Some? {
      var moved := e.movement.value;
      TailSnoc(acc.entries, before.entries, Entry(moved.id, moved.isFx, before.position + moved.delta, moved.change, reserved));
    } else {
      NothingAdded(before.entries);
    }
  }

  /** Some message of the list tells it. */
  ghost predicate SomeTells(k: Kind, s: States, ms: seq<Message>, x: Note) {
    exists m :: m in ms && Tells(k, s, m, x)
  }

  /** Some message of the list that passes logs it. */
  ghost predicate SomeLogs(k: Kind, s: States, c: Context, ms: seq<Message>, isFx: bool, x: StateChange) {
    exists m :: m in ms && Goes(k, s, m) && Logs(k, c, m, isFx, x)
  }

  /** The messages that pass the guard, in order. */
  function PassingOf(k: Kind, s: States, ms: seq<Message>): seq<Message> {
    if ms == [] then []
    else PassingOf(k, s, ms[..|ms| - 1]) + if Goes(k, s, ms[|ms| - 1]) then [ms[|ms| - 1]] else []
  }

  /** Those of them that get a ledger entry. */
  function Entering(k: Kind, s: States, c: Context, ms: seq<Message>): seq<Message> {
    if c.charging then PassingOf(k, s, ms) else []
  }

  /** One entry for each of the messages, of what it moves. */
  ghost predicate EntriesFor(k: Kind, c: Context, ms: seq<Message>, entries: seq<Entry>) {
    && |entries| == |ms|
    && forall n :: 0 <= n < |ms| ==>
         Moves(k, c, ms[n], entries[n].isFx, entries[n].id, entries[n].change) && entries[n].reserved == c.account.reserved
  }

  /**
   What a stage that goes through tells, logs and enters: exactly what its messages tell and what those that pass its
   guard log, and one ledger entry for each of these, if positions are charged.
   */
  ghost predicate StageTells(k: Kind, acc: Acc, c: Context, ms: seq<Message>, r: Acc) {
    && (forall x :: x in r.notes <==> x in acc.notes || SomeTells(k, acc.states, ms, x))
    && (forall x :: x in r.changes <==> x in acc.changes || SomeLogs(k, acc.states, c, ms, false, x))
    && (forall x :: x in r.fxChanges <==> x in acc.fxChanges || SomeLogs(k, acc.states, c, ms, true, x))
    && acc.entries <= r.entries
    && EntriesFor(k, c, Entering(k, acc.states, c, ms), r.entries[|acc.entries|..])
  }

  lemma {:induction false} StageOutcome(k: Kind, acc: Acc, c: Context, ms: seq<Message>)
    requires Batched(acc, c, k, ms).Ok?
    ensures StageTells(k, acc, c, ms, Batched(acc, c, k, ms).value)
  {
    if ms != [] {
      var n := |ms| - 1;
      StageOneMore(k, acc, c, ms);
      StageOutcome(k, acc, c, ms[..n]);
      MessageAnswers(k, acc, c, ms[n]);
      NextTells(k, acc, c, ms[..n], Batched(acc, c, k, ms[..n]).value, ms[n], RuleOf(k, acc, c)(ms[n]).value);
      UpToLast(ms);
    }
  }

  lemma StageOneMore(k: Kind, acc: Acc, c: Context, ms: seq<Message>)
    requires ms != [] && Batched(acc, c, k, ms).Ok?
    ensures var n, rule := |ms| - 1, RuleOf(k, acc, c);
            && Batched(acc, c, k, ms[..n]).Ok? && rule(ms[n]).Ok?
            && Batched(acc, c, k, ms).value ==
                 Apply(Batched(acc, c, k, ms[..n]).value, c.charging, c.account.reserved, rule(ms[n]).value)
  {
    OneMore(acc, c.charging, c.account.reserved, RuleOf(k, acc, c), ms);
  }

  lemma NextTells(k: Kind, acc: Acc, c: Context, ms: seq<Message>, r: Acc, m: Message, e: Effect)
    requires StageTells(k, acc, c, ms, r) && Answers(k, acc.states, c, m, e)
    ensures StageTells(k, acc, c, ms + [m], Apply(r, c.charging, c.account.reserved, e))
  {
    var next := Apply(r, c.charging, c.account.reserved, e);
    forall x
      ensures x in next.notes <==> x in acc.notes || SomeTells(k, acc.states, ms + [m], x)
    {
      assert SomeTells(k, acc.states, ms + [m], x) <==> SomeTells(k, acc.states, ms, x) || Tells(k, acc.states, m, x);
    }
    forall x
      ensures x in next.changes <==> x in acc.changes || SomeLogs(k, acc.states, c, ms + [m], false, x)
      ensures x in next.fxChanges <==> x in acc.fxChanges || SomeLogs(k, acc.states, c, ms + [m], true, x)
    {
      LogsMore(k, acc.states, c, ms, m, false, x);
      LogsMore(k, acc.states, c, ms, m, true, x);
    }
    EntriesMore(k, acc, c, ms, r, m, e);
  }

  lemma LogsMore(k: Kind, s: States, c: Context, ms: seq<Message>, m: Message, isFx: bool, x: StateChange)
    ensures SomeLogs(k, s, c, ms + [m], isFx, x)
            <==> SomeLogs(k, s, c, ms, isFx, x) || (Goes(k, s, m) && Logs(k, c, m, isFx, x))
  {
  }

  lemma EntriesMore(k: Kind, acc: Acc, c: Context, ms: seq<Message>, r: Acc, m: Message, e: Effect)
    requires acc.entries <= r.entries && MovesRightly(k, acc.states, c, m, e)
    requires EntriesFor(k, c, Entering(k, acc.states, c, ms), r.entries[|acc.entries|..])
    ensures var next := Apply(r, c.charging, c.account.reserved, e);
            && acc.entries <= next.entries
            && EntriesFor(k, c, Entering(k, acc.states, c, ms + [m]), next.entries[|acc.entries|..])
  {
    EnteringSnoc(k, acc.states, c, ms, m);
    if c.charging && e.movement.Some? {
      OneEntered(k, acc, c, Entering(k, acc.states, c, ms), r, m, e);
    } else {
      NothingAdded(r.entries);
    }
  }

  lemma OneEntered(k: Kind, acc: Acc, c: Context, before: seq<Message>, r: Acc, m: Message, e: Effect)
    requires acc.entries <= r.entries && MovesRightly(k, acc.states, c, m, e) && c.charging && e.movement.Some?
    requires EntriesFor(k, c, before, r.entries[|acc.entries|..])
    ensures var next := Apply(r, c.charging, c.account.reserved, e);
            acc.entries <= next.entries && EntriesFor(k, c, before + [m], next.entries[|acc.entries|..])
  {
    var moved := e.movement.value;
    var entry := Entry(moved.id, moved.isFx, r.position + moved.delta, moved.change, c.account.reserved);
    TailSnoc(acc.entries, r.entries, entry);
    EntriesSnoc(k, c, before, r.entries[|acc.entries|..], m, entry);
  }

  lemma EnteringSnoc(k: Kind, s: States, c: Context, ms: seq<Message>, m: Message)
    ensures Entering(k, s, c, ms + [m]) ==
              if c.charging && Goes(k, s, m) then Entering(k, s, c, ms) + [m] else Entering(k, s, c, ms)
  {
    PassingSnoc(k, s, ms, m);
  }

  lemma TailSnoc<T>(a: seq<T>, b: seq<T>, x: T)
    requires a <= b
    ensures a <= b + [x] && (b + [x])[|a|..] == b[|a|..] + [x]
  {
  }

  lemma NothingAdded<T>(s: seq<T>)
    ensures s + [] == s
  {
  }

  lemma PassingSnoc(k: Kind, s: States, ms: seq<Message>, m: Message)
    ensures PassingOf(k, s, ms + [m]) == PassingOf(k, s, ms) + if Goes(k, s, m) then [m] else []
  {
    assert (ms + [m])[..|ms|] == ms;
  }

  lemma EntriesSnoc(k: Kind, c: Context, ms: seq<Message>, entries: seq<Entry>, m: Message, e: Entry)
    requires EntriesFor(k, c, ms, entries) && Moves(k, c, m, e.isFx, e.id, e.change) && e.reserved == c.account.reserved
    ensures EntriesFor(k, c, ms + [m], entries + [e])
  {
  }

  // ----- the whole bin

  function KindChanges(acc: Acc, isFx: bool): seq<StateChange> {
    if isFx then acc.fxChanges else acc.changes
  }

  /** A stage tells and logs what its messages do, judged by any states that its fulfils are judged by. */
  lemma StageTold(k: Kind, acc: Acc, c: Context, ms: seq<Message>, s: States, x: Note) returns (r: Acc)
    requires Batched(acc, c, k, ms).Ok? && (k == Fulfils ==> acc.states == s)
    ensures Batched(acc, c, k, ms) == Ok(r) && (x in r.notes <==> x in acc.notes || SomeTells(k, s, ms, x))
  {
    r := Batched(acc, c, k, ms).value;
    StageOutcome(k, acc, c, ms);
    SameTells(k, acc.states, s, ms, x);
  }

  lemma StageLogged(k: Kind, acc: Acc, c: Context, ms: seq<Message>, s: States, isFx: bool, y: StateChange) returns (r: Acc)
    requires Batched(acc, c, k, ms).Ok? && (k == Fulfils ==> acc.states == s)
    ensures Batched(acc, c, k, ms) == Ok(r)
    ensures y in KindChanges(r, isFx) <==> y in KindChanges(acc, isFx) || SomeLogs(k, s, c, ms, isFx, y)
  {
    r := Batched(acc, c, k, ms).value;
    StageOutcome(k, acc, c, ms);
    SameLogs(k, acc.states, s, c, ms, isFx, y);
  }

  lemma SameTells(k: Kind, u: States, v: States, ms: seq<Message>, x: Note)
    requires k == Fulfils ==> u == v
    ensures SomeTells(k, u, ms, x) <==> SomeTells(k, v, ms, x)
  {
    if k != Fulfils {
      assert forall m :: Tells(k, u, m, x) <==> Tells(k, v, m, x);
    }
  }

  lemma SameLogs(k: Kind, u: States, v: States, c: Context, ms: seq<Message>, isFx: bool, y: StateChange)
    requires k == Fulfils ==> u == v
    ensures SomeLogs(k, u, c, ms, isFx, y) <==> SomeLogs(k, v, c, ms, isFx, y)
  {
  }

  /** Told by one of the stages between the fx stages and the reservations. */
  ghost predicate MiddleTells(s: States, bin: Bin, x: Note) {
    || SomeTells(Fulfils, s, bin.fulfils, x) || SomeTells(Aborts, s, bin.aborts, x)
    || SomeTells(FxAborts, s, bin.fxAborts, x) || SomeTells(Timeouts, s, bin.timeouts, x)
  }

  ghost predicate MiddleLogs(s: States, c: Context, bin: Bin, isFx: bool, y: StateChange) {
    || SomeLogs(Fulfils, s, c, bin.fulfils, isFx, y) || SomeLogs(Aborts, s, c, bin.aborts, isFx, y)
    || SomeLogs(FxAborts, s, c, bin.fxAborts, isFx, y) || SomeLogs(Timeouts, s, c, bin.timeouts, isFx, y)
  }

  lemma MiddleTold(acc: Acc, c: Context, bin: Bin, x: Note)
    requires Middle(acc, c, bin).Ok?
    ensures x in Middle(acc, c, bin).value.notes <==> x in acc.notes || MiddleTells(acc.states, bin, x)
  {
    var s := acc.states;
    var a1 := StageTold(Fulfils, acc, c, bin.fulfils, s, x);
    var a2 := StageTold(Aborts, a1, c, bin.aborts, s, x);
    var a3 := StageTold(FxAborts, a2, c, bin.fxAborts, s, x);
    var a4 := StageTold(Timeouts, a3, c, bin.timeouts, s, x);
  }

  lemma MiddleLogged(acc: Acc, c: Context, bin: Bin, isFx: bool, y: StateChange)
    requires Middle(acc, c, bin).Ok?
    ensures y in KindChanges(Middle(acc, c, bin).value, isFx)
            <==> y in KindChanges(acc, isFx) || MiddleLogs(acc.states, c, bin, isFx, y)
  {
    var s := acc.states;
    var a1 := StageLogged(Fulfils, acc, c, bin.fulfils, s, isFx, y);
    var a2 := StageLogged(Aborts, a1, c, bin.aborts, s, isFx, y);
    var a3 := StageLogged(FxAborts, a2, c, bin.fxAborts, s, isFx, y);
    var a4 := StageLogged(Timeouts, a3, c, bin.timeouts, s, isFx, y);
  }

  /** Told by the bin, reservations aside. */
  ghost predicate BinTells(s: States, f: States, bin: Bin, x: Note) {
    || SomeTells(FxTimeouts, s, bin.fxTimeouts, x)
    || (x.FxFulfilNote? && x.fxFulfil in FxFulfil.Notifications(f, bin.fxReserves))
    || MiddleTells(s, bin, x)
  }

  ghost predicate BinLogs(s: States, f: States, c: Context, bin: Bin, isFx: bool, y: StateChange) {
    || SomeLogs(FxTimeouts, s, c, bin.fxTimeouts, isFx, y)
    || (isFx && y in FxFulfil.Changes(f, bin.fxReserves))
    || MiddleLogs(s, c, bin, isFx, y)
  }

  lemma FxNotesTold(ns: seq<FxFulfil.Notification>, x: Note)
    ensures x in FxFulfilNotes(ns) <==> x.FxFulfilNote? && x.fxFulfil in ns
  {
    if x.FxFulfilNote? && x.fxFulfil in ns {
      var i :| 0 <= i < |ns| && ns[i] == x.fxFulfil;
      assert FxFulfilNotes(ns)[i] == x;
    }
  }

  lemma FrontTold(position: int, s: States, f: States, c: Context, bin: Bin, x: Note)
    requires Front(Start(position, s, f), c, bin).Ok?
    ensures x in Front(Start(position, s, f), c, bin).value.notes
            <==> || SomeTells(FxTimeouts, s, bin.fxTimeouts, x)
                 || (x.FxFulfilNote? && x.fxFulfil in FxFulfil.Notifications(f, bin.fxReserves))
  {
    var a := StageTold(FxTimeouts, Start(position, s, f), c, bin.fxTimeouts, s, x);
    FxNotesTold(FxFulfil.Notifications(f, bin.fxReserves), x);
  }

  lemma FrontLogged(position: int, s: States, f: States, c: Context, bin: Bin, isFx: bool, y: StateChange)
    requires Front(Start(position, s, f), c, bin).Ok?
    ensures y in KindChanges(Front(Start(position, s, f), c, bin).value, isFx)
            <==> || SomeLogs(FxTimeouts, s, c, bin.fxTimeouts, isFx, y)
                 || (isFx && y in FxFulfil.Changes(f, bin.fxReserves))
  {
    var a := StageLogged(FxTimeouts, Start(position, s, f), c, bin.fxTimeouts, s, isFx, y);
  }

  lemma FrontKeepsStates(position: int, s: States, f: States, c: Context, bin: Bin)
    requires Front(Start(position, s, f), c, bin).Ok?
    ensures Front(Start(position, s, f), c, bin).value.states == s
  {
    FxTimeoutsKeepStates(Start(position, s, f), c.charging, c.account.reserved, f, c.reserves, bin.fxTimeouts);
  }

  lemma {:induction false} TimeoutsFail(start: Acc, c: Context, ms: seq<Message>, i: nat)
    requires start.notes == [] && Batched(start, c, FxTimeouts, ms).Ok? && i < |ms|
    ensures var notes := Batched(start, c, FxTimeouts, ms).value.notes;
            |notes| == |ms| && notes[i] == Failure(ms[i].id, ms[i].to, ms[i].from)
  {
    var n := |ms| - 1;
    StageOneMore(FxTimeouts, start, c, ms);
    if n > 0 {
      TimeoutsFail(start, c, ms[..n], if i < n then i else 0);
    }
  }

  /** The notes of the two fx stages in order: of each timeout, and then of each fulfil. */
  lemma FrontNotes(position: int, s: States, f: States, c: Context, bin: Bin, i: nat)
    requires Front(Start(position, s, f), c, bin).Ok? && i < |bin.fxTimeouts| + |bin.fxReserves|
    ensures var notes, n := Front(Start(position, s, f), c, bin).value.notes, |bin.fxTimeouts|;
            && |notes| == n + |bin.fxReserves|
            && notes[i] ==
                 if i < n then Failure(bin.fxTimeouts[i].id, bin.fxTimeouts[i].to, bin.fxTimeouts[i].from)
                 else FxFulfilNote(FxFulfil.Notifications(f, bin.fxReserves)[i - n])
  {
    var n := |bin.fxTimeouts|;
    if n > 0 {
      TimeoutsFail(Start(position, s, f), c, bin.fxTimeouts, if i < n then i else 0);
    }
  }

  /**
   What a bin that succeeds tells and logs before its reservations is exactly what its messages tell and log. The
   fulfils are judged by the states the bin was given; any other message that the guard of its stage does not let pass
   would have failed the bin.
   */
  lemma BinOutcome(position: int, s: States, f: States, c: Context, bin: Bin, x: Note, isFx: bool, y: StateChange)
    requires Process(Start(position, s, f), c, bin).Ok? && !x.ReservationNote?
    ensures var r := Process(Start(position, s, f), c, bin).value;
            && (x in r.notes <==> BinTells(s, f, bin, x))
            && var reserving := if isFx then bin.fxPrepares else bin.prepares;
            && |reserving| <= |KindChanges(r, isFx)|
            && (y in KindChanges(r, isFx)[..|KindChanges(r, isFx)| - |reserving|] <==> BinLogs(s, f, c, bin, isFx, y))
  {
    var front := Front(Start(position, s, f), c, bin).value;
    FrontTold(position, s, f, c, bin, x);
    FrontLogged(position, s, f, c, bin, isFx, y);
    FrontKeepsStates(position, s, f, c, bin);
    MiddleTold(front, c, bin, x);
    MiddleLogged(front, c, bin, isFx, y);
    var middle := Middle(front, c, bin).value;
    ReserveAdds(middle, c, false, bin.prepares, x, isFx);
    ReserveAdds(ReserveStage(middle, c, false, bin.prepares), c, true, bin.fxPrepares, x, isFx);
  }

  /** A reservation stage appends one change of its own kind for each request, and only notes of its own. */
  lemma ReserveAdds(acc: Acc, c: Context, own: bool, rs: seq<Reservation.Request>, x: Note, isFx: bool)
    requires !x.ReservationNote?
    ensures var r := ReserveStage(acc, c, own, rs);
            && (x in r.notes <==> x in acc.notes)
            && (own != isFx ==> KindChanges(r, isFx) == KindChanges(acc, isFx))
            && (own == isFx ==> KindChanges(acc, isFx) <= KindChanges(r, isFx)
                                && |KindChanges(r, isFx)| == |KindChanges(acc, isFx)| + |rs|)
  {
    var base := if own then acc.fxStates else acc.states;
    if rs != [] {
      Reservation.OneOutcomeEach(base, c.account, acc.position, c.charging, rs, 0);
    }
  }

  /** Each request is told of its own outcome, in order, and the state change logged for it says the same. */
  lemma ReserveTells(acc: Acc, c: Context, isFx: bool, rs: seq<Reservation.Request>, i: nat)
    requires i < |rs|
    ensures var r := ReserveStage(acc, c, isFx, rs);
            && |r.notes| == |acc.notes| + |rs| && acc.notes <= r.notes
            && |KindChanges(r, isFx)| == |KindChanges(acc, isFx)| + |rs|
            && var note, change := r.notes[|acc.notes| + i], KindChanges(r, isFx)[|KindChanges(acc, isFx)| + i];
            && note.ReservationNote? && note.reservation.id == change.id == rs[i].id
            && if change.state == TransferState.Reserved
               then note.reservation.to == rs[i].payee && note.reservation.from == rs[i].payer
               else note.reservation.to == rs[i].payer && note.reservation.from == HUB_NAME
  {
    var base := if isFx then acc.fxStates else acc.states;
    Reservation.OneOutcomeEach(base, c.account, acc.position, c.charging, rs, i);
  }

  ghost predicate GrantedEntry(c: Context, isFx: bool, r: Reservation.Request, e: Entry) {
    e.id == r.id && e.isFx == isFx && Reservation.Moves(r, e.change) && e.reserved == c.account.reserved
  }

  /** A charged reservation stage enters one movement for each granted request, of what the request is about. */
  lemma ReserveEnters(acc: Acc, c: Context, isFx: bool, rs: seq<Reservation.Request>)
    requires c.charging
    ensures var base := if isFx then acc.fxStates else acc.states;
            var verdicts := Reservation.RunBin(base, c.account, acc.position, true, rs).verdicts;
            var r := ReserveStage(acc, c, isFx, rs);
            && |verdicts| == |rs| && acc.entries <= r.entries
            && var granted, added := Reservation.GrantedOf(rs, verdicts), r.entries[|acc.entries|..];
            && |added| == |granted|
            && forall k :: 0 <= k < |added| ==> GrantedEntry(c, isFx, granted[k], added[k])
  {
    var base := if isFx then acc.fxStates else acc.states;
    var run := Reservation.RunBin(base, c.account, acc.position, true, rs);
    Reservation.EntriesCharge(base, c.account, acc.position, rs);
    DropPrefix(acc.entries, ReservationEntries(run.entries, isFx));
    forall k | 0 <= k < |run.entries|
      ensures GrantedEntry(c, isFx, Reservation.GrantedOf(rs, run.verdicts)[k], ReservationEntries(run.entries, isFx)[k])
    {
      assert Reservation.EntryOf(c.account, Reservation.GrantedOf(rs, run.verdicts)[k], run.entries[k]);
    }
  }
}
