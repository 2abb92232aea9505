/**
 What one account bin keeps: its change logs describe its state maps, its ledger entries are chained, and its
 final position is accounted for message by message.
 */
module AccountBinLaws {
  import opened Ledger
  import opened Sequences
  import opened AccountBin
  import FxFulfil
  import Reservation

  // ----- the change logs account for the state maps

  ghost predicate Recorded(states: States, fxStates: States, acc: Acc) {
    acc.states == Replay(states, acc.changes) && acc.fxStates == Replay(fxStates, acc.fxChanges)
  }

  lemma {:induction false} ApplyAllRecorded(s: States, f: States, acc: Acc, charging: bool, reserved: int, es: seq<Effect>)
    requires Recorded(s, f, acc)
    ensures Recorded(s, f, ApplyAll(acc, charging, reserved, es))
  {
    if es != [] {
      var before := ApplyAll(acc, charging, reserved, es[..|es| - 1]);
      ApplyAllRecorded(s, f, acc, charging, reserved, es[..|es| - 1]);
      ReplayConcat(s, before.changes, es[|es| - 1].changes);
      ReplayConcat(f, before.fxChanges, es[|es| - 1].fxChanges);
    }
  }

  lemma ReserveRecorded(s: States, f: States, acc: Acc, c: Context, isFx: bool, rs: seq<Reservation.Request>)
    requires Recorded(s, f, acc)
    ensures Recorded(s, f, ReserveStage(acc, c, isFx, rs))
  {
    var base := if isFx then acc.fxStates else acc.states;
    var run := Reservation.RunBin(base, c.account, acc.position, c.charging, rs);
    Reservation.ChangesReplay(base, c.account, acc.position, c.charging, rs);
    ReplayConcat(if isFx then f else s, if isFx then acc.fxChanges else acc.changes, run.changes);
    assert acc.changes + [] == acc.changes && acc.fxChanges + [] == acc.fxChanges;
  }

  /** The movement is recorded as it was made. */
  ghost predicate Plain(e: Effect) {
    e.movement.Some? ==> e.movement.value.delta == e.movement.value.change
  }

  lemma {:induction false} ApplyAllConcat(acc: Acc, charging: bool, reserved: int, a: seq<Effect>, b: seq<Effect>)
    ensures ApplyAll(acc, charging, reserved, a + b) == ApplyAll(ApplyAll(acc, charging, reserved, a), charging, reserved, b)
  {
    if b == [] {
      assert a + b == a;
    } else {
      ApplyAllConcat(acc, charging, reserved, a, b[..|b| - 1]);
      assert (a + b)[..|a + b| - 1] == a + b[..|b| - 1];
    }
  }

  lemma {:induction false} EffectsSatisfy(f: Message -> Result<Effect>, ms: seq<Message>, p: Effect -> bool)
    requires Effects(f, ms).Ok?
    requires forall m :: f(m).Ok? ==> p(f(m).value)
    ensures |Effects(f, ms).value| == |ms|
    ensures forall e :: e in Effects(f, ms).value ==> p(e)
  {
    if ms != [] {
      EffectsSatisfy(f, ms[..|ms| - 1], p);
    }
  }

  /** Every rule but that of the fx timeouts only makes plain effects. */
  ghost predicate PlainRule(f: Message -> Result<Effect>) {
    forall m :: f(m).Ok? ==> Plain(f(m).value)
  }

  lemma PlainRules(amounts: map<Id, int>)
    ensures forall states :: PlainRule(FulfilRule(states, amounts)) && PlainRule(TimeoutRule(states, amounts))
    ensures forall states, fxStates, isFx :: PlainRule(AbortRule(states, fxStates, isFx))
  {
  }

  /** Between the fx stages and the reservations, a bin only applies plain effects. */
  lemma MiddleEffects(acc: Acc, c: Context, bin: Bin) returns (es: seq<Effect>)
    requires Middle(acc, c, bin).Ok?
    ensures Middle(acc, c, bin).value == ApplyAll(acc, c.charging, c.account.reserved, es)
    ensures forall e :: e in es ==> Plain(e)
  {
    var charging, reserved := c.charging, c.account.reserved;
    PlainRules(c.amounts);
    var e1 := PlainStage(acc, charging, reserved, FulfilRule(acc.states, c.amounts), bin.fulfils);
    var a := ApplyAll(acc, charging, reserved, e1);
    var e2 := PlainStage(a, charging, reserved, AbortRule(a.states, a.fxStates, false), bin.aborts);
    var b := ApplyAll(a, charging, reserved, e2);
    var e3 := PlainStage(b, charging, reserved, AbortRule(b.states, b.fxStates, true), bin.fxAborts);
    var d := ApplyAll(b, charging, reserved, e3);
    var e4 := PlainStage(d, charging, reserved, TimeoutRule(d.states, c.amounts), bin.timeouts);
    ApplyFour(acc, charging, reserved, e1, e2, e3, e4);
    es := e1 + e2 + e3 + e4;
  }

  lemma ApplyFour(acc: Acc, charging: bool, reserved: int, e1: seq<Effect>, e2: seq<Effect>, e3: seq<Effect>, e4: seq<Effect>)
    ensures ApplyAll(acc, charging, reserved, e1 + e2 + e3 + e4) ==
              ApplyAll(ApplyAll(ApplyAll(ApplyAll(acc, charging, reserved, e1), charging, reserved, e2),
                                charging, reserved, e3), charging, reserved, e4)
  {
    ApplyAllConcat(acc, charging, reserved, e1, e2);
    ApplyAllConcat(acc, charging, reserved, e1 + e2, e3);
    ApplyAllConcat(acc, charging, reserved, e1 + e2 + e3, e4);
  }

  lemma PlainStage(acc: Acc, charging: bool, reserved: int, f: Message -> Result<Effect>, ms: seq<Message>)
    returns (es: seq<Effect>)
    requires Effects(f, ms).Ok?
    requires PlainRule(f)
    ensures Stage(acc, charging, reserved, f, ms) == Ok(ApplyAll(acc, charging, reserved, es))
    ensures forall e :: e in es ==> Plain(e)
  {
    es := Effects(f, ms).value;
    EffectsSatisfy(f, ms, e => Plain(e));
  }

  /** Each kind of state changes, replayed on the states the rest of the bin starts from, gives the final states. */
  lemma RestRecorded(s: States, f: States, acc: Acc, c: Context, bin: Bin)
    requires Recorded(s, f, acc)
    ensures Rest(acc, c, bin).Ok? ==> Recorded(s, f, Rest(acc, c, bin).value)
  {
    if Middle(acc, c, bin).Ok? {
      var es := MiddleEffects(acc, c, bin);
      ApplyAllRecorded(s, f, acc, c.charging, c.account.reserved, es);
      var a := Middle(acc, c, bin).value;
      ReserveRecorded(s, f, a, c, false, bin.prepares);
      ReserveRecorded(s, f, ReserveStage(a, c, false, bin.prepares), c, true, bin.fxPrepares);
    }
  }

  // ----- the fx timeouts' states are dropped from the map, and nobody notices

  /** The changes a bin of fx timeouts emits. */
  function ExpiredChanges(ms: seq<Message>): seq<StateChange> {
    seq(|ms|, i requires 0 <= i < |ms| => StateChange(ms[i].id, ExpiredReserved, TransferExpiredReason))
  }

  lemma {:induction false} FxTimeoutStage(start: Acc, charging: bool, reserved: int, reserves: Reserves, ms: seq<Message>)
    ensures var r := Stage(start, charging, reserved, FxTimeoutRule(start.fxStates, reserves), ms);
            r.Ok? ==>
              && r.value.fxStates == Replay(start.fxStates, ExpiredChanges(ms))
              && r.value.fxChanges == start.fxChanges + ExpiredChanges(ms)
              && r.value.states == start.states && r.value.changes == start.changes
              && forall m :: m in ms ==> Lookup(start.fxStates, m.id) == Some(ReservedTimeout)
  {
    var rule := FxTimeoutRule(start.fxStates, reserves);
    if ms != [] && Effects(rule, ms).Ok? {
      var init, m := ms[..|ms| - 1], ms[|ms| - 1];
      FxTimeoutStage(start, charging, reserved, reserves, init);
      var es, e := Effects(rule, init).value, rule(m).value;
      assert (es + [e])[..|es|] == es;
      assert ms == init + [m];
      assert ExpiredChanges(ms) == ExpiredChanges(init) + e.fxChanges;
      ReplayConcat(start.fxStates, ExpiredChanges(init), e.fxChanges);
      assert ApplyAll(start, charging, reserved, es).changes + [] == ApplyAll(start, charging, reserved, es).changes;
    }
  }

  ghost predicate Covered(timeouts: seq<Message>, fulfils: seq<FxFulfil.Message>) {
    forall t :: t in timeouts ==> exists m :: m in fulfils && m.id == t.id
  }

  /**
   After the two fx stages the in-memory map equals the replay of the emitted changes if and only if
   every timed out fx transfer also has a fulfil in the same bin.
   */
  lemma TimeoutStatesDropped(position: int, s: States, f: States, c: Context, bin: Bin)
    requires Front(Start(position, s, f), c, bin).Ok?
    ensures var acc := Front(Start(position, s, f), c, bin).value;
            acc.fxStates == Replay(f, acc.fxChanges) <==> Covered(bin.fxTimeouts, bin.fxReserves)
  {
    var start := Start(position, s, f);
    FxTimeoutStage(start, c.charging, c.account.reserved, c.reserves, bin.fxTimeouts);
    var acc := Front(start, c, bin).value;
    var expired, rejected := ExpiredChanges(bin.fxTimeouts), FxFulfil.Changes(f, bin.fxReserves);
    ReplayConcat(f, expired, rejected);
    assert [] + expired == expired;
    FxFulfil.ReplayIsFinal(f, bin.fxReserves);
    if Covered(bin.fxTimeouts, bin.fxReserves) {
      forall id
        ensures Lookup(Replay(Replay(f, expired), rejected), id) == Lookup(Replay(f, rejected), id)
      {
        ReplayAfterCovered(f, bin.fxTimeouts, bin.fxReserves, id);
      }
      SameLookups(Replay(Replay(f, expired), rejected), Replay(f, rejected));
    } else {
      var t :| t in bin.fxTimeouts && forall m :: m in bin.fxReserves ==> m.id != t.id;
      TimedOutOnly(f, bin.fxTimeouts, bin.fxReserves, t);
    }
  }

  lemma SameLookups(u: States, v: States)
    requires forall id :: Lookup(u, id) == Lookup(v, id)
    ensures u == v
  {
    forall id
      ensures id in u <==> id in v
      ensures id in u ==> u[id] == v[id]
    {
      assert Lookup(u, id) == Lookup(v, id);
    }
  }

  /** A replay over two maps that agree on an id, or over a log that changes it, agrees on it afterwards. */
  lemma {:induction false} ReplayAgree(u: States, v: States, log: seq<StateChange>, id: Id)
    ensures Lookup(u, id) == Lookup(v, id) || (exists c :: c in log && c.id == id) ==>
              Lookup(Replay(u, log), id) == Lookup(Replay(v, log), id)
  {
    if log != [] {
      var init, last := log[..|log| - 1], log[|log| - 1];
      assert log == init + [last];
      ReplayAgree(u, v, init, id);
    }
  }

  lemma RejectionInLog(f: States, ms: seq<FxFulfil.Message>, m: FxFulfil.Message)
    requires m in ms && FxFulfil.Rejected(f, m)
    ensures exists c :: c in FxFulfil.Changes(f, ms) && c.id == m.id
  {
    var c := StateChange(m.id, AbortedRejected, IncorrectStateReason);
    assert c in FxFulfil.ChangesFor(f)(m);
    FlatMapMembers(FxFulfil.ChangesFor(f), ms, c);
  }

  lemma ReplayAfterCovered(f: States, timeouts: seq<Message>, fulfils: seq<FxFulfil.Message>, id: Id)
    requires Covered(timeouts, fulfils)
    requires forall m :: m in timeouts ==> Lookup(f, m.id) == Some(ReservedTimeout)
    ensures var expired, rejected := ExpiredChanges(timeouts), FxFulfil.Changes(f, fulfils);
            Lookup(Replay(Replay(f, expired), rejected), id) == Lookup(Replay(f, rejected), id)
  {
    var expired, rejected := ExpiredChanges(timeouts), FxFulfil.Changes(f, fulfils);
    ReplayLookup(f, expired, id);
    ReplayAgree(Replay(f, expired), f, rejected, id);
    if c :| c in expired && c.id == id {
      var t :| t in timeouts && t.id == id;
      var m :| m in fulfils && m.id == id;
      RejectionInLog(f, fulfils, m);
    }
  }

  lemma TimedOutOnly(f: States, timeouts: seq<Message>, fulfils: seq<FxFulfil.Message>, t: Message)
    requires t in timeouts && Lookup(f, t.id) == Some(ReservedTimeout)
    requires forall m :: m in fulfils ==> m.id != t.id
    ensures var expired, rejected := ExpiredChanges(timeouts), FxFulfil.Changes(f, fulfils);
            Lookup(Replay(Replay(f, expired), rejected), t.id) == Some(ExpiredReserved)
            && Lookup(Replay(f, rejected), t.id) == Some(ReservedTimeout)
  {
    var expired, rejected := ExpiredChanges(timeouts), FxFulfil.Changes(f, fulfils);
    var i :| 0 <= i < |timeouts| && timeouts[i] == t;
    assert expired[i] in expired && expired[i].id == t.id;
    ReplayLookup(f, expired, t.id);
    forall c | c in rejected
      ensures c.id != t.id
    {
      FlatMapMembers(FxFulfil.ChangesFor(f), fulfils, c);
    }
    ReplayLookup(f, rejected, t.id);
    ReplayLookup(Replay(f, expired), rejected, t.id);
  }

  /** No stage after the first two can tell the maps apart: their guards ask only for these two states. */
  ghost predicate SameGuards(u: States, v: States) {
    forall id ::
      && (Lookup(u, id) == Some(ReceivedError) <==> Lookup(v, id) == Some(ReceivedError))
      && (Lookup(u, id) == Some(ReceivedPrepare) <==> Lookup(v, id) == Some(ReceivedPrepare))
  }

  /** Equal in everything but fx states that no guard can tell apart. */
  ghost predicate Twins(a: Acc, b: Acc) {
    a.(fxStates := b.fxStates) == b && SameGuards(a.fxStates, b.fxStates)
  }

  lemma {:induction false} ReplayGuards(u: States, v: States, log: seq<StateChange>)
    requires SameGuards(u, v)
    ensures SameGuards(Replay(u, log), Replay(v, log))
  {
    if log != [] {
      var init, last := log[..|log| - 1], log[|log| - 1];
      ReplayGuards(u, v, init);
      forall id
        ensures Lookup(Replay(u, log), id) == if id == last.id then Some(last.state) else Lookup(Replay(u, init), id)
        ensures Lookup(Replay(v, log), id) == if id == last.id then Some(last.state) else Lookup(Replay(v, init), id)
      {
      }
    }
  }

  lemma {:induction false} ApplyAllTwins(a: Acc, b: Acc, charging: bool, reserved: int, es: seq<Effect>)
    requires Twins(a, b)
    ensures Twins(ApplyAll(a, charging, reserved, es), ApplyAll(b, charging, reserved, es))
  {
    if es != [] {
      ApplyAllTwins(a, b, charging, reserved, es[..|es| - 1]);
      ReplayGuards(ApplyAll(a, charging, reserved, es[..|es| - 1]).fxStates,
                   ApplyAll(b, charging, reserved, es[..|es| - 1]).fxStates, es[|es| - 1].fxChanges);
    }
  }

  lemma {:induction false} SameEffects(f: Message -> Result<Effect>, g: Message -> Result<Effect>, ms: seq<Message>)
    requires forall m :: m in ms ==> f(m) == g(m)
    ensures Effects(f, ms) == Effects(g, ms)
  {
    if ms != [] {
      SameEffects(f, g, ms[..|ms| - 1]);
    }
  }

  /** Both fail, or both succeed with twins. */
  ghost predicate TwinResults(r: Result<Acc>, q: Result<Acc>) {
    (r.Failed? && q.Failed?) || (r.Ok? && q.Ok? && Twins(r.value, q.value))
  }

  lemma StageTwins(a: Acc, b: Acc, charging: bool, reserved: int, f: Message -> Result<Effect>,
                   g: Message -> Result<Effect>, ms: seq<Message>)
    requires Twins(a, b) && forall m :: f(m) == g(m)
    ensures TwinResults(Stage(a, charging, reserved, f, ms), Stage(b, charging, reserved, g, ms))
  {
    SameEffects(f, g, ms);
    if Effects(f, ms).Ok? {
      ApplyAllTwins(a, b, charging, reserved, Effects(f, ms).value);
    }
  }

  lemma ReserveTwins(a: Acc, b: Acc, c: Context, isFx: bool, rs: seq<Reservation.Request>)
    requires Twins(a, b)
    ensures Twins(ReserveStage(a, c, isFx, rs), ReserveStage(b, c, isFx, rs))
  {
    if isFx {
      TwinRuns(a.fxStates, b.fxStates, c, a.position, rs);
    }
  }

  /** Two runs from states that no guard can tell apart differ in such states only. */
  lemma TwinRuns(s: States, t: States, c: Context, position: int, rs: seq<Reservation.Request>)
    requires SameGuards(s, t)
    ensures var u := Reservation.RunBin(s, c.account, position, c.charging, rs);
            var v := Reservation.RunBin(t, c.account, position, c.charging, rs);
            u.(states := v.states) == v && SameGuards(u.states, v.states)
  {
    var u := Reservation.RunBin(s, c.account, position, c.charging, rs);
    Reservation.SameEligibility(s, t, c.account, position, c.charging, rs);
    Reservation.ChangesReplay(s, c.account, position, c.charging, rs);
    Reservation.ChangesReplay(t, c.account, position, c.charging, rs);
    ReplayGuards(s, t, u.changes);
  }

  lemma RestTwins(a: Acc, b: Acc, c: Context, bin: Bin)
    requires Twins(a, b)
    ensures TwinResults(Rest(a, c, bin), Rest(b, c, bin))
  {
    MiddleTwins(a, b, c, bin);
    if Middle(a, c, bin).Ok? {
      var x, y := Middle(a, c, bin).value, Middle(b, c, bin).value;
      ReserveTwins(x, y, c, false, bin.prepares);
      ReserveTwins(ReserveStage(x, c, false, bin.prepares), ReserveStage(y, c, false, bin.prepares), c, true, bin.fxPrepares);
    }
  }

  lemma MiddleTwins(a: Acc, b: Acc, c: Context, bin: Bin)
    requires Twins(a, b)
    ensures TwinResults(Middle(a, c, bin), Middle(b, c, bin))
  {
    var reserved := c.account.reserved;
    var f, g := FulfilRule(a.states, c.amounts), FulfilRule(b.states, c.amounts);
    StageTwins(a, b, c.charging, reserved, f, g, bin.fulfils);
    var r, q := Stage(a, c.charging, reserved, f, bin.fulfils), Stage(b, c.charging, reserved, g, bin.fulfils);
    if r.Failed? { return; }
    var a1, b1 := r.value, q.value;
    f, g := AbortRule(a1.states, a1.fxStates, false), AbortRule(b1.states, b1.fxStates, false);
    StageTwins(a1, b1, c.charging, reserved, f, g, bin.aborts);
    r, q := Stage(a1, c.charging, reserved, f, bin.aborts), Stage(b1, c.charging, reserved, g, bin.aborts);
    if r.Failed? { return; }
    var a2, b2 := r.value, q.value;
    f, g := AbortRule(a2.states, a2.fxStates, true), AbortRule(b2.states, b2.fxStates, true);
    StageTwins(a2, b2, c.charging, reserved, f, g, bin.fxAborts);
    r, q := Stage(a2, c.charging, reserved, f, bin.fxAborts), Stage(b2, c.charging, reserved, g, bin.fxAborts);
    if r.Failed? { return; }
    StageTwins(r.value, q.value, c.charging, reserved, TimeoutRule(r.value.states, c.amounts),
               TimeoutRule(q.value.states, c.amounts), bin.timeouts);
  }

  /** The bin with the map the emitted changes describe after the two fx stages, instead of the one kept. */
  function ProcessThreaded(start: Acc, c: Context, bin: Bin): Result<Acc> {
    match Front(start, c, bin)
    case Failed => Failed
    case Ok(acc) => Rest(acc.(fxStates := Replay(start.fxStates, acc.fxChanges)), c, bin)
  }

  /**
   Dropping the timeouts' states is harmless: with the complete map the bin succeeds in the same cases
   and produces the same position, changes, ledger entries, notes and follow-ups. The complete map is
   also what the emitted fx changes replay to.
   */
  lemma DroppedStatesHarmless(position: int, s: States, f: States, c: Context, bin: Bin)
    ensures TwinResults(Process(Start(position, s, f), c, bin), ProcessThreaded(Start(position, s, f), c, bin))
    ensures var r := ProcessThreaded(Start(position, s, f), c, bin); r.Ok? ==> Recorded(s, f, r.value)
  {
    var start := Start(position, s, f);
    if Front(start, c, bin).Ok? {
      var acc := Front(start, c, bin).value;
      var full := acc.(fxStates := Replay(f, acc.fxChanges));
      FrontTwins(position, s, f, c, bin);
      RestTwins(acc, full, c, bin);
      RestRecorded(s, f, full, c, bin);
    }
  }

  lemma FrontTwins(position: int, s: States, f: States, c: Context, bin: Bin)
    requires Front(Start(position, s, f), c, bin).Ok?
    ensures var acc := Front(Start(position, s, f), c, bin).value;
            Twins(acc, acc.(fxStates := Replay(f, acc.fxChanges))) && acc.states == s && acc.changes == []
  {
    var start := Start(position, s, f);
    FxTimeoutStage(start, c.charging, c.account.reserved, c.reserves, bin.fxTimeouts);
    var expired, rejected := ExpiredChanges(bin.fxTimeouts), FxFulfil.Changes(f, bin.fxReserves);
    assert [] + expired == expired;
    ReplayConcat(f, expired, rejected);
    ExpiryKeepsGuards(f, bin.fxTimeouts);
    ReplayGuards(f, Replay(f, expired), rejected);
  }

  lemma ExpiryKeepsGuards(f: States, ms: seq<Message>)
    requires forall m :: m in ms ==> Lookup(f, m.id) == Some(ReservedTimeout)
    ensures SameGuards(f, Replay(f, ExpiredChanges(ms)))
  {
    forall id
      ensures Lookup(Replay(f, ExpiredChanges(ms)), id) == Lookup(f, id)
              || (Lookup(Replay(f, ExpiredChanges(ms)), id) == Some(ExpiredReserved)
                  && Lookup(f, id) == Some(ReservedTimeout))
    {
      ReplayLookup(f, ExpiredChanges(ms), id);
    }
  }

  // ----- the ledger of one bin

  /** The entry's movement of the position; the first `reversed` entries record the opposite sign. */
  function Moved(e: Entry, backward: bool): int {
    if backward then -e.change else e.change
  }

  ghost predicate Chained(position: int, entries: seq<Entry>, reversed: nat, final: int) {
    if entries == [] then final == position
    else
      var n := |entries| - 1;
      && final == entries[n].value
      && Chained(position, entries[..n], reversed, final - Moved(entries[n], n < reversed))
  }

  function Total(entries: seq<Entry>): int {
    if entries == [] then 0 else Total(entries[..|entries| - 1]) + entries[|entries| - 1].change
  }

  lemma {:induction false} ChainedTotal(position: int, entries: seq<Entry>, reversed: nat, final: int)
    requires reversed <= |entries| && Chained(position, entries, reversed, final)
    ensures final == position + Total(entries) - 2 * Total(entries[..reversed])
  {
    if entries != [] {
      var n := |entries| - 1;
      if reversed <= n {
        ChainedTotal(position, entries[..n], reversed, final - Moved(entries[n], false));
        assert entries[..n][..reversed] == entries[..reversed];
      } else {
        assert entries[..n][..n] == entries[..n];
        ChainedShorter(position, entries[..n], reversed, final - Moved(entries[n], true));
        ChainedTotal(position, entries[..n], n, final - Moved(entries[n], true));
        assert entries[..reversed] == entries;
      }
    }
  }

  lemma {:induction false} ChainedShorter(position: int, entries: seq<Entry>, reversed: nat, final: int)
    requires |entries| <= reversed && Chained(position, entries, reversed, final)
    ensures forall r: nat :: |entries| <= r ==> Chained(position, entries, r, final)
  {
    if entries != [] {
      var n := |entries| - 1;
      ChainedShorter(position, entries[..n], reversed, final - Moved(entries[n], true));
    }
  }

  /** One plain effect keeps the entries chained. */
  lemma PlainStep(position: int, acc: Acc, charging: bool, reserved: int, e: Effect, reversed: nat)
    requires Chained(position, acc.entries, reversed, acc.position) && reversed <= |acc.entries| && Plain(e)
    ensures var r := Apply(acc, charging, reserved, e);
            Chained(position, r.entries, reversed, r.position) && acc.entries <= r.entries
  {
    var r := Apply(acc, charging, reserved, e);
    if charging && e.movement.Some? {
      assert r.entries[..|r.entries| - 1] == acc.entries;
    } else {
      assert acc.entries + [] == acc.entries;
    }
  }

  lemma {:induction false} PlainChained(position: int, acc: Acc, charging: bool, reserved: int, es: seq<Effect>, reversed: nat)
    requires Chained(position, acc.entries, reversed, acc.position) && reversed <= |acc.entries|
    requires forall e :: e in es ==> Plain(e)
    ensures var r := ApplyAll(acc, charging, reserved, es);
            && Chained(position, r.entries, reversed, r.position)
            && acc.entries <= r.entries
  {
    if es != [] {
      var n := |es| - 1;
      PlainChained(position, acc, charging, reserved, es[..n], reversed);
      PlainStep(position, ApplyAll(acc, charging, reserved, es[..n]), charging, reserved, es[n], reversed);
    }
  }

  /** The fx timeouts record their movements with the opposite sign. */
  lemma {:induction false} TimeoutsChained(start: Acc, reserved: int, reserves: Reserves, ms: seq<Message>)
    requires start.entries == []
    ensures var r := Stage(start, true, reserved, FxTimeoutRule(start.fxStates, reserves), ms);
            r.Ok? ==>
              && |r.value.entries| == |ms|
              && Chained(start.position, r.value.entries, |ms|, r.value.position)
              && Total(r.value.entries) == Reserved(reserves, ms)
  {
    var rule := FxTimeoutRule(start.fxStates, reserves);
    if ms != [] && Effects(rule, ms).Ok? {
      var n := |ms| - 1;
      TimeoutsChained(start, reserved, reserves, ms[..n]);
      var es, e := Effects(rule, ms[..n]).value, rule(ms[n]).value;
      assert (es + [e])[..|es|] == es;
      var before, after := ApplyAll(start, true, reserved, es), ApplyAll(start, true, reserved, es + [e]);
      assert after.entries[..n] == before.entries;
      ChainedShorter(start.position, before.entries, n, before.position);
    }
  }

  /** What was reserved on the account for a bin of timed out fx transfers. */
  function Reserved(reserves: Reserves, ms: seq<Message>): int {
    if ms == [] then 0
    else
      var m := ms[|ms| - 1];
      Reserved(reserves, ms[..|ms| - 1]) + if (m.id, m.account) in reserves then reserves[(m.id, m.account)] else 0
  }

  lemma {:induction false} ReservationChained(position: int, entries: seq<Entry>, reversed: nat, middle: int,
                                              res: seq<Reservation.PositionChange>, final: int, isFx: bool)
    requires Chained(position, entries, reversed, middle) && reversed <= |entries|
    requires Reservation.Chained(middle, res, final)
    ensures Chained(position, entries + ReservationEntries(res, isFx), reversed, final)
  {
    if res == [] {
      assert entries + ReservationEntries(res, isFx) == entries;
    } else {
      var n := |res| - 1;
      ReservationChained(position, entries, reversed, middle, res[..n], final - res[n].change, isFx);
      var all := entries + ReservationEntries(res, isFx);
      assert all[..|all| - 1] == entries + ReservationEntries(res[..n], isFx);
    }
  }

  lemma ReserveChained(position: int, acc: Acc, c: Context, isFx: bool, rs: seq<Reservation.Request>, reversed: nat)
    requires c.charging && Chained(position, acc.entries, reversed, acc.position) && reversed <= |acc.entries|
    ensures var r := ReserveStage(acc, c, isFx, rs);
            Chained(position, r.entries, reversed, r.position) && acc.entries <= r.entries
  {
    var base := if isFx then acc.fxStates else acc.states;
    var run := Reservation.RunBin(base, c.account, acc.position, true, rs);
    Reservation.EntriesChained(base, c.account, acc.position, rs);
    ReservationChained(position, acc.entries, reversed, acc.position, run.entries, acc.position + run.granted, isFx);
  }

  lemma RestChained(position: int, front: Acc, c: Context, bin: Bin, reversed: nat)
    requires c.charging && Rest(front, c, bin).Ok?
    requires Chained(position, front.entries, reversed, front.position) && reversed == |front.entries|
    ensures var r := Rest(front, c, bin).value;
            && Chained(position, r.entries, reversed, r.position)
            && reversed <= |r.entries| && r.entries[..reversed] == front.entries
  {
    var es := MiddleEffects(front, c, bin);
    PlainChained(position, front, true, c.account.reserved, es, reversed);
    var a := Middle(front, c, bin).value;
    ReserveChained(position, a, c, false, bin.prepares, reversed);
    ReserveChained(position, ReserveStage(a, c, false, bin.prepares), c, true, bin.fxPrepares, reversed);
  }

  /**
   The ledger of a charged bin: consecutive entries differ by the recorded change, except that the fx
   timeouts, which come first, record it with the opposite sign. The recorded changes therefore sum to the
   movement of the position if and only if the reserved amounts of the timed out fx transfers sum to zero.
   */
  lemma LedgerOfBin(position: int, s: States, f: States, c: Context, bin: Bin)
    requires c.charging && Process(Start(position, s, f), c, bin).Ok?
    ensures var r := Process(Start(position, s, f), c, bin).value;
            var reversed := |bin.fxTimeouts|;
            && Chained(position, r.entries, reversed, r.position)
            && r.position == position + Total(r.entries) - 2 * Reserved(c.reserves, bin.fxTimeouts)
            && (r.position == position + Total(r.entries) <==> Reserved(c.reserves, bin.fxTimeouts) == 0)
  {
    var start := Start(position, s, f);
    var n := |bin.fxTimeouts|;
    TimeoutsChained(start, c.account.reserved, c.reserves, bin.fxTimeouts);
    var front := Front(start, c, bin).value;
    RestChained(position, front, c, bin, n);
    var r := Rest(front, c, bin).value;
    ChainedTotal(position, r.entries, n, r.position);
  }

  // ----- both failing sides at one input

  function LoneTimeout(id: Id, account: nat): Bin {
    Bin([], [Message(id, "fxp", HUB_NAME, account, false, None)], [], [], [], [], [], [])
  }

  function ReserveOf(id: Id, account: nat, amount: int): Context {
    Context(true, Reservation.Account(0, 0, 0, 0), map[], map[(id, account) := amount])
  }

  lemma TimeoutFirst(states: States, id: Id, account: nat)
    ensures var f, c := map[id := ReservedTimeout], ReserveOf(id, account, 60);
            var r := Front(Start(100, states, f), c, LoneTimeout(id, account));
            && r.Ok? && r.value.position == 40 && r.value.entries == [Entry(id, true, 40, 60, 0)]
            && r.value.fxStates == f
            && r.value.fxChanges == [StateChange(id, ExpiredReserved, TransferExpiredReason)]
  {
    var f, c, m := map[id := ReservedTimeout], ReserveOf(id, account, 60), LoneTimeout(id, account).fxTimeouts[0];
    StageOfOne(Start(100, states, f), true, 0, FxTimeoutRule(f, c.reserves), m);
    assert FxFulfil.Changes(f, []) == [];
  }

  /**
   An fx transfer of which 60 were reserved times out alone, at position 100. The bin succeeds at position 40 while
   its ledger records 60 more, and the map handed on still shows the fx transfer as it was.
   */
  lemma TimeoutAlone(states: States, id: Id, account: nat)
    ensures var f := map[id := ReservedTimeout];
            var r := Process(Start(100, states, f), ReserveOf(id, account, 60), LoneTimeout(id, account));
            && r.Ok? && r.value.position == 40 && Total(r.value.entries) == 60
            && Lookup(r.value.fxStates, id) == Some(ReservedTimeout)
            && Lookup(Replay(f, r.value.fxChanges), id) == Some(ExpiredReserved)
            && !Covered(LoneTimeout(id, account).fxTimeouts, LoneTimeout(id, account).fxReserves)
  {
    var f, c, bin := map[id := ReservedTimeout], ReserveOf(id, account, 60), LoneTimeout(id, account);
    TimeoutFirst(states, id, account);
    var front := Front(Start(100, states, f), c, bin).value;
    NothingToDo(front, c, bin);
    assert Total(front.entries) == Total([]) + 60 by { assert front.entries[..0] == []; }
  }

  lemma NothingToDo(acc: Acc, c: Context, bin: Bin)
    requires bin.fulfils == [] && bin.aborts == [] && bin.fxAborts == [] && bin.timeouts == []
    requires bin.prepares == [] && bin.fxPrepares == []
    ensures Rest(acc, c, bin) == Ok(acc)
  {
    assert Middle(acc, c, bin) == Ok(acc);
    assert ReserveStage(acc, c, false, []) == acc && ReserveStage(acc, c, true, []) == acc;
  }

  // ----- what a reservation stage keeps

  function OwnStates(acc: Acc, isFx: bool): States {
    if isFx then acc.fxStates else acc.states
  }

  function OwnChanges(acc: Acc, isFx: bool): seq<StateChange> {
    if isFx then acc.fxChanges else acc.changes
  }

  /**
   A reservation stage leaves the other kind of transfer alone. Of its own kind every request gets one change, the
   ids it names end reserved or rejected, and no other id moves.
   */
  lemma ReserveStates(acc: Acc, c: Context, isFx: bool, rs: seq<Reservation.Request>, id: Id)
    ensures var r := ReserveStage(acc, c, isFx, rs);
            && OwnStates(r, !isFx) == OwnStates(acc, !isFx) && OwnChanges(r, !isFx) == OwnChanges(acc, !isFx)
            && OwnChanges(acc, isFx) <= OwnChanges(r, isFx) && |OwnChanges(r, isFx)| == |OwnChanges(acc, isFx)| + |rs|
            && OwnStates(r, isFx) == Replay(OwnStates(acc, isFx), OwnChanges(r, isFx)[|OwnChanges(acc, isFx)|..])
            && (if Reservation.Mentions(rs, id)
                then Lookup(OwnStates(r, isFx), id) in {Some(TransferState.Reserved), Some(AbortedRejected)}
                else Lookup(OwnStates(r, isFx), id) == Lookup(OwnStates(acc, isFx), id))
  {
    var base := OwnStates(acc, isFx);
    var run := Reservation.RunBin(base, c.account, acc.position, c.charging, rs);
    Reservation.ChangesReplay(base, c.account, acc.position, c.charging, rs);
    Reservation.IdsDecided(base, c.account, acc.position, c.charging, rs, id);
    if rs != [] {
      Reservation.OneOutcomeEach(base, c.account, acc.position, c.charging, rs, 0);
    }
    DropPrefix(OwnChanges(acc, isFx), run.changes);
  }

  /** Its ledger entries account for its movement of the position; without charging there is neither. */
  lemma ReservePosition(acc: Acc, c: Context, isFx: bool, rs: seq<Reservation.Request>)
    ensures var r := ReserveStage(acc, c, isFx, rs);
            && acc.entries <= r.entries
            && r.position == acc.position + Total(r.entries[|acc.entries|..])
            && (!c.charging ==> r.position == acc.position && r.entries == acc.entries)
  {
    if c.charging {
      var run := Reservation.RunBin(OwnStates(acc, isFx), c.account, acc.position, true, rs);
      GrantedTotalled(OwnStates(acc, isFx), c.account, acc.position, isFx, rs);
      DropPrefix(acc.entries, ReservationEntries(run.entries, isFx));
    }
  }

  lemma AloneChained(position: int, res: seq<Reservation.PositionChange>, final: int, isFx: bool)
    requires Reservation.Chained(position, res, final)
    ensures Chained(position, ReservationEntries(res, isFx), 0, final)
  {
    ReservationChained(position, [], 0, position, res, final, isFx);
    assert [] + ReservationEntries(res, isFx) == ReservationEntries(res, isFx);
  }

  /** The entries of a reservation run sum to what it granted. */
  lemma GrantedTotalled(states: States, a: Reservation.Account, position: int, isFx: bool, rs: seq<Reservation.Request>)
    ensures var run := Reservation.RunBin(states, a, position, true, rs);
            Total(ReservationEntries(run.entries, isFx)) == run.granted
  {
    var run := Reservation.RunBin(states, a, position, true, rs);
    var added := ReservationEntries(run.entries, isFx);
    Reservation.EntriesChained(states, a, position, rs);
    AloneChained(position, run.entries, position + run.granted, isFx);
    ChainedTotal(position, added, 0, position + run.granted);
  }

  // ----- where the position of one bin comes from

  function SumOf(g: Message -> int, ms: seq<Message>): int {
    if ms == [] then 0 else SumOf(g, ms[..|ms| - 1]) + g(ms[|ms| - 1])
  }

  function PendingAmount(m: Message): int {
    if m.cyril.Some? && FirstPending(m.cyril.value.hops) < |m.cyril.value.hops|
    then m.cyril.value.hops[FirstPending(m.cyril.value.hops)].amount else 0
  }

  function RecordedAmount(amounts: map<Id, int>, m: Message): int {
    if m.id in amounts then amounts[m.id] else 0
  }

  /** A fulfil moves nothing unless its transfer awaits it: then its pending movement, or the recorded amount. */
  function FulfilMove(states: States, amounts: map<Id, int>): Message -> int {
    (m: Message) =>
      if Lookup(states, m.id) != Some(ReceivedFulfil) then 0
      else if m.cyril.Some? && m.cyril.value.isFx then PendingAmount(m)
      else RecordedAmount(amounts, m)
  }

  function AbortMove(): Message -> int {
    (m: Message) => PendingAmount(m)
  }

  function TimeoutMove(amounts: map<Id, int>): Message -> int {
    (m: Message) => RecordedAmount(amounts, m)
  }

  function Delta(e: Effect): int {
    if e.movement.Some? then e.movement.value.delta else 0
  }

  ghost predicate Moves(f: Message -> Result<Effect>, g: Message -> int) {
    forall m :: f(m).Ok? ==> Delta(f(m).value) == g(m)
  }

  lemma RulesMove(states: States, fxStates: States, amounts: map<Id, int>, isFx: bool)
    ensures Moves(FulfilRule(states, amounts), FulfilMove(states, amounts))
    ensures Moves(AbortRule(states, fxStates, isFx), AbortMove())
    ensures Moves(TimeoutRule(states, amounts), TimeoutMove(amounts))
  {
  }

  lemma {:induction false} StageMoves(acc: Acc, reserved: int, f: Message -> Result<Effect>, g: Message -> int, ms: seq<Message>)
    requires Moves(f, g) && Effects(f, ms).Ok?
    ensures Stage(acc, true, reserved, f, ms).Ok?
    ensures Stage(acc, true, reserved, f, ms).value.position == acc.position + SumOf(g, ms)
  {
    if ms != [] {
      var n := |ms| - 1;
      StageMoves(acc, reserved, f, g, ms[..n]);
      var es := Effects(f, ms[..n]).value;
      assert (es + [f(ms[n]).value])[..|es|] == es;
    }
  }

  lemma MiddleMoves(acc: Acc, c: Context, bin: Bin)
    requires c.charging && Middle(acc, c, bin).Ok?
    ensures Middle(acc, c, bin).value.position ==
              acc.position + SumOf(FulfilMove(acc.states, c.amounts), bin.fulfils) + SumOf(AbortMove(), bin.aborts)
              + SumOf(AbortMove(), bin.fxAborts) + SumOf(TimeoutMove(c.amounts), bin.timeouts)
  {
    var reserved := c.account.reserved;
    RulesMove(acc.states, acc.fxStates, c.amounts, false);
    StageMoves(acc, reserved, FulfilRule(acc.states, c.amounts), FulfilMove(acc.states, c.amounts), bin.fulfils);
    var a := Stage(acc, true, reserved, FulfilRule(acc.states, c.amounts), bin.fulfils).value;
    RulesMove(a.states, a.fxStates, c.amounts, false);
    StageMoves(a, reserved, AbortRule(a.states, a.fxStates, false), AbortMove(), bin.aborts);
    var b := Stage(a, true, reserved, AbortRule(a.states, a.fxStates, false), bin.aborts).value;
    RulesMove(b.states, b.fxStates, c.amounts, true);
    StageMoves(b, reserved, AbortRule(b.states, b.fxStates, true), AbortMove(), bin.fxAborts);
    var d := Stage(b, true, reserved, AbortRule(b.states, b.fxStates, true), bin.fxAborts).value;
    RulesMove(d.states, d.fxStates, c.amounts, true);
    StageMoves(d, reserved, TimeoutRule(d.states, c.amounts), TimeoutMove(c.amounts), bin.timeouts);
  }

  lemma FrontMoves(position: int, s: States, f: States, c: Context, bin: Bin)
    requires c.charging && Front(Start(position, s, f), c, bin).Ok?
    ensures var front := Front(Start(position, s, f), c, bin).value;
            front.position == position - Reserved(c.reserves, bin.fxTimeouts) && front.states == s
  {
    var start := Start(position, s, f);
    TimeoutsChained(start, c.account.reserved, c.reserves, bin.fxTimeouts);
    FxTimeoutStage(start, true, c.account.reserved, c.reserves, bin.fxTimeouts);
    var front := Front(start, c, bin).value;
    ChainedTotal(position, front.entries, |bin.fxTimeouts|, front.position);
    assert front.entries[..|bin.fxTimeouts|] == front.entries;
  }

  /** What the two reservation bins grant, the second on the position the first one left. */
  function GrantedBy(a: Acc, c: Context, bin: Bin): int {
    var granted := Reservation.RunBin(a.states, c.account, a.position, true, bin.prepares).granted;
    granted + Reservation.RunBin(a.fxStates, c.account, a.position + granted, true, bin.fxPrepares).granted
  }

  lemma BackMoves(a: Acc, c: Context, bin: Bin)
    requires c.charging
    ensures Back(a, c, bin).position == a.position + GrantedBy(a, c, bin)
  {
  }

  /** What the messages that check no funds move, each by its own data. */
  function UncheckedMoves(s: States, c: Context, bin: Bin): int {
    SumOf(FulfilMove(s, c.amounts), bin.fulfils) + SumOf(AbortMove(), bin.aborts)
    + SumOf(AbortMove(), bin.fxAborts) + SumOf(TimeoutMove(c.amounts), bin.timeouts)
    - Reserved(c.reserves, bin.fxTimeouts)
  }

  /**
   Nothing is lost or invented: a charged bin starts its reservations from the old position and what its fulfils,
   aborts and timeouts move, and ends with what the two reservation bins grant on top.
   */
  lemma PositionOfBin(position: int, s: States, f: States, c: Context, bin: Bin)
    requires c.charging && Process(Start(position, s, f), c, bin).Ok?
    ensures var a := Middle(Front(Start(position, s, f), c, bin).value, c, bin).value;
            && a.position == position + UncheckedMoves(s, c, bin)
            && Process(Start(position, s, f), c, bin).value.position == a.position + GrantedBy(a, c, bin)
  {
    FrontMoves(position, s, f, c, bin);
    var front := Front(Start(position, s, f), c, bin).value;
    MiddleMoves(front, c, bin);
    BackMoves(Middle(front, c, bin).value, c, bin);
  }
}
