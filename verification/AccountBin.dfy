/**
 All stages of one account bin in the order the bin processor runs them. Every stage judges its messages
 against the states it was given, and hands the states, the position and the growing change logs on.
 */
module AccountBin {
  import opened Ledger
  import opened Sequences
  import FxFulfil
  import Reservation

  datatype Result<+T> = Ok(value: T) | Failed

  // ----- messages

  /** One position movement of a remittance; `isFx` says whether it moves an fx transfer or a transfer. */
  datatype Hop = Hop(isFx: bool, id: Id, account: nat, amount: int, done: bool, notifyTo: Option<string>, isOriginal: bool)

  datatype ExtraChange = ExtraChange(id: Id, state: TransferState, notifyTo: string, isOriginal: bool)

  datatype Patch = Patch(id: Id, fxp: string)

  /** The remittance result a message carries from account to account. */
  datatype Cyril = Cyril(isFx: bool, hops: seq<Hop>, extras: seq<ExtraChange>, patches: seq<Patch>)

  datatype Message = Message(id: Id, from: string, to: string, account: nat, failedValidation: bool, cyril: Option<Cyril>)

  // ----- effects

  /** A movement of the position by `delta`, recorded in the ledger as `change`. */
  datatype Movement = Movement(id: Id, isFx: bool, delta: int, change: int)

  datatype Entry = Entry(id: Id, isFx: bool, value: int, change: int, reserved: int)

  datatype Note =
    | FxFulfilNote(fxFulfil: FxFulfil.Notification)
    | ReservationNote(reservation: Reservation.Notice)
    | InvalidState(id: Id, to: string, from: string, found: Option<TransferState>)
    | Success(id: Id, to: string, from: string)
    | Failure(id: Id, to: string, from: string)
    | PatchNote(id: Id, to: string, state: TransferState)

  /** What one message asks for, whatever the position is. */
  datatype Effect = Effect(movement: Option<Movement>, changes: seq<StateChange>, fxChanges: seq<StateChange>,
                           notes: seq<Note>, followUp: Option<Message>)

  /** The accumulators that pass from stage to stage. */
  datatype Acc = Acc(position: int, states: States, fxStates: States, changes: seq<StateChange>,
                     fxChanges: seq<StateChange>, entries: seq<Entry>, notes: seq<Note>, followUps: seq<Message>)

  function Apply(acc: Acc, charging: bool, reserved: int, e: Effect): Acc {
    var moved := if charging && e.movement.Some? then e.movement.value.delta else 0;
    Acc(acc.position + moved,
        Replay(acc.states, e.changes),
        Replay(acc.fxStates, e.fxChanges),
        acc.changes + e.changes,
        acc.fxChanges + e.fxChanges,
        acc.entries + (if charging && e.movement.Some?
                       then var m := e.movement.value; [Entry(m.id, m.isFx, acc.position + m.delta, m.change, reserved)]
                       else []),
        acc.notes + e.notes,
        acc.followUps + if e.followUp.Some? then [e.followUp.value] else [])
  }

  function ApplyAll(acc: Acc, charging: bool, reserved: int, es: seq<Effect>): Acc {
    if es == [] then acc
    else Apply(ApplyAll(acc, charging, reserved, es[..|es| - 1]), charging, reserved, es[|es| - 1])
  }

  /** The effects of a bin, unless one of its messages makes the bin function throw. */
  function Effects(f: Message -> Result<Effect>, ms: seq<Message>): Result<seq<Effect>> {
    if ms == [] then Ok([])
    else
      match Effects(f, ms[..|ms| - 1])
      case Failed => Failed
      case Ok(es) =>
        match f(ms[|ms| - 1])
        case Failed => Failed
        case Ok(e) => Ok(es + [e])
  }

  // ----- hops

  function FirstPending(hops: seq<Hop>): (i: nat)
    ensures i <= |hops|
    ensures i < |hops| ==> !hops[i].done
    ensures forall k :: 0 <= k < i ==> hops[k].done
  {
    if hops == [] then 0
    else if !hops[0].done then 0
    else 1 + FirstPending(hops[1..])
  }

  function MarkDone(hops: seq<Hop>, i: nat): seq<Hop>
    requires i < |hops|
  {
    hops[i := hops[i].(done := true)]
  }

  function ExtraChanges(extras: seq<ExtraChange>): seq<StateChange> {
    seq(|extras|, i requires 0 <= i < |extras| => StateChange(extras[i].id, extras[i].state, NoReason))
  }

  function PatchNotes(patches: seq<Patch>, state: TransferState): seq<Note> {
    seq(|patches|, i requires 0 <= i < |patches| => PatchNote(patches[i].id, patches[i].fxp, state))
  }

  /** The movement of the first pending hop, with the state change it brings. */
  function HopEffect(c: Cyril, i: nat, state: TransferState): Effect
    requires i < |c.hops|
  {
    var hop := c.hops[i];
    var change := [StateChange(hop.id, state, NoReason)];
    var movement := Some(Movement(hop.id, hop.isFx, hop.amount, hop.amount));
    if hop.isFx then Effect(movement, [], change, PatchNotes(c.patches, state), None)
    else Effect(movement, change, [], [], None)
  }

  function Extend(e: Effect, changes: seq<StateChange>, notes: seq<Note>, followUp: Option<Message>): Effect {
    e.(changes := e.changes + changes, notes := e.notes + notes, followUp := followUp)
  }

  /** The same message for the account of the next pending hop. */
  function Forward(m: Message, c: Cyril, done: seq<Hop>): Message
    requires FirstPending(done) < |done|
  {
    m.(account := done[FirstPending(done)].account, cyril := Some(c.(hops := done)))
  }

  // ----- the stages that do not check funds

  /** A fulfil: an fx remittance moves one hop, any other transfer moves by its recorded amount. */
  function FulfilEffect(states: States, amounts: map<Id, int>, m: Message): Result<Effect> {
    if Lookup(states, m.id) != Some(ReceivedFulfil) then
      Ok(Effect(None, [], [], [InvalidState(m.id, m.from, HUB_NAME, Lookup(states, m.id))], None))
    else if m.cyril.Some? && m.cyril.value.isFx then
      var c := m.cyril.value;
      var i := FirstPending(c.hops);
      if i == |c.hops| then Failed
      else
        var done := MarkDone(c.hops, i);
        var e := HopEffect(c, i, Committed);
        if FirstPending(done) == |done|
        then Ok(Extend(e, ExtraChanges(c.extras), [Success(m.id, m.to, m.from)], None))
        else Ok(Extend(e, [], [], Some(Forward(m, c, done))))
    else if m.id !in amounts then Failed
    else Ok(Effect(Some(Movement(m.id, false, amounts[m.id], amounts[m.id])),
                   [StateChange(m.id, Committed, NoReason)], [], [Success(m.id, m.to, m.from)], None))
  }

  function AbortSender(m: Message, isOriginal: bool): string {
    if m.failedValidation || !isOriginal then HUB_NAME else m.from
  }

  function AbortNotes(m: Message, hops: seq<Hop>): seq<Note> {
    if hops == [] then []
    else
      var hop := hops[|hops| - 1];
      AbortNotes(m, hops[..|hops| - 1]) +
      match hop.notifyTo
      case Some(to) => [Failure(hop.id, to, AbortSender(m, hop.isOriginal))]
      case None => if hop.isFx then [] else [Failure(hop.id, "", AbortSender(m, hop.isOriginal))]
  }

  function ExtraNotes(m: Message, extras: seq<ExtraChange>): seq<Note> {
    seq(|extras|, i requires 0 <= i < |extras| =>
      Failure(extras[i].id, extras[i].notifyTo, AbortSender(m, extras[i].isOriginal)))
  }

  /** An abort moves one hop; a wrong state or a missing remittance fails the whole bin. */
  function AbortEffect(states: States, fxStates: States, isFx: bool, m: Message): Result<Effect> {
    if Lookup(if isFx then fxStates else states, m.id) != Some(ReceivedError) then Failed
    else if m.cyril.None? || FirstPending(m.cyril.value.hops) == |m.cyril.value.hops| then Failed
    else
      var c := m.cyril.value;
      var i := FirstPending(c.hops);
      var done := MarkDone(c.hops, i);
      var e := HopEffect(c, i, AbortedError);
      if FirstPending(done) == |done|
      then Ok(Extend(e, ExtraChanges(c.extras), AbortNotes(m, done) + ExtraNotes(m, c.extras), None))
      else Ok(Extend(e, [], [], Some(Forward(m, c, done))))
  }

  /** A timeout adds the payee's (negative) amount back to the position. */
  function TimeoutEffect(states: States, amounts: map<Id, int>, m: Message): Result<Effect> {
    if Lookup(states, m.id) != Some(ReservedTimeout) || m.id !in amounts then Failed
    else Ok(Effect(Some(Movement(m.id, false, amounts[m.id], amounts[m.id])),
                   [StateChange(m.id, ExpiredReserved, TransferExpiredReason)], [],
                   [Failure(m.id, m.to, m.from)], None))
  }

  /** What was reserved for an fx transfer on an account. */
  type Reserves = map<(Id, nat), int>

  /** An fx timeout subtracts the reserved amount from the position, but records that amount as the change. */
  function FxTimeoutEffect(fxStates: States, reserves: Reserves, m: Message): Result<Effect> {
    if Lookup(fxStates, m.id) != Some(ReservedTimeout) || (m.id, m.account) !in reserves then Failed
    else
      var amount := reserves[(m.id, m.account)];
      Ok(Effect(Some(Movement(m.id, true, -amount, amount)), [],
                [StateChange(m.id, ExpiredReserved, TransferExpiredReason)],
                [Failure(m.id, m.to, m.from)], None))
  }

  function FulfilRule(states: States, amounts: map<Id, int>): Message -> Result<Effect> {
    m => FulfilEffect(states, amounts, m)
  }

  function AbortRule(states: States, fxStates: States, isFx: bool): Message -> Result<Effect> {
    m => AbortEffect(states, fxStates, isFx, m)
  }

  function TimeoutRule(states: States, amounts: map<Id, int>): Message -> Result<Effect> {
    m => TimeoutEffect(states, amounts, m)
  }

  function FxTimeoutRule(fxStates: States, reserves: Reserves): Message -> Result<Effect> {
    m => FxTimeoutEffect(fxStates, reserves, m)
  }

  function Stage(acc: Acc, charging: bool, reserved: int, f: Message -> Result<Effect>, ms: seq<Message>): Result<Acc> {
    match Effects(f, ms)
    case Failed => Failed
    case Ok(es) => Ok(ApplyAll(acc, charging, reserved, es))
  }

  lemma StageOfOne(acc: Acc, charging: bool, reserved: int, f: Message -> Result<Effect>, m: Message)
    ensures Stage(acc, charging, reserved, f, [m]) ==
              match f(m)
              case Failed => Failed
              case Ok(e) => Ok(Apply(acc, charging, reserved, e))
  {
    assert [m][..0] == [];
    assert Effects(f, [m][..0]) == Ok([]);
    if f(m).Ok? {
      var e := f(m).value;
      assert Effects(f, [m]) == Ok([] + [e]);
      assert [e][..0] == [];
      assert ApplyAll(acc, charging, reserved, [e][..0]) == acc;
    }
  }

  /** Runs one stage; the first message that throws fails the whole account bin. */
  method RunStage(start: Acc, charging: bool, reserved: int, f: Message -> Result<Effect>, ms: seq<Message>)
    returns (r: Result<Acc>)
    ensures r == Stage(start, charging, reserved, f, ms)
  {
    var acc := start;
    ghost var es: seq<Effect> := [];
    for i := 0 to |ms|
      invariant Effects(f, ms[..i]) == Ok(es)
      invariant acc == ApplyAll(start, charging, reserved, es)
    {
      assert ms[..i + 1][..i] == ms[..i];
      match f(ms[i]) {
        case Failed =>
          EffectsFail(f, ms, i + 1);
          return Failed;
        case Ok(e) =>
          acc := Apply(acc, charging, reserved, e);
          assert (es + [e])[..|es|] == es;
          es := es + [e];
      }
    }
    assert ms[..|ms|] == ms;
    r := Ok(acc);
  }

  lemma {:induction false} EffectsFail(f: Message -> Result<Effect>, ms: seq<Message>, i: nat)
    requires i <= |ms| && Effects(f, ms[..i]) == Failed
    ensures Effects(f, ms) == Failed
  {
    if i == |ms| {
      assert ms[..i] == ms;
    } else {
      assert ms[..i] == ms[..|ms| - 1][..i];
      EffectsFail(f, ms[..|ms| - 1], i);
    }
  }

  // ----- the whole account bin

  datatype Bin = Bin(fxReserves: seq<FxFulfil.Message>, fxTimeouts: seq<Message>, fulfils: seq<Message>,
                     aborts: seq<Message>, fxAborts: seq<Message>, timeouts: seq<Message>,
                     prepares: seq<Reservation.Request>, fxPrepares: seq<Reservation.Request>)

  /** `charging` is false for the account key 0, whose messages move no position. */
  datatype Context = Context(charging: bool, account: Reservation.Account, amounts: map<Id, int>, reserves: Reserves)

  function Start(position: int, states: States, fxStates: States): Acc {
    Acc(position, states, fxStates, [], [], [], [], [])
  }

  function FxFulfilNotes(ns: seq<FxFulfil.Notification>): seq<Note> {
    seq(|ns|, i requires 0 <= i < |ns| => FxFulfilNote(ns[i]))
  }

  function ReservationNotes(ns: seq<Reservation.Notice>): seq<Note> {
    seq(|ns|, i requires 0 <= i < |ns| => ReservationNote(ns[i]))
  }

  function ReservationEntries(es: seq<Reservation.PositionChange>, isFx: bool): (r: seq<Entry>)
    ensures |r| == |es|
  {
    seq(|es|, i requires 0 <= i < |es| => Entry(es[i].id, isFx, es[i].value, es[i].change, es[i].reserved))
  }

  /** What a reservation bin adds to the accumulators of its own kind of transfer. */
  function ReserveStage(acc: Acc, c: Context, isFx: bool, rs: seq<Reservation.Request>): Acc {
    var run := Reservation.RunBin(if isFx then acc.fxStates else acc.states, c.account, acc.position, c.charging, rs);
    acc.(position := acc.position + (if c.charging then run.granted else 0),
         states := if isFx then acc.states else run.states,
         fxStates := if isFx then run.states else acc.fxStates,
         changes := acc.changes + (if isFx then [] else run.changes),
         fxChanges := acc.fxChanges + (if isFx then run.changes else []),
         entries := acc.entries + (if c.charging then ReservationEntries(run.entries, isFx) else []),
         notes := acc.notes + ReservationNotes(run.notices))
  }

  /**
   The two fx stages that come first: both start from the states the bin was given. The processor puts the
   changes and notes of the timeouts first, but keeps only the state map of the fulfils.
   */
  function Front(start: Acc, c: Context, bin: Bin): Result<Acc> {
    match Stage(start, c.charging, c.account.reserved, FxTimeoutRule(start.fxStates, c.reserves), bin.fxTimeouts)
    case Failed => Failed
    case Ok(acc) =>
      Ok(acc.(fxStates := Replay(start.fxStates, FxFulfil.Changes(start.fxStates, bin.fxReserves)),
              fxChanges := acc.fxChanges + FxFulfil.Changes(start.fxStates, bin.fxReserves),
              notes := acc.notes + FxFulfilNotes(FxFulfil.Notifications(start.fxStates, bin.fxReserves))))
  }

  /** The position-moving stages that check no funds, in order. */
  function Middle(acc: Acc, c: Context, bin: Bin): Result<Acc> {
    var reserved := c.account.reserved;
    match Stage(acc, c.charging, reserved, FulfilRule(acc.states, c.amounts), bin.fulfils)
    case Failed => Failed
    case Ok(a) =>
      match Stage(a, c.charging, reserved, AbortRule(a.states, a.fxStates, false), bin.aborts)
      case Failed => Failed
      case Ok(b) =>
        match Stage(b, c.charging, reserved, AbortRule(b.states, b.fxStates, true), bin.fxAborts)
        case Failed => Failed
        case Ok(d) => Stage(d, c.charging, reserved, TimeoutRule(d.states, c.amounts), bin.timeouts)
  }

  function Back(acc: Acc, c: Context, bin: Bin): Acc {
    ReserveStage(ReserveStage(acc, c, false, bin.prepares), c, true, bin.fxPrepares)
  }

  function Rest(acc: Acc, c: Context, bin: Bin): Result<Acc> {
    match Middle(acc, c, bin)
    case Failed => Failed
    case Ok(a) => Ok(Back(a, c, bin))
  }

  function Process(start: Acc, c: Context, bin: Bin): Result<Acc> {
    match Front(start, c, bin)
    case Failed => Failed
    case Ok(acc) => Rest(acc, c, bin)
  }

  // ----- what a bin sends on

  /** Movement `i` is the first that is still to be made, and `j` the next one. */
  ghost predicate FirstTwo(hops: seq<Hop>, i: nat, j: nat) {
    && i < j < |hops| && !hops[i].done && !hops[j].done
    && forall k :: 0 <= k < j && k != i ==> hops[k].done
  }

  ghost predicate HasNext(m: Message) {
    m.cyril.Some? && exists i, j :: FirstTwo(m.cyril.value.hops, i, j)
  }

  /** The same message with its first pending movement marked done, keyed by the account of the next one. */
  ghost predicate Onward(m: Message, n: Message) {
    && m.cyril.Some?
    && exists i, j :: FirstTwo(m.cyril.value.hops, i, j) && n == OnwardAt(m, i, j)
  }

  ghost function OnwardAt(m: Message, i: nat, j: nat): Message
    requires m.cyril.Some? && i < |m.cyril.value.hops| && j < |m.cyril.value.hops|
  {
    var c := m.cyril.value;
    m.(account := c.hops[j].account, cyril := Some(c.(hops := c.hops[i := c.hops[i].(done := true)])))
  }

  /** A message is sent on if it has a second movement to make; a fulfil also has to be one with conversions, and pass. */
  ghost predicate GoesOn(isFulfil: bool, states: States, m: Message) {
    HasNext(m) && (isFulfil ==> m.cyril.value.isFx && Lookup(states, m.id) == Some(ReceivedFulfil))
  }

  /** The messages that go on, in order, and no others. */
  ghost predicate SentOn(isFulfil: bool, states: States, ms: seq<Message>, sent: seq<Message>) {
    if ms == [] then sent == []
    else
      var n := |ms| - 1;
      if GoesOn(isFulfil, states, ms[n])
      then sent != [] && Onward(ms[n], sent[|sent| - 1]) && SentOn(isFulfil, states, ms[..n], sent[..|sent| - 1])
      else SentOn(isFulfil, states, ms[..n], sent)
  }

  /** What a whole bin sends on: its fulfils that go on, then its aborts, then its fx aborts. */
  ghost predicate FollowUpsOf(states: States, bin: Bin, sent: seq<Message>) {
    exists a: nat, b: nat :: a <= b <= |sent| && SentUpTo(states, bin, sent, a, b)
  }

  ghost predicate SentUpTo(states: States, bin: Bin, sent: seq<Message>, a: nat, b: nat)
    requires a <= b <= |sent|
  {
    && SentOn(true, states, bin.fulfils, sent[..a])
    && SentOn(false, states, bin.aborts, sent[a..b])
    && SentOn(false, states, bin.fxAborts, sent[b..])
  }

  lemma FirstTwoFound(hops: seq<Hop>, i: nat)
    requires i < |hops| && i == FirstPending(hops)
    ensures var j := FirstPending(MarkDone(hops, i));
            if j < |hops| then FirstTwo(hops, i, j) else forall a, b :: !FirstTwo(hops, a, b)
    ensures forall a, b :: FirstTwo(hops, a, b) ==> a == i && b == FirstPending(MarkDone(hops, i))
  {
    var done := MarkDone(hops, i);
    forall k | 0 <= k < FirstPending(done) && k != i
      ensures hops[k].done
    {
      assert done[k].done;
    }
    forall a: nat, b: nat | FirstTwo(hops, a, b)
      ensures a == i && b == FirstPending(done)
    {
      assert !done[b].done;
    }
  }

  /** The rule sends a message on exactly if it goes on. */
  ghost predicate SendsOn(f: Message -> Result<Effect>, isFulfil: bool, states: States) {
    forall m :: f(m).Ok? ==> SendsRightly(m, f(m).value, isFulfil, states)
  }

  ghost predicate SendsRightly(m: Message, e: Effect, isFulfil: bool, states: States) {
    && (e.followUp.Some? <==> GoesOn(isFulfil, states, m))
    && (e.followUp.Some? ==> Onward(m, e.followUp.value))
  }

  lemma FulfilSendsOn(states: States, amounts: map<Id, int>)
    ensures SendsOn(FulfilRule(states, amounts), true, states)
  {
    forall m | FulfilEffect(states, amounts, m).Ok?
      ensures SendsRightly(m, FulfilEffect(states, amounts, m).value, true, states)
    {
      if m.cyril.Some? && m.cyril.value.isFx && FirstPending(m.cyril.value.hops) < |m.cyril.value.hops| {
        FirstTwoFound(m.cyril.value.hops, FirstPending(m.cyril.value.hops));
      }
    }
  }

  lemma AbortSendsOn(any: States, states: States, fxStates: States, isFx: bool)
    ensures SendsOn(AbortRule(states, fxStates, isFx), false, any)
  {
    forall m | AbortEffect(states, fxStates, isFx, m).Ok?
      ensures SendsRightly(m, AbortEffect(states, fxStates, isFx, m).value, false, any)
    {
      FirstTwoFound(m.cyril.value.hops, FirstPending(m.cyril.value.hops));
    }
  }

  /** A rule applied to one message more. */
  lemma OneMore(acc: Acc, charging: bool, reserved: int, f: Message -> Result<Effect>, ms: seq<Message>)
    requires ms != [] && Effects(f, ms).Ok?
    ensures var n := |ms| - 1;
            && Effects(f, ms[..n]).Ok? && f(ms[n]).Ok?
            && ApplyAll(acc, charging, reserved, Effects(f, ms).value) ==
                 Apply(ApplyAll(acc, charging, reserved, Effects(f, ms[..n]).value), charging, reserved, f(ms[n]).value)
  {
    var n := |ms| - 1;
    var es, e := Effects(f, ms[..n]).value, f(ms[n]).value;
    assert (es + [e])[..|es|] == es;
  }

  lemma {:induction false} EffectsSendOn(acc: Acc, charging: bool, reserved: int, f: Message -> Result<Effect>, isFulfil: bool,
                                         states: States, ms: seq<Message>) returns (sent: seq<Message>)
    requires Effects(f, ms).Ok? && SendsOn(f, isFulfil, states)
    ensures ApplyAll(acc, charging, reserved, Effects(f, ms).value).followUps == acc.followUps + sent
    ensures SentOn(isFulfil, states, ms, sent)
  {
    if ms == [] {
      sent := [];
    } else {
      var n := |ms| - 1;
      OneMore(acc, charging, reserved, f, ms);
      var before := EffectsSendOn(acc, charging, reserved, f, isFulfil, states, ms[..n]);
      var e := f(ms[n]).value;
      sent := before + if e.followUp.Some? then [e.followUp.value] else [];
      SentOneMore(isFulfil, states, ms, before, e);
    }
  }

  lemma SentOneMore(isFulfil: bool, states: States, ms: seq<Message>, before: seq<Message>, e: Effect)
    requires ms != [] && SentOn(isFulfil, states, ms[..|ms| - 1], before)
    requires SendsRightly(ms[|ms| - 1], e, isFulfil, states)
    ensures SentOn(isFulfil, states, ms, before + if e.followUp.Some? then [e.followUp.value] else [])
  {
    if e.followUp.Some? {
      assert (before + [e.followUp.value])[..|before|] == before;
    } else {
      assert before + [] == before;
    }
  }

  ghost predicate Silent(f: Message -> Result<Effect>) {
    forall m :: f(m).Ok? ==> f(m).value.followUp.None?
  }

  /** Timeouts send nothing on. */
  lemma {:induction false} EffectsSendNothing(acc: Acc, charging: bool, reserved: int, f: Message -> Result<Effect>,
                                              ms: seq<Message>)
    requires Effects(f, ms).Ok? && Silent(f)
    ensures ApplyAll(acc, charging, reserved, Effects(f, ms).value).followUps == acc.followUps
  {
    if ms != [] {
      OneMore(acc, charging, reserved, f, ms);
      EffectsSendNothing(acc, charging, reserved, f, ms[..|ms| - 1]);
    }
  }

  /** The first stage leaves the transfer states alone. */
  lemma {:induction false} FxTimeoutsKeepStates(start: Acc, charging: bool, reserved: int, fxStates: States, reserves: Reserves,
                                                ms: seq<Message>)
    requires Effects(FxTimeoutRule(fxStates, reserves), ms).Ok?
    ensures ApplyAll(start, charging, reserved, Effects(FxTimeoutRule(fxStates, reserves), ms).value).states == start.states
  {
    if ms != [] {
      OneMore(start, charging, reserved, FxTimeoutRule(fxStates, reserves), ms);
      FxTimeoutsKeepStates(start, charging, reserved, fxStates, reserves, ms[..|ms| - 1]);
    }
  }

  lemma BinSendsOn(position: int, states: States, fxStates: States, c: Context, bin: Bin)
    requires Process(Start(position, states, fxStates), c, bin).Ok?
    ensures FollowUpsOf(states, bin, Process(Start(position, states, fxStates), c, bin).value.followUps)
  {
    var start, rule := Start(position, states, fxStates), FxTimeoutRule(fxStates, c.reserves);
    EffectsSendNothing(start, c.charging, c.account.reserved, rule, bin.fxTimeouts);
    FxTimeoutsKeepStates(start, c.charging, c.account.reserved, fxStates, c.reserves, bin.fxTimeouts);
    MiddleSendsOn(Front(start, c, bin).value, c, bin);
  }

  lemma MiddleSendsOn(acc: Acc, c: Context, bin: Bin)
    requires acc.followUps == [] && Middle(acc, c, bin).Ok?
    ensures FollowUpsOf(acc.states, bin, Middle(acc, c, bin).value.followUps)
  {
    var x, y, z := MiddleParts(acc, c, bin);
    InParts(acc.states, bin, x, y, z);
  }

  lemma StageSendsOn(acc: Acc, c: Context, f: Message -> Result<Effect>, isFulfil: bool, states: States, ms: seq<Message>)
    returns (next: Acc, sent: seq<Message>)
    requires Effects(f, ms).Ok? && SendsOn(f, isFulfil, states)
    ensures Stage(acc, c.charging, c.account.reserved, f, ms) == Ok(next)
    ensures next.followUps == acc.followUps + sent && SentOn(isFulfil, states, ms, sent)
  {
    next := ApplyAll(acc, c.charging, c.account.reserved, Effects(f, ms).value);
    sent := EffectsSendOn(acc, c.charging, c.account.reserved, f, isFulfil, states, ms);
  }

  lemma FulfilsSendOn(acc: Acc, c: Context, ms: seq<Message>) returns (next: Acc, sent: seq<Message>)
    requires Stage(acc, c.charging, c.account.reserved, FulfilRule(acc.states, c.amounts), ms).Ok?
    ensures Stage(acc, c.charging, c.account.reserved, FulfilRule(acc.states, c.amounts), ms) == Ok(next)
    ensures next.followUps == acc.followUps + sent && SentOn(true, acc.states, ms, sent)
  {
    FulfilSendsOn(acc.states, c.amounts);
    next, sent := StageSendsOn(acc, c, FulfilRule(acc.states, c.amounts), true, acc.states, ms);
  }

  lemma AbortsSendOn(acc: Acc, c: Context, isFx: bool, any: States, ms: seq<Message>) returns (next: Acc, sent: seq<Message>)
    requires Stage(acc, c.charging, c.account.reserved, AbortRule(acc.states, acc.fxStates, isFx), ms).Ok?
    ensures Stage(acc, c.charging, c.account.reserved, AbortRule(acc.states, acc.fxStates, isFx), ms) == Ok(next)
    ensures next.followUps == acc.followUps + sent && SentOn(false, any, ms, sent)
  {
    AbortSendsOn(any, acc.states, acc.fxStates, isFx);
    next, sent := StageSendsOn(acc, c, AbortRule(acc.states, acc.fxStates, isFx), false, any, ms);
  }

  lemma MiddleParts(acc: Acc, c: Context, bin: Bin) returns (x: seq<Message>, y: seq<Message>, z: seq<Message>)
    requires acc.followUps == [] && Middle(acc, c, bin).Ok?
    ensures Middle(acc, c, bin).value.followUps == x + y + z
    ensures SentOn(true, acc.states, bin.fulfils, x)
    ensures SentOn(false, acc.states, bin.aborts, y) && SentOn(false, acc.states, bin.fxAborts, z)
  {
    var a, b, d := acc, acc, acc;
    a, x := FulfilsSendOn(acc, c, bin.fulfils);
    b, y := AbortsSendOn(a, c, false, acc.states, bin.aborts);
    d, z := AbortsSendOn(b, c, true, acc.states, bin.fxAborts);
    TimeoutsSendNothing(d, c, bin.timeouts);
    StartingEmpty(acc.followUps, x);
  }

  lemma StartingEmpty<T>(s: seq<T>, x: seq<T>)
    requires s == []
    ensures s + x == x
  {
  }

  lemma TimeoutsSendNothing(acc: Acc, c: Context, ms: seq<Message>)
    requires Stage(acc, c.charging, c.account.reserved, TimeoutRule(acc.states, c.amounts), ms).Ok?
    ensures Stage(acc, c.charging, c.account.reserved, TimeoutRule(acc.states, c.amounts), ms).value.followUps == acc.followUps
  {
    EffectsSendNothing(acc, c.charging, c.account.reserved, TimeoutRule(acc.states, c.amounts), ms);
  }

  lemma InParts(s: States, bin: Bin, x: seq<Message>, y: seq<Message>, z: seq<Message>)
    requires SentOn(true, s, bin.fulfils, x) && SentOn(false, s, bin.aborts, y) && SentOn(false, s, bin.fxAborts, z)
    ensures FollowUpsOf(s, bin, x + y + z)
  {
    ThreeParts(x, y, z);
    assert SentUpTo(s, bin, x + y + z, |x|, |x + y|);
  }

  lemma ThreeParts<T>(x: seq<T>, y: seq<T>, z: seq<T>)
    ensures (x + y + z)[..|x|] == x && (x + y + z)[|x|..|x + y|] == y && (x + y + z)[|x + y|..] == z
  {
  }

  /** The processor: each stage's results replace the accumulated ones before the next stage runs. */
  method ProcessAccountBin(items: seq<FxFulfil.BinItem>, bin: Bin, c: Context, position: int, states: States, fxStates: States)
    returns (r: Result<Acc>)
    requires bin.fxReserves == FxFulfil.Messages(items)
    modifies items
    ensures r == Process(Start(position, states, fxStates), c, bin)
    ensures r.Ok? ==> FollowUpsOf(states, bin, r.value.followUps)
  {
    var reserved := c.account.reserved;
    var start := Start(position, states, fxStates);
    var fulfilled, fxChanges, fxNotes := FxFulfil.ProcessPositionFxFulfilBin(items, fxStates);
    var result := RunStage(start, c.charging, reserved, FxTimeoutRule(fxStates, c.reserves), bin.fxTimeouts);
    if result.Failed? { return Failed; }
    var acc := result.value;
    acc := acc.(fxStates := fulfilled, fxChanges := acc.fxChanges + fxChanges, notes := acc.notes + FxFulfilNotes(fxNotes));
    result := RunStage(acc, c.charging, reserved, FulfilRule(acc.states, c.amounts), bin.fulfils);
    if result.Failed? { return Failed; }
    acc := result.value;
    result := RunStage(acc, c.charging, reserved, AbortRule(acc.states, acc.fxStates, false), bin.aborts);
    if result.Failed? { return Failed; }
    acc := result.value;
    result := RunStage(acc, c.charging, reserved, AbortRule(acc.states, acc.fxStates, true), bin.fxAborts);
    if result.Failed? { return Failed; }
    acc := result.value;
    result := RunStage(acc, c.charging, reserved, TimeoutRule(acc.states, c.amounts), bin.timeouts);
    if result.Failed? { return Failed; }
    acc := result.value;
    acc := Reserve(acc, c, false, bin.prepares);
    acc := Reserve(acc, c, true, bin.fxPrepares);
    r := Ok(acc);
    BinSendsOn(position, states, fxStates, c, bin);
  }

  method Reserve(start: Acc, c: Context, isFx: bool, rs: seq<Reservation.Request>) returns (acc: Acc)
    ensures acc == ReserveStage(start, c, isFx, rs)
    ensures isFx ==> acc.states == start.states && acc.changes == start.changes
    ensures !isFx ==> acc.fxStates == start.fxStates && acc.fxChanges == start.fxChanges
    ensures !c.charging ==> acc.position == start.position && acc.entries == start.entries
    ensures start.entries <= acc.entries && start.notes <= acc.notes && acc.followUps == start.followUps
  {
    var states, position, changes, entries, notices, _ := Reservation.ProcessPositionPrepareBin(
      rs, if isFx then start.fxStates else start.states, c.account, start.position, c.charging);
    acc := start.(position := position, entries := start.entries + ReservationEntries(entries, isFx),
                  notes := start.notes + ReservationNotes(notices));
    if isFx {
      acc := acc.(fxStates := states, fxChanges := start.fxChanges + changes);
    } else {
      acc := acc.(states := states, changes := start.changes + changes);
    }
  }
}
