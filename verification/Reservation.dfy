/**
 The prepare and fx-prepare position bins: liquidity is checked and the position of one account is
 charged for every transfer that is granted. Amounts are whole units of the smallest currency fraction
 the ledger stores.
 */
module Reservation {
  import opened Ledger

  datatype Money = Money(currency: string, amount: int)

  /** A remittance result, when present, overrides the amount of a transfer and picks the side of an fx transfer. */
  datatype Request =
    | Transfer(id: Id, payer: string, payee: string, payload: int, cyrilAmount: Option<int>)
    | FxTransfer(id: Id, payer: string, payee: string, target: Money, source: Money, cyrilCurrency: string)

  function Amount(r: Request): int {
    match r
    case Transfer(_, _, _, payload, cyrilAmount) => if cyrilAmount.Some? then cyrilAmount.value else payload
    case FxTransfer(_, _, _, target, source, currency) =>
      if target.currency == currency then target.amount else source.amount
  }

  /** `alarmHundredths` is the alarm threshold factor in hundredths. */
  datatype Account = Account(reserved: int, settlementPosition: int, netDebitCap: int, alarmHundredths: int)

  datatype Verdict = IncorrectState | InsufficientLiquidity | LimitExceeded | Granted

  datatype PositionChange = PositionChange(id: Id, value: int, change: int, reserved: int)

  datatype Notice = Notice(id: Id, to: string, from: string, verdict: Verdict)

  // ----- reference form

  predicate Eligible(states: States, r: Request) {
    Lookup(states, r.id) == Some(ReceivedPrepare)
  }

  function Judge(states: States, charging: bool, liquidity: int, limit: int, r: Request): Verdict {
    if !Eligible(states, r) then IncorrectState
    else if charging && liquidity < Amount(r) then InsufficientLiquidity
    else if charging && limit < Amount(r) then LimitExceeded
    else Granted
  }

  function Liquidity(a: Account, position: int): int {
    -a.settlementPosition - (position + a.reserved)
  }

  function LimitRoom(a: Account, position: int): int {
    a.netDebitCap - (position + a.reserved)
  }

  function StateAfter(v: Verdict): TransferState {
    if v == Granted then Reserved else AbortedRejected
  }

  function ReasonFor(v: Verdict): Reason {
    match v
    case IncorrectState => IncorrectStateReason
    case InsufficientLiquidity => InsufficientLiquidityReason
    case LimitExceeded => PayerLimitReason
    case Granted => NoReason
  }

  predicate Alarming(a: Account, position: int) {
    100 * position > -a.settlementPosition * a.alarmHundredths
  }

  /** Everything a bin has produced so far. */
  datatype Run = Run(granted: int, states: States, changes: seq<StateChange>, entries: seq<PositionChange>,
                     notices: seq<Notice>, alarms: nat, verdicts: seq<Verdict>)

  function NoticeOf(r: Request, v: Verdict): Notice {
    if v == Granted then Notice(r.id, r.payee, r.payer, Granted) else Notice(r.id, r.payer, HUB_NAME, v)
  }

  function Record(a: Account, position: int, run: Run, r: Request, v: Verdict): Run {
    var granted := run.granted + if v == Granted then Amount(r) else 0;
    Run(granted,
        run.states[r.id := StateAfter(v)],
        run.changes + [StateChange(r.id, StateAfter(v), ReasonFor(v))],
        if v == Granted
        then run.entries + [PositionChange(r.id, position + granted, Amount(r), a.reserved)] else run.entries,
        run.notices + [NoticeOf(r, v)],
        run.alarms + if Alarming(a, position + granted) then 1 else 0,
        run.verdicts + [v])
  }

  /** The verdict on a request after the run of the requests before it. */
  function VerdictAt(states: States, a: Account, position: int, charging: bool, run: Run, r: Request): Verdict {
    Judge(states, charging, Liquidity(a, position) + run.granted, LimitRoom(a, position) + run.granted, r)
  }

  function RunBin(states: States, a: Account, position: int, charging: bool, rs: seq<Request>): Run {
    if rs == [] then Run(0, states, [], [], [], 0, [])
    else
      var run := RunBin(states, a, position, charging, rs[..|rs| - 1]);
      var r := rs[|rs| - 1];
      Record(a, position, run, r, VerdictAt(states, a, position, charging, run, r))
  }

  lemma RunSnoc(states: States, a: Account, position: int, charging: bool, rs: seq<Request>, i: nat, run: Run, v: Verdict)
    requires i < |rs| && run == RunBin(states, a, position, charging, rs[..i])
    requires v == VerdictAt(states, a, position, charging, run, rs[i])
    ensures RunBin(states, a, position, charging, rs[..i + 1]) == Record(a, position, run, rs[i], v)
  {
    assert rs[..i + 1][..i] == rs[..i];
  }

  // ----- the bin function

  /** The verdict inside each notice is also the result recorded on the bin item. */
  method ProcessPositionPrepareBin(rs: seq<Request>, input: States, a: Account, position: int, charging: bool)
    returns (states: States, current: int, changes: seq<StateChange>, entries: seq<PositionChange>,
             notices: seq<Notice>, alarms: nat)
    ensures var run := RunBin(input, a, position, charging, rs);
            && states == run.states && changes == run.changes && notices == run.notices
            && current == (if charging then position + run.granted else position)
            && entries == (if charging then run.entries else [])
            && alarms == (if charging then run.alarms else 0)
  {
    states, changes, entries, notices, alarms := input, [], [], [], 0;
    ghost var run := RunBin(input, a, position, charging, []);
    current := position;
    var liquidity, limit := 0, 0;
    if charging {
      var effective := position + a.reserved;
      liquidity, limit := -a.settlementPosition - effective, a.netDebitCap - effective;
    }
    for i := 0 to |rs|
      invariant run == RunBin(input, a, position, charging, rs[..i])
      invariant states == run.states
      invariant changes == run.changes
      invariant notices == run.notices
      invariant current == if charging then position + run.granted else position
      invariant entries == if charging then run.entries else []
      invariant alarms == if charging then run.alarms else 0
      invariant charging ==> liquidity == Liquidity(a, position) + run.granted
      invariant charging ==> limit == LimitRoom(a, position) + run.granted
    {
      var r := rs[i];
      var amount := Amount(r);
      var verdict :=
        if Lookup(input, r.id) != Some(ReceivedPrepare) then IncorrectState
        else if charging && liquidity < amount then InsufficientLiquidity
        else if charging && limit < amount then LimitExceeded
        else Granted;
      assert verdict == VerdictAt(input, a, position, charging, run, r);
      RunSnoc(input, a, position, charging, rs, i, run, verdict);
      run := Record(a, position, run, r, verdict);
      if charging && verdict == Granted {
        current, liquidity, limit := current + amount, liquidity + amount, limit + amount;
        assert current == position + run.granted;
        entries := entries + [PositionChange(r.id, current, amount, a.reserved)];
        assert entries == run.entries;
      }
      notices := notices + [NoticeOf(r, verdict)];
      if charging && Alarming(a, current) {
        alarms := alarms + 1;
      }
      changes := changes + [StateChange(r.id, StateAfter(verdict), ReasonFor(verdict))];
      states := states[r.id := StateAfter(verdict)];
    }
    assert rs[..|rs|] == rs;
  }

  // ----- laws

  ghost predicate NonNegative(rs: seq<Request>) {
    forall r :: r in rs ==> Amount(r) >= 0
  }

  /** What the account may still take: the smaller of its liquidity and its room under the net debit cap. */
  function Headroom(a: Account, position: int): int {
    if Liquidity(a, position) < LimitRoom(a, position) then Liquidity(a, position) else LimitRoom(a, position)
  }

  /** The request is eligible and fits the account's headroom on its own. */
  predicate Affordable(states: States, headroom: int, r: Request) {
    Eligible(states, r) && Amount(r) <= headroom
  }

  function Demand(states: States, headroom: int, rs: seq<Request>): int {
    if rs == [] then 0
    else
      var n := |rs| - 1;
      Demand(states, headroom, rs[..n]) + if Affordable(states, headroom, rs[n]) then Amount(rs[n]) else 0
  }

  /**
   The bin a caller may submit safely, in terms of the requests alone: the affordable ones fit together,
   and an unaffordable one stays so even if what is affordable before it were added to the headroom.
   */
  predicate Fits(states: States, headroom: int, rs: seq<Request>) {
    rs == [] ||
    var n := |rs| - 1;
    var demand := Demand(states, headroom, rs[..n]);
    && Fits(states, headroom, rs[..n])
    && (Affordable(states, headroom, rs[n]) ==> demand + Amount(rs[n]) <= headroom)
    && (Eligible(states, rs[n]) && !Affordable(states, headroom, rs[n]) ==> headroom + demand < Amount(rs[n]))
  }

  /** No entry of the ledger takes the account over its net debit cap or past its liquidity cover. */
  ghost predicate CapKept(a: Account, entries: seq<PositionChange>) {
    forall e :: e in entries ==> e.value + a.reserved <= a.netDebitCap && e.value + a.reserved <= -a.settlementPosition
  }

  /** Consecutive ledger entries differ by exactly the recorded change, ending in the final position. */
  ghost predicate Chained(position: int, entries: seq<PositionChange>, final: int) {
    if entries == [] then final == position
    else
      var n := |entries| - 1;
      final == entries[n].value && Chained(position, entries[..n], final - entries[n].change)
  }

  lemma {:induction false} EntriesChained(input: States, a: Account, position: int, rs: seq<Request>)
    ensures var run := RunBin(input, a, position, true, rs);
            Chained(position, run.entries, position + run.granted)
  {
    if rs != [] {
      EntriesChained(input, a, position, rs[..|rs| - 1]);
      var before, run := RunBin(input, a, position, true, rs[..|rs| - 1]), RunBin(input, a, position, true, rs);
      if |run.entries| > |before.entries| {
        assert run.entries[..|run.entries| - 1] == before.entries;
      }
    }
  }

  /** The emitted changes, replayed on the input states, are the returned states. */
  lemma {:induction false} ChangesReplay(input: States, a: Account, position: int, charging: bool, rs: seq<Request>)
    ensures var run := RunBin(input, a, position, charging, rs);
            run.states == Replay(input, run.changes)
  {
    if rs != [] {
      var run := RunBin(input, a, position, charging, rs);
      ChangesReplay(input, a, position, charging, rs[..|rs| - 1]);
      assert run.changes[..|run.changes| - 1] == RunBin(input, a, position, charging, rs[..|rs| - 1]).changes;
    }
  }

  /** What a verdict does to its request: the state, the reason, and who hears of it from whom. */
  ghost predicate OutcomeOf(r: Request, v: Verdict, change: StateChange, notice: Notice) {
    && change.id == notice.id == r.id
    && change.state == (if v == Granted then Reserved else AbortedRejected)
    && (v == Granted <==> change.reason == NoReason)
    && (v == IncorrectState <==> change.reason == IncorrectStateReason)
    && (v == InsufficientLiquidity <==> change.reason == InsufficientLiquidityReason)
    && (v == LimitExceeded <==> change.reason == PayerLimitReason)
    && notice.verdict == v
    && (if v == Granted then notice.to == r.payee && notice.from == r.payer else notice.to == r.payer && notice.from == HUB_NAME)
  }

  /** There is one verdict, one state change and one notice per request, in bin order. */
  lemma {:induction false} OneOutcomeEach(input: States, a: Account, position: int, charging: bool, rs: seq<Request>, i: nat)
    requires i < |rs|
    ensures var run := RunBin(input, a, position, charging, rs);
            && |run.changes| == |run.notices| == |run.verdicts| == |rs|
            && OutcomeOf(rs[i], run.verdicts[i], run.changes[i], run.notices[i])
            && (run.verdicts[i] == IncorrectState <==> !Eligible(input, rs[i]))
  {
    var n := |rs| - 1;
    if n > 0 {
      OneOutcomeEach(input, a, position, charging, rs[..n], if i < n then i else 0);
    }
    var before := RunBin(input, a, position, charging, rs[..n]);
    RecordedOutcome(a, position, before, rs[n], VerdictAt(input, a, position, charging, before, rs[n]));
  }

  lemma RecordedOutcome(a: Account, position: int, run: Run, r: Request, v: Verdict)
    ensures var after := Record(a, position, run, r, v);
            && run.changes <= after.changes && run.notices <= after.notices && run.verdicts <= after.verdicts
            && |after.changes| == |run.changes| + 1 && |after.notices| == |run.notices| + 1
            && |after.verdicts| == |run.verdicts| + 1
            && OutcomeOf(r, v, after.changes[|run.changes|], after.notices[|run.notices|])
            && after.verdicts[|run.verdicts|] == v
  {
  }

  /**
   What a request is about: the amount of the remittance if there is one, else its own; for an fx transfer the target
   amount exactly if the remittance is in the target currency, and else the source amount.
   */
  ghost predicate Moves(r: Request, amount: int) {
    match r
    case Transfer(_, _, _, payload, cyrilAmount) =>
      (cyrilAmount.None? ==> amount == payload) && (forall given :: cyrilAmount == Some(given) ==> amount == given)
    case FxTransfer(_, _, _, target, source, currency) =>
      && (currency == target.currency ==> amount == target.amount)
      && (currency != target.currency ==> amount == source.amount)
  }

  /** The granted requests, in bin order. */
  function GrantedOf(rs: seq<Request>, verdicts: seq<Verdict>): seq<Request>
    requires |rs| == |verdicts|
  {
    if rs == [] then []
    else
      var n := |rs| - 1;
      GrantedOf(rs[..n], verdicts[..n]) + if verdicts[n] == Granted then [rs[n]] else []
  }

  function Charged(entries: seq<PositionChange>): int {
    if entries == [] then 0 else Charged(entries[..|entries| - 1]) + entries[|entries| - 1].change
  }

  ghost predicate EntryOf(a: Account, r: Request, e: PositionChange) {
    e.id == r.id && Moves(r, e.change) && e.reserved == a.reserved
  }

  ghost predicate AllCharged(a: Account, rs: seq<Request>, run: Run) {
    && |run.verdicts| == |rs| && run.granted == Charged(run.entries)
    && |run.entries| == |GrantedOf(rs, run.verdicts)|
    && forall k :: 0 <= k < |run.entries| ==> EntryOf(a, GrantedOf(rs, run.verdicts)[k], run.entries[k])
  }

  /** There is one ledger entry for each granted request, of what it is about, and together they move the position. */
  lemma {:induction false} EntriesCharge(input: States, a: Account, position: int, rs: seq<Request>)
    ensures AllCharged(a, rs, RunBin(input, a, position, true, rs))
  {
    if rs != [] {
      var n := |rs| - 1;
      EntriesCharge(input, a, position, rs[..n]);
      var run := RunBin(input, a, position, true, rs[..n]);
      EntryRecorded(a, position, run, rs[..n], rs[n], VerdictAt(input, a, position, true, run, rs[n]));
      UpToLast(rs);
    }
  }

  lemma UpToLast(rs: seq<Request>)
    requires rs != []
    ensures rs[..|rs| - 1] + [rs[|rs| - 1]] == rs
  {
  }

  lemma EntryRecorded(a: Account, position: int, run: Run, rs: seq<Request>, r: Request, v: Verdict)
    requires AllCharged(a, rs, run)
    ensures AllCharged(a, rs + [r], Record(a, position, run, r, v))
  {
    var after := Record(a, position, run, r, v);
    assert (rs + [r])[..|rs|] == rs && after.verdicts[..|rs|] == run.verdicts;
    if v == Granted {
      assert after.entries[..|run.entries|] == run.entries;
    }
  }

  /**
   Why a request is refused: its transfer is not in RECEIVED_PREPARE, or what it is about exceeds what is left of the
   liquidity cover, or else of the net debit cap, where what the bin granted before counts as added.
   */
  lemma RefusedWhy(input: States, a: Account, position: int, rs: seq<Request>, i: nat, amount: int)
    requires i < |rs| && Moves(rs[i], amount)
    ensures var verdicts := RunBin(input, a, position, true, rs).verdicts;
            var before := RunBin(input, a, position, true, rs[..i]).granted;
            && |verdicts| == |rs|
            && var eligible := Lookup(input, rs[i].id) == Some(ReceivedPrepare);
            && var covered := amount <= before - a.settlementPosition - position - a.reserved;
            && (verdicts[i] == IncorrectState <==> !eligible)
            && (verdicts[i] == InsufficientLiquidity <==> eligible && !covered)
            && (verdicts[i] == LimitExceeded <==>
                  eligible && covered && amount > before + a.netDebitCap - position - a.reserved)
  {
    var run := RunBin(input, a, position, true, rs[..i]);
    EntriesCharge(input, a, position, rs[..i]);
    EntriesCharge(input, a, position, rs);
    VerdictsGrow(input, a, position, rs, i + 1);
    RunSnoc(input, a, position, true, rs, i, run, VerdictAt(input, a, position, true, run, rs[i]));
  }

  lemma {:induction false} VerdictsGrow(input: States, a: Account, position: int, rs: seq<Request>, i: nat)
    requires i <= |rs|
    ensures RunBin(input, a, position, true, rs[..i]).verdicts <= RunBin(input, a, position, true, rs).verdicts
  {
    if i == |rs| {
      assert rs[..i] == rs;
    } else {
      assert rs[..|rs| - 1][..i] == rs[..i];
      VerdictsGrow(input, a, position, rs[..|rs| - 1], i);
    }
  }

  /** After request `i` of the bin the position stands above the alarm threshold. */
  ghost predicate AlarmAfter(input: States, a: Account, position: int, charging: bool, rs: seq<Request>, i: nat)
    requires i < |rs|
  {
    100 * (position + RunBin(input, a, position, charging, rs[..i + 1]).granted) > -a.settlementPosition * a.alarmHundredths
  }

  ghost function AlarmedAt(input: States, a: Account, position: int, charging: bool, rs: seq<Request>): set<nat> {
    set i: nat | i < |rs| && AlarmAfter(input, a, position, charging, rs, i)
  }

  lemma AlarmedPrefix(input: States, a: Account, position: int, charging: bool, rs: seq<Request>, n: nat)
    requires n + 1 == |rs|
    ensures AlarmedAt(input, a, position, charging, rs) ==
              AlarmedAt(input, a, position, charging, rs[..n])
              + if AlarmAfter(input, a, position, charging, rs, n) then {n} else {}
  {
    forall i: nat | i < n
      ensures AlarmAfter(input, a, position, charging, rs, i) <==> AlarmAfter(input, a, position, charging, rs[..n], i)
    {
      assert rs[..n][..i + 1] == rs[..i + 1];
    }
  }

  /** An alarm is raised for each request after which the threshold is exceeded, and for no other. */
  lemma {:induction false} AlarmsCounted(input: States, a: Account, position: int, charging: bool, rs: seq<Request>)
    ensures RunBin(input, a, position, charging, rs).alarms == |AlarmedAt(input, a, position, charging, rs)|
  {
    if rs != [] {
      var n := |rs| - 1;
      AlarmsCounted(input, a, position, charging, rs[..n]);
      AlarmedPrefix(input, a, position, charging, rs, n);
      assert rs[..n + 1] == rs;
      assert n !in AlarmedAt(input, a, position, charging, rs[..n]);
    }
  }

  lemma {:induction false} GrantedNonNegative(input: States, a: Account, position: int, rs: seq<Request>)
    requires NonNegative(rs)
    ensures RunBin(input, a, position, true, rs).granted >= 0
    ensures Demand(input, Headroom(a, position), rs) >= 0
  {
    if rs != [] {
      GrantedNonNegative(input, a, position, rs[..|rs| - 1]);
    }
  }

  /** The run granted exactly the affordable requests. */
  ghost predicate GrantsAffordable(input: States, headroom: int, rs: seq<Request>, run: Run) {
    && run.granted == Demand(input, headroom, rs)
    && |run.verdicts| == |rs|
    && forall i :: 0 <= i < |rs| ==> (run.verdicts[i] == Granted <==> Affordable(input, headroom, rs[i]))
  }

  /** Under `Fits`, the bin grants exactly the affordable requests. */
  lemma {:induction false} FittingGrants(input: States, a: Account, position: int, rs: seq<Request>)
    requires NonNegative(rs)
    requires Fits(input, Headroom(a, position), rs)
    ensures var run := RunBin(input, a, position, true, rs);
            GrantsAffordable(input, Headroom(a, position), rs, run) && CapKept(a, run.entries)
  {
    if rs != [] {
      var n := |rs| - 1;
      FittingGrants(input, a, position, rs[..n]);
      GrantedNonNegative(input, a, position, rs[..n]);
      assert rs[n] in rs;
      FittingGrantStep(input, a, position, rs, RunBin(input, a, position, true, rs[..n]));
    }
  }

  lemma FittingGrantStep(input: States, a: Account, position: int, rs: seq<Request>, run: Run)
    requires rs != [] && Amount(rs[|rs| - 1]) >= 0 && run.granted >= 0 && Fits(input, Headroom(a, position), rs)
    requires GrantsAffordable(input, Headroom(a, position), rs[..|rs| - 1], run) && CapKept(a, run.entries)
    ensures var r := rs[|rs| - 1];
            var v := Judge(input, true, Liquidity(a, position) + run.granted, LimitRoom(a, position) + run.granted, r);
            var after := Record(a, position, run, r, v);
            GrantsAffordable(input, Headroom(a, position), rs, after) && CapKept(a, after.entries)
  {
  }

  /**
   The net debit cap and the liquidity cover hold at every ledger entry of a bin if and only if the affordable
   requests fit together, and every other one stays unaffordable even with what is affordable before it added to
   the headroom. The availabilities grow with every grant, so either part of the condition can fail.
   */
  lemma {:induction false} CapKeptIffFits(input: States, a: Account, position: int, rs: seq<Request>)
    requires NonNegative(rs)
    ensures CapKept(a, RunBin(input, a, position, true, rs).entries) <==> Fits(input, Headroom(a, position), rs)
  {
    if Fits(input, Headroom(a, position), rs) {
      FittingGrants(input, a, position, rs);
    } else {
      OverCap(input, a, position, rs);
    }
  }

  lemma {:induction false} OverCap(input: States, a: Account, position: int, rs: seq<Request>)
    requires NonNegative(rs)
    requires !Fits(input, Headroom(a, position), rs)
    ensures !CapKept(a, RunBin(input, a, position, true, rs).entries)
    ensures RunBin(input, a, position, true, rs).granted > Headroom(a, position)
  {
    var n := |rs| - 1;
    var init, r := rs[..n], rs[n];
    var before, after := RunBin(input, a, position, true, init), RunBin(input, a, position, true, rs);
    assert r in rs;
    if Fits(input, Headroom(a, position), init) {
      FittingGrants(input, a, position, init);
      GrantedNonNegative(input, a, position, init);
      assert after.entries == before.entries +
               [PositionChange(r.id, position + before.granted + Amount(r), Amount(r), a.reserved)];
      assert after.entries[|before.entries|] in after.entries;
    } else {
      OverCap(input, a, position, init);
      var e :| e in before.entries && !CapKept(a, [e]);
      assert e in after.entries;
    }
  }

  lemma RunOfTwo(input: States, a: Account, position: int, r: Request, s: Request)
    ensures var run := RunBin(input, a, position, true, [r]);
            RunBin(input, a, position, true, [r, s])
            == Record(a, position, run, s, VerdictAt(input, a, position, true, run, s))
  {
    assert [r, s][..1] == [r];
  }

  lemma BothGranted(input: States, a: Account, position: int, r: Request, s: Request)
    requires Judge(input, true, Liquidity(a, position), LimitRoom(a, position), r) == Granted
    requires Judge(input, true, Liquidity(a, position) + Amount(r), LimitRoom(a, position) + Amount(r), s) == Granted
    ensures var run := RunBin(input, a, position, true, [r, s]);
            run.granted == Amount(r) + Amount(s) && |run.entries| == 2
            && run.entries[1].value == position + Amount(r) + Amount(s)
  {
    SingleVerdict(input, a, position, r);
    RunOfTwo(input, a, position, r, s);
  }

  lemma PastCap(a: Account, entries: seq<PositionChange>, i: nat)
    requires i < |entries| && entries[i].value + a.reserved > a.netDebitCap
    ensures !CapKept(a, entries)
  {
    assert entries[i] in entries;
  }

  /** Two transfers of 60 under a cap of 100 are both granted in one bin. */
  lemma CapCanBeExceeded(r: Request, s: Request, a: Account, input: States)
    requires Amount(r) == 60 && Amount(s) == 60 && Eligible(input, r) && Eligible(input, s)
    requires a.reserved == 0 && a.settlementPosition == -100 && a.netDebitCap == 100
    ensures RunBin(input, a, 0, true, [r, s]).granted == 120
    ensures !CapKept(a, RunBin(input, a, 0, true, [r, s]).entries)
  {
    BothGranted(input, a, 0, r, s);
    PastCap(a, RunBin(input, a, 0, true, [r, s]).entries, 1);
  }

  /**
   The affordable requests may fit together and the cap still be passed: of 60 and 150 under a cap of 100 only the
   first is affordable, but granting it lets the second in.
   */
  lemma UnaffordableLetIn(r: Request, s: Request, a: Account, input: States)
    requires Amount(r) == 60 && Amount(s) == 150 && Eligible(input, r) && Eligible(input, s)
    requires a.reserved == 0 && a.settlementPosition == -100 && a.netDebitCap == 100
    ensures Demand(input, Headroom(a, 0), [r, s]) == 60 <= Headroom(a, 0)
    ensures !Fits(input, Headroom(a, 0), [r, s])
    ensures RunBin(input, a, 0, true, [r, s]).granted == 210
    ensures !CapKept(a, RunBin(input, a, 0, true, [r, s]).entries)
  {
    SixtyOfTwo(input, r, s);
    BothGranted(input, a, 0, r, s);
    PastCap(a, RunBin(input, a, 0, true, [r, s]).entries, 1);
  }

  lemma SixtyOfTwo(input: States, r: Request, s: Request)
    requires Amount(r) == 60 && Amount(s) == 150 && Eligible(input, r) && Eligible(input, s)
    ensures Demand(input, 100, [r, s]) == 60 && !Fits(input, 100, [r, s])
  {
    assert [r, s][..1] == [r] && [r][..0] == [];
    assert Demand(input, 100, [r]) == 60;
  }

  // ----- a bin against one request at a time

  /** The same requests as bins of one, each on the states and the position the one before it left. */
  function RunSingly(states: States, a: Account, position: int, charging: bool, rs: seq<Request>): Run {
    if rs == [] then Run(0, states, [], [], [], 0, [])
    else
      var n := |rs| - 1;
      var run := RunSingly(states, a, position, charging, rs[..n]);
      var single := RunBin(run.states, a, position + run.granted, charging, [rs[n]]);
      Combine(run, single)
  }

  function Combine(u: Run, v: Run): Run {
    Run(u.granted + v.granted, v.states, u.changes + v.changes, u.entries + v.entries, u.notices + v.notices,
        u.alarms + v.alarms, u.verdicts + v.verdicts)
  }

  ghost predicate SameGrants(u: Run, v: Run) {
    |u.verdicts| == |v.verdicts| &&
    forall i :: 0 <= i < |u.verdicts| ==> (u.verdicts[i] == Granted <==> v.verdicts[i] == Granted)
  }

  predicate Mentions(rs: seq<Request>, id: Id) {
    exists i :: 0 <= i < |rs| && rs[i].id == id
  }

  /** No affordable request repeats the id of an earlier one. */
  ghost predicate NoAffordableRepeat(input: States, headroom: int, rs: seq<Request>) {
    forall i :: 0 <= i < |rs| && Affordable(input, headroom, rs[i]) ==> !Mentions(rs[..i], rs[i].id)
  }

  lemma SingleVerdict(states: States, a: Account, position: int, r: Request)
    ensures var run := RunBin(states, a, position, true, [r]);
            var v := Judge(states, true, Liquidity(a, position), LimitRoom(a, position), r);
            && run.verdicts == [v]
            && run.granted == (if v == Granted then Amount(r) else 0)
            && run.states == states[r.id := StateAfter(v)]
            && run.entries == (if v == Granted
                               then [PositionChange(r.id, position + Amount(r), Amount(r), a.reserved)] else [])
  {
    assert [r][..0] == [];
  }

  predicate EligibleId(states: States, id: Id) {
    Lookup(states, id) == Some(ReceivedPrepare)
  }

  /** One at a time, every id is judged once: afterwards it is no longer eligible. */
  lemma {:induction false} SinglyStates(input: States, a: Account, position: int, rs: seq<Request>, id: Id)
    ensures EligibleId(RunSingly(input, a, position, true, rs).states, id)
            <==> EligibleId(input, id) && !Mentions(rs, id)
  {
    if rs != [] {
      var n := |rs| - 1;
      SinglyStates(input, a, position, rs[..n], id);
      var run := RunSingly(input, a, position, true, rs[..n]);
      SingleVerdict(run.states, a, position + run.granted, rs[n]);
      MentionsSnoc(rs, id);
    }
  }

  lemma MentionsSnoc(rs: seq<Request>, id: Id)
    requires rs != []
    ensures Mentions(rs, id) <==> Mentions(rs[..|rs| - 1], id) || rs[|rs| - 1].id == id
  {
    var init := rs[..|rs| - 1];
    if Mentions(init, id) {
      var i :| 0 <= i < |init| && init[i].id == id;
      assert rs[i].id == id;
    }
  }

  /** Run singly, a request is granted on its id, its history in the bin, and the room that is left. */
  ghost predicate SinglyGranted(input: States, a: Account, position: int, before: Run, rs: seq<Request>, r: Request) {
    && EligibleId(input, r.id) && !Mentions(rs, r.id)
    && before.granted + Amount(r) <= Headroom(a, position)
  }

  function NextVerdict(a: Account, position: int, before: Run, r: Request): Verdict {
    var reached := position + before.granted;
    Judge(before.states, true, Liquidity(a, reached), LimitRoom(a, reached), r)
  }

  lemma SinglyJudged(input: States, a: Account, position: int, rs: seq<Request>, r: Request)
    ensures var before := RunSingly(input, a, position, true, rs);
            NextVerdict(a, position, before, r) == Granted <==> SinglyGranted(input, a, position, before, rs, r)
  {
    SinglyStates(input, a, position, rs, r.id);
  }

  /** How a run of bins of one grows by the last request. */
  ghost predicate SinglyStep(input: States, a: Account, position: int, rs: seq<Request>, before: Run, after: Run)
    requires rs != []
  {
    var init, r := rs[..|rs| - 1], rs[|rs| - 1];
    var granted := SinglyGranted(input, a, position, before, init, r);
    && |after.verdicts| == |before.verdicts| + 1
    && after.verdicts[..|before.verdicts|] == before.verdicts
    && (after.verdicts[|before.verdicts|] == Granted <==> granted)
    && after.granted == before.granted + (if granted then Amount(r) else 0)
    && after.entries == before.entries + (if granted
         then [PositionChange(r.id, position + before.granted + Amount(r), Amount(r), a.reserved)] else [])
  }

  lemma SinglySnoc(input: States, a: Account, position: int, rs: seq<Request>, before: Run, after: Run)
    requires rs != []
    requires before == RunSingly(input, a, position, true, rs[..|rs| - 1]) && after == RunSingly(input, a, position, true, rs)
    ensures SinglyStep(input, a, position, rs, before, after)
  {
    var n := |rs| - 1;
    SinglyJudged(input, a, position, rs[..n], rs[n]);
    CombineStep(input, a, position, rs, before, after);
  }

  lemma CombineStep(input: States, a: Account, position: int, rs: seq<Request>, before: Run, after: Run)
    requires rs != []
    requires var n := |rs| - 1;
             NextVerdict(a, position, before, rs[n]) == Granted
             <==> SinglyGranted(input, a, position, before, rs[..n], rs[n])
    requires after == Combine(before, RunBin(before.states, a, position + before.granted, true, [rs[|rs| - 1]]))
    ensures SinglyStep(input, a, position, rs, before, after)
  {
    SingleVerdict(before.states, a, position + before.granted, rs[|rs| - 1]);
  }

  /** Bins of one stay within the cap, and grant only first occurrences that are affordable. */
  ghost predicate Sound(input: States, a: Account, position: int, rs: seq<Request>, run: Run) {
    && |run.verdicts| == |rs|
    && run.granted >= 0
    && CapKept(a, run.entries)
    && (run.granted <= Headroom(a, position) || run.entries == [])
    && (run.entries == [] ==> forall i :: 0 <= i < |rs| ==> run.verdicts[i] != Granted)
    && forall i :: 0 <= i < |rs| && run.verdicts[i] == Granted ==>
         Affordable(input, Headroom(a, position), rs[i]) && !Mentions(rs[..i], rs[i].id)
  }

  lemma SoundStep(input: States, a: Account, position: int, rs: seq<Request>, before: Run, after: Run)
    requires rs != [] && Amount(rs[|rs| - 1]) >= 0
    requires Sound(input, a, position, rs[..|rs| - 1], before) && SinglyStep(input, a, position, rs, before, after)
    ensures Sound(input, a, position, rs, after)
  {
    var n := |rs| - 1;
    forall i | 0 <= i < |rs| && after.verdicts[i] == Granted
      ensures Affordable(input, Headroom(a, position), rs[i]) && !Mentions(rs[..i], rs[i].id)
    {
      if i < n {
        assert rs[..n][i] == rs[i] && rs[..n][..i] == rs[..i];
        assert before.verdicts[i] == Granted;
      }
    }
  }

  lemma {:induction false} SinglySound(input: States, a: Account, position: int, rs: seq<Request>)
    requires NonNegative(rs)
    ensures Sound(input, a, position, rs, RunSingly(input, a, position, true, rs))
  {
    if rs != [] {
      var n := |rs| - 1;
      SinglySound(input, a, position, rs[..n]);
      var before, after := RunSingly(input, a, position, true, rs[..n]), RunSingly(input, a, position, true, rs);
      SinglySnoc(input, a, position, rs, before, after);
      assert rs[n] in rs;
      SoundStep(input, a, position, rs, before, after);
    }
  }

  lemma FittingStep(input: States, a: Account, position: int, rs: seq<Request>, before: Run, after: Run)
    requires rs != [] && before.granted >= 0
    requires var h := Headroom(a, position);
             Fits(input, h, rs) && NoAffordableRepeat(input, h, rs) && GrantsAffordable(input, h, rs[..|rs| - 1], before)
    requires SinglyStep(input, a, position, rs, before, after)
    ensures GrantsAffordable(input, Headroom(a, position), rs, after)
  {
    var n, h := |rs| - 1, Headroom(a, position);
    assert after.verdicts[n] == Granted <==> Affordable(input, h, rs[n]);
    forall i | 0 <= i < n
      ensures after.verdicts[i] == Granted <==> Affordable(input, h, rs[i])
    {
      assert after.verdicts[i] == before.verdicts[i] && rs[..n][i] == rs[i];
    }
  }

  lemma {:induction false} SinglyFitting(input: States, a: Account, position: int, rs: seq<Request>)
    requires NonNegative(rs)
    requires Fits(input, Headroom(a, position), rs) && NoAffordableRepeat(input, Headroom(a, position), rs)
    ensures GrantsAffordable(input, Headroom(a, position), rs, RunSingly(input, a, position, true, rs))
  {
    if rs != [] {
      var n := |rs| - 1;
      forall i | 0 <= i < n
        ensures rs[..n][..i] == rs[..i]
      {
      }
      SinglyFitting(input, a, position, rs[..n]);
      var before, after := RunSingly(input, a, position, true, rs[..n]), RunSingly(input, a, position, true, rs);
      SinglySnoc(input, a, position, rs, before, after);
      SinglySound(input, a, position, rs[..n]);
      FittingStep(input, a, position, rs, before, after);
    }
  }

  /** What the granted requests sum to, and the ledger entries that leaves. */
  function GrantedTotal(rs: seq<Request>, vs: seq<Verdict>): int
    requires |rs| == |vs|
  {
    if rs == [] then 0
    else
      var n := |rs| - 1;
      GrantedTotal(rs[..n], vs[..n]) + if vs[n] == Granted then Amount(rs[n]) else 0
  }

  lemma {:induction false} TotalsFollowVerdicts(input: States, a: Account, position: int, rs: seq<Request>)
    ensures var u, v := RunBin(input, a, position, true, rs), RunSingly(input, a, position, true, rs);
            && |u.verdicts| == |v.verdicts| == |rs|
            && u.granted == GrantedTotal(rs, u.verdicts)
            && v.granted == GrantedTotal(rs, v.verdicts)
  {
    if rs != [] {
      var n := |rs| - 1;
      TotalsFollowVerdicts(input, a, position, rs[..n]);
      var u, v := RunBin(input, a, position, true, rs), RunSingly(input, a, position, true, rs);
      SinglySnoc(input, a, position, rs, RunSingly(input, a, position, true, rs[..n]), v);
      assert u.verdicts[..n] == RunBin(input, a, position, true, rs[..n]).verdicts;
    }
  }

  lemma {:induction false} SameTotals(rs: seq<Request>, vs: seq<Verdict>, ws: seq<Verdict>)
    requires |rs| == |vs| == |ws|
    requires forall i :: 0 <= i < |rs| ==> (vs[i] == Granted <==> ws[i] == Granted)
    ensures GrantedTotal(rs, vs) == GrantedTotal(rs, ws)
  {
    if rs != [] {
      var n := |rs| - 1;
      SameTotals(rs[..n], vs[..n], ws[..n]);
    }
  }

  lemma {:induction false} NoGrantNoEntry(input: States, a: Account, position: int, rs: seq<Request>)
    ensures var u := RunBin(input, a, position, true, rs);
            |u.verdicts| == |rs| && ((forall i :: 0 <= i < |rs| ==> u.verdicts[i] != Granted) ==> u.entries == [])
  {
    if rs != [] {
      NoGrantNoEntry(input, a, position, rs[..|rs| - 1]);
      var u := RunBin(input, a, position, true, rs);
      var before := RunBin(input, a, position, true, rs[..|rs| - 1]);
      assert before.verdicts == u.verdicts[..|rs| - 1];
      if u.verdicts[|rs| - 1] != Granted && before.entries != [] {
        var i :| 0 <= i < |rs| - 1 && before.verdicts[i] == Granted;
        assert u.verdicts[i] == Granted;
      }
    }
  }

  /**
   Batching is transparent exactly when it is safe: a bin grants the same requests as bins of one if and only if
   it fits, in both parts of `Fits`, and no affordable request repeats an earlier id.
   */
  lemma BatchingTransparentIff(input: States, a: Account, position: int, rs: seq<Request>)
    requires NonNegative(rs)
    ensures SameGrants(RunBin(input, a, position, true, rs), RunSingly(input, a, position, true, rs))
            <==> Fits(input, Headroom(a, position), rs) && NoAffordableRepeat(input, Headroom(a, position), rs)
  {
    TotalsFollowVerdicts(input, a, position, rs);
    SinglySound(input, a, position, rs);
    if Fits(input, Headroom(a, position), rs) {
      FittingBatch(input, a, position, rs);
    } else {
      OverCap(input, a, position, rs);
      NoGrantNoEntry(input, a, position, rs);
      OverfullBatch(a, position, rs, RunBin(input, a, position, true, rs), RunSingly(input, a, position, true, rs));
    }
  }

  lemma FittingBatch(input: States, a: Account, position: int, rs: seq<Request>)
    requires NonNegative(rs) && Fits(input, Headroom(a, position), rs)
    ensures SameGrants(RunBin(input, a, position, true, rs), RunSingly(input, a, position, true, rs))
            <==> NoAffordableRepeat(input, Headroom(a, position), rs)
  {
    var h := Headroom(a, position);
    FittingGrants(input, a, position, rs);
    SinglySound(input, a, position, rs);
    if NoAffordableRepeat(input, h, rs) {
      SinglyFitting(input, a, position, rs);
    } else {
      var i :| 0 <= i < |rs| && Affordable(input, h, rs[i]) && Mentions(rs[..i], rs[i].id);
      assert RunBin(input, a, position, true, rs).verdicts[i] == Granted;
    }
  }

  /** A run that grants more than the headroom grants otherwise than bins of one. */
  lemma OverfullBatch(a: Account, position: int, rs: seq<Request>, u: Run, v: Run)
    requires |u.verdicts| == |v.verdicts| == |rs|
    requires u.granted == GrantedTotal(rs, u.verdicts) && v.granted == GrantedTotal(rs, v.verdicts)
    requires u.granted > Headroom(a, position) && u.entries != []
    requires (forall i :: 0 <= i < |rs| ==> u.verdicts[i] != Granted) ==> u.entries == []
    requires v.granted <= Headroom(a, position) || forall i :: 0 <= i < |rs| ==> v.verdicts[i] != Granted
    ensures !SameGrants(u, v)
  {
    if SameGrants(u, v) {
      SameTotals(rs, u.verdicts, v.verdicts);
    }
  }

  /**
   Redelivering a bin charges nothing twice, but it rejects every request again: a transfer that was
   reserved is moved to AbortedRejected while its charge stays in the position.
   */
  lemma {:induction false} RedeliveryRejects(states: States, a: Account, position: int, charging: bool, rs: seq<Request>)
    requires forall r :: r in rs ==> !Eligible(states, r)
    ensures var again := RunBin(states, a, position, charging, rs);
            && again.granted == 0 && again.entries == []
            && forall r :: r in rs ==> Lookup(again.states, r.id) == Some(AbortedRejected)
  {
    if rs != [] {
      var n := |rs| - 1;
      RedeliveryRejects(states, a, position, charging, rs[..n]);
      LastOrBefore(rs);
      RejectedNext(a, position, RunBin(states, a, position, charging, rs[..n]), rs[n], rs[..n]);
    }
  }

  lemma LastOrBefore(rs: seq<Request>)
    requires rs != []
    ensures forall r :: r in rs <==> r in rs[..|rs| - 1] || r == rs[|rs| - 1]
  {
    assert rs == rs[..|rs| - 1] + [rs[|rs| - 1]];
  }

  lemma RejectedNext(a: Account, position: int, run: Run, r: Request, before: seq<Request>)
    requires run.granted == 0 && run.entries == []
    requires forall q :: q in before ==> Lookup(run.states, q.id) == Some(AbortedRejected)
    ensures var after := Record(a, position, run, r, IncorrectState);
            && after.granted == 0 && after.entries == []
            && forall q :: q in before || q == r ==> Lookup(after.states, q.id) == Some(AbortedRejected)
  {
  }

  lemma {:induction false} NothingStaysEligible(input: States, a: Account, position: int, charging: bool, rs: seq<Request>)
    ensures forall r :: r in rs ==> !Eligible(RunBin(input, a, position, charging, rs).states, r)
  {
    if rs != [] {
      var n := |rs| - 1;
      NothingStaysEligible(input, a, position, charging, rs[..n]);
      var before, after := RunBin(input, a, position, charging, rs[..n]), RunBin(input, a, position, charging, rs);
      var v := VerdictAt(input, a, position, charging, before, rs[n]);
      assert after.states == before.states[rs[n].id := StateAfter(v)];
      forall r | r in rs
        ensures !Eligible(after.states, r)
      {
        assert r in rs[..n] || r == rs[n];
      }
    }
  }

  lemma Redelivery(input: States, a: Account, position: int, charging: bool, rs: seq<Request>)
    ensures var run := RunBin(input, a, position, charging, rs);
            var again := RunBin(run.states, a, position + run.granted, charging, rs);
            && again.granted == 0 && again.entries == []
            && forall r :: r in rs ==> Lookup(again.states, r.id) == Some(AbortedRejected)
  {
    NothingStaysEligible(input, a, position, charging, rs);
    var run := RunBin(input, a, position, charging, rs);
    RedeliveryRejects(run.states, a, position + run.granted, charging, rs);
  }

  /** Every id of a bin ends reserved or rejected, and no other id moves. */
  lemma {:induction false} IdsDecided(input: States, a: Account, position: int, charging: bool, rs: seq<Request>, id: Id)
    ensures var after := RunBin(input, a, position, charging, rs).states;
            if Mentions(rs, id) then Lookup(after, id) in {Some(Reserved), Some(AbortedRejected)}
            else Lookup(after, id) == Lookup(input, id)
  {
    if rs != [] {
      var n := |rs| - 1;
      IdsDecided(input, a, position, charging, rs[..n], id);
      MentionsSnoc(rs, id);
      var before := RunBin(input, a, position, charging, rs[..n]);
      var v := VerdictAt(input, a, position, charging, before, rs[n]);
      assert RunBin(input, a, position, charging, rs).states == before.states[rs[n].id := StateAfter(v)];
    }
  }

  /** An id that is not eligible ends rejected once a bin names it. */
  lemma {:induction false} IneligibleRejected(states: States, a: Account, position: int, charging: bool, rs: seq<Request>, id: Id)
    requires Mentions(rs, id) && !EligibleId(states, id)
    ensures Lookup(RunBin(states, a, position, charging, rs).states, id) == Some(AbortedRejected)
  {
    var n := |rs| - 1;
    var before := RunBin(states, a, position, charging, rs[..n]);
    assert RunBin(states, a, position, charging, rs).states ==
             before.states[rs[n].id := StateAfter(VerdictAt(states, a, position, charging, before, rs[n]))];
    MentionsSnoc(rs, id);
    if rs[n].id != id {
      IneligibleRejected(states, a, position, charging, rs[..n], id);
    }
  }

  lemma InBin(rs: seq<Request>, r: Request)
    requires r in rs
    ensures Mentions(rs, r.id)
  {
    var i :| 0 <= i < |rs| && rs[i] == r;
  }

  /**
   When a bin leaves every state alone, whatever states it meets: if and only if all its transfers were rejected
   before. Every other state it finds, it changes.
   */
  lemma BinHarmlessIff(states: States, a: Account, position: int, charging: bool, rs: seq<Request>)
    ensures (forall id :: Lookup(RunBin(states, a, position, charging, rs).states, id) == Lookup(states, id))
            <==> forall r :: r in rs ==> Lookup(states, r.id) == Some(AbortedRejected)
  {
    var after := RunBin(states, a, position, charging, rs).states;
    forall r | r in rs
      ensures Lookup(after, r.id) == Lookup(states, r.id) <==> Lookup(states, r.id) == Some(AbortedRejected)
    {
      InBin(rs, r);
      IdsDecided(states, a, position, charging, rs, r.id);
      if !EligibleId(states, r.id) {
        IneligibleRejected(states, a, position, charging, rs, r.id);
      }
    }
    forall id | !Mentions(rs, id)
      ensures Lookup(after, id) == Lookup(states, id)
    {
      IdsDecided(states, a, position, charging, rs, id);
    }
    if forall r :: r in rs ==> Lookup(states, r.id) == Some(AbortedRejected) {
      forall id
        ensures Lookup(after, id) == Lookup(states, id)
      {
        if Mentions(rs, id) {
          var i :| 0 <= i < |rs| && rs[i].id == id;
          assert rs[i] in rs;
        }
      }
    }
  }

  /** A log that takes no transfer back to ReceivedPrepare makes none eligible. */
  lemma {:induction false} NoneEligibleAgain(states: States, log: seq<StateChange>, id: Id)
    requires forall c :: c in log ==> c.state != ReceivedPrepare
    ensures EligibleId(Replay(states, log), id) ==> EligibleId(states, id)
  {
    if log != [] {
      NoneEligibleAgain(states, log[..|log| - 1], id);
    }
  }

  /**
   When a redelivery is harmless, whatever has happened to position and states since: it charges nothing, and leaves
   every state alone if and only if each of its transfers is rejected by then. A transfer that was reserved, or
   committed meanwhile, is moved to AbortedRejected.
   */
  lemma RedeliveryHarmlessIff(input: States, a: Account, position: int, charging: bool, rs: seq<Request>,
                              log: seq<StateChange>, later: int)
    requires forall c :: c in log ==> c.state != ReceivedPrepare
    ensures var now := Replay(RunBin(input, a, position, charging, rs).states, log);
            var again := RunBin(now, a, later, charging, rs);
            && again.granted == 0 && again.entries == []
            && ((forall id :: Lookup(again.states, id) == Lookup(now, id))
                <==> forall r :: r in rs ==> Lookup(now, r.id) == Some(AbortedRejected))
  {
    var run := RunBin(input, a, position, charging, rs);
    var now := Replay(run.states, log);
    NothingStaysEligible(input, a, position, charging, rs);
    forall r | r in rs
      ensures !Eligible(now, r)
    {
      NoneEligibleAgain(run.states, log, r.id);
    }
    RedeliveryRejects(now, a, later, charging, rs);
    BinHarmlessIff(now, a, later, charging, rs);
  }

  /** If nothing has happened since, that is: iff none of its transfers is reserved. */
  lemma ImmediateRedelivery(input: States, a: Account, position: int, later: int, charging: bool, rs: seq<Request>)
    ensures var run := RunBin(input, a, position, charging, rs);
            var again := RunBin(run.states, a, later, charging, rs);
            && again.granted == 0 && again.entries == []
            && ((forall id :: Lookup(again.states, id) == Lookup(run.states, id))
                <==> forall r :: r in rs ==> Lookup(run.states, r.id) != Some(Reserved))
  {
    RedeliveryHarmlessIff(input, a, position, charging, rs, [], later);
    forall r | r in rs
      ensures Lookup(RunBin(input, a, position, charging, rs).states, r.id) in {Some(Reserved), Some(AbortedRejected)}
    {
      InBin(rs, r);
      IdsDecided(input, a, position, charging, rs, r.id);
    }
  }

  /** Any charged request is a witness: redelivered, it is moved to AbortedRejected and its charge stays. */
  lemma RedeliveryStrandsCharge(input: States, a: Account, position: int, r: Request)
    requires Affordable(input, Headroom(a, position), r) && Amount(r) > 0
    ensures var run := RunBin(input, a, position, true, [r]);
            var again := RunBin(run.states, a, position + run.granted, true, [r]);
            && run.granted == Amount(r) > 0 && Lookup(run.states, r.id) == Some(Reserved)
            && again.granted == 0 && Lookup(again.states, r.id) == Some(AbortedRejected)
  {
    SingleVerdict(input, a, position, r);
    Redelivery(input, a, position, true, [r]);
    assert r in [r];
  }

  // ----- finding the charges again

  /** The state of the latest change of an id; the processor links every charge of the id to that change. */
  function LatestState(log: seq<StateChange>, id: Id): Option<TransferState> {
    if log == [] then None
    else if log[|log| - 1].id == id then Some(log[|log| - 1].state)
    else LatestState(log[..|log| - 1], id)
  }

  /** An abort looks charges up by the RESERVED changes they are linked to. */
  predicate Findable(run: Run, e: PositionChange) {
    LatestState(run.changes, e.id) == Some(Reserved)
  }

  predicate LastOfId(rs: seq<Request>, j: nat) {
    j < |rs| && forall k :: j < k < |rs| ==> rs[k].id != rs[j].id
  }

  /** The latest change of a named id is that of its last request in the bin. */
  lemma {:induction false} LatestVerdict(input: States, a: Account, position: int, rs: seq<Request>, j: nat)
    requires LastOfId(rs, j)
    ensures var run := RunBin(input, a, position, true, rs);
            |run.verdicts| == |rs| && LatestState(run.changes, rs[j].id) == Some(StateAfter(run.verdicts[j]))
  {
    var n := |rs| - 1;
    var before := RunBin(input, a, position, true, rs[..n]);
    var v := VerdictAt(input, a, position, true, before, rs[n]);
    NoGrantNoEntry(input, a, position, rs[..n]);
    LatestNext(a, position, before, rs[n], v, rs[j].id);
    if j < n {
      LatestVerdict(input, a, position, rs[..n], j);
    }
  }

  lemma LatestNext(a: Account, position: int, run: Run, r: Request, v: Verdict, id: Id)
    ensures LatestState(Record(a, position, run, r, v).changes, id) ==
              if r.id == id then Some(StateAfter(v)) else LatestState(run.changes, id)
  {
    var change := StateChange(r.id, StateAfter(v), ReasonFor(v));
    assert (run.changes + [change])[..|run.changes|] == run.changes;
  }

  /** Request `i` is granted. */
  predicate GrantedAt(run: Run, i: nat) {
    i < |run.verdicts| && run.verdicts[i] == Granted
  }

  /** An id has a charge iff one of its requests is granted. */
  lemma {:induction false} ChargedIffGranted(input: States, a: Account, position: int, rs: seq<Request>, id: Id)
    ensures var run := RunBin(input, a, position, true, rs);
            && |run.verdicts| == |rs|
            && ((exists e :: e in run.entries && e.id == id) <==> exists i: nat :: GrantedAt(run, i) && rs[i].id == id)
  {
    if rs != [] {
      var n := |rs| - 1;
      ChargedIffGranted(input, a, position, rs[..n], id);
      var before := RunBin(input, a, position, true, rs[..n]);
      ChargedStep(a, position, before, rs, VerdictAt(input, a, position, true, before, rs[n]), id);
    }
  }

  lemma ChargedStep(a: Account, position: int, run: Run, rs: seq<Request>, v: Verdict, id: Id)
    requires |run.verdicts| + 1 == |rs|
    requires (exists e :: e in run.entries && e.id == id) <==> exists i: nat :: GrantedAt(run, i) && rs[i].id == id
    ensures var after := Record(a, position, run, rs[|rs| - 1], v);
            (exists e :: e in after.entries && e.id == id) <==> exists i: nat :: GrantedAt(after, i) && rs[i].id == id
  {
    var n := |rs| - 1;
    var after := Record(a, position, run, rs[n], v);
    if e :| e in run.entries && e.id == id {
      assert e in after.entries;
      var i: nat :| GrantedAt(run, i) && rs[i].id == id;
      assert GrantedAt(after, i);
    }
    if v == Granted && rs[n].id == id {
      assert after.entries[|run.entries|] in after.entries && GrantedAt(after, n);
    }
    if i: nat :| GrantedAt(after, i) && rs[i].id == id {
      assert i < n ==> GrantedAt(run, i);
    }
  }

  /** The last request of a granted id is rejected. */
  ghost predicate LostAt(rs: seq<Request>, run: Run, j: nat) {
    && LastOfId(rs, j) && !GrantedAt(run, j)
    && exists i: nat :: GrantedAt(run, i) && i < |rs| && rs[i].id == rs[j].id
  }

  /**
   Every charge of a bin can be found again by an abort if and only if no id is rejected by its last request in the
   bin after an earlier one was granted.
   */
  lemma ChargesFoundIff(input: States, a: Account, position: int, rs: seq<Request>)
    ensures var run := RunBin(input, a, position, true, rs);
            (forall e :: e in run.entries ==> Findable(run, e)) <==> forall j: nat :: !LostAt(rs, run, j)
  {
    var run := RunBin(input, a, position, true, rs);
    if j: nat :| LostAt(rs, run, j) {
      ChargedIffGranted(input, a, position, rs, rs[j].id);
      LatestVerdict(input, a, position, rs, j);
      var e :| e in run.entries && e.id == rs[j].id;
      assert !Findable(run, e);
    } else {
      forall e | e in run.entries
        ensures Findable(run, e)
      {
        ChargedIffGranted(input, a, position, rs, e.id);
        var i: nat :| GrantedAt(run, i) && rs[i].id == e.id;
        var j := LastRequest(rs, i);
        LatestVerdict(input, a, position, rs, j);
        assert !LostAt(rs, run, j);
      }
    }
  }

  lemma {:induction false} LastRequest(rs: seq<Request>, i: nat) returns (j: nat)
    requires i < |rs|
    ensures LastOfId(rs, j) && rs[j].id == rs[i].id
    decreases |rs| - i
  {
    if k: nat :| i < k < |rs| && rs[k].id == rs[i].id {
      j := LastRequest(rs, k);
    } else {
      j := i;
    }
  }

  /** A charge is lost: 60 are granted under a cap of 100, and a second request of 200 with the same id is rejected. */
  lemma ChargeLost(input: States, r: Request, s: Request)
    requires Amount(r) == 60 && Amount(s) == 200 && r.id == s.id && Eligible(input, r)
    ensures var run := RunBin(input, Account(0, -100, 100, 1000), 0, true, [r, s]);
            run.granted == 60 && exists e :: e in run.entries && e.change == 60 && !Findable(run, e)
  {
    var a := Account(0, -100, 100, 1000);
    SingleVerdict(input, a, 0, r);
    RunOfTwo(input, a, 0, r, s);
    LatestVerdict(input, a, 0, [r, s], 1);
    var run := RunBin(input, a, 0, true, [r, s]);
    assert run.entries[0] in run.entries;
  }

  /** A bin depends on the states only through which ids are eligible. */
  lemma {:induction false} SameEligibility(s: States, t: States, a: Account, position: int, charging: bool, rs: seq<Request>)
    requires forall id :: EligibleId(s, id) <==> EligibleId(t, id)
    ensures var u, v := RunBin(s, a, position, charging, rs), RunBin(t, a, position, charging, rs);
            u.(states := v.states) == v
  {
    if rs != [] {
      var n := |rs| - 1;
      SameEligibility(s, t, a, position, charging, rs[..n]);
      var u, v := RunBin(s, a, position, charging, rs[..n]), RunBin(t, a, position, charging, rs[..n]);
      var liquidity, limit := Liquidity(a, position) + u.granted, LimitRoom(a, position) + u.granted;
      SameJudgement(s, t, charging, liquidity, limit, rs[n]);
      SameRecord(a, position, u, v, rs[n], Judge(s, charging, liquidity, limit, rs[n]));
    }
  }

  lemma SameJudgement(s: States, t: States, charging: bool, liquidity: int, limit: int, r: Request)
    requires EligibleId(s, r.id) <==> EligibleId(t, r.id)
    ensures Judge(s, charging, liquidity, limit, r) == Judge(t, charging, liquidity, limit, r)
  {
  }

  lemma SameRecord(a: Account, position: int, u: Run, v: Run, r: Request, verdict: Verdict)
    requires u.(states := v.states) == v
    ensures var u', v' := Record(a, position, u, r, verdict), Record(a, position, v, r, verdict);
            u'.(states := v'.states) == v'
  {
  }
}
