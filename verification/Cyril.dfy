/**
 How a fulfilled transfer with currency conversions is turned into position movements, and which of
 these remittances the circulation of their message carries out in full.
 */
module Cyril {
  import opened Ledger
  import opened Sequences
  import A = AccountBin
  import C = Circulation

  datatype ConversionType = PayerConversion | PayeeConversion

  /** A watch list record together with its fx transfer. */
  datatype Conversion = Conversion(kind: ConversionType, commitRequestId: Id, initiator: string, counterParty: string,
                                   sourceCurrency: string, sourceAmount: int, targetCurrency: string, targetAmount: int)

  /** The account a party has in a currency, its own or its proxy's. */
  datatype Details = Details(inScheme: bool, account: Option<nat>)

  type Directory = (string, string) -> Details

  datatype Transfer = Transfer(id: Id, payer: string, payee: string)

  datatype Remittance = NoConversion | Unresolved | Remittance(cyril: A.Cyril)

  function TransferHop(id: Id, account: nat, amount: int): A.Hop {
    A.Hop(false, id, account, amount, false, None, false)
  }

  function FxHop(id: Id, account: nat, amount: int): A.Hop {
    A.Hop(true, id, account, amount, false, None, false)
  }

  /** What one conversion owes, if the creditor of the obligation has an account here. */
  function ConversionHops(d: Directory, t: Transfer, c: Conversion): seq<A.Hop> {
    match c.kind
    case PayeeConversion =>
      (match d(c.initiator, c.targetCurrency).account
       case Some(a) => [TransferHop(t.id, a, -c.targetAmount)]
       case None => [])
    case PayerConversion =>
      (match d(c.counterParty, c.sourceCurrency).account
       case Some(a) => [FxHop(c.commitRequestId, a, -c.sourceAmount)]
       case None => [])
  }

  function AllConversionHops(d: Directory, t: Transfer, cs: seq<Conversion>): seq<A.Hop> {
    if cs == [] then [] else AllConversionHops(d, t, cs[..|cs| - 1]) + ConversionHops(d, t, cs[|cs| - 1])
  }

  /** The last conversion of a kind wins. */
  function LastOf(kind: ConversionType, cs: seq<Conversion>): Option<Conversion> {
    if cs == [] then None
    else if cs[|cs| - 1].kind == kind then Some(cs[|cs| - 1])
    else LastOf(kind, cs[..|cs| - 1])
  }

  /** Whether the obligation towards a party moves a position: not between two parties on one proxy account. */
  predicate Moves(own: Details, other: Details) {
    own.account.Some? && (own.inScheme || (!other.inScheme && own.account != other.account))
  }

  /** The obligation that closes the chain of conversions. */
  function ClosingHops(d: Directory, t: Transfer, sending: Option<Conversion>, receiving: Option<Conversion>): seq<A.Hop> {
    match (sending, receiving)
    case (Some(_), Some(r)) =>
      var fxp := d(r.counterParty, r.sourceCurrency);
      if fxp.account.Some? then [FxHop(r.commitRequestId, fxp.account.value, -r.sourceAmount)] else []
    case (Some(s), None) =>
      var payee := d(t.payee, s.targetCurrency);
      if Moves(payee, d(s.counterParty, s.targetCurrency))
      then [TransferHop(t.id, payee.account.value, -s.targetAmount)] else []
    case (None, Some(r)) =>
      var fxp := d(r.counterParty, r.sourceCurrency);
      if Moves(fxp, d(t.payer, r.sourceCurrency))
      then [FxHop(r.commitRequestId, fxp.account.value, -r.sourceAmount)] else []
    case (None, None) => []
  }

  /** A payee without an account moves no position, so its transfer is committed by a bare state change. */
  function Extras(d: Directory, t: Transfer, sending: Option<Conversion>, receiving: Option<Conversion>): seq<A.ExtraChange> {
    if sending.Some? && receiving.None? && d(t.payee, sending.value.targetCurrency).account.None?
    then [A.ExtraChange(t.id, Committed, "", true)] else []
  }

  /** The fx providers of the payer's side are told of the outcome. */
  function Patches(cs: seq<Conversion>): seq<A.Patch> {
    if cs == [] then []
    else
      var c := cs[|cs| - 1];
      Patches(cs[..|cs| - 1]) + if c.kind == PayerConversion then [A.Patch(c.commitRequestId, c.counterParty)] else []
  }

  /** Whom the closing obligation is owed to: the receiving fx provider, or else the payee. */
  function Creditor(d: Directory, t: Transfer, sending: Option<Conversion>, receiving: Option<Conversion>): Details
    requires sending.Some? || receiving.Some?
  {
    if receiving.Some? then d(receiving.value.counterParty, receiving.value.sourceCurrency)
    else d(t.payee, sending.value.targetCurrency)
  }

  /** Who owes it when only one side converts: the payer, or the sending fx provider. */
  function Debtor(d: Directory, t: Transfer, sending: Option<Conversion>, receiving: Option<Conversion>): Details
    requires sending.Some? || receiving.Some?
  {
    if receiving.Some? then d(t.payer, receiving.value.sourceCurrency)
    else d(sending.value.counterParty, sending.value.targetCurrency)
  }

  predicate OneProxyAccount(a: Details, b: Details) {
    !a.inScheme && !b.inScheme && a.account.Some? && a.account == b.account
  }

  /**
   The closing obligation: at most one movement, on the creditor's account, of what the last conversion of the
   deciding side promised. There is none exactly if the creditor has no account, or, when only one side converts, if
   it is behind a proxy and the debtor is in the scheme or behind the same proxy account. A bare state change stands
   in exactly for a payee without account, and never beside a movement.
   */
  lemma ClosingObligation(d: Directory, t: Transfer, sending: Option<Conversion>, receiving: Option<Conversion>)
    requires sending.Some? || receiving.Some?
    ensures var hops, extras := ClosingHops(d, t, sending, receiving), Extras(d, t, sending, receiving);
            var creditor := if receiving.Some? then d(receiving.value.counterParty, receiving.value.sourceCurrency)
                            else d(t.payee, sending.value.targetCurrency);
            var debtor := if receiving.Some? then d(t.payer, receiving.value.sourceCurrency)
                          else d(sending.value.counterParty, sending.value.targetCurrency);
            && |hops| <= 1
            && (forall h :: h in hops ==>
                  && Some(h.account) == creditor.account && h.isFx == receiving.Some?
                  && h.amount == -(if receiving.Some? then receiving.value.sourceAmount else sending.value.targetAmount))
            && (hops == [] <==> || creditor.account.None?
                                || ((sending.None? || receiving.None?) && !creditor.inScheme
                                    && (debtor.inScheme || debtor.account == creditor.account)))
            && (forall h :: h in hops ==>
                  h.id == if receiving.Some? then receiving.value.commitRequestId else t.id)
            && (extras != [] <==> receiving.None? && creditor.account.None?)
            && (extras == [] || (hops == [] && extras == [A.ExtraChange(t.id, Committed, "", true)]))
  {
  }

  /** The obligation that closes the chain, and the bare state change if there is none to the payee. */
  method CloseChain(d: Directory, t: Transfer, sending: Option<Conversion>, receiving: Option<Conversion>)
    returns (hops: seq<A.Hop>, extras: seq<A.ExtraChange>)
    requires sending.Some? || receiving.Some?
    ensures hops == ClosingHops(d, t, sending, receiving) && extras == Extras(d, t, sending, receiving)
    ensures |hops| <= 1 && (hops == [] || extras == [])
    ensures var creditor, debtor := Creditor(d, t, sending, receiving), Debtor(d, t, sending, receiving);
            (sending.None? || receiving.None?) && OneProxyAccount(creditor, debtor) ==> hops == []
  {
    hops, extras := [], [];
    if sending.Some? && receiving.Some? {
      var fxp := d(receiving.value.counterParty, receiving.value.sourceCurrency);
      if fxp.account.Some? {
        hops := [FxHop(receiving.value.commitRequestId, fxp.account.value, -receiving.value.sourceAmount)];
      }
    } else if sending.Some? {
      var payee := d(t.payee, sending.value.targetCurrency);
      if payee.account.Some? {
        var isPositionChange := false;
        if payee.inScheme {
          isPositionChange := true;
        } else {
          var fxp := d(sending.value.counterParty, sending.value.targetCurrency);
          if !fxp.inScheme && payee.account != fxp.account {
            isPositionChange := true;
          }
        }
        if isPositionChange {
          hops := [TransferHop(t.id, payee.account.value, -sending.value.targetAmount)];
        }
      } else {
        extras := [A.ExtraChange(t.id, Committed, "", true)];
      }
    } else {
      var fxp := d(receiving.value.counterParty, receiving.value.sourceCurrency);
      if fxp.account.Some? {
        var isPositionChange := false;
        if fxp.inScheme {
          isPositionChange := true;
        } else {
          var payer := d(t.payer, receiving.value.sourceCurrency);
          if !payer.inScheme && fxp.account != payer.account {
            isPositionChange := true;
          }
        }
        if isPositionChange {
          hops := [FxHop(receiving.value.commitRequestId, fxp.account.value, -receiving.value.sourceAmount)];
        }
      }
    }
  }

  method ProcessFulfilMessage(d: Directory, t: Transfer, watched: seq<Conversion>)
    returns (r: Remittance)
    ensures r.NoConversion? <==> watched == []
    ensures !r.Unresolved?
    ensures r.Remittance? ==>
              && r.cyril.isFx
              && r.cyril.hops == AllConversionHops(d, t, watched) +
                   ClosingHops(d, t, LastOf(PayerConversion, watched), LastOf(PayeeConversion, watched))
              && r.cyril.extras == Extras(d, t, LastOf(PayerConversion, watched), LastOf(PayeeConversion, watched))
              && r.cyril.patches == Patches(watched)
  {
    if watched == [] {
      return NoConversion;
    }
    var sending, receiving: Option<Conversion> := None, None;
    var hops: seq<A.Hop>, notifications: seq<A.Patch> := [], [];
    for i := 0 to |watched|
      invariant sending == LastOf(PayerConversion, watched[..i])
      invariant receiving == LastOf(PayeeConversion, watched[..i])
      invariant i > 0 ==> sending.Some? || receiving.Some?
      invariant hops == AllConversionHops(d, t, watched[..i])
      invariant notifications == Patches(watched[..i])
    {
      var c := watched[i];
      assert watched[..i + 1][..i] == watched[..i];
      if c.kind == PayeeConversion {
        receiving := Some(c);
        var initiator := d(c.initiator, c.targetCurrency);
        if initiator.account.Some? {
          hops := hops + [TransferHop(t.id, initiator.account.value, -c.targetAmount)];
        }
      }
      if c.kind == PayerConversion {
        sending := Some(c);
        var fxp := d(c.counterParty, c.sourceCurrency);
        if fxp.account.Some? {
          hops := hops + [FxHop(c.commitRequestId, fxp.account.value, -c.sourceAmount)];
        }
        notifications := notifications + [A.Patch(c.commitRequestId, c.counterParty)];
      }
    }
    assert watched[..|watched|] == watched;
    if sending.None? && receiving.None? {
      return Unresolved;
    }
    var closing, extras := CloseChain(d, t, sending, receiving);
    r := Remittance(A.Cyril(true, hops + closing, extras, notifications));
  }

  // ----- which remittances circulate to the end

  function Hops(d: Directory, t: Transfer, cs: seq<Conversion>): seq<A.Hop> {
    AllConversionHops(d, t, cs) + ClosingHops(d, t, LastOf(PayerConversion, cs), LastOf(PayeeConversion, cs))
  }

  /** The token of a fulfil with these conversions. */
  ghost predicate Carries(token: C.Token, d: Directory, t: Transfer, cs: seq<Conversion>) {
    && token.kind == C.Fulfil && token.message.id == t.id
    && C.Hops(token) == Hops(d, t, cs)
  }

  lemma {:induction false} PayerHopsAreFx(d: Directory, t: Transfer, cs: seq<Conversion>)
    requires forall c :: c in cs ==> c.kind == PayerConversion
    ensures forall h :: h in AllConversionHops(d, t, cs) ==> h.isFx
  {
    if cs != [] {
      PayerHopsAreFx(d, t, cs[..|cs| - 1]);
    }
  }

  lemma {:induction false} LastOfNone(kind: ConversionType, cs: seq<Conversion>)
    ensures LastOf(kind, cs).None? <==> forall c :: c in cs ==> c.kind != kind
    ensures LastOf(kind, cs).Some? ==> LastOf(kind, cs).value in cs && LastOf(kind, cs).value.kind == kind
    ensures LastOf(kind, cs).Some? ==> exists i :: 0 <= i < |cs| && LastAt(kind, cs, i) && cs[i] == LastOf(kind, cs).value
  {
    if cs != [] {
      var init, last := cs[..|cs| - 1], cs[|cs| - 1];
      assert cs == init + [last];
      LastOfNone(kind, init);
      if last.kind == kind {
        assert LastAt(kind, cs, |init|);
      } else if LastOf(kind, init).Some? {
        var i :| 0 <= i < |init| && LastAt(kind, init, i) && init[i] == LastOf(kind, init).value;
        assert LastAt(kind, cs, i);
      }
    }
  }

  /** No later conversion is of that kind. */
  ghost predicate LastAt(kind: ConversionType, cs: seq<Conversion>, i: int)
    requires 0 <= i < |cs|
  {
    forall j :: i < j < |cs| ==> cs[j].kind != kind
  }

  /** Conversions on the payer's side only: the transfer itself is committed last, so everything is paid. */
  lemma PayerConversionsComplete(token: C.Token, d: Directory, t: Transfer, cs: seq<Conversion>)
    requires Carries(token, d, t, cs)
    requires forall c :: c in cs ==> c.kind == PayerConversion
    ensures C.Serial(token)
  {
    PayerHopsAreFx(d, t, cs);
    LastOfNone(PayeeConversion, cs);
    var hops := AllConversionHops(d, t, cs);
    forall k | 0 <= k < |C.Hops(token)| - 1
      ensures !C.Closes(C.Hops(token)[k], token)
    {
      assert C.Hops(token)[k] == hops[k] && hops[k] in hops;
    }
  }

  // ----- any list of conversions

  /** The conversion commits the transfer with its own movement. */
  predicate Commits(d: Directory, c: Conversion) {
    c.kind == PayeeConversion && d(c.initiator, c.targetCurrency).account.Some?
  }

  lemma {:induction false} AllHopsConcat(d: Directory, t: Transfer, a: seq<Conversion>, b: seq<Conversion>)
    ensures AllConversionHops(d, t, a + b) == AllConversionHops(d, t, a) + AllConversionHops(d, t, b)
  {
    if b == [] {
      assert a + b == a;
    } else {
      ConcatInit(a, b);
      AllHopsConcat(d, t, a, b[..|b| - 1]);
    }
  }

  /** The movements of a list around conversion `i`. */
  lemma HopsAround(d: Directory, t: Transfer, cs: seq<Conversion>, i: nat)
    requires i < |cs|
    ensures AllConversionHops(d, t, cs) ==
              AllConversionHops(d, t, cs[..i]) + ConversionHops(d, t, cs[i]) + AllConversionHops(d, t, cs[i + 1..])
  {
    AroundElement(cs, i);
    var upTo := cs[..i] + [cs[i]];
    AllHopsConcat(d, t, upTo, cs[i + 1..]);
  }

  /** The conversion a movement comes from. */
  lemma {:induction false} HopSource(d: Directory, t: Transfer, cs: seq<Conversion>, k: nat) returns (i: nat)
    requires k < |AllConversionHops(d, t, cs)|
    ensures i < |cs| && k == |AllConversionHops(d, t, cs[..i])|
    ensures ConversionHops(d, t, cs[i]) == [AllConversionHops(d, t, cs)[k]]
  {
    var n := |cs| - 1;
    if k < |AllConversionHops(d, t, cs[..n])| {
      i := HopSource(d, t, cs[..n], k);
      assert cs[..n][..i] == cs[..i];
    } else {
      i := n;
    }
  }

  /** A movement of a conversion closes the guard of its fulfil exactly if the conversion commits. */
  lemma ConversionCloses(token: C.Token, d: Directory, t: Transfer, c: Conversion)
    requires token.kind == C.Fulfil && token.message.id == t.id
    ensures forall h :: h in ConversionHops(d, t, c) ==> (C.Closes(h, token) <==> Commits(d, c))
    ensures Commits(d, c) ==> |ConversionHops(d, t, c)| == 1
  {
  }

  function Closing(d: Directory, t: Transfer, cs: seq<Conversion>): (hops: seq<A.Hop>)
    ensures |hops| <= 1
  {
    ClosingHops(d, t, LastOf(PayerConversion, cs), LastOf(PayeeConversion, cs))
  }

  /** Nothing has to be moved after a conversion that commits. */
  predicate CommitsLast(d: Directory, t: Transfer, cs: seq<Conversion>) {
    forall i :: 0 <= i < |cs| && Commits(d, cs[i]) ==>
                  AllConversionHops(d, t, cs[i + 1..]) == [] && Closing(d, t, cs) == []
  }

  /**
   For any list of conversions: every movement is made if and only if none follows a payee-side conversion whose
   initiator has an account, be it of a later conversion or the closing obligation.
   */
  lemma EveryMovementIff(token: C.Token, d: Directory, t: Transfer, cs: seq<Conversion>)
    requires Carries(token, d, t, cs)
    ensures C.Serial(token) <==> CommitsLast(d, t, cs)
  {
    if C.Serial(token) {
      forall i | 0 <= i < |cs| && Commits(d, cs[i])
        ensures AllConversionHops(d, t, cs[i + 1..]) == [] && Closing(d, t, cs) == []
      {
        CommittingHop(token, d, t, cs, i);
      }
    }
    if CommitsLast(d, t, cs) {
      forall k: nat | k < |C.Hops(token)| - 1
        ensures !C.Closes(C.Hops(token)[k], token)
      {
        EarlierHop(token, d, t, cs, k);
      }
    }
  }

  lemma CommittingHop(token: C.Token, d: Directory, t: Transfer, cs: seq<Conversion>, i: nat)
    requires Carries(token, d, t, cs) && i < |cs| && Commits(d, cs[i])
    ensures var k := |AllConversionHops(d, t, cs[..i])|;
            && k < |C.Hops(token)| && C.Closes(C.Hops(token)[k], token)
            && |C.Hops(token)| == k + 1 + |AllConversionHops(d, t, cs[i + 1..])| + |Closing(d, t, cs)|
  {
    HopsAround(d, t, cs, i);
    ConversionCloses(token, d, t, cs[i]);
    assert C.Hops(token)[|AllConversionHops(d, t, cs[..i])|] == ConversionHops(d, t, cs[i])[0];
  }

  lemma EarlierHop(token: C.Token, d: Directory, t: Transfer, cs: seq<Conversion>, k: nat)
    requires Carries(token, d, t, cs) && CommitsLast(d, t, cs) && k < |C.Hops(token)| - 1
    ensures !C.Closes(C.Hops(token)[k], token)
  {
    var all := AllConversionHops(d, t, cs);
    assert C.Hops(token)[k] == all[k];
    var i := HopSource(d, t, cs, k);
    ConversionCloses(token, d, t, cs[i]);
    if Commits(d, cs[i]) {
      HopsAround(d, t, cs, i);
    }
  }

  /**
   So, for a single conversion: every movement is made unless it is on the payee's side, its initiator
   has an account, and the obligation of the fx provider moves a position too.
   */
  lemma SingleConversion(token: C.Token, d: Directory, t: Transfer, c: Conversion)
    requires Carries(token, d, t, [c])
    ensures C.Serial(token) <==>
              !(&& c.kind == PayeeConversion
                && d(c.initiator, c.targetCurrency).account.Some?
                && Moves(d(c.counterParty, c.sourceCurrency), d(t.payer, c.sourceCurrency)))
  {
    EveryMovementIff(token, d, t, [c]);
    assert [c][1..] == [] && [c][..0] == [];
    LastOfNone(PayerConversion, [c]);
    LastOfNone(PayeeConversion, [c]);
    assert c in [c];
    assert CommitsLast(d, t, [c]) <==> (Commits(d, c) ==> Closing(d, t, [c]) == []);
  }

  /** The remittance commits the transfer: by a conversion, by its closing movement, or by a bare state change. */
  predicate CommitsTransfer(d: Directory, t: Transfer, cs: seq<Conversion>) {
    || (exists i :: 0 <= i < |cs| && Commits(d, cs[i]))
    || (LastOf(PayerConversion, cs).Some? && LastOf(PayeeConversion, cs).None?
        && (|| d(t.payee, LastOf(PayerConversion, cs).value.targetCurrency).account.None?
            || Closing(d, t, cs) != []))
  }

  ghost predicate CarriesExtras(token: C.Token, d: Directory, t: Transfer, cs: seq<Conversion>) {
    C.Extras(token) == Extras(d, t, LastOf(PayerConversion, cs), LastOf(PayeeConversion, cs))
  }

  lemma SettlesIff(token: C.Token, d: Directory, t: Transfer, cs: seq<Conversion>)
    requires Carries(token, d, t, cs) && CarriesExtras(token, d, t, cs)
    ensures C.Settles(token) <==> CommitsTransfer(d, t, cs)
  {
    var all, closing := AllConversionHops(d, t, cs), Closing(d, t, cs);
    assert C.Hops(token) == all + closing;
    if i :| 0 <= i < |cs| && Commits(d, cs[i]) {
      CommittingHop(token, d, t, cs, i);
      assert C.Hops(token)[|AllConversionHops(d, t, cs[..i])|] in C.Hops(token);
    } else {
      forall h | h in all
        ensures !C.Closes(h, token)
      {
        var k :| 0 <= k < |all| && all[k] == h;
        var i := HopSource(d, t, cs, k);
        ConversionCloses(token, d, t, cs[i]);
      }
      if closing != [] {
        assert closing[0] in C.Hops(token);
      }
      assert forall h :: h in C.Hops(token) <==> h in all || h in closing;
    }
  }

  /**
   Where a fulfil with conversions ends, whatever independent messages circulate beside it: all its movements are made
   iff none follows a committing conversion, and the transfer is committed iff the remittance commits it at all.
   */
  lemma FulfilOutcome(start: C.World, ts: seq<C.Token>, i: nat, d: Directory, t: Transfer, cs: seq<Conversion>,
                      schedule: seq<nat>)
    requires C.Launched(start, ts) && C.Independent(ts) && C.Quiescent(C.Run(start, schedule))
    requires i < |ts| && Carries(ts[i], d, t, cs) && CarriesExtras(ts[i], d, t, cs)
    ensures C.Progress(start, ts, schedule)[i] == |C.Hops(ts[i])| <==> CommitsLast(d, t, cs)
    ensures Lookup(C.Run(start, schedule).states, t.id) == Some(if CommitsTransfer(d, t, cs) then Committed else ReceivedFulfil)
  {
    C.Completion(start, ts, schedule);
    EveryMovementIff(ts[i], d, t, cs);
    SettlesIff(ts[i], d, t, cs);
  }

  /**
   A payee behind a proxy that has an account, reached over an fx provider of the scheme: the fulfil is reported,
   but its transfer is never committed.
   */
  lemma ReportedNotCommitted(start: C.World, token: C.Token, d: Directory, t: Transfer, c: Conversion, schedule: seq<nat>)
    requires C.Launched(start, [token]) && C.Quiescent(C.Run(start, schedule))
    requires Carries(token, d, t, [c]) && CarriesExtras(token, d, t, [c]) && !C.Succeeded(start.notes, t.id)
    requires c.kind == PayerConversion && d(c.counterParty, c.targetCurrency).inScheme
    requires d(t.payee, c.targetCurrency).account.Some? && !d(t.payee, c.targetCurrency).inScheme
    ensures C.Succeeded(C.Run(start, schedule).notes, t.id)
    ensures Lookup(C.Run(start, schedule).states, t.id) == Some(ReceivedFulfil)
  {
    assert [c][..0] == [];
    LastOfNone(PayeeConversion, [c]);
    FulfilOutcome(start, [token], 0, d, t, [c], schedule);
    EveryMovementIff(token, d, t, [c]);
    C.ReportedIffSerial(start, [token], schedule, 0);
  }

  // ----- what the movements pay

  /** What a conversion owes to an account, once it is carried out. */
  function Owed(d: Directory, c: Conversion, account: nat): int {
    match c.kind
    case PayeeConversion => if d(c.initiator, c.targetCurrency).account == Some(account) then c.targetAmount else 0
    case PayerConversion => if d(c.counterParty, c.sourceCurrency).account == Some(account) then c.sourceAmount else 0
  }

  function AllOwed(d: Directory, cs: seq<Conversion>, account: nat): int {
    if cs == [] then 0 else AllOwed(d, cs[..|cs| - 1], account) + Owed(d, cs[|cs| - 1], account)
  }

  /** What the closing obligation owes to an account, if it moves a position at all. */
  function ClosingOwed(d: Directory, t: Transfer, cs: seq<Conversion>, account: nat): int {
    var sending, receiving := LastOf(PayerConversion, cs), LastOf(PayeeConversion, cs);
    if Closing(d, t, cs) == [] || (sending.None? && receiving.None?)
       || Creditor(d, t, sending, receiving).account != Some(account) then 0
    else if receiving.Some? then receiving.value.sourceAmount
    else sending.value.targetAmount
  }

  lemma {:induction false} PaidConcat(a: seq<A.Hop>, b: seq<A.Hop>, n: nat, account: nat)
    requires n <= |b|
    ensures C.Paid(a + b, |a| + n, account) == C.Paid(a, |a|, account) + C.Paid(b, n, account)
  {
    if n == 0 {
      PaidPrefix(a, b, |a|, account);
    } else {
      PaidConcat(a, b, n - 1, account);
    }
  }

  lemma {:induction false} PaidPrefix(a: seq<A.Hop>, b: seq<A.Hop>, n: nat, account: nat)
    requires n <= |a|
    ensures C.Paid(a + b, n, account) == C.Paid(a, n, account)
  {
    if n > 0 {
      PaidPrefix(a, b, n - 1, account);
    }
  }

  lemma ConversionPays(d: Directory, t: Transfer, c: Conversion, account: nat)
    ensures var hops := ConversionHops(d, t, c); C.Paid(hops, |hops|, account) == -Owed(d, c, account)
  {
  }

  lemma {:induction false} ConversionsPay(d: Directory, t: Transfer, cs: seq<Conversion>, account: nat)
    ensures var hops := AllConversionHops(d, t, cs); C.Paid(hops, |hops|, account) == -AllOwed(d, cs, account)
  {
    if cs != [] {
      var n := |cs| - 1;
      ConversionsPay(d, t, cs[..n], account);
      ConversionPays(d, t, cs[n], account);
      var hops := ConversionHops(d, t, cs[n]);
      PaidConcat(AllConversionHops(d, t, cs[..n]), hops, |hops|, account);
    }
  }

  lemma ClosingPays(d: Directory, t: Transfer, cs: seq<Conversion>, account: nat)
    ensures var hops := Closing(d, t, cs); C.Paid(hops, |hops|, account) == -ClosingOwed(d, t, cs, account)
  {
  }

  /**
   For any list of conversions, the movements of the remittance credit every account with exactly what the conversions
   and the closing obligation owe it.
   */
  lemma ObligationsPaid(token: C.Token, d: Directory, t: Transfer, cs: seq<Conversion>, account: nat)
    requires Carries(token, d, t, cs)
    ensures C.Paid(C.Hops(token), |C.Hops(token)|, account) == -AllOwed(d, cs, account) - ClosingOwed(d, t, cs, account)
  {
    ConversionsPay(d, t, cs, account);
    ClosingPays(d, t, cs, account);
    PaidConcat(AllConversionHops(d, t, cs), Closing(d, t, cs), |Closing(d, t, cs)|, account);
  }

  /** So at rest a fulfil whose movements are all made has paid every account what it owes, whatever else circulated. */
  lemma ObligationsSettled(start: C.World, ts: seq<C.Token>, i: nat, d: Directory, t: Transfer, cs: seq<Conversion>,
                           schedule: seq<nat>, account: nat)
    requires C.Launched(start, ts) && C.Independent(ts) && C.Quiescent(C.Run(start, schedule))
    requires i < |ts| && Carries(ts[i], d, t, cs) && CommitsLast(d, t, cs)
    ensures C.Balance(C.Run(start, schedule), account)
            == C.Balance(start, account) + C.PaidByOthers(ts, i, account)
               - AllOwed(d, cs, account) - ClosingOwed(d, t, cs, account)
  {
    C.Completion(start, ts, schedule);
    EveryMovementIff(ts[i], d, t, cs);
    C.PaidByAll(ts, i, account);
    ObligationsPaid(ts[i], d, t, cs, account);
  }

  /**
   One payer-side conversion between parties of the scheme pays out what was reserved: the initiator's
   source amount goes to the fx provider, and the provider's target amount goes to the payee.
   */
  lemma PayerConversionBalanced(token: C.Token, d: Directory, t: Transfer, c: Conversion, fxp: nat, payee: nat)
    requires Carries(token, d, t, [c]) && c.kind == PayerConversion
    requires d(c.counterParty, c.sourceCurrency).account == Some(fxp)
    requires d(t.payee, c.targetCurrency) == Details(true, Some(payee))
    requires fxp != payee
    ensures C.Serial(token)
    ensures C.Paid(C.Hops(token), |C.Hops(token)|, fxp) + c.sourceAmount == 0
    ensures C.Paid(C.Hops(token), |C.Hops(token)|, payee) + c.targetAmount == 0
  {
    SingleConversion(token, d, t, c);
    assert [c][..0] == [];
    LastOfNone(PayeeConversion, [c]);
    var hops := C.Hops(token);
    assert LastOf(PayerConversion, [c]) == Some(c);
    assert LastOf(PayeeConversion, [c]) == None;
    assert AllConversionHops(d, t, [c]) == ConversionHops(d, t, c);
    assert hops == [FxHop(c.commitRequestId, fxp, -c.sourceAmount), TransferHop(t.id, payee, -c.targetAmount)];
    assert C.Paid(hops, 2, fxp) == C.Paid(hops, 1, fxp) && C.Paid(hops, 1, fxp) == C.Paid(hops, 0, fxp) - c.sourceAmount;
    assert C.Paid(hops, 2, payee) == C.Paid(hops, 1, payee) - c.targetAmount && C.Paid(hops, 1, payee) == C.Paid(hops, 0, payee);
  }

  // ----- what the movements are for

  /** The movement pays the counterparty of a conversion its source amount, for the conversion itself. */
  ghost predicate PaysProvider(d: Directory, c: Conversion, h: A.Hop) {
    && h.isFx && h.id == c.commitRequestId && h.amount == -c.sourceAmount
    && d(c.counterParty, c.sourceCurrency).account == Some(h.account)
  }

  /** The movement pays out the target amount of a conversion, for the transfer. */
  ghost predicate PaysOut(d: Directory, t: Transfer, c: Conversion, h: A.Hop) {
    && !h.isFx && h.id == t.id && h.amount == -c.targetAmount
    && d(if c.kind == PayeeConversion then c.initiator else t.payee, c.targetCurrency).account == Some(h.account)
  }

  /** Every movement pays what some watched conversion promised, under the id of that conversion or the transfer. */
  lemma EveryHopPays(d: Directory, t: Transfer, cs: seq<Conversion>, h: A.Hop)
    requires h in Hops(d, t, cs)
    ensures exists c :: c in cs && (PaysProvider(d, c, h) || PaysOut(d, t, c, h))
  {
    var all := AllConversionHops(d, t, cs);
    if h in all {
      var k :| 0 <= k < |all| && all[k] == h;
      var i := HopSource(d, t, cs, k);
      assert cs[i] in cs && (PaysProvider(d, cs[i], h) || PaysOut(d, t, cs[i], h));
    } else {
      assert h in Closing(d, t, cs);
      LastOfNone(PayerConversion, cs);
      LastOfNone(PayeeConversion, cs);
      var c := if LastOf(PayeeConversion, cs).Some? then LastOf(PayeeConversion, cs).value
               else LastOf(PayerConversion, cs).value;
      assert c in cs && (PaysProvider(d, c, h) || PaysOut(d, t, c, h));
    }
  }

  /** The fx transfers the remittance moves: each payer-side one with an account, and the one of the closing obligation. */
  ghost predicate MovesFx(d: Directory, t: Transfer, cs: seq<Conversion>, id: Id) {
    || (exists c :: c in cs && c.kind == PayerConversion && c.commitRequestId == id
                    && d(c.counterParty, c.sourceCurrency).account.Some?)
    || (LastOf(PayeeConversion, cs).Some? && LastOf(PayeeConversion, cs).value.commitRequestId == id
        && Closing(d, t, cs) != [])
  }

  lemma FxHopIff(d: Directory, t: Transfer, cs: seq<Conversion>, id: Id)
    ensures (exists h :: h in Hops(d, t, cs) && h.isFx && h.id == id) <==> MovesFx(d, t, cs, id)
  {
    var all, closing := AllConversionHops(d, t, cs), Closing(d, t, cs);
    if h :| h in Hops(d, t, cs) && h.isFx && h.id == id {
      if h in all {
        var k :| 0 <= k < |all| && all[k] == h;
        var i := HopSource(d, t, cs, k);
        assert cs[i] in cs && cs[i].kind == PayerConversion;
      } else {
        assert h in closing;
      }
    }
    if c :| c in cs && c.kind == PayerConversion && c.commitRequestId == id
            && d(c.counterParty, c.sourceCurrency).account.Some? {
      var i: nat :| i < |cs| && cs[i] == c;
      HopsAround(d, t, cs, i);
      assert ConversionHops(d, t, c)[0] in Hops(d, t, cs) && ConversionHops(d, t, c)[0].id == id;
    }
    if LastOf(PayeeConversion, cs).Some? && closing != [] {
      assert closing[0] in Hops(d, t, cs) && closing[0].isFx;
    }
  }

  /**
   The fx transfers at rest: if every movement of the fulfil is made and no other message is about an fx transfer, it
   is committed exactly if the remittance moves it, and otherwise it is as it was.
   */
  lemma FxOutcome(start: C.World, ts: seq<C.Token>, i: nat, d: Directory, t: Transfer, cs: seq<Conversion>,
                  schedule: seq<nat>, id: Id)
    requires C.Launched(start, ts) && C.Independent(ts) && C.Quiescent(C.Run(start, schedule))
    requires i < |ts| && Carries(ts[i], d, t, cs) && CommitsLast(d, t, cs)
    requires forall j :: 0 <= j < |ts| && j != i ==> !C.Affects(ts[j], |C.Hops(ts[j])|, true, id)
    ensures Lookup(C.Run(start, schedule).fxStates, id) ==
              if MovesFx(d, t, cs, id) then Some(Committed) else Lookup(start.fxStates, id)
  {
    C.Completion(start, ts, schedule);
    EveryMovementIff(ts[i], d, t, cs);
    C.RunStates(start, ts, schedule, true, id, Committed);
    C.AffectedByOne(ts, C.Progress(start, ts, schedule), i, true, id);
    C.AffectedFx(ts[i], id);
    FxHopIff(d, t, cs, id);
  }

  // ----- how a fulfil is launched

  /** The message that starts a remittance: keyed by the account of its first movement. */
  function Launch(d: Directory, t: Transfer, cs: seq<Conversion>): C.Token
    requires Hops(d, t, cs) != []
  {
    var sending, receiving := LastOf(PayerConversion, cs), LastOf(PayeeConversion, cs);
    C.Token(C.Fulfil, A.Message(t.id, t.payee, t.payer, Hops(d, t, cs)[0].account, false,
                                Some(A.Cyril(true, Hops(d, t, cs), Extras(d, t, sending, receiving), Patches(cs)))))
  }

  lemma {:induction false} NothingDone(d: Directory, t: Transfer, cs: seq<Conversion>)
    ensures forall h :: h in AllConversionHops(d, t, cs) ==> !h.done
  {
    if cs != [] {
      NothingDone(d, t, cs[..|cs| - 1]);
    }
  }

  /** Whatever the remittance is, its message can circulate: alone, the laws above hold of it. */
  lemma FulfilLaunches(d: Directory, t: Transfer, cs: seq<Conversion>, w: C.World)
    requires Hops(d, t, cs) != [] && Lookup(w.states, t.id) == Some(ReceivedFulfil)
    ensures var token := Launch(d, t, cs);
            && C.Launched(w.(flights := [Some(token)]), [token]) && C.Independent([token])
            && Carries(token, d, t, cs) && CarriesExtras(token, d, t, cs)
  {
    NothingDone(d, t, cs);
    var token := Launch(d, t, cs);
    assert C.Waiting(w.(flights := [Some(token)]), token, Some(token));
  }

  function OfKind(kind: ConversionType, cs: seq<Conversion>): seq<Conversion> {
    if cs == [] then []
    else OfKind(kind, cs[..|cs| - 1]) + if cs[|cs| - 1].kind == kind then [cs[|cs| - 1]] else []
  }

  /** The patches are one for each payer-side conversion, in order, to the fx provider under the id of the conversion. */
  lemma {:induction false} PatchedProviders(cs: seq<Conversion>)
    ensures |Patches(cs)| == |OfKind(PayerConversion, cs)|
    ensures forall k :: 0 <= k < |Patches(cs)| ==>
              && Patches(cs)[k].id == OfKind(PayerConversion, cs)[k].commitRequestId
              && Patches(cs)[k].fxp == OfKind(PayerConversion, cs)[k].counterParty
  {
    if cs != [] {
      PatchedProviders(cs[..|cs| - 1]);
    }
  }
}
