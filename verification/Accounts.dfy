/**
 Registering a participant for a currency: one ledger account and one settlement account for each settlement
 model that applies. The accounts are inserted one by one, without a transaction.
 */
module Accounts {
  import opened Ledger
  import opened Sequences

  datatype Model = Model(currency: Option<string>, ledgerType: nat, settlementType: nat)

  datatype Account = Account(participantId: nat, currency: string, accountType: nat, isActive: bool)

  datatype Entry = Entry(id: nat, account: Account)

  datatype Failure = HubAccountMissing | AlreadyRegistered | NoSettlementModel | DuplicateAccount

  datatype Outcome = Created(currencyList: seq<Entry>) | Refused(failure: Failure)

  /** The account table, by primary key. */
  type Rows = map<nat, Account>

  /** Identifiers are auto-incremented. */
  datatype State = State(participants: map<string, nat>, nextParticipant: nat, rows: Rows, nextRow: nat)

  predicate SameKey(a: Account, b: Account) {
    a.participantId == b.participantId && a.currency == b.currency && a.accountType == b.accountType
  }

  /** The unique index on participant, currency and account type. */
  ghost predicate UniqueKeys(rows: Rows) {
    forall a, b :: a in rows && b in rows && SameKey(rows[a], rows[b]) ==> a == b
  }

  predicate Taken(rows: Rows, account: Account) {
    exists id :: id in rows && SameKey(rows[id], account)
  }

  predicate Registered(rows: Rows, participantId: nat, currency: string) {
    exists id :: id in rows && rows[id].participantId == participantId && rows[id].currency == currency
  }

  // ----- the models that apply

  function ForCurrency(currency: Option<string>): Model -> seq<Model> {
    (m: Model) => if m.currency == currency then [m] else []
  }

  /** All models of the currency, in order; all default models if there is none. */
  function Chosen(models: seq<Model>, currency: string): seq<Model> {
    var matching := FlatMap(ForCurrency(Some(currency)), models);
    if matching == [] then FlatMap(ForCurrency(None), models) else matching
  }

  function PairTypes(): Model -> seq<nat> {
    (m: Model) => [m.ledgerType, m.settlementType]
  }

  /** The account types to create, in order. */
  function Types(models: seq<Model>): seq<nat> {
    FlatMap(PairTypes(), models)
  }

  ghost predicate Distinct(types: seq<nat>) {
    forall i, j :: 0 <= i < j < |types| ==> types[i] != types[j]
  }

  lemma TypesNext(models: seq<Model>, i: nat)
    requires i < |models|
    ensures Types(models[..i + 1]) == Types(models[..i]) + [models[i].ledgerType, models[i].settlementType]
    ensures Types(models[..i + 1]) <= Types(models)
  {
    FlatMapSnoc(PairTypes(), models[..i], models[i]);
    assert models[..i + 1] == models[..i] + [models[i]];
    FlatMapConcat(PairTypes(), models[..i + 1], models[i + 1..]);
    assert models[..i + 1] + models[i + 1..] == models;
  }

  /** The places of exactly the models with a currency, or of exactly the default ones, in order. */
  ghost predicate Places(models: seq<Model>, currency: Option<string>, places: seq<nat>) {
    && (forall j, k :: 0 <= j < k < |places| ==> places[j] < places[k])
    && forall i: nat :: i in places <==> i < |models| && models[i].currency == currency
  }

  ghost predicate Applicable(models: seq<Model>, currency: string, places: seq<nat>) {
    Places(models, if exists i :: 0 <= i < |models| && models[i].currency == Some(currency) then Some(currency) else None,
           places)
  }

  ghost predicate At(models: seq<Model>, places: seq<nat>, list: seq<Model>) {
    && |list| == |places|
    && forall k :: 0 <= k < |list| ==> places[k] < |models| && list[k] == models[places[k]]
  }

  lemma {:induction false} MatchingInOrder(models: seq<Model>, currency: Option<string>, places: seq<nat>)
    requires Places(models, currency, places)
    ensures At(models, places, FlatMap(ForCurrency(currency), models))
  {
    if models == [] {
      FirstIsIn(places);
    } else {
      var n := |models| - 1;
      if models[n].currency == currency {
        LastPlace(models, currency, places);
        MatchingInOrder(models[..n], currency, places[..|places| - 1]);
        AtSnoc(models, places, FlatMap(ForCurrency(currency), models[..n]));
      } else {
        NotLastPlace(models, currency, places);
        MatchingInOrder(models[..n], currency, places);
        AtLonger(models, places, FlatMap(ForCurrency(currency), models[..n]));
      }
    }
  }

  lemma AtSnoc(models: seq<Model>, places: seq<nat>, list: seq<Model>)
    requires models != [] && places != [] && places[|places| - 1] == |models| - 1
    requires At(models[..|models| - 1], places[..|places| - 1], list)
    ensures At(models, places, list + [models[|models| - 1]])
  {
  }

  lemma AtLonger(models: seq<Model>, places: seq<nat>, list: seq<Model>)
    requires models != [] && At(models[..|models| - 1], places, list)
    ensures At(models, places, list + [])
  {
  }

  lemma NotLastPlace(models: seq<Model>, currency: Option<string>, places: seq<nat>)
    requires Places(models, currency, places) && models != [] && models[|models| - 1].currency != currency
    ensures Places(models[..|models| - 1], currency, places)
  {
  }

  lemma FirstIsIn(places: seq<nat>)
    ensures places == [] <==> forall i: nat :: i !in places
  {
    if places != [] {
      assert places[0] in places;
    }
  }

  lemma LastPlace(models: seq<Model>, currency: Option<string>, places: seq<nat>)
    requires Places(models, currency, places) && models != [] && models[|models| - 1].currency == currency
    ensures var n, m := |models| - 1, |places| - 1;
            m >= 0 && places[m] == n && Places(models[..n], currency, places[..m])
  {
    var n, m: int := |models| - 1, |places| - 1;
    assert n in places;
    assert places[m] in places;
    var init := places[..m];
    forall i: nat
      ensures i in init <==> i < n && models[..n][i].currency == currency
    {
      if i in init {
        var k :| 0 <= k < m && init[k] == i;
        assert places[k] in places && places[k] < places[m];
      }
      if i < n && models[i].currency == currency {
        assert i in places;
        var k :| 0 <= k < |places| && places[k] == i;
        assert k < m && init[k] == i;
      }
    }
  }

  /** The chosen models are exactly those that apply, each as often as it is stored and in the stored order. */
  lemma ChosenInOrder(models: seq<Model>, currency: string, places: seq<nat>)
    requires Applicable(models, currency, places)
    ensures At(models, places, Chosen(models, currency))
  {
    ChosenByCurrency(models, currency);
    if exists i :: 0 <= i < |models| && models[i].currency == Some(currency) {
      MatchingInOrder(models, Some(currency), places);
    } else {
      MatchingInOrder(models, None, places);
    }
  }

  lemma ChosenByCurrency(models: seq<Model>, currency: string)
    ensures Chosen(models, currency) ==
              if exists i :: 0 <= i < |models| && models[i].currency == Some(currency)
              then FlatMap(ForCurrency(Some(currency)), models) else FlatMap(ForCurrency(None), models)
  {
    MatchingIff(models, currency, FlatMap(ForCurrency(Some(currency)), models));
  }

  lemma MatchingIff(models: seq<Model>, currency: string, matching: seq<Model>)
    requires matching == FlatMap(ForCurrency(Some(currency)), models)
    ensures matching != [] <==> exists i :: 0 <= i < |models| && models[i].currency == Some(currency)
  {
    if matching != [] {
      FlatMapMembers(ForCurrency(Some(currency)), models, matching[0]);
      var m :| m in models && matching[0] in ForCurrency(Some(currency))(m);
      var i :| 0 <= i < |models| && models[i] == m;
      assert models[i].currency == Some(currency);
    }
    if i :| 0 <= i < |models| && models[i].currency == Some(currency) {
      FlatMapMembers(ForCurrency(Some(currency)), models, models[i]);
      assert models[i] in ForCurrency(Some(currency))(models[i]);
    }
  }

  /** All models of the currency are chosen, or all default ones if it has none. */
  lemma ChosenModels(models: seq<Model>, currency: string, m: Model)
    ensures m in Chosen(models, currency) <==>
              && m in models
              && m.currency == if exists n :: n in models && n.currency == Some(currency) then Some(currency) else None
    ensures forall places :: Applicable(models, currency, places) ==> At(models, places, Chosen(models, currency))
  {
    forall places | Applicable(models, currency, places)
      ensures At(models, places, Chosen(models, currency))
    {
      ChosenInOrder(models, currency, places);
    }
    FlatMapMembers(ForCurrency(Some(currency)), models, m);
    FlatMapMembers(ForCurrency(None), models, m);
    var matching := FlatMap(ForCurrency(Some(currency)), models);
    if matching != [] {
      FlatMapMembers(ForCurrency(Some(currency)), models, matching[0]);
      assert matching[0] in matching;
    }
    if n :| n in models && n.currency == Some(currency) {
      FlatMapMembers(ForCurrency(Some(currency)), models, n);
      assert n in ForCurrency(Some(currency))(n);
    }
  }

  /** There always are such places. */
  lemma {:induction false} PlacesExist(models: seq<Model>, currency: Option<string>) returns (places: seq<nat>)
    ensures Places(models, currency, places)
  {
    if models == [] {
      places := [];
    } else {
      var n := |models| - 1;
      var before := PlacesExist(models[..n], currency);
      forall k | 0 <= k < |before|
        ensures before[k] < n
      {
        assert before[k] in before;
      }
      places := if models[n].currency == currency then before + [n] else before;
    }
  }

  /** No two of the accounts to create are of one type. */
  ghost predicate TypesDiffer(models: seq<Model>, places: seq<nat>) {
    && (forall k :: 0 <= k < |places| ==> places[k] < |models|)
    && (forall k :: 0 <= k < |places| ==> models[places[k]].ledgerType != models[places[k]].settlementType)
    && forall j, k :: 0 <= j < k < |places| ==>
         && models[places[j]].ledgerType != models[places[k]].ledgerType
         && models[places[j]].ledgerType != models[places[k]].settlementType
         && models[places[j]].settlementType != models[places[k]].ledgerType
         && models[places[j]].settlementType != models[places[k]].settlementType
  }

  lemma {:induction false} TypesAt(list: seq<Model>)
    ensures |Types(list)| == 2 * |list|
    ensures forall k :: 0 <= k < |list| ==>
              Types(list)[2 * k] == list[k].ledgerType && Types(list)[2 * k + 1] == list[k].settlementType
  {
    if list != [] {
      TypesAt(list[..|list| - 1]);
    }
  }

  lemma DistinctIffDiffer(models: seq<Model>, places: seq<nat>, list: seq<Model>)
    requires At(models, places, list)
    ensures Distinct(Types(list)) <==> TypesDiffer(models, places)
  {
    TypesAt(list);
    var types := Types(list);
    if TypesDiffer(models, places) {
      forall i, j | 0 <= i < j < |types|
        ensures types[i] != types[j]
      {
        TypeAt(list, i);
        TypeAt(list, j);
      }
    }
    if Distinct(types) {
      forall k | 0 <= k < |places|
        ensures list[k].ledgerType != list[k].settlementType
      {
        assert types[2 * k] != types[2 * k + 1];
      }
      forall j, k | 0 <= j < k < |places|
        ensures list[j].ledgerType != list[k].ledgerType && list[j].ledgerType != list[k].settlementType
        ensures list[j].settlementType != list[k].ledgerType && list[j].settlementType != list[k].settlementType
      {
        assert types[2 * j] != types[2 * k] && types[2 * j] != types[2 * k + 1];
        assert types[2 * j + 1] != types[2 * k] && types[2 * j + 1] != types[2 * k + 1];
      }
    }
  }

  lemma TypeAt(list: seq<Model>, i: nat)
    requires i < 2 * |list|
    ensures |Types(list)| == 2 * |list|
    ensures Types(list)[i] == if i % 2 == 0 then list[i / 2].ledgerType else list[i / 2].settlementType
  {
    TypesAt(list);
    assert i == 2 * (i / 2) + i % 2;
  }

  // ----- what a registration adds

  /** `after` is `before` and one inactive account for each type, listed by `entries`. */
  ghost predicate Added(before: Rows, after: Rows, pid: nat, currency: string, types: seq<nat>, entries: seq<Entry>) {
    && |entries| == |types|
    && (forall k :: 0 <= k < |types| ==> entries[k].account == Account(pid, currency, types[k], false))
    && (forall k :: 0 <= k < |types| ==> entries[k].id !in before && entries[k].id in after)
    && (forall k :: 0 <= k < |types| ==> after[entries[k].id] == entries[k].account)
    && (forall id :: id in before ==> id in after && after[id] == before[id])
    && forall id :: id in after ==> id in before || exists k :: 0 <= k < |types| && entries[k].id == id
  }

  lemma AddedPair(before: Rows, middle: Rows, pid: nat, currency: string, types: seq<nat>, entries: seq<Entry>,
                  l: nat, s: nat, idL: nat, idS: nat)
    requires Added(before, middle, pid, currency, types, entries)
    requires idL !in middle && idS !in middle && idL != idS
    ensures var ledger, settlement := Account(pid, currency, l, false), Account(pid, currency, s, false);
            Added(before, middle[idL := ledger][idS := settlement], pid, currency, types + [l, s],
                  entries + [Entry(idL, ledger), Entry(idS, settlement)])
  {
    var longer := entries + [Entry(idL, Account(pid, currency, l, false)), Entry(idS, Account(pid, currency, s, false))];
    assert longer[|types|].id == idL && longer[|types| + 1].id == idS;
    assert forall k :: 0 <= k < |types| ==> longer[k] == entries[k];
  }

  /** A participant without accounts in the currency has exactly the added types in it. */
  lemma TakenTypes(before: Rows, after: Rows, pid: nat, currency: string, types: seq<nat>, entries: seq<Entry>, t: nat)
    requires Added(before, after, pid, currency, types, entries) && !Registered(before, pid, currency)
    ensures Taken(after, Account(pid, currency, t, false)) <==> t in types
  {
    if t in types {
      var k :| 0 <= k < |types| && types[k] == t;
      assert SameKey(after[entries[k].id], Account(pid, currency, t, false));
    }
  }

  lemma DistinctPair(types: seq<nat>, l: nat, s: nat, all: seq<nat>)
    requires types + [l, s] <= all
    ensures Distinct(all) ==> l != s && l !in types && s !in types
    ensures Distinct(types) && l != s && l !in types && s !in types ==> Distinct(types + [l, s])
  {
    var n := |types|;
    assert all[n] == l && all[n + 1] == s && forall k :: 0 <= k < n ==> all[k] == types[k];
  }

  // ----- one call

  ghost predicate Valid(s: State) {
    && UniqueKeys(s.rows)
    && (forall id :: id in s.rows ==> id < s.nextRow && s.rows[id].participantId < s.nextParticipant)
    && (forall name :: name in s.participants ==> s.participants[name] < s.nextParticipant)
    && forall a, b :: a in s.participants && b in s.participants && s.participants[a] == s.participants[b] ==> a == b
  }

  predicate KnownFor(s: State, name: string, currency: string) {
    name in s.participants && Registered(s.rows, s.participants[name], currency)
  }

  /** Participants and accounts are never removed or changed. */
  ghost predicate Grows(s: State, t: State) {
    && (forall name :: name in s.participants ==> name in t.participants && t.participants[name] == s.participants[name])
    && forall id :: id in s.rows ==> id in t.rows && t.rows[id] == s.rows[id]
  }

  /** Every new account is an inactive one of this participant and currency, of one of the types. */
  ghost predicate NewRowsFor(before: Rows, after: Rows, pid: nat, currency: string, types: seq<nat>) {
    forall id :: id in after && id !in before ==>
                   && after[id].participantId == pid && after[id].currency == currency
                   && after[id].accountType in types && !after[id].isActive
  }

  /** The participants after a call that names one: a new name gets the next identifier. */
  ghost predicate Named(s: State, t: State, name: string) {
    if name in s.participants then t.participants == s.participants && t.nextParticipant == s.nextParticipant
    else t.participants == s.participants[name := s.nextParticipant] && t.nextParticipant == s.nextParticipant + 1
  }

  /** The accounts of a participant, each listed once. */
  ghost predicate Listing(rows: Rows, pid: nat, listed: seq<Entry>) {
    && (forall k :: 0 <= k < |listed| ==>
          listed[k].id in rows && rows[listed[k].id] == listed[k].account && listed[k].account.participantId == pid)
    && (forall i, j :: 0 <= i < j < |listed| ==> listed[i].id != listed[j].id)
    && forall id :: id in rows && rows[id].participantId == pid ==> Entry(id, rows[id]) in listed
  }

  datatype Call = Call(name: string, currency: string, hubReady: bool, outcome: Outcome)

  ghost predicate CreatedList(s: State, t: State, c: Call, types: seq<nat>, list: seq<Entry>, n: nat) {
    && c.name in t.participants && n <= |list|
    && Listing(s.rows, t.participants[c.name], list[..n])
    && Added(s.rows, t.rows, t.participants[c.name], c.currency, types, list[n..])
  }

  /** What a call may do: the five outcomes exclude each other and cover every call. */
  ghost predicate Step(models: seq<Model>, s: State, c: Call, t: State) {
    var chosen := Chosen(models, c.currency);
    && Valid(t) && Grows(s, t)
    && match c.outcome
       case Refused(HubAccountMissing) => !c.hubReady && t == s
       case Refused(AlreadyRegistered) => c.hubReady && KnownFor(s, c.name, c.currency) && t == s
       case Refused(NoSettlementModel) =>
         && c.hubReady && !KnownFor(s, c.name, c.currency) && chosen == []
         && Named(s, t, c.name) && t.rows == s.rows
       case Refused(DuplicateAccount) =>
         && c.hubReady && !KnownFor(s, c.name, c.currency) && chosen != [] && !Distinct(Types(chosen))
         && Named(s, t, c.name) && KnownFor(t, c.name, c.currency)
         && NewRowsFor(s.rows, t.rows, t.participants[c.name], c.currency, Types(chosen))
       case Created(list) =>
         && c.hubReady && !KnownFor(s, c.name, c.currency) && chosen != [] && Distinct(Types(chosen))
         && Named(s, t, c.name)
         && NewRowsFor(s.rows, t.rows, t.participants[c.name], c.currency, Types(chosen))
         && exists n: nat :: CreatedList(s, t, c, Types(chosen), list, n)
  }

  // ----- which calls succeed, by the stored models

  /** The answer ends with a new ledger and a new settlement account for each model that applies, in their order. */
  ghost predicate Lists(models: seq<Model>, places: seq<nat>, s: State, c: Call, t: State, list: seq<Entry>) {
    && c.name in t.participants && |list| >= 2 * |places|
    && var n, pid := |list| - 2 * |places|, t.participants[c.name];
    && forall k :: 0 <= k < |places| ==>
         && places[k] < |models|
         && list[n + 2 * k].account == Account(pid, c.currency, models[places[k]].ledgerType, false)
         && list[n + 2 * k + 1].account == Account(pid, c.currency, models[places[k]].settlementType, false)
         && list[n + 2 * k].id !in s.rows && list[n + 2 * k + 1].id !in s.rows
  }

  /** A call past both checks: it fails without a model, or if two account types are the same, and else it succeeds. */
  ghost predicate Registers(models: seq<Model>, s: State, c: Call, t: State) {
    forall places :: Applicable(models, c.currency, places) ==>
                       && (c.outcome == Refused(NoSettlementModel) <==> places == [])
                       && (c.outcome.Created? <==> places != [] && TypesDiffer(models, places))
                       && (c.outcome.Created? ==> Lists(models, places, s, c, t, c.outcome.currencyList))
  }

  lemma StepRegisters(models: seq<Model>, s: State, c: Call, t: State)
    requires Step(models, s, c, t) && c.hubReady && !KnownFor(s, c.name, c.currency)
    ensures Registers(models, s, c, t)
  {
    forall places | Applicable(models, c.currency, places)
      ensures c.outcome == Refused(NoSettlementModel) <==> places == []
      ensures c.outcome.Created? <==> places != [] && TypesDiffer(models, places)
      ensures c.outcome.Created? ==> Lists(models, places, s, c, t, c.outcome.currencyList)
    {
      ChosenInOrder(models, c.currency, places);
      DistinctIffDiffer(models, places, Chosen(models, c.currency));
      if c.outcome.Created? {
        var list, types := c.outcome.currencyList, Types(Chosen(models, c.currency));
        var n: nat :| CreatedList(s, t, c, types, list, n);
        NewPairsListed(models, places, s, c, t, list, n);
      }
    }
  }

  lemma NewPairsListed(models: seq<Model>, places: seq<nat>, s: State, c: Call, t: State, list: seq<Entry>, n: nat)
    requires At(models, places, Chosen(models, c.currency))
    requires CreatedList(s, t, c, Types(Chosen(models, c.currency)), list, n)
    ensures Lists(models, places, s, c, t, list)
  {
    var chosen, added := Chosen(models, c.currency), list[n..];
    TypesAt(chosen);
    assert n == |list| - 2 * |places|;
    forall k | 0 <= k < |places|
      ensures list[n + 2 * k] == added[2 * k] && list[n + 2 * k + 1] == added[2 * k + 1]
      ensures Types(chosen)[2 * k] == chosen[k].ledgerType && Types(chosen)[2 * k + 1] == chosen[k].settlementType
    {
    }
  }

  // ----- the registry

  class Registry {
    const models: seq<Model>
    var db: State

    constructor (models: seq<Model>)
      ensures Valid(db) && this.models == models && db == State(map[], 0, map[], 0)
    {
      this.models, db := models, State(map[], 0, map[], 0);
    }

    /** The database refuses a row whose key is taken. */
    method Insert(account: Account) returns (id: nat, ok: bool)
      modifies `db
      ensures id == old(db).nextRow && ok == !Taken(old(db).rows, account)
      ensures db == if ok then old(db).(rows := old(db).rows[id := account], nextRow := id + 1) else old(db)
    {
      id, ok := db.nextRow, !Taken(db.rows, account);
      if ok {
        db := db.(rows := db.rows[id := account], nextRow := id + 1);
      }
    }

    /** Both accounts of a model are requested at once: either may come first, and neither waits for the other. */
    method InsertPair(pid: nat, currency: string, l: nat, s: nat) returns (idL: nat, idS: nat, ok: bool)
      requires Valid(db) && pid < db.nextParticipant
      modifies `db
      ensures PairInserted(old(db), db, pid, currency, l, s, idL, idS, ok)
    {
      ghost var before := db;
      var ledger, settlement := Account(pid, currency, l, false), Account(pid, currency, s, false);
      var okL, okS;
      if * {
        idL, okL := Insert(ledger);
        ghost var middle := db;
        idS, okS := Insert(settlement);
        LedgerFirst(before, middle, db, pid, currency, l, s, idL, idS);
      } else {
        idS, okS := Insert(settlement);
        ghost var middle := db;
        idL, okL := Insert(ledger);
        SettlementFirst(before, middle, db, pid, currency, l, s, idL, idS);
      }
      ok := okL && okS;
    }

    method CreateAccounts(pid: nat, currency: string, settlementModels: seq<Model>) returns (entries: seq<Entry>, ok: bool)
      requires Valid(db) && pid < db.nextParticipant && !Registered(db.rows, pid, currency) && settlementModels != []
      modifies `db
      ensures Valid(db) && Grows(old(db), db)
      ensures db.participants == old(db).participants && db.nextParticipant == old(db).nextParticipant
      ensures Registered(db.rows, pid, currency)
      ensures NewRowsFor(old(db).rows, db.rows, pid, currency, Types(settlementModels))
      ensures ok <==> Distinct(Types(settlementModels))
      ensures ok ==> Added(old(db).rows, db.rows, pid, currency, Types(settlementModels), entries)
    {
      entries := [];
      ghost var start := db;
      for i := 0 to |settlementModels|
        invariant Progress(start, db, pid, currency, settlementModels[..i], entries)
      {
        var l, s := settlementModels[i].ledgerType, settlementModels[i].settlementType;
        ghost var before := db;
        var idL, idS, inserted := InsertPair(pid, currency, l, s);
        PairStep(start, before, db, pid, currency, settlementModels, i, entries, idL, idS, inserted);
        if !inserted {
          TypesNext(settlementModels, i);
          NewRowsWiden(start.rows, db.rows, pid, currency, Types(settlementModels[..i + 1]), Types(settlementModels));
          return entries, false;
        }
        entries := entries + [Entry(idL, Account(pid, currency, l, false)), Entry(idS, Account(pid, currency, s, false))];
      }
      assert settlementModels[..|settlementModels|] == settlementModels;
      ok := true;
    }

    method Create(name: string, currency: string, hubReady: bool) returns (outcome: Outcome)
      requires Valid(db)
      modifies `db
      ensures Valid(db) && Step(models, old(db), Call(name, currency, hubReady, outcome), db)
      ensures hubReady && !KnownFor(old(db), name, currency) ==>
                Registers(models, old(db), Call(name, currency, hubReady, outcome), db)
    {
      ghost var start := db;
      if !hubReady {
        return Refused(HubAccountMissing);
      }
      if name in db.participants {
        if Registered(db.rows, db.participants[name], currency) {
          return Refused(AlreadyRegistered);
        }
      } else {
        db := db.(participants := db.participants[name := db.nextParticipant], nextParticipant := db.nextParticipant + 1);
      }
      var pid := db.participants[name];
      var currencyList := ListAccounts(db.rows, pid);
      var settlementModels := FlatMap(ForCurrency(Some(currency)), models);
      if |settlementModels| == 0 {
        settlementModels := FlatMap(ForCurrency(None), models);
        if |settlementModels| == 0 {
          outcome := Refused(NoSettlementModel);
          StepRegisters(models, start, Call(name, currency, hubReady, outcome), db);
          return;
        }
      }
      ghost var middle := db;
      var entries, ok := CreateAccounts(pid, currency, settlementModels);
      GrowsOn(start, middle, db);
      if ok {
        outcome := Created(currencyList + entries);
        ListSplit(currencyList, entries);
        ghost var call := Call(name, currency, hubReady, outcome);
        assert CreatedList(start, db, call, Types(settlementModels), currencyList + entries, |currencyList|);
      } else {
        outcome := Refused(DuplicateAccount);
      }
      StepRegisters(models, start, Call(name, currency, hubReady, outcome), db);
    }
  }

  lemma ListSplit<A>(a: seq<A>, b: seq<A>)
    ensures (a + b)[..|a|] == a && (a + b)[|a|..] == b
  {
  }

  method ListAccounts(rows: Rows, pid: nat) returns (listed: seq<Entry>)
    ensures Listing(rows, pid, listed)
  {
    listed := [];
    var rest := set id | id in rows && rows[id].participantId == pid;
    while rest != {}
      invariant forall id :: id in rest ==> id in rows && rows[id].participantId == pid
      invariant forall k :: 0 <= k < |listed| ==>
                  && listed[k].id in rows && rows[listed[k].id] == listed[k].account
                  && listed[k].account.participantId == pid && listed[k].id !in rest
      invariant forall i, j :: 0 <= i < j < |listed| ==> listed[i].id != listed[j].id
      invariant forall id :: id in rows && rows[id].participantId == pid ==> id in rest || Entry(id, rows[id]) in listed
      decreases |rest|
    {
      var id: nat :| id in rest && id in rows;
      listed := listed + [Entry(id, rows[id])];
      rest := rest - {id};
    }
  }

  /** The effect of requesting a pair of accounts. */
  ghost predicate PairInserted(s: State, t: State, pid: nat, currency: string, l: nat, st: nat, idL: nat, idS: nat, ok: bool) {
    var ledger, settlement := Account(pid, currency, l, false), Account(pid, currency, st, false);
    && Valid(t) && Grows(s, t) && t.participants == s.participants && t.nextParticipant == s.nextParticipant
    && (ok <==> l != st && !Taken(s.rows, ledger) && !Taken(s.rows, settlement))
    && Registered(t.rows, pid, currency) && NewRowsFor(s.rows, t.rows, pid, currency, [l, st])
    && (ok ==> idL !in s.rows && idS !in s.rows && idL != idS && t.rows == s.rows[idL := ledger][idS := settlement])
  }

  /** The effect of one insert. */
  ghost predicate Inserted(s: State, t: State, account: Account, id: nat) {
    && id == s.nextRow
    && t == if Taken(s.rows, account) then s else s.(rows := s.rows[id := account], nextRow := id + 1)
  }

  lemma InsertLaw(s: State, t: State, account: Account, id: nat, other: Account)
    requires Valid(s) && Inserted(s, t, account, id) && account.participantId < s.nextParticipant
    ensures Valid(t) && Grows(s, t) && Registered(t.rows, account.participantId, account.currency)
    ensures Taken(t.rows, other) <==> Taken(s.rows, other) || SameKey(account, other)
  {
    if Taken(s.rows, account) {
      var k :| k in s.rows && SameKey(s.rows[k], account);
    } else {
      assert id in t.rows && t.rows[id] == account;
      if Taken(s.rows, other) {
        var k :| k in s.rows && SameKey(s.rows[k], other);
        assert k in t.rows && t.rows[k] == s.rows[k];
      }
    }
  }

  lemma StaysRegistered(s: State, t: State, pid: nat, currency: string)
    requires Grows(s, t) && Registered(s.rows, pid, currency)
    ensures Registered(t.rows, pid, currency)
  {
    var id :| id in s.rows && s.rows[id].participantId == pid && s.rows[id].currency == currency;
    assert id in t.rows;
  }

  lemma GrowsOn(s: State, m: State, t: State)
    requires Grows(s, m) && Grows(m, t)
    ensures Grows(s, t)
  {
  }

  lemma PairLaw(s: State, m: State, t: State, first: Account, second: Account, id1: nat, id2: nat)
    requires Valid(s) && first.participantId == second.participantId < s.nextParticipant
    requires Inserted(s, m, first, id1) && Inserted(m, t, second, id2)
    ensures Valid(t) && Grows(s, t) && Registered(t.rows, first.participantId, first.currency)
    ensures t.participants == s.participants && t.nextParticipant == s.nextParticipant
    ensures forall id :: id in t.rows && id !in s.rows ==> t.rows[id] == first || t.rows[id] == second
    ensures !Taken(s.rows, first) && !Taken(m.rows, second) <==>
              !Taken(s.rows, first) && !Taken(s.rows, second) && !SameKey(first, second)
    ensures !Taken(s.rows, first) && !Taken(m.rows, second) ==>
              id1 !in s.rows && id2 !in s.rows && id1 != id2 && t.rows == s.rows[id1 := first][id2 := second]
  {
    InsertLaw(s, m, first, id1, second);
    InsertLaw(m, t, second, id2, first);
    GrowsOn(s, m, t);
    StaysRegistered(m, t, first.participantId, first.currency);
  }

  lemma LedgerFirst(s: State, m: State, t: State, pid: nat, currency: string, l: nat, st: nat, idL: nat, idS: nat)
    requires Valid(s) && pid < s.nextParticipant
    requires Inserted(s, m, Account(pid, currency, l, false), idL) && Inserted(m, t, Account(pid, currency, st, false), idS)
    ensures PairInserted(s, t, pid, currency, l, st, idL, idS,
                         !Taken(s.rows, Account(pid, currency, l, false)) && !Taken(m.rows, Account(pid, currency, st, false)))
  {
    PairLaw(s, m, t, Account(pid, currency, l, false), Account(pid, currency, st, false), idL, idS);
  }

  lemma SettlementFirst(s: State, m: State, t: State, pid: nat, currency: string, l: nat, st: nat, idL: nat, idS: nat)
    requires Valid(s) && pid < s.nextParticipant
    requires Inserted(s, m, Account(pid, currency, st, false), idS) && Inserted(m, t, Account(pid, currency, l, false), idL)
    ensures PairInserted(s, t, pid, currency, l, st, idL, idS,
                         !Taken(m.rows, Account(pid, currency, l, false)) && !Taken(s.rows, Account(pid, currency, st, false)))
  {
    var ledger, settlement := Account(pid, currency, l, false), Account(pid, currency, st, false);
    PairLaw(s, m, t, settlement, ledger, idS, idL);
    TwoUpdates(s.rows, idL, ledger, idS, settlement);
  }

  lemma TwoUpdates(rows: Rows, a: nat, x: Account, b: nat, y: Account)
    ensures a != b ==> rows[a := x][b := y] == rows[b := y][a := x]
  {
  }

  /** The accounts of the models handled so far are there, and their types are distinct. */
  ghost predicate Progress(s: State, t: State, pid: nat, currency: string, models: seq<Model>, entries: seq<Entry>) {
    && Valid(t) && Grows(s, t) && t.participants == s.participants && t.nextParticipant == s.nextParticipant
    && Distinct(Types(models)) && Added(s.rows, t.rows, pid, currency, Types(models), entries)
    && NewRowsFor(s.rows, t.rows, pid, currency, Types(models))
    && (models != [] ==> Registered(t.rows, pid, currency))
  }

  lemma NewRowsOn(s: State, m: State, t: State, pid: nat, currency: string, a: seq<nat>, b: seq<nat>)
    requires Grows(s, m) && Grows(m, t)
    requires NewRowsFor(s.rows, m.rows, pid, currency, a) && NewRowsFor(m.rows, t.rows, pid, currency, b)
    ensures NewRowsFor(s.rows, t.rows, pid, currency, a + b)
  {
  }

  lemma NewRowsWiden(before: Rows, after: Rows, pid: nat, currency: string, a: seq<nat>, b: seq<nat>)
    requires NewRowsFor(before, after, pid, currency, a) && a <= b
    ensures NewRowsFor(before, after, pid, currency, b)
  {
    assert forall t :: t in a ==> t in b;
  }

  lemma PairStep(s: State, m: State, t: State, pid: nat, currency: string, models: seq<Model>, i: nat, entries: seq<Entry>,
                 idL: nat, idS: nat, ok: bool)
    requires i < |models| && !Registered(s.rows, pid, currency)
    requires Progress(s, m, pid, currency, models[..i], entries)
    requires PairInserted(m, t, pid, currency, models[i].ledgerType, models[i].settlementType, idL, idS, ok)
    ensures ok ==>
              var ledger, settlement := Account(pid, currency, models[i].ledgerType, false),
                                        Account(pid, currency, models[i].settlementType, false);
              Progress(s, t, pid, currency, models[..i + 1], entries + [Entry(idL, ledger), Entry(idS, settlement)])
    ensures NewRowsFor(s.rows, t.rows, pid, currency, Types(models[..i + 1]))
    ensures !ok ==> !Distinct(Types(models)) && Grows(s, t)
  {
    var types, l, st := Types(models[..i]), models[i].ledgerType, models[i].settlementType;
    TypesNext(models, i);
    DistinctPair(types, l, st, Types(models));
    TakenTypes(s.rows, m.rows, pid, currency, types, entries, l);
    TakenTypes(s.rows, m.rows, pid, currency, types, entries, st);
    GrowsOn(s, m, t);
    NewRowsOn(s, m, t, pid, currency, types, [l, st]);
    if ok {
      AddedPair(s.rows, m.rows, pid, currency, types, entries, l, st, idL, idS);
    }
  }

  // ----- laws over every run

  /** `states` are the registry states between the calls of a run. */
  ghost predicate Run(models: seq<Model>, states: seq<State>, calls: seq<Call>) {
    && |states| == |calls| + 1 && Valid(states[0])
    && forall i: nat :: i < |calls| ==> StepAt(models, states, calls, i)
  }

  ghost predicate StepAt(models: seq<Model>, states: seq<State>, calls: seq<Call>, i: nat)
    requires |states| == |calls| + 1 && i < |calls|
  {
    Step(models, states[i], calls[i], states[i + 1])
  }

  lemma {:induction false} AllValid(models: seq<Model>, states: seq<State>, calls: seq<Call>, i: nat)
    requires Run(models, states, calls) && i <= |calls|
    ensures Valid(states[i])
  {
    if i > 0 {
      assert StepAt(models, states, calls, i - 1);
    }
  }

  lemma {:induction false} RunGrows(models: seq<Model>, states: seq<State>, calls: seq<Call>, i: nat, j: nat)
    requires Run(models, states, calls) && i <= j <= |calls|
    ensures Grows(states[i], states[j])
    decreases j
  {
    if i < j {
      RunGrows(models, states, calls, i, j - 1);
      assert StepAt(models, states, calls, j - 1);
      GrowsOn(states[i], states[j - 1], states[j]);
    }
  }

  /** The call got as far as requesting accounts. */
  predicate Attempted(c: Call) {
    c.outcome.Created? || c.outcome == Refused(DuplicateAccount)
  }

  lemma AttemptRegisters(models: seq<Model>, s: State, c: Call, t: State)
    requires Step(models, s, c, t) && Attempted(c)
    ensures KnownFor(t, c.name, c.currency)
  {
    if c.outcome.Created? {
      var chosen, list := Chosen(models, c.currency), c.outcome.currencyList;
      var n: nat :| CreatedList(s, t, c, Types(chosen), list, n);
      TypesNext(chosen, 0);
      var entry := list[n..][0];
      assert entry.id in t.rows && t.rows[entry.id] == entry.account;
    }
  }

  lemma StaysKnown(s: State, t: State, name: string, currency: string)
    requires Grows(s, t) && KnownFor(s, name, currency)
    ensures KnownFor(t, name, currency)
  {
    StaysRegistered(s, t, s.participants[name], currency);
  }

  lemma KnownIsRefused(models: seq<Model>, s: State, c: Call, t: State)
    requires Step(models, s, c, t) && KnownFor(s, c.name, c.currency)
    ensures c.outcome == Refused(if c.hubReady then AlreadyRegistered else HubAccountMissing) && t == s
  {
  }

  /**
   A currency is registered at most once for a name, and a call that failed half-way cannot be repeated: every
   later call for the same name and currency is refused.
   */
  lemma AttemptedOnce(models: seq<Model>, states: seq<State>, calls: seq<Call>, i: nat, j: nat)
    requires Run(models, states, calls) && i < j < |calls|
    requires Attempted(calls[i]) && calls[j].name == calls[i].name && calls[j].currency == calls[i].currency
    ensures calls[j].outcome == Refused(if calls[j].hubReady then AlreadyRegistered else HubAccountMissing)
    ensures states[j + 1] == states[j]
  {
    assert StepAt(models, states, calls, i) && StepAt(models, states, calls, j);
    AttemptRegisters(models, states[i], calls[i], states[i + 1]);
    RunGrows(models, states, calls, i + 1, j);
    StaysKnown(states[i + 1], states[j], calls[i].name, calls[i].currency);
    KnownIsRefused(models, states[j], calls[j], states[j + 1]);
  }

  /** What a call leaves alone: everything, or all but one name and the accounts requested for it. */
  lemma StepFrame(models: seq<Model>, s: State, c: Call, t: State)
    requires Step(models, s, c, t)
    ensures Valid(t) && Grows(s, t)
    ensures !Attempted(c) ==> t.rows == s.rows && (t == s || Named(s, t, c.name))
    ensures Attempted(c) ==>
              && Named(s, t, c.name)
              && NewRowsFor(s.rows, t.rows, t.participants[c.name], c.currency, Types(Chosen(models, c.currency)))
  {
  }

  lemma OldPairKnown(s: State, t: State, c: Call, types: seq<nat>, name: string, currency: string)
    requires Valid(s) && Valid(t) && Grows(s, t) && (t == s || Named(s, t, c.name)) && KnownFor(t, name, currency)
    requires t.rows == s.rows
             || (c.name in t.participants && NewRowsFor(s.rows, t.rows, t.participants[c.name], c.currency, types))
    ensures KnownFor(s, name, currency) || (t.rows != s.rows && c.name == name && c.currency == currency)
  {
    var id :| id in t.rows && t.rows[id].participantId == t.participants[name] && t.rows[id].currency == currency;
    if id in s.rows {
      assert t.rows[id] == s.rows[id];
    }
  }

  /** After one call, a pair is registered iff it was or the call was an attempt for it. */
  lemma KnownAfterIff(models: seq<Model>, s: State, c: Call, t: State, name: string, currency: string)
    requires Valid(s) && Step(models, s, c, t)
    ensures KnownFor(t, name, currency) <==>
              KnownFor(s, name, currency) || (Attempted(c) && c.name == name && c.currency == currency)
  {
    StepFrame(models, s, c, t);
    if KnownFor(t, name, currency) {
      OldPairKnown(s, t, c, Types(Chosen(models, c.currency)), name, currency);
    }
    if KnownFor(s, name, currency) || (Attempted(c) && c.name == name && c.currency == currency) {
      KnownOnwards(models, s, c, t, name, currency);
    }
  }

  lemma KnownOnwards(models: seq<Model>, s: State, c: Call, t: State, name: string, currency: string)
    requires Step(models, s, c, t)
    requires KnownFor(s, name, currency) || (Attempted(c) && c.name == name && c.currency == currency)
    ensures KnownFor(t, name, currency)
  {
    if KnownFor(s, name, currency) {
      StaysKnown(s, t, name, currency);
    } else {
      AttemptRegisters(models, s, c, t);
    }
  }

  /** Some call before the j-th was an attempt for the pair. */
  ghost predicate AttemptedBefore(calls: seq<Call>, j: nat, name: string, currency: string)
    requires j <= |calls|
  {
    exists i :: 0 <= i < j && Attempted(calls[i]) && calls[i].name == name && calls[i].currency == currency
  }

  lemma {:induction false} KnownIffAttempted(models: seq<Model>, states: seq<State>, calls: seq<Call>, j: nat,
                                             name: string, currency: string)
    requires Run(models, states, calls) && j <= |calls|
    ensures KnownFor(states[j], name, currency) <==>
              KnownFor(states[0], name, currency) || AttemptedBefore(calls, j, name, currency)
  {
    if j > 0 {
      KnownIffAttempted(models, states, calls, j - 1, name, currency);
      assert StepAt(models, states, calls, j - 1);
      AllValid(models, states, calls, j - 1);
      KnownAfterIff(models, states[j - 1], calls[j - 1], states[j], name, currency);
      if AttemptedBefore(calls, j - 1, name, currency) {
        var i :| 0 <= i < j - 1 && Attempted(calls[i]) && calls[i].name == name && calls[i].currency == currency;
      }
    }
  }

  /**
   Over every run: a call that gets past the hub accounts is refused as already registered if and only if the pair was
   registered at the start or an earlier call requested accounts for it, whether or not that call succeeded.
   */
  lemma RefusedIffAttempted(models: seq<Model>, states: seq<State>, calls: seq<Call>, j: nat)
    requires Run(models, states, calls) && j < |calls| && calls[j].hubReady
    ensures calls[j].outcome == Refused(AlreadyRegistered) <==>
              || KnownFor(states[0], calls[j].name, calls[j].currency)
              || AttemptedBefore(calls, j, calls[j].name, calls[j].currency)
  {
    KnownIffAttempted(models, states, calls, j, calls[j].name, calls[j].currency);
    assert StepAt(models, states, calls, j);
  }

  /** A new participant starts from an empty list: its answer lists the created accounts and nothing else. */
  lemma NewListIsFresh(models: seq<Model>, s: State, c: Call, t: State)
    requires Valid(s) && Step(models, s, c, t) && c.outcome.Created? && c.name !in s.participants
    ensures t.participants[c.name] == s.nextParticipant
    ensures Added(s.rows, t.rows, s.nextParticipant, c.currency, Types(Chosen(models, c.currency)), c.outcome.currencyList)
  {
    var list, types := c.outcome.currencyList, Types(Chosen(models, c.currency));
    var n: nat :| CreatedList(s, t, c, types, list, n);
    NobodysList(s.rows, s.nextParticipant, list[..n]);
    assert list[0..] == list;
  }

  lemma NobodysList(rows: Rows, pid: nat, listed: seq<Entry>)
    requires Listing(rows, pid, listed) && forall id :: id in rows ==> rows[id].participantId != pid
    ensures listed == []
  {
    if listed != [] {
      ListedRow(rows, pid, listed);
    }
  }

  lemma ListedRow(rows: Rows, pid: nat, listed: seq<Entry>)
    requires Listing(rows, pid, listed) && listed != []
    ensures exists id :: id in rows && rows[id].participantId == pid
  {
    assert listed[0].id in rows;
  }
}
