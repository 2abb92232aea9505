/**
 Migrations 910100 and 910101: the fulfilment and error tables are swapped for tables keyed by transfer, the
 old ones are kept under a suffix while they hold rows, and their rows are copied over in one transaction.
 */
module Feature904 {
  import opened Ledger

  // ----- rows

  datatype OldExtension = OldExtension(
    transferId: Id, fulfilmentId: Option<Id>, errorId: Option<nat>, key: string, value: string, created: int)

  datatype Extension = Extension(
    transferId: Id, key: string, value: string, isFulfilment: bool, isError: bool, created: int)

  datatype Hash = Hash(hash: Option<string>, created: int)

  datatype Fulfilment = Fulfilment(
    ilpFulfilment: Option<string>, completed: int, isValid: Option<bool>, window: Option<nat>, created: int)

  datatype Failure = Failure(stateChangeId: nat, code: nat, description: string, created: int)

  /** A row that carries the transfer it belongs to. */
  datatype Keyed<V> = Keyed(transferId: Id, row: V)

  type OldExtensions = map<nat, OldExtension>
  type OldChecks = map<Id, Keyed<Hash>>
  type OldFulfilments = map<Id, Keyed<Fulfilment>>
  type OldErrorChecks = map<nat, Keyed<Hash>>
  type OldErrors = map<nat, Failure>

  ghost function TransferIds<K, V>(source: map<K, Keyed<V>>): set<Id> {
    set k | k in source :: source[k].transferId
  }

  ghost predicate OnePerTransfer<K, V>(source: map<K, Keyed<V>>) {
    forall a, b :: a in source && b in source && source[a].transferId == source[b].transferId ==> a == b
  }

  // ----- one insert statement into a table keyed by transfer

  /** No primary key is violated and every row has its parent. */
  ghost predicate Insertable<K, V>(source: map<K, Keyed<V>>, taken: set<Id>, parents: set<Id>) {
    OnePerTransfer(source) && TransferIds(source) !! taken && TransferIds(source) <= parents
  }

  /** `after` holds the rows of `before` and, under their transfer, the rows of `source`. */
  ghost predicate Inserted<K, V>(source: map<K, Keyed<V>>, before: map<Id, V>, after: map<Id, V>) {
    && after.Keys == before.Keys + TransferIds(source)
    && (forall t :: t in before ==> after[t] == before[t])
    && forall k :: k in source ==> after[source[k].transferId] == source[k].row
  }

  method InsertByTransfer<K(==), V>(source: map<K, Keyed<V>>, table: map<Id, V>, parents: set<Id>)
    returns (ok: bool, result: map<Id, V>)
    ensures ok <==> Insertable(source, table.Keys, parents)
    ensures ok ==> Inserted(source, table, result)
  {
    result := table;
    var rest := source.Keys;
    ghost var done: set<K> := {};
    while rest != {}
      invariant rest <= source.Keys && done == source.Keys - rest
      invariant PartInserted(source, done, table, result, parents)
      decreases |rest|
    {
      var k :| k in rest;
      var t := source[k].transferId;
      if t in result || t !in parents {
        Refused(source, done, k, table.Keys, parents);
        return false, result;
      }
      InsertStep(source, done, k, table, result, parents);
      result := result[t := source[k].row];
      rest := rest - {k};
      done := done + {k};
    }
    assert Part(source, done) == source;
    ok := true;
  }

  ghost predicate PartInserted<K, V>(source: map<K, Keyed<V>>, done: set<K>, table: map<Id, V>, result: map<Id, V>,
                                     parents: set<Id>) {
    Insertable(Part(source, done), table.Keys, parents) && Inserted(Part(source, done), table, result)
  }

  lemma InsertStep<K, V>(source: map<K, Keyed<V>>, done: set<K>, k: K, table: map<Id, V>, result: map<Id, V>, parents: set<Id>)
    requires k in source && k !in done
    requires PartInserted(source, done, table, result, parents)
    requires source[k].transferId !in result && source[k].transferId in parents
    ensures PartInserted(source, done + {k}, table, result[source[k].transferId := source[k].row], parents)
  {
    PartGrows(source, done, k);
    var part := Part(source, done + {k});
    forall a, b | a in part && b in part && part[a].transferId == part[b].transferId
      ensures a == b
    {
      assert a != k ==> a in Part(source, done) && part[a].transferId in TransferIds(Part(source, done));
      assert b != k ==> b in Part(source, done) && part[b].transferId in TransferIds(Part(source, done));
    }
    forall a | a in part
      ensures result[source[k].transferId := source[k].row][part[a].transferId] == part[a].row
    {
      assert a != k ==> a in Part(source, done) && part[a].transferId in TransferIds(Part(source, done));
    }
  }

  ghost function Part<K, V>(source: map<K, Keyed<V>>, keys: set<K>): map<K, Keyed<V>> {
    map k | k in source && k in keys :: source[k]
  }

  lemma PartGrows<K, V>(source: map<K, Keyed<V>>, done: set<K>, k: K)
    requires k in source
    ensures TransferIds(Part(source, done + {k})) == TransferIds(Part(source, done)) + {source[k].transferId}
  {
    assert k in Part(source, done + {k});
    forall t | t in TransferIds(Part(source, done))
      ensures t in TransferIds(Part(source, done + {k}))
    {
      var j :| j in Part(source, done) && Part(source, done)[j].transferId == t;
      assert j in Part(source, done + {k});
    }
  }

  /** A row whose transfer is taken or has no parent makes the whole statement fail. */
  lemma Refused<K, V>(source: map<K, Keyed<V>>, done: set<K>, k: K, taken: set<Id>, parents: set<Id>)
    requires done <= source.Keys && k in source && k !in done
    requires source[k].transferId in taken + TransferIds(Part(source, done)) || source[k].transferId !in parents
    ensures !Insertable(source, taken, parents)
  {
    assert source[k].transferId in TransferIds(source);
    if source[k].transferId in TransferIds(Part(source, done)) {
      var j :| j in Part(source, done) && source[j].transferId == source[k].transferId;
    }
  }

  // ----- the first row of each transfer

  /** Valid before invalid before unknown. */
  function Validity(f: Fulfilment): nat {
    match f.isValid
    case None => 0
    case Some(false) => 1
    case Some(true) => 2
  }

  /** The order of the window function: validity descending, then creation date. */
  predicate Precedes(a: Fulfilment, b: Fulfilment) {
    Validity(a) > Validity(b) || (Validity(a) == Validity(b) && a.created < b.created)
  }

  /** The rows numbered 1, one for each transfer; ties are broken arbitrarily. */
  ghost predicate FirstRows(rows: OldFulfilments, first: set<Id>) {
    && first <= rows.Keys
    && TransferIds(Part(rows, first)) == TransferIds(rows)
    && OnePerTransfer(Part(rows, first))
    && forall f, id :: f in first && id in rows && rows[id].transferId == rows[f].transferId
                       ==> !Precedes(rows[id].row, rows[f].row)
  }

  /** `best` has the best of the rows seen so far, by transfer. */
  ghost predicate BestSoFar(rows: OldFulfilments, seen: set<Id>, best: map<Id, Id>) {
    && (forall id :: id in rows && id in seen ==> rows[id].transferId in best)
    && (forall t :: t in best ==> best[t] in rows && best[t] in seen && rows[best[t]].transferId == t)
    && (forall id :: id in rows && id in seen && rows[id].transferId in best ==>
          best[rows[id].transferId] in rows && !Precedes(rows[id].row, rows[best[rows[id].transferId]].row))
  }

  method RowNumberOne(rows: OldFulfilments) returns (first: set<Id>)
    ensures FirstRows(rows, first)
  {
    var best: map<Id, Id> := map[];
    var rest := rows.Keys;
    while rest != {}
      invariant rest <= rows.Keys
      invariant BestSoFar(rows, rows.Keys - rest, best)
      decreases |rest|
    {
      var id :| id in rest;
      var t := rows[id].transferId;
      BestStep(rows, rows.Keys - rest, best, id);
      if t !in best || Precedes(rows[id].row, rows[best[t]].row) {
        best := best[t := id];
      }
      assert rows.Keys - (rest - {id}) == rows.Keys - rest + {id};
      rest := rest - {id};
    }
    first := set t | t in best :: best[t];
    BestAreFirst(rows, best, first);
  }

  lemma BestStep(rows: OldFulfilments, seen: set<Id>, best: map<Id, Id>, id: Id)
    requires BestSoFar(rows, seen, best) && id in rows
    ensures var t := rows[id].transferId;
            BestSoFar(rows, seen + {id},
                      if t !in best || Precedes(rows[id].row, rows[best[t]].row) then best[t := id] else best)
  {
  }

  lemma BestAreFirst(rows: OldFulfilments, best: map<Id, Id>, first: set<Id>)
    requires BestSoFar(rows, rows.Keys, best) && first == set t | t in best :: best[t]
    ensures FirstRows(rows, first)
  {
    forall t | t in TransferIds(rows)
      ensures t in TransferIds(Part(rows, first))
    {
      var id :| id in rows && rows[id].transferId == t;
      assert best[t] in first && best[t] in Part(rows, first);
    }
  }

  /**
   What the chosen rows are: valid iff the transfer had a valid row, of unknown validity iff it had no other,
   and the earliest of the rows with the same validity.
   */
  lemma ChosenFulfilment(rows: OldFulfilments, first: set<Id>, f: Id)
    requires FirstRows(rows, first) && f in first
    ensures rows[f].row.isValid == Some(true)
            <==> exists id :: id in rows && rows[id].transferId == rows[f].transferId && rows[id].row.isValid == Some(true)
    ensures rows[f].row.isValid == None
            <==> forall id :: id in rows && rows[id].transferId == rows[f].transferId ==> rows[id].row.isValid == None
    ensures forall id :: id in rows && rows[id].transferId == rows[f].transferId && rows[id].row.isValid == rows[f].row.isValid
                         ==> rows[f].row.created <= rows[id].row.created
  {
    forall id | id in rows && rows[id].transferId == rows[f].transferId
      ensures !Precedes(rows[id].row, rows[f].row)
    {
    }
  }

  // ----- the data migration, as values

  datatype FormerTables = FormerTables(
    extension: OldExtensions, fulfilmentCheck: OldChecks, fulfilment: OldFulfilments, errorCheck: OldErrorChecks,
    error: OldErrors)

  datatype Tables = Tables(
    extension: map<nat, Extension>, fulfilmentCheck: map<Id, Hash>, fulfilment: map<Id, Fulfilment>,
    errorCheck: map<Id, Hash>, error: map<Id, Failure>)

  const EMPTY_TABLES := Tables(map[], map[], map[], map[], map[])

  /** The live tables have the old schema until the swap and the new one after it. */
  datatype Live = Former(former: FormerTables) | Current(tables: Tables)

  function Copied(e: OldExtension): Extension {
    Extension(e.transferId, e.key, e.value, e.fulfilmentId.Some?, e.errorId.Some?, e.created)
  }

  /** An error gets the transfer of its state change. */
  function Joined(errors: OldErrors, stateChanges: map<nat, Id>): map<nat, Keyed<Failure>> {
    map k | k in errors && errors[k].stateChangeId in stateChanges ::
      Keyed(stateChanges[errors[k].stateChangeId], errors[k])
  }

  ghost predicate ExtensionsFit(kept: OldExtensions, live: map<nat, Extension>, transfers: set<Id>) {
    && kept.Keys !! live.Keys
    && forall k :: k in kept ==> kept[k].transferId in transfers
  }

  /** Every kept row is copied under its identifier, flagged by the old foreign keys that were set. */
  ghost predicate ExtensionsCopied(kept: OldExtensions, live: map<nat, Extension>, after: map<nat, Extension>) {
    && after.Keys == live.Keys + kept.Keys
    && (forall k :: k in live ==> after[k] == live[k])
    && forall k :: k in kept ==>
         after[k] == Extension(kept[k].transferId, kept[k].key, kept[k].value,
                               kept[k].fulfilmentId != None, kept[k].errorId != None, kept[k].created)
  }

  ghost predicate FulfilmentsFit(kept: FormerTables, live: Tables, transfers: set<Id>, checked: set<Id>, chosen: set<Id>) {
    var checks := Part(kept.fulfilmentCheck, checked);
    && Insertable(checks, live.fulfilmentCheck.Keys, transfers)
    && Insertable(Part(kept.fulfilment, chosen), live.fulfilment.Keys, live.fulfilmentCheck.Keys + TransferIds(checks))
  }

  ghost predicate ErrorsFit(kept: FormerTables, live: Tables, transfers: set<Id>, stateChanges: map<nat, Id>) {
    && Insertable(kept.errorCheck, live.errorCheck.Keys, transfers)
    && Insertable(Joined(kept.error, stateChanges), live.error.Keys, live.errorCheck.Keys + TransferIds(kept.errorCheck))
  }

  /** No statement of the migration violates a key. */
  ghost predicate Fits(kept: FormerTables, live: Tables, transfers: set<Id>, stateChanges: map<nat, Id>, checked: set<Id>,
                       chosen: set<Id>) {
    && ExtensionsFit(kept.extension, live.extension, transfers)
    && FulfilmentsFit(kept, live, transfers, checked, chosen)
    && ErrorsFit(kept, live, transfers, stateChanges)
  }

  /** What the committed transaction has added. */
  ghost predicate Migrated(kept: FormerTables, stateChanges: map<nat, Id>, checked: set<Id>, chosen: set<Id>,
                           live: Tables, after: Tables) {
    && ExtensionsCopied(kept.extension, live.extension, after.extension)
    && Inserted(Part(kept.fulfilmentCheck, checked), live.fulfilmentCheck, after.fulfilmentCheck)
    && Inserted(Part(kept.fulfilment, chosen), live.fulfilment, after.fulfilment)
    && Inserted(kept.errorCheck, live.errorCheck, after.errorCheck)
    && Inserted(Joined(kept.error, stateChanges), live.error, after.error)
  }

  /**
   One run of the transaction: it commits iff no key is violated, and otherwise leaves the tables as they were.
   `checked` and `chosen` are the rows numbered 1 in the two fulfilment statements.
   */
  ghost predicate Transaction(kept: FormerTables, transfers: set<Id>, stateChanges: map<nat, Id>, before: Tables, ok: bool,
                              after: Tables, checked: set<Id>, chosen: set<Id>) {
    && FirstRows(kept.fulfilment, checked)
    && FirstRows(kept.fulfilment, chosen)
    && (ok <==> Fits(kept, before, transfers, stateChanges, checked, chosen))
    && if ok then Migrated(kept, stateChanges, checked, chosen, before, after) else after == before
  }

  method CopyExtensions(kept: OldExtensions, live: map<nat, Extension>, transfers: set<Id>)
    returns (ok: bool, after: map<nat, Extension>)
    ensures ok <==> ExtensionsFit(kept, live, transfers)
    ensures ok ==> ExtensionsCopied(kept, live, after)
  {
    ok := forall k :: k in kept ==> k !in live && kept[k].transferId in transfers;
    after := live + map k | k in kept :: Copied(kept[k]);
  }

  /** The two queries may break ties differently. */
  method CopyFulfilments(kept: FormerTables, live: Tables, transfers: set<Id>)
    returns (ok: bool, checks: map<Id, Hash>, fulfilments: map<Id, Fulfilment>, checked: set<Id>, chosen: set<Id>)
    ensures FirstRows(kept.fulfilment, checked) && FirstRows(kept.fulfilment, chosen)
    ensures ok <==> FulfilmentsFit(kept, live, transfers, checked, chosen)
    ensures ok ==> Inserted(Part(kept.fulfilmentCheck, checked), live.fulfilmentCheck, checks)
    ensures ok ==> Inserted(Part(kept.fulfilment, chosen), live.fulfilment, fulfilments)
  {
    fulfilments := live.fulfilment;
    checked := RowNumberOne(kept.fulfilment);
    chosen := RowNumberOne(kept.fulfilment);
    var source := map k | k in kept.fulfilmentCheck && k in checked :: kept.fulfilmentCheck[k];
    ok, checks := InsertByTransfer(source, live.fulfilmentCheck, transfers);
    if ok {
      var first := map k | k in kept.fulfilment && k in chosen :: kept.fulfilment[k];
      ok, fulfilments := InsertByTransfer(first, live.fulfilment, checks.Keys);
    }
  }

  method CopyErrors(kept: FormerTables, live: Tables, transfers: set<Id>, stateChanges: map<nat, Id>)
    returns (ok: bool, checks: map<Id, Hash>, errors: map<Id, Failure>)
    ensures ok <==> ErrorsFit(kept, live, transfers, stateChanges)
    ensures ok ==> Inserted(kept.errorCheck, live.errorCheck, checks)
    ensures ok ==> Inserted(Joined(kept.error, stateChanges), live.error, errors)
  {
    errors := live.error;
    ok, checks := InsertByTransfer(kept.errorCheck, live.errorCheck, transfers);
    if ok {
      ok, errors := InsertByTransfer(Joined(kept.error, stateChanges), live.error, checks.Keys);
    }
  }

  /** The statements in order; the first one that violates a key ends the transaction. */
  method Statements(kept: FormerTables, live: Tables, transfers: set<Id>, stateChanges: map<nat, Id>)
    returns (ok: bool, after: Tables, ghost checked: set<Id>, ghost chosen: set<Id>)
    ensures Transaction(kept, transfers, stateChanges, live, ok, after, checked, chosen)
  {
    after := live;
    var okExtensions, extensions := CopyExtensions(kept.extension, live.extension, transfers);
    var okFulfilments, checks, fulfilments, a, b := CopyFulfilments(kept, live, transfers);
    checked, chosen := a, b;
    var okErrors, errorChecks, errors := CopyErrors(kept, live, transfers, stateChanges);
    ok := okExtensions && okFulfilments && okErrors;
    if ok {
      after := Tables(extensions, checks, fulfilments, errorChecks, errors);
    }
  }

  // ----- the database

  function Kept<K, V>(rows: map<K, V>): Option<map<K, V>> {
    if rows == map[] then None else Some(rows)
  }

  function RowsOf<K, V>(kept: Option<map<K, V>>): map<K, V> {
    if kept.Some? then kept.value else map[]
  }

  /** The renamed tables; one that was dropped is `None`. */
  datatype SuffixedTables = SuffixedTables(
    extension: Option<OldExtensions>, fulfilmentCheck: Option<OldChecks>, fulfilment: Option<OldFulfilments>,
    errorCheck: Option<OldErrorChecks>, error: Option<OldErrors>)

  const NO_SUFFIXED_TABLES := SuffixedTables(None, None, None, None, None)

  function AllRows(kept: SuffixedTables): FormerTables {
    FormerTables(RowsOf(kept.extension), RowsOf(kept.fulfilmentCheck), RowsOf(kept.fulfilment), RowsOf(kept.errorCheck),
                 RowsOf(kept.error))
  }

  method DropIfEmpty<K, V>(rows: map<K, V>) returns (kept: Option<map<K, V>>)
    ensures kept == Kept(rows)
  {
    kept := Some(rows);
    var count := |rows|;
    if count == 0 {
      kept := None;
    }
  }

  class Database {
    const transfers: set<Id>
    const stateChanges: map<nat, Id>

    var live: Live

    var kept: SuffixedTables

    constructor (transfers: set<Id>, stateChanges: map<nat, Id>, former: FormerTables)
      ensures this.transfers == transfers && this.stateChanges == stateChanges
      ensures live == Former(former) && kept == NO_SUFFIXED_TABLES
    {
      this.transfers, this.stateChanges := transfers, stateChanges;
      live, kept := Former(former), NO_SUFFIXED_TABLES;
    }

    /** Every old table is renamed, replaced by an empty one, and dropped if it holds no row. */
    method MigrateDDL()
      requires live.Former?
      modifies this
      ensures live == Current(EMPTY_TABLES)
      ensures AllRows(kept) == old(live).former
      ensures kept.extension.Some? <==> old(live).former.extension != map[]
      ensures kept.fulfilmentCheck.Some? <==> old(live).former.fulfilmentCheck != map[]
      ensures kept.fulfilment.Some? <==> old(live).former.fulfilment != map[]
      ensures kept.errorCheck.Some? <==> old(live).former.errorCheck != map[]
      ensures kept.error.Some? <==> old(live).former.error != map[]
    {
      var former := live.former;
      live := Current(EMPTY_TABLES);
      var extension := DropIfEmpty(former.extension);
      var fulfilmentCheck := DropIfEmpty(former.fulfilmentCheck);
      var fulfilment := DropIfEmpty(former.fulfilment);
      var errorCheck := DropIfEmpty(former.errorCheck);
      var error := DropIfEmpty(former.error);
      kept := SuffixedTables(extension, fulfilmentCheck, fulfilment, errorCheck, error);
    }

    /** Copies the kept rows in one transaction. */
    method MigrateData() returns (ok: bool, ghost checked: set<Id>, ghost chosen: set<Id>)
      requires live.Current?
      modifies `live
      ensures live.Current?
      ensures Transaction(AllRows(kept), transfers, stateChanges, old(live).tables, ok, live.tables, checked, chosen)
    {
      var after;
      ok, after, checked, chosen := Statements(AllRows(kept), live.tables, transfers, stateChanges);
      live := Current(after);
    }
  }

  // ----- laws

  /** The constraints of the old schema on the fulfilment tables. */
  ghost predicate FulfilmentKeysHold(kept: FormerTables, transfers: set<Id>) {
    && kept.fulfilment.Keys <= kept.fulfilmentCheck.Keys
    && TransferIds(kept.fulfilment) <= transfers
  }

  /** A fulfilment and its duplicate check name the same transfer; the old schema does not enforce it. */
  ghost predicate PairsMatch(kept: FormerTables) {
    forall k :: k in kept.fulfilment && k in kept.fulfilmentCheck ==>
                  kept.fulfilment[k].transferId == kept.fulfilmentCheck[k].transferId
  }

  /** Rows of distinct transfers are as many as their transfers. */
  lemma {:induction false} AsManyTransfers<K, V>(source: map<K, Keyed<V>>, keys: set<K>)
    requires OnePerTransfer(Part(source, keys)) && keys <= source.Keys
    ensures |TransferIds(Part(source, keys))| == |keys|
  {
    if k :| k in keys {
      var rest := Part(source, keys - {k});
      assert forall j :: j in rest ==> j in Part(source, keys);
      AsManyTransfers(source, keys - {k});
      PartGrows(source, keys - {k}, k);
      assert keys - {k} + {k} == keys;
      assert k in Part(source, keys);
    }
  }

  lemma {:induction false} SubsetOfSameSize<A>(a: set<A>, b: set<A>)
    requires a <= b && |a| == |b|
    ensures a == b
    decreases |a|
  {
    if x :| x in b && x !in a {
      assert a <= b - {x};
      NoMore(a, b - {x});
    }
  }

  lemma {:induction false} NoMore<A>(a: set<A>, b: set<A>)
    requires a <= b
    ensures |a| <= |b|
  {
    if x :| x in a {
      NoMore(a - {x}, b - {x});
    }
  }

  /** The two fulfilment statements go through iff the selected checks name each fulfilled transfer exactly once. */
  lemma FulfilmentsFitIff(kept: FormerTables, transfers: set<Id>, checked: set<Id>, chosen: set<Id>)
    requires FulfilmentKeysHold(kept, transfers)
    requires FirstRows(kept.fulfilment, checked) && FirstRows(kept.fulfilment, chosen)
    ensures var checks := Part(kept.fulfilmentCheck, checked);
            FulfilmentsFit(kept, EMPTY_TABLES, transfers, checked, chosen)
            <==> OnePerTransfer(checks) && TransferIds(checks) == TransferIds(kept.fulfilment)
  {
    var checks := Part(kept.fulfilmentCheck, checked);
    if FulfilmentsFit(kept, EMPTY_TABLES, transfers, checked, chosen) {
      AsManyTransfers(kept.fulfilmentCheck, checked);
      AsManyTransfers(kept.fulfilment, checked);
      SubsetOfSameSize(TransferIds(kept.fulfilment), TransferIds(checks));
    }
  }

  /** Matching pairs always go through, even when the two queries break ties differently. */
  lemma MatchingPairsFit(kept: FormerTables, transfers: set<Id>, checked: set<Id>, chosen: set<Id>)
    requires FulfilmentKeysHold(kept, transfers) && PairsMatch(kept)
    requires FirstRows(kept.fulfilment, checked) && FirstRows(kept.fulfilment, chosen)
    ensures FulfilmentsFit(kept, EMPTY_TABLES, transfers, checked, chosen)
  {
    SameTransfers(kept, checked);
    FulfilmentsFitIff(kept, transfers, checked, chosen);
  }

  lemma SameTransfers(kept: FormerTables, ids: set<Id>)
    requires PairsMatch(kept) && ids <= kept.fulfilment.Keys <= kept.fulfilmentCheck.Keys
    ensures TransferIds(Part(kept.fulfilmentCheck, ids)) == TransferIds(Part(kept.fulfilment, ids))
    ensures OnePerTransfer(Part(kept.fulfilment, ids)) ==> OnePerTransfer(Part(kept.fulfilmentCheck, ids))
  {
    var checks, first := Part(kept.fulfilmentCheck, ids), Part(kept.fulfilment, ids);
    assert checks.Keys == first.Keys;
    assert forall k :: k in first ==> checks[k].transferId == first[k].transferId;
    forall t
      ensures t in TransferIds(checks) <==> t in TransferIds(first)
    {
      if t in TransferIds(checks) {
        var k :| k in checks && checks[k].transferId == t;
        assert k in first;
      }
      if t in TransferIds(first) {
        var k :| k in first && first[k].transferId == t;
        assert k in checks;
      }
    }
  }

  /** The remaining constraints of the old schema. */
  ghost predicate OldKeysHold(kept: FormerTables, transfers: set<Id>) {
    && FulfilmentKeysHold(kept, transfers)
    && TransferIds(kept.errorCheck) <= transfers
    && forall k :: k in kept.extension ==> kept.extension[k].transferId in transfers
  }

  /**
   After the swap, on matching pairs, the transaction commits iff no transfer has two error checks or two errors
   and every transfer with an error has an error check. The old schema promises none of the three.
   */
  lemma CommitsIff(kept: FormerTables, transfers: set<Id>, stateChanges: map<nat, Id>, ok: bool, after: Tables,
                   checked: set<Id>, chosen: set<Id>)
    requires OldKeysHold(kept, transfers) && PairsMatch(kept)
    requires Transaction(kept, transfers, stateChanges, EMPTY_TABLES, ok, after, checked, chosen)
    ensures ok <==> && OnePerTransfer(kept.errorCheck)
                    && OnePerTransfer(Joined(kept.error, stateChanges))
                    && TransferIds(Joined(kept.error, stateChanges)) <= TransferIds(kept.errorCheck)
  {
    MatchingPairsFit(kept, transfers, checked, chosen);
    ErrorsFitIff(kept, transfers, stateChanges);
  }

  lemma ErrorsFitIff(kept: FormerTables, transfers: set<Id>, stateChanges: map<nat, Id>)
    requires TransferIds(kept.errorCheck) <= transfers
    ensures ErrorsFit(kept, EMPTY_TABLES, transfers, stateChanges)
            <==> && OnePerTransfer(kept.errorCheck)
                 && OnePerTransfer(Joined(kept.error, stateChanges))
                 && TransferIds(Joined(kept.error, stateChanges)) <= TransferIds(kept.errorCheck)
  {
    assert EMPTY_TABLES.errorCheck.Keys + TransferIds(kept.errorCheck) == TransferIds(kept.errorCheck);
  }

  /** A database the old schema allows, with two error checks of one transfer: its migration never commits. */
  lemma RepeatedErrorCheckAborts(t: Id, h: Hash, ok: bool, after: Tables, checked: set<Id>, chosen: set<Id>)
    requires var kept := FormerTables(map[], map[], map[], map[1 := Keyed(t, h), 2 := Keyed(t, h)], map[]);
             Transaction(kept, {t}, map[], EMPTY_TABLES, ok, after, checked, chosen)
    ensures !ok
  {
    var errorCheck := map[1 := Keyed(t, h), 2 := Keyed(t, h)];
    assert 1 in errorCheck && 2 in errorCheck && errorCheck[1].transferId == errorCheck[2].transferId;
  }

  /** The foreign keys of the new schema. */
  ghost predicate NewKeysHold(live: Tables, transfers: set<Id>) {
    && (forall k :: k in live.extension ==> live.extension[k].transferId in transfers)
    && live.fulfilment.Keys <= live.fulfilmentCheck.Keys <= transfers
    && live.error.Keys <= live.errorCheck.Keys <= transfers
  }

  /** Whatever tables are kept and live, and whether it commits or not, the transaction keeps the foreign keys. */
  lemma KeysKept(kept: FormerTables, transfers: set<Id>, stateChanges: map<nat, Id>, before: Tables, ok: bool,
                 after: Tables, checked: set<Id>, chosen: set<Id>)
    requires NewKeysHold(before, transfers)
    requires Transaction(kept, transfers, stateChanges, before, ok, after, checked, chosen)
    ensures NewKeysHold(after, transfers)
  {
    if ok {
      ExtensionParents(kept.extension, before.extension, after.extension, transfers);
      PairKept(Part(kept.fulfilmentCheck, checked), before.fulfilmentCheck, after.fulfilmentCheck,
               Part(kept.fulfilment, chosen), before.fulfilment, after.fulfilment, transfers);
      PairKept(kept.errorCheck, before.errorCheck, after.errorCheck,
               Joined(kept.error, stateChanges), before.error, after.error, transfers);
    }
  }

  lemma ExtensionParents(kept: OldExtensions, before: map<nat, Extension>, after: map<nat, Extension>, transfers: set<Id>)
    requires forall k :: k in before ==> before[k].transferId in transfers
    requires ExtensionsFit(kept, before, transfers) && ExtensionsCopied(kept, before, after)
    ensures forall k :: k in after ==> after[k].transferId in transfers
  {
    forall k | k in after
      ensures after[k].transferId in transfers
    {
      assert k in before.Keys + kept.Keys;
    }
  }

  /** A table of checks, and the table whose rows need one each. */
  lemma PairKept<K, V, L, W>(checks: map<K, Keyed<V>>, checkBefore: map<Id, V>, checkAfter: map<Id, V>,
                             rows: map<L, Keyed<W>>, before: map<Id, W>, after: map<Id, W>, transfers: set<Id>)
    requires before.Keys <= checkBefore.Keys <= transfers
    requires Insertable(checks, checkBefore.Keys, transfers) && Inserted(checks, checkBefore, checkAfter)
    requires Insertable(rows, before.Keys, checkBefore.Keys + TransferIds(checks)) && Inserted(rows, before, after)
    ensures after.Keys <= checkAfter.Keys <= transfers
  {
  }

  /** The migrated fulfilments: one for each transfer that had any, and none of its rows precedes it. */
  lemma MigratedFulfilments(rows: OldFulfilments, chosen: set<Id>, after: map<Id, Fulfilment>)
    requires FirstRows(rows, chosen) && Inserted(Part(rows, chosen), map[], after)
    ensures after.Keys == TransferIds(rows)
    ensures forall t :: t in after ==> exists id :: BestFulfilment(rows, id, t, after[t])
  {
    forall t | t in after
      ensures exists id :: BestFulfilment(rows, id, t, after[t])
    {
      var id := ChosenFor(rows, chosen, after, t);
    }
  }

  ghost predicate BestFulfilment(rows: OldFulfilments, id: Id, t: Id, f: Fulfilment) {
    && id in rows && rows[id] == Keyed(t, f)
    && forall other :: other in rows && rows[other].transferId == t ==> !Precedes(rows[other].row, f)
  }

  lemma ChosenFor(rows: OldFulfilments, chosen: set<Id>, after: map<Id, Fulfilment>, t: Id) returns (id: Id)
    requires FirstRows(rows, chosen) && Inserted(Part(rows, chosen), map[], after) && t in after
    ensures BestFulfilment(rows, id, t, after[t])
  {
    id :| id in Part(rows, chosen) && rows[id].transferId == t;
  }

  /** Every migrated fulfilment has its duplicate check, whichever way the two queries broke their ties. */
  lemma ParentsPresent(kept: FormerTables, transfers: set<Id>, checked: set<Id>, chosen: set<Id>,
                       checks: map<Id, Hash>, fulfilments: map<Id, Fulfilment>)
    requires FulfilmentsFit(kept, EMPTY_TABLES, transfers, checked, chosen)
    requires Inserted(Part(kept.fulfilmentCheck, checked), map[], checks)
    requires Inserted(Part(kept.fulfilment, chosen), map[], fulfilments)
    ensures fulfilments.Keys <= checks.Keys
  {
    assert fulfilments.Keys == TransferIds(Part(kept.fulfilment, chosen));
  }

  /** A transfer whose best fulfilment is unique keeps the hash of that very fulfilment. */
  lemma OwnHash(kept: FormerTables, checked: set<Id>, chosen: set<Id>, checks: map<Id, Hash>,
                fulfilments: map<Id, Fulfilment>, f: Id)
    requires FirstRows(kept.fulfilment, checked) && f in chosen
    requires chosen <= kept.fulfilment.Keys <= kept.fulfilmentCheck.Keys
    requires PairsMatch(kept)
    requires Inserted(Part(kept.fulfilmentCheck, checked), map[], checks)
    requires Inserted(Part(kept.fulfilment, chosen), map[], fulfilments)
    requires forall id :: id in kept.fulfilment && id != f && kept.fulfilment[id].transferId == kept.fulfilment[f].transferId
                          ==> Precedes(kept.fulfilment[f].row, kept.fulfilment[id].row)
    ensures var t := kept.fulfilment[f].transferId;
            && t in fulfilments && fulfilments[t] == kept.fulfilment[f].row
            && t in checks && checks[t] == kept.fulfilmentCheck[f].row
  {
    var t := kept.fulfilment[f].transferId;
    assert f in Part(kept.fulfilment, chosen);
    var first := Part(kept.fulfilment, checked);
    assert t in TransferIds(first);
    var c :| c in first && first[c].transferId == t;
    assert c == f;
    assert f in Part(kept.fulfilmentCheck, checked);
  }

  /** Inserting rows whose transfers are all taken is possible only if there are none. */
  lemma NoneLeft<K, V>(source: map<K, Keyed<V>>, taken: set<Id>, parents: set<Id>)
    requires TransferIds(source) <= taken
    ensures Insertable(source, taken, parents) <==> source == map[]
  {
    if k :| k in source {
      assert source[k].transferId in TransferIds(source);
    }
  }

  lemma FulfilmentsRerun(kept: FormerTables, transfers: set<Id>, first: Tables, checked: set<Id>, chosen: set<Id>)
    requires FulfilmentKeysHold(kept, transfers)
    requires FirstRows(kept.fulfilment, checked) && FirstRows(kept.fulfilment, chosen)
    requires first.fulfilment.Keys == TransferIds(kept.fulfilment)
    ensures FulfilmentsFit(kept, first, transfers, checked, chosen) <==> kept.fulfilment == map[]
  {
    var checks := Part(kept.fulfilmentCheck, checked);
    NoneLeft(Part(kept.fulfilment, chosen), first.fulfilment.Keys, first.fulfilmentCheck.Keys + TransferIds(checks));
    if k :| k in kept.fulfilment {
      assert kept.fulfilment[k].transferId in TransferIds(Part(kept.fulfilment, chosen));
    } else {
      assert checks == map[];
    }
  }

  lemma ErrorsRerun(kept: FormerTables, transfers: set<Id>, stateChanges: map<nat, Id>, first: Tables)
    requires first.errorCheck.Keys == TransferIds(kept.errorCheck)
    requires first.error.Keys == TransferIds(Joined(kept.error, stateChanges))
    ensures ErrorsFit(kept, first, transfers, stateChanges)
            <==> kept.errorCheck == map[] && Joined(kept.error, stateChanges) == map[]
  {
    NoneLeft(kept.errorCheck, first.errorCheck.Keys, transfers);
    NoneLeft(Joined(kept.error, stateChanges), first.error.Keys, first.errorCheck.Keys + TransferIds(kept.errorCheck));
  }

  lemma ExtensionsRerun(kept: OldExtensions, first: map<nat, Extension>, transfers: set<Id>)
    requires first.Keys == kept.Keys
    ensures ExtensionsFit(kept, first, transfers) <==> kept == map[]
  {
    if k :| k in kept {
      assert k in kept.Keys * first.Keys;
    }
  }

  lemma InsertedIntoEmpty<K, V>(source: map<K, Keyed<V>>, after: map<Id, V>)
    requires Inserted(source, map[], after)
    ensures after.Keys == TransferIds(source)
  {
    assert after.Keys == {} + TransferIds(source);
  }

  ghost predicate NothingKept(kept: FormerTables, stateChanges: map<nat, Id>) {
    && kept.extension == map[] && kept.fulfilment == map[]
    && kept.errorCheck == map[] && Joined(kept.error, stateChanges) == map[]
  }

  /** No error row is lost by the join: under the old foreign key every error finds its state change. */
  lemma ErrorRowsKept(kept: FormerTables, stateChanges: map<nat, Id>, live: map<Id, Failure>)
    requires forall k :: k in kept.error ==> kept.error[k].stateChangeId in stateChanges
    requires Inserted(Joined(kept.error, stateChanges), map[], live)
    ensures Joined(kept.error, stateChanges).Keys == kept.error.Keys
    ensures forall k :: k in kept.error ==>
              var t := stateChanges[kept.error[k].stateChangeId];
              t in live && live[t] == kept.error[k]
  {
    var joined := Joined(kept.error, stateChanges);
    assert joined.Keys == kept.error.Keys;
    forall k | k in kept.error
      ensures joined[k] == Keyed(stateChanges[kept.error[k].stateChangeId], kept.error[k])
      ensures joined[k].transferId in live
    {
      assert joined[k].transferId in TransferIds(joined);
    }
  }

  /** The rows a committed migration leaves in the new tables, by key. */
  ghost predicate HoldsMigrated(kept: FormerTables, stateChanges: map<nat, Id>, checked: set<Id>, live: Tables) {
    && live.extension.Keys == kept.extension.Keys && live.fulfilment.Keys == TransferIds(kept.fulfilment)
    && live.fulfilmentCheck.Keys == TransferIds(Part(kept.fulfilmentCheck, checked))
    && live.errorCheck.Keys == TransferIds(kept.errorCheck)
    && live.error.Keys == TransferIds(Joined(kept.error, stateChanges))
  }

  lemma CommittedHolds(kept: FormerTables, stateChanges: map<nat, Id>, checked: set<Id>, chosen: set<Id>, live: Tables)
    requires FirstRows(kept.fulfilment, chosen) && Migrated(kept, stateChanges, checked, chosen, EMPTY_TABLES, live)
    ensures HoldsMigrated(kept, stateChanges, checked, live)
  {
    ExtensionKeys(kept.extension, live.extension);
    FulfilmentKeys(kept.fulfilment, chosen, live.fulfilment);
    InsertedIntoEmpty(Part(kept.fulfilmentCheck, checked), live.fulfilmentCheck);
    ErrorKeys(kept, stateChanges, live);
  }

  lemma ExtensionKeys(kept: OldExtensions, after: map<nat, Extension>)
    requires ExtensionsCopied(kept, map[], after)
    ensures after.Keys == kept.Keys
  {
    assert after.Keys == {} + kept.Keys;
  }

  lemma ErrorKeys(kept: FormerTables, stateChanges: map<nat, Id>, live: Tables)
    requires Inserted(kept.errorCheck, map[], live.errorCheck)
    requires Inserted(Joined(kept.error, stateChanges), map[], live.error)
    ensures live.errorCheck.Keys == TransferIds(kept.errorCheck)
    ensures live.error.Keys == TransferIds(Joined(kept.error, stateChanges))
  {
    InsertedIntoEmpty(kept.errorCheck, live.errorCheck);
    InsertedIntoEmpty(Joined(kept.error, stateChanges), live.error);
  }

  lemma FulfilmentKeys(rows: OldFulfilments, chosen: set<Id>, after: map<Id, Fulfilment>)
    requires FirstRows(rows, chosen) && Inserted(Part(rows, chosen), map[], after)
    ensures after.Keys == TransferIds(rows)
  {
    MigratedFulfilments(rows, chosen, after);
  }

  /** Running the committed migration again goes through iff there is nothing to copy. */
  lemma RerunFitsIff(kept: FormerTables, transfers: set<Id>, stateChanges: map<nat, Id>, live: Tables,
                     before: set<Id>, checked: set<Id>, chosen: set<Id>)
    requires FulfilmentKeysHold(kept, transfers) && HoldsMigrated(kept, stateChanges, before, live)
    requires FirstRows(kept.fulfilment, checked) && FirstRows(kept.fulfilment, chosen)
    ensures Fits(kept, live, transfers, stateChanges, checked, chosen) <==> NothingKept(kept, stateChanges)
  {
    ExtensionsRerun(kept.extension, live.extension, transfers);
    FulfilmentsRerun(kept, transfers, live, checked, chosen);
    ErrorsRerun(kept, transfers, stateChanges, live);
  }
}
