/**
 Migration 961000: two deletes that leave one row for each participant and endpoint type.
 */
module EndpointDedup {

  datatype Key = Key(participantId: nat, endpointTypeId: nat)

  datatype Row = Row(key: Key, isActive: bool, value: string)

  /** The table, by primary key. */
  type Rows = map<int, Row>

  /** The identifiers are auto-incremented from 1. */
  ghost predicate WellNumbered(rows: Rows) {
    forall id :: id in rows ==> id > 0
  }

  // ----- reference form: the best row of each key

  /** An active row beats an inactive one; among equals the higher identifier wins. */
  predicate Beats(rows: Rows, a: int, b: int)
    requires a in rows && b in rows
  {
    if rows[a].isActive == rows[b].isActive then a > b else rows[a].isActive
  }

  ghost predicate Best(rows: Rows, id: int) {
    id in rows && forall other :: other in rows && rows[other].key == rows[id].key && other != id ==> Beats(rows, id, other)
  }

  ghost function BestRows(rows: Rows): Rows {
    map id | id in rows && Best(rows, id) :: rows[id]
  }

  /** The unique constraint added by the migration. */
  ghost predicate UniqueKeys(rows: Rows) {
    forall a, b :: a in rows && b in rows && rows[a].key == rows[b].key ==> a == b
  }

  ghost function Keys(rows: Rows): set<Key> {
    set id | id in rows :: rows[id].key
  }

  // ----- the migration

  /** The keys that some active row carries. */
  function ActiveKeys(rows: Rows): set<Key> {
    set id | id in rows && rows[id].isActive :: rows[id].key
  }

  predicate TopId(rows: Rows, id: int) {
    id in rows && forall other :: other in rows && rows[other].key == rows[id].key ==> other <= id
  }

  /** The highest identifier of each key. */
  function TopIds(rows: Rows): set<int> {
    set id | id in rows && TopId(rows, id)
  }

  class ParticipantEndpoint {
    var rows: Rows
    var unique: bool

    constructor (rows: Rows)
      ensures this.rows == rows && !unique
    {
      this.rows, unique := rows, false;
    }

    /** Deletes the inactive rows of every key that has an active row. */
    method DeleteShadowed()
      modifies `rows
      ensures rows == map id | id in old(rows) && (old(rows)[id].isActive || old(rows)[id].key !in ActiveKeys(old(rows))) ::
                          old(rows)[id]
    {
      var temp := set id | id in rows && !rows[id].isActive && rows[id].key in ActiveKeys(rows);
      rows := rows - temp;
    }

    /** Deletes every row whose identifier is positive and not the highest of its key. */
    method DeleteOutranked()
      modifies `rows
      ensures rows == map id | id in old(rows) && (id <= 0 || TopId(old(rows), id)) :: old(rows)[id]
    {
      var temp := TopIds(rows);
      var doomed := set id | id in rows && id > 0 && id !in temp;
      rows := rows - doomed;
    }

    /** The database refuses the constraint while two rows share a key. */
    method AddUniqueConstraint()
      requires UniqueKeys(rows)
      modifies `unique
      ensures unique
    {
      unique := true;
    }

    method Up()
      requires WellNumbered(rows)
      modifies this
      ensures rows == BestRows(old(rows))
      ensures unique && UniqueKeys(rows)
    {
      DeleteShadowed();
      ghost var middle := rows;
      DeleteOutranked();
      TwoPassesPickBest(old(rows), middle, rows);
      BestIsUnique(old(rows));
      AddUniqueConstraint();
    }
  }

  // ----- laws

  lemma TwoPassesPickBest(before: Rows, middle: Rows, after: Rows)
    requires WellNumbered(before)
    requires middle == map id | id in before && (before[id].isActive || before[id].key !in ActiveKeys(before)) :: before[id]
    requires after == map id | id in middle && (id <= 0 || TopId(middle, id)) :: middle[id]
    ensures after == BestRows(before)
  {
    forall id | id in before
      ensures id in after <==> Best(before, id)
    {
      if id in after {
        forall other | other in before && before[other].key == before[id].key && other != id
          ensures Beats(before, id, other)
        {
          assert before[other].isActive == before[id].isActive ==> other in middle;
        }
      }
      if Best(before, id) {
        if !before[id].isActive && before[id].key in ActiveKeys(before) {
          var other :| other in before && before[other].isActive && before[other].key == before[id].key;
          BeatsOneWay(before, id, other);
        }
        assert id in middle;
        forall other | other in middle && middle[other].key == middle[id].key
          ensures other <= id
        {
          if other != id {
            assert Beats(before, id, other);
          }
        }
      }
    }
  }

  lemma BestIsUnique(rows: Rows)
    ensures UniqueKeys(BestRows(rows))
  {
    forall a, b | a in BestRows(rows) && b in BestRows(rows) && rows[a].key == rows[b].key
      ensures a == b
    {
      BeatsOneWay(rows, a, b);
    }
  }

  lemma BeatsOneWay(rows: Rows, a: int, b: int)
    requires a in rows && b in rows
    ensures Beats(rows, a, b) && Beats(rows, b, a) ==> false
  {
  }

  /** No key is lost and every kept row is unmodified. */
  lemma EveryKeyKept(rows: Rows)
    ensures Keys(BestRows(rows)) == Keys(rows)
    ensures forall id :: id in BestRows(rows) ==> id in rows && BestRows(rows)[id] == rows[id]
  {
    forall key | key in Keys(rows)
      ensures key in Keys(BestRows(rows))
    {
      var id :| id in rows && rows[id].key == key;
      var best := BestRival(rows, id);
      assert best in BestRows(rows);
    }
  }

  ghost function Rivals(rows: Rows, id: int): set<int>
    requires id in rows
  {
    set other | other in rows && rows[other].key == rows[id].key && other != id && !Beats(rows, id, other)
  }

  /** Climbing from any row to one that it does not beat ends at the best row of its key. */
  lemma {:induction false} BestRival(rows: Rows, id: int) returns (best: int)
    requires id in rows
    ensures Best(rows, best) && rows[best].key == rows[id].key
    decreases Rivals(rows, id)
  {
    if Best(rows, id) {
      best := id;
    } else {
      var other :| other in rows && rows[other].key == rows[id].key && other != id && !Beats(rows, id, other);
      assert other in Rivals(rows, id) && other !in Rivals(rows, other);
      best := BestRival(rows, other);
    }
  }

  /** The kept row: active iff the key had an active row, and the highest identifier among those of its kind. */
  lemma KeptRow(rows: Rows, id: int)
    requires id in BestRows(rows)
    ensures rows[id].isActive <==> rows[id].key in ActiveKeys(rows)
    ensures forall other :: other in rows && rows[other].key == rows[id].key && rows[other].isActive == rows[id].isActive
                            ==> other <= id
  {
    if rows[id].key in ActiveKeys(rows) {
      var other :| other in rows && rows[other].isActive && rows[other].key == rows[id].key;
      assert other == id || Beats(rows, id, other);
    }
    forall other | other in rows && rows[other].key == rows[id].key && rows[other].isActive == rows[id].isActive
      ensures other <= id
    {
      assert other == id || Beats(rows, id, other);
    }
  }

  /** A second run deletes nothing; indeed a table is left alone iff its keys were already unique. */
  lemma NothingLeftToDelete(rows: Rows)
    ensures BestRows(BestRows(rows)) == BestRows(rows)
    ensures BestRows(rows) == rows <==> UniqueKeys(rows)
  {
    BestIsUnique(rows);
    if UniqueKeys(rows) {
      UniqueIsBest(rows);
    }
    UniqueIsBest(BestRows(rows));
  }

  lemma UniqueIsBest(rows: Rows)
    requires UniqueKeys(rows)
    ensures BestRows(rows) == rows
  {
    forall id | id in rows
      ensures Best(rows, id)
    {
    }
  }
}
