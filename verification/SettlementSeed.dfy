/**
 The seed of the initial settlement window: three writes without a transaction. A run may stop before any of
 them, and the seed is run again at every start.
 */
module SettlementSeed {
  import opened Ledger

  datatype WindowState = Open | OtherWindowState(name: string)

  datatype Change = Change(windowId: nat, state: WindowState)

  /** `windows` gives the current state change of each window; identifiers are auto-incremented. */
  datatype Tables = Tables(windows: map<nat, Option<nat>>, changes: map<nat, Change>, nextWindow: nat, nextChange: nat)

  predicate IsOpen(db: Tables, w: nat) {
    && w in db.windows && db.windows[w].Some? && db.windows[w].value in db.changes
    && db.changes[db.windows[w].value].state == Open
  }

  function OpenWindows(db: Tables): set<nat> {
    set w | w in db.windows && IsOpen(db, w)
  }

  /** Fresh identifiers, and the foreign key from a window to its current state change. */
  ghost predicate WellFormed(db: Tables) {
    && (forall w :: w in db.windows ==> w < db.nextWindow)
    && (forall c :: c in db.changes ==> c < db.nextChange)
    && forall w :: w in db.windows && db.windows[w].Some? ==> db.windows[w].value in db.changes
  }

  // ----- reference form

  const WRITES := 3

  /** The tables after the first `n` writes of a run that found no open window. */
  ghost function AfterWrites(db: Tables, n: nat): Tables {
    if n == 0 then db
    else if n == 1 then db.(windows := db.windows[db.nextWindow := None], nextWindow := db.nextWindow + 1)
    else
      Tables(db.windows[db.nextWindow := if n == 2 then None else Some(db.nextChange)],
             db.changes[db.nextChange := Change(db.nextWindow, Open)], db.nextWindow + 1, db.nextChange + 1)
  }

  /** A run that may make `allowed` writes before it stops. */
  ghost function Seeded(db: Tables, allowed: nat): Tables {
    if OpenWindows(db) != {} then db else AfterWrites(db, allowed)
  }

  /** Sequential runs. */
  ghost function Runs(db: Tables, allowed: seq<nat>): Tables {
    if allowed == [] then db else Seeded(Runs(db, allowed[..|allowed| - 1]), allowed[|allowed| - 1])
  }

  // ----- the seed

  class Seeder {
    var db: Tables
    /** The window named by the state change object that the module keeps between runs. */
    var template: nat

    constructor (db: Tables)
      ensures this.db == db
    {
      this.db, template := db, 1;
    }

    method InsertWindow() returns (id: nat)
      modifies `db
      ensures id == old(db).nextWindow
      ensures db == old(db).(windows := old(db).windows[id := None], nextWindow := id + 1)
    {
      id := db.nextWindow;
      db := db.(windows := db.windows[id := None], nextWindow := id + 1);
    }

    method InsertChange() returns (id: nat)
      modifies `db
      ensures id == old(db).nextChange
      ensures db == old(db).(changes := old(db).changes[id := Change(template, Open)], nextChange := id + 1)
    {
      id := db.nextChange;
      db := db.(changes := db.changes[id := Change(template, Open)], nextChange := id + 1);
    }

    /** `allowed` is the number of writes after which the run stops, if it has not ended. */
    method Seed(allowed: nat) returns (completed: bool)
      modifies this
      ensures db == Seeded(old(db), allowed)
      ensures completed <==> OpenWindows(old(db)) != {} || allowed >= WRITES
    {
      var settlementWindowStateChangeList := OpenWindows(db);
      if |settlementWindowStateChangeList| < 1 {
        if allowed == 0 {
          return false;
        }
        var settlementWindowId := InsertWindow();
        template := settlementWindowId;
        if allowed == 1 {
          return false;
        }
        var settlementWindowStateChangeId := InsertChange();
        if allowed == 2 {
          return false;
        }
        db := db.(windows := db.windows[settlementWindowId := Some(settlementWindowStateChangeId)]);
      }
      return true;
    }
  }

  // ----- laws

  lemma SeededKeeps(db: Tables, allowed: nat)
    requires WellFormed(db)
    ensures WellFormed(Seeded(db, allowed))
    ensures OpenWindows(Seeded(db, allowed)) ==
              if OpenWindows(db) == {} && allowed >= WRITES then {db.nextWindow} else OpenWindows(db)
  {
    var after := Seeded(db, allowed);
    forall w
      ensures w in OpenWindows(after) <==>
              w in if OpenWindows(db) == {} && allowed >= WRITES then {db.nextWindow} else OpenWindows(db)
    {
      assert w in db.windows ==> (IsOpen(after, w) <==> IsOpen(db, w));
    }
  }

  ghost predicate SomeEnded(allowed: seq<nat>) {
    exists i :: 0 <= i < |allowed| && allowed[i] >= WRITES
  }

  /**
   Whatever stops there are: at most one window stays at most one, and after the runs one is open iff one was
   open before or some run came to its end.
   */
  lemma {:induction false} AtMostOneOpen(db: Tables, allowed: seq<nat>)
    requires WellFormed(db) && |OpenWindows(db)| <= 1
    ensures WellFormed(Runs(db, allowed)) && |OpenWindows(Runs(db, allowed))| <= 1
    ensures OpenWindows(Runs(db, allowed)) != {} <==> OpenWindows(db) != {} || SomeEnded(allowed)
  {
    if allowed != [] {
      var init, last := allowed[..|allowed| - 1], allowed[|allowed| - 1];
      assert allowed == init + [last];
      AtMostOneOpen(db, init);
      SeededKeeps(Runs(db, init), last);
      assert SomeEnded(allowed) <==> SomeEnded(init) || last >= WRITES by {
        assert last >= WRITES ==> allowed[|init|] >= WRITES;
        assert forall i :: 0 <= i < |init| ==> allowed[i] == init[i];
      }
    }
  }

  lemma {:induction false} RunsConcat(db: Tables, a: seq<nat>, b: seq<nat>)
    ensures Runs(db, a + b) == Runs(Runs(db, a), b)
  {
    if b == [] {
      assert a + b == a;
    } else {
      RunsConcat(db, a, b[..|b| - 1]);
      assert (a + b)[..|a + b| - 1] == a + b[..|b| - 1];
    }
  }

  lemma {:induction false} OpenAbsorbs(db: Tables, allowed: seq<nat>)
    requires OpenWindows(db) != {}
    ensures Runs(db, allowed) == db
  {
    if allowed != [] {
      OpenAbsorbs(db, allowed[..|allowed| - 1]);
    }
  }

  /** Once a run has come to its end, later runs change nothing. */
  lemma LaterRunsChangeNothing(db: Tables, before: seq<nat>, complete: nat, later: seq<nat>)
    requires WellFormed(db) && |OpenWindows(db)| <= 1 && complete >= WRITES
    ensures |OpenWindows(Runs(db, before + [complete]))| == 1
    ensures Runs(db, before + [complete] + later) == Runs(db, before + [complete])
  {
    assert (before + [complete])[|before|] >= WRITES;
    AtMostOneOpen(db, before + [complete]);
    RunsConcat(db, before + [complete], later);
    OpenAbsorbs(Runs(db, before + [complete]), later);
  }

  /** No run touches a row that was there before it. */
  lemma {:induction false} OldRowsUntouched(db: Tables, allowed: seq<nat>)
    requires WellFormed(db)
    ensures var after := Runs(db, allowed);
            && WellFormed(after)
            && (forall w :: w in db.windows ==> w in after.windows && after.windows[w] == db.windows[w])
            && forall c :: c in db.changes ==> c in after.changes && after.changes[c] == db.changes[c]
  {
    if allowed != [] {
      OldRowsUntouched(db, allowed[..|allowed| - 1]);
      SeededKeeps(Runs(db, allowed[..|allowed| - 1]), allowed[|allowed| - 1]);
    }
  }

  /** The current state change of a window is one of its own. */
  ghost predicate OwnChanges(db: Tables) {
    forall w :: w in db.windows && db.windows[w].Some? && db.windows[w].value in db.changes ==>
                  db.changes[db.windows[w].value].windowId == w
  }

  /** Every run keeps it, and each state change that runs add opens a window that they added. */
  lemma {:induction false} ChangesNameTheirWindow(db: Tables, allowed: seq<nat>)
    requires WellFormed(db) && OwnChanges(db)
    ensures var after := Runs(db, allowed);
            && WellFormed(after) && OwnChanges(after)
            && forall c :: c in after.changes && c !in db.changes ==>
                             && after.changes[c].state == Open
                             && after.changes[c].windowId in after.windows && after.changes[c].windowId !in db.windows
  {
    if allowed != [] {
      var init, last := allowed[..|allowed| - 1], allowed[|allowed| - 1];
      ChangesNameTheirWindow(db, init);
      OldRowsUntouched(db, init);
      SeededKeeps(Runs(db, init), last);
    }
  }
}
