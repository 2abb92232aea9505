/**
 Two aborts of one remittance in circulation together: one that started with the transfer and one that started with
 an fx transfer. Both carry the same reservations, given back or not, and each can stop the other.
 */
module TwoAborts {
  import opened Ledger
  import opened Sequences
  import A = AccountBin
  import C = Circulation
  import R = Reversal

  function Repeat(i: nat, m: nat): (s: seq<nat>)
    ensures |s| == m
  {
    seq(m, k => i)
  }

  // ----- progress along a schedule

  lemma ScheduleStep(start: C.World, ts: seq<C.Token>, a: seq<nat>, i: nat)
    requires |start.flights| == |ts|
    ensures |C.Run(start, a).flights| == |ts|
    ensures C.Run(start, a + [i]) == if i < |ts| then C.Deliver(C.Run(start, a), i) else C.Run(start, a)
    ensures C.Progress(start, ts, a + [i]) == C.StepOf(C.Run(start, a), ts, C.Progress(start, ts, a), i)
  {
    C.FlightsKept(start, a);
    assert (a + [i])[..|a|] == a;
  }

  /** How a token's movements and guard at one time relate to those at a later one. */
  predicate Later(open: bool, moves: nat, openLater: bool, movesLater: nat) {
    moves <= movesLater && (!open ==> !openLater && movesLater == moves)
  }

  /** The movements of a token only grow along a schedule, and stay once its guard is closed. */
  lemma {:induction false} AlongSchedule(start: C.World, ts: seq<C.Token>, a: seq<nat>, b: seq<nat>, j: nat)
    requires C.Launched(start, ts) && j < |ts|
    ensures Later(C.Open(C.Run(start, a), ts[j]), C.Progress(start, ts, a)[j],
                  C.Open(C.Run(start, a + b), ts[j]), C.Progress(start, ts, a + b)[j])
    decreases |b|
  {
    if b == [] {
      assert a + b == a;
    } else {
      ShiftFirst(a, b);
      NextDelivery(start, ts, a, b[0], j);
      AlongSchedule(start, ts, a + [b[0]], b[1..], j);
    }
  }

  lemma NextDelivery(start: C.World, ts: seq<C.Token>, a: seq<nat>, i: nat, j: nat)
    requires C.Launched(start, ts) && j < |ts|
    ensures Later(C.Open(C.Run(start, a), ts[j]), C.Progress(start, ts, a)[j],
                  C.Open(C.Run(start, a + [i]), ts[j]), C.Progress(start, ts, a + [i])[j])
  {
    ScheduleStep(start, ts, a, i);
    C.RunInv(start, ts, a);
    StepKeeps(start, C.Run(start, a), ts, C.Progress(start, ts, a), i, j);
  }

  lemma StepKeeps(start: C.World, w: C.World, ts: seq<C.Token>, progress: seq<nat>, i: nat, j: nat)
    requires C.Inv(start, w, ts, progress) && j < |ts|
    ensures progress[j] <= C.StepOf(w, ts, progress, i)[j]
    ensures !C.Open(w, ts[j]) ==>
              && C.StepOf(w, ts, progress, i)[j] == progress[j]
              && !C.Open(if i < |ts| then C.Deliver(w, i) else w, ts[j])
  {
    if i < |ts| && !C.Open(w, ts[j]) {
      C.StaysClosed(w, ts[i], i, progress[i], ts[j]);
    }
  }

  // ----- one token before the other

  /** One of the first n movements of `s` has closed the guard of `t`. */
  ghost predicate HitBy(s: C.Token, n: nat, t: C.Token)
    requires n <= |C.Hops(s)|
  {
    exists k: nat :: k < n && C.Hits(s, k, t)
  }

  function Min(a: nat, b: nat): nat {
    if a < b then a else b
  }

  /** After m deliveries of token i alone: it has moved as far as its own guard let it, and nothing else has. */
  ghost predicate Alone(start: C.World, ts: seq<C.Token>, i: nat, m: nat, w: C.World, progress: seq<nat>)
    requires i < |ts|
  {
    var n := Min(m, C.Reach(ts[i], C.Hops(ts[i])));
    && |w.flights| == |ts|
    && progress == C.Zeros(|ts|)[i := n]
    && C.OnCourse(w, ts[i], w.flights[i], n)
    && forall j :: 0 <= j < |ts| && j != i ==> Untouched(w, ts, i, n, j)
  }

  ghost predicate Untouched(w: C.World, ts: seq<C.Token>, i: nat, n: nat, j: nat)
    requires i < |ts| && j < |ts| == |w.flights| && n <= |C.Hops(ts[i])|
  {
    && w.flights[j] == Some(ts[j])
    && C.GuardState(w, ts[j]) ==
         Some(if HitBy(ts[i], n, ts[j]) then C.FinalState(ts[i].kind) else C.OpenState(ts[j].kind))
  }

  lemma {:induction false} AloneRun(start: C.World, ts: seq<C.Token>, i: nat, m: nat)
    requires C.Launched(start, ts) && i < |ts|
    ensures Alone(start, ts, i, m, C.Run(start, Repeat(i, m)), C.Progress(start, ts, Repeat(i, m)))
  {
    if m == 0 {
      C.LaunchedOnCourse(start, ts);
      forall j | 0 <= j < |ts| && j != i
        ensures Untouched(start, ts, i, 0, j)
      {
        assert C.Waiting(start, ts[j], start.flights[j]);
      }
    } else {
      AloneRun(start, ts, i, m - 1);
      assert Repeat(i, m) == Repeat(i, m - 1) + [i];
      ScheduleStep(start, ts, Repeat(i, m - 1), i);
      C.RunInv(start, ts, Repeat(i, m - 1));
      AloneStep(start, ts, i, m - 1, C.Run(start, Repeat(i, m - 1)), C.Progress(start, ts, Repeat(i, m - 1)));
    }
  }

  lemma AloneStep(start: C.World, ts: seq<C.Token>, i: nat, m: nat, w: C.World, progress: seq<nat>)
    requires i < |ts| && Alone(start, ts, i, m, w, progress) && C.Inv(start, w, ts, progress)
    ensures Alone(start, ts, i, m + 1, C.Deliver(w, i), C.StepOf(w, ts, progress, i))
  {
    var n := progress[i];
    assert C.TokenInv(w, ts[i], w.flights[i], n);
    var next := OwnStep(w, ts[i], i, m, n);
    OthersStep(w, ts, i, n, next);
  }

  lemma OthersStep(w: C.World, ts: seq<C.Token>, i: nat, n: nat, next: nat)
    requires i < |ts| == |w.flights| && C.TokenInv(w, ts[i], w.flights[i], n)
    requires next == n + if w.flights[i].Some? && C.Open(w, ts[i]) then 1 else 0
    requires forall j :: 0 <= j < |ts| && j != i ==> Untouched(w, ts, i, n, j)
    ensures |C.Deliver(w, i).flights| == |ts| && next <= |C.Hops(ts[i])|
    ensures forall j :: 0 <= j < |ts| && j != i ==> Untouched(C.Deliver(w, i), ts, i, next, j)
  {
    forall j | 0 <= j < |ts| && j != i
      ensures Untouched(C.Deliver(w, i), ts, i, next, j)
    {
      OtherTouched(w, ts, i, n, j);
    }
  }

  /** The delivered token's own side of one more delivery. */
  lemma OwnStep(w: C.World, t: C.Token, i: nat, m: nat, n: nat) returns (next: nat)
    requires i < |w.flights| && C.TokenInv(w, t, w.flights[i], n) && C.OnCourse(w, t, w.flights[i], n)
    requires n == Min(m, C.Reach(t, C.Hops(t)))
    ensures next == n + if w.flights[i].Some? && C.Open(w, t) then 1 else 0
    ensures next == Min(m + 1, C.Reach(t, C.Hops(t)))
    ensures i < |C.Deliver(w, i).flights| && C.OnCourse(C.Deliver(w, i), t, C.Deliver(w, i).flights[i], next)
  {
    next := n + if w.flights[i].Some? && C.Open(w, t) then 1 else 0;
    C.CourseStep(w, t, i, n);
    C.StoppedBeforeReach(t, n);
  }

  lemma OtherTouched(w: C.World, ts: seq<C.Token>, i: nat, n: nat, j: nat)
    requires i < |ts| == |w.flights| && j < |ts| && j != i && C.TokenInv(w, ts[i], w.flights[i], n)
    requires Untouched(w, ts, i, n, j)
    ensures var moved := w.flights[i].Some? && C.Open(w, ts[i]);
            |C.Deliver(w, i).flights| == |ts| && Untouched(C.Deliver(w, i), ts, i, n + if moved then 1 else 0, j)
  {
    if w.flights[i].Some? {
      if C.Open(w, ts[i]) {
        C.OpenDelivery(w, ts[i], i, n);
        C.OpenGuards(w, ts[i], i, n, ts[j]);
        assert HitBy(ts[i], n + 1, ts[j]) <==> HitBy(ts[i], n, ts[j]) || C.Hits(ts[i], n, ts[j]);
      } else {
        C.ClosedDelivery(w, ts[i], i, n);
      }
    }
  }

  /**
   Token i is delivered m times before token j is delivered at all, and then come any deliveries. One of the two
   makes no movement if and only if token i had closed the guard of token j by then.
   */
  lemma OneMovesIff(start: C.World, ts: seq<C.Token>, i: nat, j: nat, m: nat, later: seq<nat>)
    requires C.Launched(start, ts) && i < |ts| && j < |ts| && i != j && m > 0
    ensures var progress := C.Progress(start, ts, Repeat(i, m) + [j] + later);
            progress[i] == 0 || progress[j] == 0
            <==> HitBy(ts[i], Min(m, C.Reach(ts[i], C.Hops(ts[i]))), ts[j])
  {
    var first, n := Repeat(i, m), Min(m, C.Reach(ts[i], C.Hops(ts[i])));
    AloneRun(start, ts, i, m);
    FirstMoves(start, ts, i);
    var w := C.Run(start, first);
    assert Untouched(w, ts, i, n, j);
    assert first + [j] + later == first + ([j] + later);
    AlongSchedule(start, ts, first, [j] + later, i);
    if HitBy(ts[i], n, ts[j]) {
      AlongSchedule(start, ts, first, [j] + later, j);
    } else {
      ScheduleStep(start, ts, first, j);
      AlongSchedule(start, ts, first + [j], later, j);
    }
  }

  lemma FirstMoves(start: C.World, ts: seq<C.Token>, i: nat)
    requires C.Launched(start, ts) && i < |ts|
    ensures C.Reach(ts[i], C.Hops(ts[i])) > 0
  {
    assert C.Waiting(start, ts[i], start.flights[i]);
  }

  // ----- what the two aborts give back

  /** The two aborts, as the handlers launch them. */
  ghost predicate Pair(fxAbort: C.Token, abort: C.Token, fxs: seq<R.FxRecord>, t: R.TransferRecord, original: Id) {
    && R.FxAbort(fxAbort, fxs, t, original) && C.Extras(fxAbort) == []
    && R.TransferAbort(abort, fxs, t)
  }

  /** Each reservation is given back once by every abort that has made its movement. */
  lemma GivenBack(start: C.World, fxAbort: C.Token, abort: C.Token, fxs: seq<R.FxRecord>, t: R.TransferRecord, original: Id,
                  schedule: seq<nat>, account: nat)
    requires C.Launched(start, [fxAbort, abort]) && Pair(fxAbort, abort, fxs, t, original)
    ensures var progress, all := C.Progress(start, [fxAbort, abort], schedule), R.Reservations(fxs, t);
            && progress[0] <= |all| && progress[1] <= |all|
            && C.Balance(C.Run(start, schedule), account) ==
                 C.Balance(start, account) - C.ReservedOn(all, progress[0], account) - C.ReservedOn(all, progress[1], account)
  {
    var ts, all := [fxAbort, abort], R.Reservations(fxs, t);
    C.RunInv(start, ts, schedule);
    var progress := C.Progress(start, ts, schedule);
    R.HopsMirror(fxs, t, original, false);
    R.HopsMirror(fxs, t, t.id, true);
    assert C.TokenInv(C.Run(start, schedule), ts[0], C.Run(start, schedule).flights[0], progress[0]);
    assert C.TokenInv(C.Run(start, schedule), ts[1], C.Run(start, schedule).flights[1], progress[1]);
    C.PaidReverses(fxAbort, all, progress[0], account);
    C.PaidReverses(abort, all, progress[1], account);
    PaidByTwo(fxAbort, abort, progress, account);
  }

  lemma PaidByTwo(s: C.Token, t: C.Token, progress: seq<nat>, account: nat)
    requires |progress| == 2 && progress[0] <= |C.Hops(s)| && progress[1] <= |C.Hops(t)|
    ensures C.PaidAll([s, t], progress, account) ==
              C.Paid(C.Hops(s), progress[0], account) + C.Paid(C.Hops(t), progress[1], account)
  {
    C.PaidAllConcat([s], [progress[0]], [t], [progress[1]], account);
    C.PaidByOne(s, progress[0], account);
    C.PaidByOne(t, progress[1], account);
    assert [s] + [t] == [s, t] && [progress[0]] + [progress[1]] == progress;
  }

  /** No reservation is given back by both. */
  ghost predicate AtMostOnce(progress: seq<nat>, reservations: nat)
    requires |progress| == 2
  {
    forall k: nat :: k < reservations ==> !Twice(progress, k)
  }

  predicate Twice(progress: seq<nat>, k: nat)
    requires |progress| == 2
  {
    k < progress[0] && k < progress[1]
  }

  lemma AtMostOnceIff(progress: seq<nat>, reservations: nat)
    requires |progress| == 2 && progress[0] <= reservations && progress[1] <= reservations
    ensures AtMostOnce(progress, reservations) <==> progress[0] == 0 || progress[1] == 0
  {
    if progress[0] > 0 && progress[1] > 0 {
      assert Twice(progress, 0);
    }
  }

  /** The number of movements on fx transfers, which come before those of the transfer. */
  function FxCount(fxs: seq<R.FxRecord>): nat {
    |FlatMap(R.FxPairs(), fxs)|
  }

  lemma FxMovements(fxs: seq<R.FxRecord>, t: R.TransferRecord, original: Id, isAbort: bool, k: nat)
    requires k < |R.Hops(fxs, t, original, isAbort)|
    ensures |FlatMap(R.FxHops(original, isAbort), fxs)| == FxCount(fxs)
    ensures R.Hops(fxs, t, original, isAbort)[k].isFx <==> k < FxCount(fxs)
    ensures k >= FxCount(fxs) ==> R.Hops(fxs, t, original, isAbort)[k].id == t.id
  {
    R.FxHopsMirror(fxs, original, isAbort);
    R.FxHopsAreFx(fxs, original, isAbort);
    var first := FlatMap(R.FxHops(original, isAbort), fxs);
    if k < |first| {
      assert R.Hops(fxs, t, original, isAbort)[k] == first[k] && first[k] in first;
    } else {
      assert R.Hops(fxs, t, original, isAbort)[k] == R.TransferHops(original, t)[k - |first|];
    }
  }

  /** The fx transfer the abort started with has a reservation among the first n movements. */
  predicate OriginalWithin(fxs: seq<R.FxRecord>, original: Id, n: nat) {
    exists i :: 0 <= i < |fxs| && fxs[i].id == original && fxs[i].reserved != [] && FxCount(fxs[..i]) < n
  }

  lemma OriginalHop(fxs: seq<R.FxRecord>, t: R.TransferRecord, first: Id, isAbort: bool, original: Id, n: nat)
    requires n <= |R.Hops(fxs, t, first, isAbort)|
    ensures OriginalWithin(fxs, original, n)
            <==> exists k: nat :: && k < n && R.Hops(fxs, t, first, isAbort)[k].isFx
                                  && R.Hops(fxs, t, first, isAbort)[k].id == original
  {
    var hops := R.Hops(fxs, t, first, isAbort);
    if i :| 0 <= i < |fxs| && fxs[i].id == original && fxs[i].reserved != [] && FxCount(fxs[..i]) < n {
      R.HopAt(fxs, t, first, isAbort, i, 0);
      R.FxHopsMirror(fxs[..i], first, isAbort);
      assert hops[FxCount(fxs[..i])].id == original;
    }
    if k: nat :| k < n && hops[k].isFx && hops[k].id == original {
      FxMovements(fxs, t, first, isAbort, k);
      var i, j := R.Locate(fxs, first, isAbort, k);
      R.HopAt(fxs, t, first, isAbort, i, j);
      R.FxHopsMirror(fxs[..i], first, isAbort);
    }
  }

  /** How far an fx abort gets: past the fx transfers only if the one it started with has no reservation. */
  lemma FxAbortPasses(fxAbort: C.Token, fxs: seq<R.FxRecord>, t: R.TransferRecord, original: Id)
    requires R.FxAbort(fxAbort, fxs, t, original)
    ensures C.Reach(fxAbort, C.Hops(fxAbort)) > FxCount(fxs)
            <==> !OriginalWithin(fxs, original, |C.Hops(fxAbort)|) && t.reserved != []
  {
    var hops, r := C.Hops(fxAbort), C.Reach(fxAbort, C.Hops(fxAbort));
    C.ReachIsFirst(fxAbort, hops);
    OriginalHop(fxs, t, original, false, original, |hops|);
    R.FxHopsMirror(fxs, original, false);
    if r > FxCount(fxs) {
      if k: nat :| k < |hops| && hops[k].isFx && hops[k].id == original {
        FxMovements(fxs, t, original, false, k);
      }
    } else if t.reserved != [] {
      FxMovements(fxs, t, original, false, r - 1);
    }
  }

  /**
   The fx abort is delivered m times first. No reservation is given back twice if and only if it has by then moved
   the transfer itself, which it can only if the fx transfer it started with has no reservation.
   */
  lemma FxAbortFirst(start: C.World, fxAbort: C.Token, abort: C.Token, fxs: seq<R.FxRecord>, t: R.TransferRecord,
                     original: Id, m: nat, later: seq<nat>)
    requires C.Launched(start, [fxAbort, abort]) && Pair(fxAbort, abort, fxs, t, original) && m > 0
    ensures AtMostOnce(C.Progress(start, [fxAbort, abort], Repeat(0, m) + [1] + later), |R.Reservations(fxs, t)|)
            <==> && m > FxCount(fxs) && t.reserved != []
                 && !OriginalWithin(fxs, original, |R.Reservations(fxs, t)|)
  {
    var schedule, n := Repeat(0, m) + [1] + later, Min(m, C.Reach(fxAbort, C.Hops(fxAbort)));
    GivenBack(start, fxAbort, abort, fxs, t, original, schedule, 0);
    AtMostOnceIff(C.Progress(start, [fxAbort, abort], schedule), |R.Reservations(fxs, t)|);
    OneMovesIff(start, [fxAbort, abort], 0, 1, m, later);
    R.HopsMirror(fxs, t, original, false);
    FxAbortPasses(fxAbort, fxs, t, original);
    if n > FxCount(fxs) {
      FxMovements(fxs, t, original, false, FxCount(fxs));
      assert C.Hits(fxAbort, FxCount(fxs), abort);
    }
    if k: nat :| k < n && C.Hits(fxAbort, k, abort) {
      FxMovements(fxs, t, original, false, k);
    }
  }

  /**
   The transfer abort is delivered m times first. No reservation is given back twice if and only if it has by then
   moved the fx transfer the other abort started with.
   */
  lemma TransferAbortFirst(start: C.World, fxAbort: C.Token, abort: C.Token, fxs: seq<R.FxRecord>, t: R.TransferRecord,
                           original: Id, m: nat, later: seq<nat>)
    requires C.Launched(start, [fxAbort, abort]) && Pair(fxAbort, abort, fxs, t, original) && m > 0
    ensures AtMostOnce(C.Progress(start, [fxAbort, abort], Repeat(1, m) + [0] + later), |R.Reservations(fxs, t)|)
            <==> OriginalWithin(fxs, original, m)
  {
    var schedule := Repeat(1, m) + [0] + later;
    GivenBack(start, fxAbort, abort, fxs, t, original, schedule, 0);
    AtMostOnceIff(C.Progress(start, [fxAbort, abort], schedule), |R.Reservations(fxs, t)|);
    OneMovesIff(start, [fxAbort, abort], 1, 0, m, later);
    AbortHits(fxAbort, abort, fxs, t, original, m);
  }

  lemma AbortHits(fxAbort: C.Token, abort: C.Token, fxs: seq<R.FxRecord>, t: R.TransferRecord, original: Id, m: nat)
    requires Pair(fxAbort, abort, fxs, t, original)
    ensures HitBy(abort, Min(m, C.Reach(abort, C.Hops(abort))), fxAbort) <==> OriginalWithin(fxs, original, m)
  {
    var r := C.Reach(abort, C.Hops(abort));
    OriginalHop(fxs, t, t.id, true, original, Min(m, r));
    AbortPasses(abort, fxs, t);
    WithinReach(fxs, original, m, r);
    forall k: nat | k < r
      ensures C.Hits(abort, k, fxAbort) <==> C.Hops(abort)[k].isFx && C.Hops(abort)[k].id == original
    {
    }
  }

  lemma AbortPasses(abort: C.Token, fxs: seq<R.FxRecord>, t: R.TransferRecord)
    requires R.TransferAbort(abort, fxs, t)
    ensures FxCount(fxs) <= C.Reach(abort, C.Hops(abort))
  {
    var hops, r := C.Hops(abort), C.Reach(abort, C.Hops(abort));
    C.ReachIsFirst(abort, hops);
    R.FxHopsMirror(fxs, t.id, true);
    if r < |hops| {
      FxMovements(fxs, t, t.id, true, r - 1);
    }
  }

  lemma WithinReach(fxs: seq<R.FxRecord>, original: Id, m: nat, r: nat)
    requires FxCount(fxs) <= r
    ensures OriginalWithin(fxs, original, m) <==> OriginalWithin(fxs, original, Min(m, r))
  {
    if i :| 0 <= i < |fxs| && fxs[i].id == original && fxs[i].reserved != [] && FxCount(fxs[..i]) < m {
      TakeNext(fxs, i);
      FlatMapSnoc(R.FxPairs(), fxs[..i], fxs[i]);
      FlatMapConcat(R.FxPairs(), fxs[..i + 1], fxs[i + 1..]);
      assert fxs[..i + 1] + fxs[i + 1..] == fxs;
    }
  }

  // ----- both failing sides at one input

  /** The two aborts in the world in which they have just been launched, with every balance at zero. */
  function BothLaunched(fxs: seq<R.FxRecord>, t: R.TransferRecord, original: Id): C.World
    requires R.Hops(fxs, t, original, false) != [] && R.Hops(fxs, t, t.id, true) != []
  {
    R.Rejected(t.id, original, [Some(R.LaunchFxAbort(fxs, t, original)), Some(R.LaunchAbort(fxs, t))])
  }

  /** Any remittance with a reservation can have both its aborts launched. */
  lemma PairLaunched(fxs: seq<R.FxRecord>, t: R.TransferRecord, original: Id)
    requires R.Reservations(fxs, t) != []
    ensures R.Hops(fxs, t, original, false) != [] && R.Hops(fxs, t, t.id, true) != []
    ensures C.Launched(BothLaunched(fxs, t, original), [R.LaunchFxAbort(fxs, t, original), R.LaunchAbort(fxs, t)])
    ensures Pair(R.LaunchFxAbort(fxs, t, original), R.LaunchAbort(fxs, t), fxs, t, original)
  {
    R.AbortsLaunch(fxs, t, original);
    var w := BothLaunched(fxs, t, original);
    assert C.Waiting(w, R.LaunchFxAbort(fxs, t, original), w.flights[0]);
    assert C.Waiting(w, R.LaunchAbort(fxs, t), w.flights[1]);
  }

  /**
   One reservation of an fx transfer on account 1 and one of its transfer on account 2. If the fx abort is delivered
   once before the transfer abort, account 1 gets its reservation back twice, whatever is delivered afterwards.
   */
  lemma GivenBackTwice(fxId: Id, id: Id, amount: int, later: seq<nat>)
    ensures var fxs, t := [R.FxReservation(fxId, 1, amount)], R.TransferReservation(id, 2, amount);
            && R.Reservations(fxs, t) == [(1, amount), (2, amount)]
            && R.Hops(fxs, t, fxId, false) != [] && R.Hops(fxs, t, id, true) != []
            && C.Balance(C.Run(BothLaunched(fxs, t, fxId), [0, 1] + later), 1) == -2 * amount
  {
    var fxs, t := [R.FxReservation(fxId, 1, amount)], R.TransferReservation(id, 2, amount);
    OneReservationEach(fxId, id, amount);
    PairLaunched(fxs, t, fxId);
    var start, schedule := BothLaunched(fxs, t, fxId), [0, 1] + later;
    assert Repeat(0, 1) + [1] + later == schedule;
    FxAbortFirst(start, R.LaunchFxAbort(fxs, t, fxId), R.LaunchAbort(fxs, t), fxs, t, fxId, 1, later);
    BothOnAccount(start, fxs, t, fxId, schedule, 1);
  }

  lemma OneReservationEach(fxId: Id, id: Id, amount: int)
    ensures var fxs, t := [R.FxReservation(fxId, 1, amount)], R.TransferReservation(id, 2, amount);
            R.Reservations(fxs, t) == [(1, amount), (2, amount)] && FxCount(fxs) == 1
  {
    FlatMapOne(R.FxPairs(), R.FxReservation(fxId, 1, amount));
  }

  /** If some reservation is given back twice, the first is. */
  lemma BothOnAccount(start: C.World, fxs: seq<R.FxRecord>, t: R.TransferRecord, original: Id, schedule: seq<nat>, account: nat)
    requires R.Hops(fxs, t, original, false) != [] && R.Hops(fxs, t, t.id, true) != []
    requires R.Reservations(fxs, t) != [] && R.Reservations(fxs, t)[0].0 == account
    requires forall k :: 0 < k < |R.Reservations(fxs, t)| ==> R.Reservations(fxs, t)[k].0 != account
    requires var tokens := [R.LaunchFxAbort(fxs, t, original), R.LaunchAbort(fxs, t)];
             && C.Launched(start, tokens) && Pair(tokens[0], tokens[1], fxs, t, original)
             && !AtMostOnce(C.Progress(start, tokens, schedule), |R.Reservations(fxs, t)|)
    ensures C.Balance(C.Run(start, schedule), account) == C.Balance(start, account) - 2 * R.Reservations(fxs, t)[0].1
  {
    var all, tokens := R.Reservations(fxs, t), [R.LaunchFxAbort(fxs, t, original), R.LaunchAbort(fxs, t)];
    var progress := C.Progress(start, tokens, schedule);
    GivenBack(start, tokens[0], tokens[1], fxs, t, original, schedule, account);
    AtMostOnceIff(progress, |all|);
    OnlyFirst(all, progress[0], account);
    OnlyFirst(all, progress[1], account);
  }

  lemma {:induction false} OnlyFirst(reservations: seq<(nat, int)>, n: nat, account: nat)
    requires 0 < n <= |reservations| && reservations[0].0 == account
    requires forall k :: 0 < k < |reservations| ==> reservations[k].0 != account
    ensures C.ReservedOn(reservations, n, account) == reservations[0].1
  {
    if n > 1 {
      OnlyFirst(reservations, n - 1, account);
    } else {
      assert C.ReservedOn(reservations, 0, account) == 0;
    }
  }

  /**
   If the fx transfer has no reservation of its own, the transfer abort coming first does not help: however often it
   is delivered before the fx abort, the transfer's only reservation is given back twice.
   */
  lemma GivenBackTwiceAfter(fxId: Id, id: Id, amount: int, m: nat, later: seq<nat>)
    requires m > 0
    ensures var fxs, t := [R.FxRecord(fxId, "payer", "fxp", false, [])], R.TransferReservation(id, 2, amount);
            && R.Reservations(fxs, t) == [(2, amount)]
            && R.Hops(fxs, t, fxId, false) != [] && R.Hops(fxs, t, id, true) != []
            && C.Balance(C.Run(BothLaunched(fxs, t, fxId), Repeat(1, m) + [0] + later), 2) == -2 * amount
  {
    var fxs, t := [R.FxRecord(fxId, "payer", "fxp", false, [])], R.TransferReservation(id, 2, amount);
    FlatMapOne(R.FxPairs(), fxs[0]);
    assert R.Reservations(fxs, t) == [(2, amount)];
    PairLaunched(fxs, t, fxId);
    var start := BothLaunched(fxs, t, fxId);
    TransferAbortFirst(start, R.LaunchFxAbort(fxs, t, fxId), R.LaunchAbort(fxs, t), fxs, t, fxId, m, later);
    BothOnAccount(start, fxs, t, fxId, Repeat(1, m) + [0] + later, 2);
  }
}
