/** The reconciler's bounded job scheduler: scans admit rows, completions free their slots. */
module Scheduler {
  import opened Prelude
  import opened Lifecycle

  datatype Candidate = Candidate(id: string, state: RowState)

  /**
   What wakes the loop up: a scan's listing, a scan whose listing or whose sweep
   of finished deletions failed, a finished or crashed job, or shutdown.
   */
  datatype Wakeup = Listed(rows: seq<Candidate>) | ListingFailed | SweepFailed | Joined(index: nat) | Crashed | Shutdown

  const MAX_SCAN_FAILURES: nat := 5

  /** How many listings failed since the last one that did not, counting `before` on top if there was none. */
  function Trailing(wakeups: seq<Wakeup>, before: nat): nat {
    if wakeups == [] then before
    else
      match wakeups[|wakeups| - 1]
      case Listed(_) => 0
      case ListingFailed => Trailing(wakeups[..|wakeups| - 1], before) + 1
      case _ => Trailing(wakeups[..|wakeups| - 1], before)
  }

  function PendingIds(active: map<string, RowState>): set<string> {
    set id | id in active && active[id] == PendingRow
  }

  lemma PendingGrows(active: map<string, RowState>, id: string, state: RowState)
    requires id !in active
    ensures |PendingIds(active[id := state])| == |PendingIds(active)| + (if state == PendingRow then 1 else 0)
  {
    var after := PendingIds(active[id := state]);
    if state == PendingRow {
      assert after == PendingIds(active) + {id};
    } else {
      assert after == PendingIds(active);
    }
  }

  lemma PendingShrinks(active: map<string, RowState>, id: string)
    ensures |PendingIds(active - {id})| <= |PendingIds(active)|
  {
    assert PendingIds(active - {id}) == PendingIds(active) - {id};
  }

  lemma PendingWithin(active: map<string, RowState>)
    ensures |PendingIds(active)| <= |active|
    ensures |PendingIds(active)| < |active| ==> exists id :: id in active && active[id] != PendingRow
  {
    var pending := PendingIds(active);
    Subset(pending, active.Keys);
    if |pending| < |active| {
      assert active.Keys - pending != {} by {
        Subset(active.Keys, active.Keys - (active.Keys - pending) + (active.Keys - pending));
      }
      var id :| id in active.Keys - pending;
    }
  }

  lemma Subset(a: set<string>, b: set<string>)
    requires a <= b
    ensures |a| <= |b|
  {
    assert b == a + (b - a);
  }

  type Jobs = map<string, RowState>

  /** Never more rows than the capacity, and one slot wakes cannot take. */
  ghost predicate Within(active: Jobs, capacity: nat) {
    |active| <= capacity && |PendingIds(active)| <= capacity - 1
  }

  predicate Admits(active: Jobs, row: Candidate, capacity: nat)
    requires capacity > 0
  {
    !(|active| >= capacity || row.id in active || (row.state == PendingRow && |PendingIds(active)| >= capacity - 1))
  }

  /** The active rows after going through a listing. */
  function AdmitAll(active: Jobs, rows: seq<Candidate>, capacity: nat): Jobs
    requires capacity > 0
  {
    if rows == [] then active
    else
      var before := AdmitAll(active, rows[..|rows| - 1], capacity);
      var row := rows[|rows| - 1];
      if Admits(before, row, capacity) then before[row.id := row.state] else before
  }

  lemma AdmitOne(active: Jobs, row: Candidate, capacity: nat)
    requires capacity > 0 && Within(active, capacity) && Admits(active, row, capacity)
    ensures Within(active[row.id := row.state], capacity)
    ensures |active[row.id := row.state]| == |active| + 1
    ensures |PendingIds(active)| <= |PendingIds(active[row.id := row.state])|
  {
    PendingGrows(active, row.id, row.state);
    assert active[row.id := row.state].Keys == active.Keys + {row.id};
  }

  /** A listing never overfills the scheduler, drops no running row, and starts only listed rows. */
  lemma {:induction false} AdmitKeeps(active: Jobs, rows: seq<Candidate>, capacity: nat)
    requires capacity > 0 && Within(active, capacity)
    ensures
      var after := AdmitAll(active, rows, capacity);
      && Within(after, capacity)
      && (forall id :: id in active ==> id in after && after[id] == active[id])
      && (forall id :: id in after && id !in active ==> Candidate(id, after[id]) in rows)
  {
    hide Within, Admits;
    if rows != [] {
      var n := |rows| - 1;
      AdmitKeeps(active, rows[..n], capacity);
      var before := AdmitAll(active, rows[..n], capacity);
      if Admits(before, rows[n], capacity) {
        AdmitOne(before, rows[n], capacity);
        NotYet(before, rows[n], capacity);
      }
    }
  }

  lemma NotYet(active: Jobs, row: Candidate, capacity: nat)
    requires capacity > 0 && Admits(active, row, capacity)
    ensures row.id !in active
  {
  }

  /** Nothing more of this row's kind fits. */
  ghost predicate NoRoom(active: Jobs, row: Candidate, capacity: nat) {
    |active| == capacity || (row.state == PendingRow && |PendingIds(active)| == capacity - 1)
  }

  /** A listed row without a job after the scan was left out for want of room, and there is still none. */
  lemma {:induction false} AdmitFair(active: Jobs, rows: seq<Candidate>, capacity: nat, i: nat)
    requires capacity > 0 && Within(active, capacity) && i < |rows|
    requires rows[i].id !in AdmitAll(active, rows, capacity)
    ensures NoRoom(AdmitAll(active, rows, capacity), rows[i], capacity)
    decreases |rows|
  {
    hide PendingIds, AdmitAll;
    var n := |rows| - 1;
    var before := AdmitAll(active, rows[..n], capacity);
    AdmitKeeps(active, rows[..n], capacity);
    AdmitStep(active, rows, capacity);
    if i < n {
      if rows[i].id !in before {
        AdmitFair(active, rows[..n], capacity, i);
      }
    }
    if Admits(before, rows[n], capacity) {
      AdmitOne(before, rows[n], capacity);
    }
  }

  lemma AdmitStep(active: Jobs, rows: seq<Candidate>, capacity: nat)
    requires capacity > 0 && rows != []
    ensures
      var n := |rows| - 1;
      var before := AdmitAll(active, rows[..n], capacity);
      AdmitAll(active, rows, capacity) == if Admits(before, rows[n], capacity) then before[rows[n].id := rows[n].state]
        else before
  {
  }

  /** At least as many rows as the limit, and two, allow; or, for a wake, wakes but for one. */
  ghost predicate Filled(active: Jobs, row: Candidate, limit: nat) {
    || (|active| >= limit && |active| >= 2)
    || (row.state == PendingRow && |PendingIds(active)| + 1 >= limit && |PendingIds(active)| + 1 >= 2)
  }

  /** Never more rows than the limit, or two if it is less; and never that many wakes. */
  ghost predicate Bounded(active: Jobs, limit: nat) {
    && (|active| <= limit || |active| <= 2)
    && (|PendingIds(active)| < limit || |PendingIds(active)| < 2)
  }

  /** Every listed row has a job, or there was no room for it under the limit. */
  ghost predicate Served(active: Jobs, rows: seq<Candidate>, limit: nat) {
    forall i :: 0 <= i < |rows| ==> rows[i].id in active || Filled(active, rows[i], limit)
  }

  lemma AdmitServes(active: Jobs, rows: seq<Candidate>, capacity: nat, limit: nat)
    requires capacity == Max(limit, 2) && Within(active, capacity)
    ensures Served(AdmitAll(active, rows, capacity), rows, limit)
  {
    hide AdmitAll, PendingIds;
    forall i | 0 <= i < |rows| && rows[i].id !in AdmitAll(active, rows, capacity)
      ensures Filled(AdmitAll(active, rows, capacity), rows[i], limit)
    {
      AdmitFair(active, rows, capacity, i);
    }
  }

  lemma WithinBounds(active: Jobs, capacity: nat, limit: nat)
    requires capacity == Max(limit, 2) && Within(active, capacity)
    ensures Bounded(active, limit)
  {
  }

  /** A row to clean up waits only while the scheduler is full with a job in it that is not a wake. */
  lemma CleanupNotStarved(active: Jobs, rows: seq<Candidate>, capacity: nat, i: nat)
    requires capacity > 0 && Within(active, capacity) && i < |rows| && rows[i].state != PendingRow
    ensures
      var after := AdmitAll(active, rows, capacity);
      rows[i].id !in after ==> |after| == capacity && exists id :: id in after && after[id] != PendingRow
  {
    hide AdmitAll;
    var after := AdmitAll(active, rows, capacity);
    if rows[i].id !in after {
      AdmitKeeps(active, rows, capacity);
      AdmitFair(active, rows, capacity, i);
      PendingWithin(after);
    }
  }

  /** The running jobs are one per active row. */
  ghost predicate OneJobEach(jobs: seq<string>, active: Jobs) {
    Distinct(jobs) && forall id :: id in jobs <==> id in active
  }

  lemma JobAdded(jobs: seq<string>, active: Jobs, id: string, state: RowState)
    requires OneJobEach(jobs, active) && id !in active
    ensures OneJobEach(jobs + [id], active[id := state])
  {
  }

  lemma JobEnded(jobs: seq<string>, active: Jobs, index: nat)
    requires OneJobEach(jobs, active) && index < |jobs|
    ensures OneJobEach(jobs[..index] + jobs[index + 1..], active - {jobs[index]})
  {
    var rest := jobs[..index] + jobs[index + 1..];
    forall id ensures id in rest <==> id in active && id != jobs[index] {
      if id in active && id != jobs[index] {
        var k :| 0 <= k < |jobs| && jobs[k] == id;
        assert rest[if k < index then k else k - 1] == id;
      }
    }
  }

  // ---- whole runs --------------------------------------------------------

  /** The active rows and the running jobs. */
  datatype Board = Board(active: Jobs, jobs: seq<string>)

  /** The running jobs after going through a listing. */
  function Started(b: Board, rows: seq<Candidate>, capacity: nat): seq<string>
    requires capacity > 0
  {
    if rows == [] then b.jobs
    else
      var n := |rows| - 1;
      Started(b, rows[..n], capacity)
        + if Admits(AdmitAll(b.active, rows[..n], capacity), rows[n], capacity) then [rows[n].id] else []
  }

  function Handled(b: Board, w: Wakeup, capacity: nat): Board
    requires capacity > 0
  {
    match w
    case Listed(rows) => Board(AdmitAll(b.active, rows, capacity), Started(b, rows, capacity))
    case Joined(index) =>
      if index < |b.jobs|
      then Board(b.active - {b.jobs[index]}, b.jobs[..index] + b.jobs[index + 1..]) else b
    case _ => b
  }

  function HandledAll(b: Board, wakeups: seq<Wakeup>, capacity: nat): Board
    requires capacity > 0
  {
    if wakeups == [] then b
    else Handled(HandledAll(b, wakeups[..|wakeups| - 1], capacity), wakeups[|wakeups| - 1], capacity)
  }

  ghost predicate InOrder(b: Board, capacity: nat) { OneJobEach(b.jobs, b.active) && Within(b.active, capacity) }

  lemma {:induction false} StartedEach(b: Board, rows: seq<Candidate>, capacity: nat)
    requires capacity > 0 && InOrder(b, capacity)
    ensures InOrder(Board(AdmitAll(b.active, rows, capacity), Started(b, rows, capacity)), capacity)
  {
    hide OneJobEach, Within, Admits;
    if rows != [] {
      var n := |rows| - 1;
      StartedEach(b, rows[..n], capacity);
      var before := AdmitAll(b.active, rows[..n], capacity);
      if Admits(before, rows[n], capacity) {
        AdmitOne(before, rows[n], capacity);
        NotYet(before, rows[n], capacity);
        JobAdded(Started(b, rows[..n], capacity), before, rows[n].id, rows[n].state);
      } else {
        assert Started(b, rows, capacity) == Started(b, rows[..n], capacity);
      }
    }
  }

  lemma EndedWithin(active: Jobs, id: string, capacity: nat)
    requires Within(active, capacity)
    ensures Within(active - {id}, capacity)
  {
    PendingShrinks(active, id);
    Subset(active.Keys - {id}, active.Keys);
    assert (active - {id}).Keys == active.Keys - {id};
  }

  lemma HandledInOrder(b: Board, w: Wakeup, capacity: nat)
    requires capacity > 0 && InOrder(b, capacity)
    ensures InOrder(Handled(b, w, capacity), capacity)
  {
    hide OneJobEach, Within, AdmitAll, Started;
    match w
    case Listed(rows) => StartedEach(b, rows, capacity);
    case Joined(index) =>
      if index < |b.jobs| {
        EndedWithin(b.active, b.jobs[index], capacity);
        JobEnded(b.jobs, b.active, index);
      }
    case _ =>
  }

  /** Over every run: one job per active row, never too many, and never too many wakes. */
  lemma {:induction false} RunInOrder(b: Board, wakeups: seq<Wakeup>, capacity: nat)
    requires capacity > 0 && InOrder(b, capacity)
    ensures InOrder(HandledAll(b, wakeups, capacity), capacity)
  {
    hide InOrder, Handled;
    if wakeups != [] {
      RunInOrder(b, wakeups[..|wakeups| - 1], capacity);
      HandledInOrder(HandledAll(b, wakeups[..|wakeups| - 1], capacity), wakeups[|wakeups| - 1], capacity);
    }
  }

  /**
   At any point of a run, a listed row to clean up has a job after its listing,
   or the scheduler is full with a job in it that is not a wake.
   */
  lemma RunNotStarved(b: Board, wakeups: seq<Wakeup>, capacity: nat, n: nat, i: nat)
    requires capacity > 0 && InOrder(b, capacity) && n < |wakeups| && wakeups[n].Listed?
    requires i < |wakeups[n].rows| && wakeups[n].rows[i].state != PendingRow
    ensures
      var after := HandledAll(b, wakeups[..n + 1], capacity);
      || wakeups[n].rows[i].id in after.jobs
      || (&& |after.active| == capacity
          && exists id :: id in after.jobs && id in after.active && after.active[id] != PendingRow)
  {
    hide Within, AdmitAll, Started;
    var before, after := HandledAll(b, wakeups[..n], capacity), HandledAll(b, wakeups[..n + 1], capacity);
    assert wakeups[..n + 1][..n] == wakeups[..n];
    RunInOrder(b, wakeups[..n], capacity);
    RunInOrder(b, wakeups[..n + 1], capacity);
    CleanupNotStarved(before.active, wakeups[n].rows, capacity, i);
    if wakeups[n].rows[i].id !in after.active {
      var id :| id in after.active && after.active[id] != PendingRow;
      assert id in after.jobs;
    }
  }

  lemma RunServes(b: Board, wakeups: seq<Wakeup>, capacity: nat, limit: nat, n: nat)
    requires capacity == Max(limit, 2) && InOrder(b, capacity) && n < |wakeups| && wakeups[n].Listed?
    ensures Served(HandledAll(b, wakeups[..n + 1], capacity).active, wakeups[n].rows, limit)
  {
    hide Within, AdmitAll, Started, Served;
    assert wakeups[..n + 1][..n] == wakeups[..n];
    RunInOrder(b, wakeups[..n], capacity);
    AdmitServes(HandledAll(b, wakeups[..n], capacity).active, wakeups[n].rows, capacity, limit);
  }

  /** No state of the run exceeds the limit, and after each listing there is a job for every row there is room for. */
  ghost predicate WithinLimit(b: Board, wakeups: seq<Wakeup>, capacity: nat, limit: nat)
    requires capacity > 0
  {
    && (forall n :: 0 <= n <= |wakeups| ==> Bounded(HandledAll(b, wakeups[..n], capacity).active, limit))
    && (forall n :: 0 <= n < |wakeups| && wakeups[n].Listed? ==>
          Served(HandledAll(b, wakeups[..n + 1], capacity).active, wakeups[n].rows, limit))
  }

  lemma RunWithinLimit(b: Board, wakeups: seq<Wakeup>, capacity: nat, limit: nat)
    requires capacity == Max(limit, 2) && InOrder(b, capacity)
    ensures WithinLimit(b, wakeups, capacity, limit)
  {
    hide Served, Bounded, HandledAll;
    forall n | 0 <= n <= |wakeups| ensures Bounded(HandledAll(b, wakeups[..n], capacity).active, limit) {
      RunInOrder(b, wakeups[..n], capacity);
      WithinBounds(HandledAll(b, wakeups[..n], capacity).active, capacity, limit);
    }
    forall n | 0 <= n < |wakeups| && wakeups[n].Listed?
      ensures Served(HandledAll(b, wakeups[..n + 1], capacity).active, wakeups[n].rows, limit)
    {
      RunServes(b, wakeups, capacity, limit, n);
    }
  }

  lemma NothingHandled(b: Board, wakeups: seq<Wakeup>, capacity: nat, before: nat)
    requires capacity > 0
    ensures HandledAll(b, wakeups[..0], capacity) == b && Trailing(wakeups[..0], before) == before
  {
  }

  lemma OneHandled(b: Board, wakeups: seq<Wakeup>, capacity: nat, before: nat, n: nat)
    requires capacity > 0 && n < |wakeups|
    ensures HandledAll(b, wakeups[..n + 1], capacity) ==
      Handled(HandledAll(b, wakeups[..n], capacity), wakeups[n], capacity)
    ensures Trailing(wakeups[..n + 1], before) ==
      if wakeups[n].Listed? then 0
      else Trailing(wakeups[..n], before) + if wakeups[n] == ListingFailed then 1 else 0
  {
    assert wakeups[..n + 1][..n] == wakeups[..n];
  }

  /** A job starts only by a listing of its row, and ends only by its own end. */
  lemma RunStartsAndEnds(b: Board, wakeups: seq<Wakeup>, capacity: nat, n: nat, id: string)
    requires capacity > 0 && InOrder(b, capacity) && n < |wakeups|
    ensures
      var before, after := HandledAll(b, wakeups[..n], capacity), HandledAll(b, wakeups[..n + 1], capacity);
      && (id !in before.jobs && id in after.jobs ==>
            id in after.active && wakeups[n].Listed? && Candidate(id, after.active[id]) in wakeups[n].rows)
      && (id in before.jobs && id !in after.jobs <==>
            wakeups[n].Joined? && wakeups[n].index < |before.jobs| && before.jobs[wakeups[n].index] == id)
  {
    hide Within, AdmitAll, Started;
    var before := HandledAll(b, wakeups[..n], capacity);
    assert wakeups[..n + 1][..n] == wakeups[..n];
    RunInOrder(b, wakeups[..n], capacity);
    RunInOrder(b, wakeups[..n + 1], capacity);
    if wakeups[n].Listed? {
      AdmitKeeps(before.active, wakeups[n].rows, capacity);
    }
  }

  class JobScheduler {
    const concurrencyLimit: nat
    /** The rows with a running job and the state they were listed in. */
    var active: Jobs
    /** The running jobs, by row. */
    var jobs: seq<string>
    var scanFailures: nat

    function Capacity(): (c: nat)
      ensures c >= 2
    {
      Max(concurrencyLimit, 2)
    }

    ghost predicate Valid()
      reads this
    {
      OneJobEach(jobs, active) && Within(active, Capacity())
    }

    constructor (limit: nat)
      ensures Valid() && concurrencyLimit == limit && active == map[] && scanFailures == 0
    {
      concurrencyLimit := limit;
      active, jobs, scanFailures := map[], [], 0;
      new;
      assert PendingIds(active) == {};
    }

    /** Go through a listing, starting a job for each row there is room for. */
    method Scan(rows: seq<Candidate>)
      requires Valid()
      modifies this`active, this`jobs
      ensures Valid()
      ensures active == AdmitAll(old(active), rows, Capacity())
      ensures jobs == Started(Board(old(active), old(jobs)), rows, Capacity())
      ensures Served(active, rows, concurrencyLimit) && Bounded(active, concurrencyLimit)
    {
      hide Within, OneJobEach, Admits, PendingIds, Served, Bounded;
      assert rows[..0] == [];
      for k := 0 to |rows|
        invariant Valid()
        invariant active == AdmitAll(old(active), rows[..k], Capacity())
        invariant jobs == Started(Board(old(active), old(jobs)), rows[..k], Capacity())
      {
        var row := rows[k];
        assert rows[..k + 1][..k] == rows[..k];
        if Admits(active, row, Capacity()) {
          AdmitOne(active, row, Capacity());
          NotYet(active, row, Capacity());
          JobAdded(jobs, active, row.id, row.state);
          active := active[row.id := row.state];
          jobs := jobs + [row.id];
        }
      }
      assert rows[..|rows|] == rows;
      AdmitServes(old(active), rows, Capacity(), concurrencyLimit);
      WithinBounds(active, Capacity(), concurrencyLimit);
    }

    /** A job ends: its row may be scheduled again. */
    method Join(index: nat)
      requires Valid() && index < |jobs|
      modifies this`active, this`jobs
      ensures Valid()
      ensures active == old(active) - {old(jobs)[index]}
      ensures jobs == old(jobs)[..index] + old(jobs)[index + 1..]
    {
      hide OneJobEach, PendingIds, Within;
      var id := jobs[index];
      EndedWithin(active, id, Capacity());
      JobEnded(jobs, active, index);
      active := active - {id};
      jobs := jobs[..index] + jobs[index + 1..];
    }

    /**
     The scheduling loop, for every sequence of wakeups: rows and jobs are what
     handling the `used` wakeups in turn makes of them, and each state it passes
     through is valid. After each listing every listed row has a job or there
     was no room for it under the limit, which no state exceeds. It ends on
     shutdown, on a crashed job or failed sweep, or once five listings failed
     with none in between that did not.
     */
    method RunUntilShutdown(wakeups: seq<Wakeup>) returns (failed: bool, used: nat)
      requires Valid() && scanFailures < MAX_SCAN_FAILURES
      modifies this
      ensures Valid() && used <= |wakeups|
      ensures Board(active, jobs) == HandledAll(Board(old(active), old(jobs)), wakeups[..used], Capacity())
      ensures WithinLimit(Board(old(active), old(jobs)), wakeups, Capacity(), concurrencyLimit)
      ensures scanFailures == Trailing(wakeups[..used], old(scanFailures))
      ensures failed ==>
        && used > 0
        && (|| wakeups[used - 1] in {Crashed, SweepFailed}
            || (wakeups[used - 1] == ListingFailed && scanFailures == MAX_SCAN_FAILURES))
      ensures !failed && used < |wakeups| ==> wakeups[used] == Shutdown
      ensures !failed ==> scanFailures < MAX_SCAN_FAILURES
    {
      hide OneJobEach, Within, AdmitAll, Started, WithinLimit, Served, Bounded, HandledAll, Trailing;
      RunWithinLimit(Board(active, jobs), wakeups, Capacity(), concurrencyLimit);
      NothingHandled(Board(active, jobs), wakeups, Capacity(), scanFailures);
      failed, used := false, 0;
      while used < |wakeups|
        invariant Valid() && used <= |wakeups| && scanFailures < MAX_SCAN_FAILURES && !failed
        invariant scanFailures == Trailing(wakeups[..used], old(scanFailures))
        invariant Board(active, jobs) == HandledAll(Board(old(active), old(jobs)), wakeups[..used], Capacity())
      {
        OneHandled(Board(old(active), old(jobs)), wakeups, Capacity(), old(scanFailures), used);
        match wakeups[used] {
          case Shutdown => return;
          case Crashed =>
            failed, used := true, used + 1;
            return;
          case SweepFailed =>
            failed, used := true, used + 1;
            return;
          case Joined(index) =>
            if index < |jobs| {
              Join(index);
            }
          case Listed(rows) =>
            scanFailures := 0;
            Scan(rows);
          case ListingFailed =>
            scanFailures := scanFailures + 1;
            if scanFailures >= MAX_SCAN_FAILURES {
              failed, used := true, used + 1;
              return;
            }
        }
        used := used + 1;
      }
    }
  }
}
