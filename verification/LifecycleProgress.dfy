/** Nothing is ever stuck: from wherever an orderly run leads, the instance can be brought up, put down and deleted. */
module LifecycleProgress {
  import opened Prelude
  import opened Lifecycle
  import opened LifecycleLaws
  import opened LifecycleFence
  import opened LifecycleRuns

  // ---- every state has the row it needs ----------------------------------

  ghost predicate HasRow(s: Store, state: RowState, stamp: int) {
    exists t :: t in s.rows && s.rows[t].state == state && s.rows[t].stamp == stamp
  }

  /** Only work of teardown is left, if any. */
  ghost predicate OnlyCleanup(s: Store) { forall t :: t in s.rows ==> s.rows[t].state in {DeletingRow, DeletedRow} }

  /** A wake has its Pending row, a running instance its Ready one, a drain its Deleting one; the rest have none. */
  ghost predicate Attended(s: Store) {
    s.instance.Some? ==>
      var g := s.instance.value.generation;
      match s.instance.value.state
      case Waking => HasRow(s, PendingRow, g)
      case Running => HasRow(s, ReadyRow, g)
      case Draining => HasRow(s, DeletingRow, g - 1)
      case Cold => AllDeleted(s)
      case Failed => OnlyCleanup(s)
      case Deleting => OnlyCleanup(s)
      case Deleted => false
  }

  /** The row is that of the instance's own wake, running generation or drain. */
  ghost predicate Current(s: Store, row: Row) {
    || (row.state == PendingRow && s.instance == Some(Instance(Waking, row.stamp)))
    || (row.state == ReadyRow && s.instance == Some(Instance(Running, row.stamp)))
    || (row.state == DeletingRow && s.instance == Some(Instance(Draining, row.stamp + 1)))
  }

  /** No bare compare-and-swap, and nobody marks the row deleted that the instance still needs. */
  ghost predicate Orderly(s: Store, op: Op) {
    && !op.OpCompareAndSwap?
    && ((op.OpDeleteRow? || op.OpForceDelete?) && op.target in s.rows && Current(s, s.rows[op.target]) ==>
          Perform(s, op).Err?)
  }

  ghost predicate OrderlyRun(s: Store, ops: seq<Op>)
    decreases |ops|
  {
    ops != [] ==> OrderlyRun(s, ops[..|ops| - 1]) && Orderly(Run(s, ops[..|ops| - 1]), ops[|ops| - 1])
  }

  /** A row that keeps its state and stamp, or is no longer of use, leaves the others where they are. */
  lemma RowsKept(s: Store, s': Store)
    requires Attended(s) && s'.instance == s.instance && s'.rows.Keys == s.rows.Keys
    requires forall t :: t in s.rows ==> s'.rows[t].state == s.rows[t].state && s'.rows[t].stamp == s.rows[t].stamp
    ensures Attended(s')
  {
    if s.instance.Some? && s.instance.value.state in {Waking, Running, Draining} {
      var t := NeededRow(s);
      assert t in s'.rows;
    }
  }

  lemma LeaseOpAttended(s: Store, op: Op)
    requires Attended(s)
    requires op.OpClaim? || op.OpExpireLease? || op.OpRenewLease? || op.OpReleaseLease? || op.OpBeginEffect?
      || op.OpAckEffect?
    ensures Attended(Step(s, op))
  {
    hide Attended;
    RowsKept(s, Step(s, op));
  }

  lemma CycleOpAttended(s: Store, op: Op)
    requires Inv(s) && Fenced(s) && Attended(s)
    requires op.OpCreate? || op.OpAcceptWake? || op.OpBeginSleep? || op.OpCompleteWake?
    ensures Attended(Step(s, op))
  {
    hide Inv, Fenced;
    if s.instance.None? {
      NoRowsYet(s);
    }
    if (op.OpBeginSleep? || op.OpCompleteWake? || op.OpAcceptWake?) && Step(s, op).instance != s.instance {
      assert op.target in Step(s, op).rows;
    }
  }

  lemma FinalizeAttended(s: Store, op: Op)
    requires Inv(s) && Fenced(s) && Attended(s) && op.OpFinalizeSleep?
    ensures Attended(Step(s, op))
  {
    hide Inv, Fenced, Attended;
    if Step(s, op) != s {
      OnlyActive(s, op.target);
      Finalized(s, op);
    }
  }

  lemma Finalized(s: Store, op: Op)
    requires op.OpFinalizeSleep? && Step(s, op) != s
    requires op.target in s.rows && forall t :: t in s.rows && t != op.target ==> s.rows[t].state == DeletedRow
    ensures Attended(Step(s, op))
  {
    var z := Step(s, op);
    if s.deferred.Some? {
      assert s.deferred.value.target in z.rows;
    }
  }

  lemma DeletionOpAttended(s: Store, op: Op)
    requires Attended(s) && (op.OpRequestDeletion? || op.OpFinalizeDeletion?)
    ensures Attended(Step(s, op))
  {
  }

  lemma RowOpAttended(s: Store, op: Op)
    requires Fenced(s) && Attended(s) && Orderly(s, op) && PendingCurrent(s)
    requires op.OpDeleteRow? || op.OpRecordFailure? || op.OpForceDelete?
    ensures Attended(Step(s, op))
  {
    hide Fenced, Attended, Step, Orderly, PendingCurrent;
    if op.OpForceDelete? {
      OverrideAttended(s, op);
    } else if Step(s, op) != s {
      HeldRow(s, op);
      OnlyActive(s, op.target);
      if op.OpDeleteRow? {
        DeleteAttended(s, op);
      } else {
        FailureAttended(s, op);
      }
    }
  }

  /** Only a row that is held can be deleted or fail, and only work is held. */
  lemma HeldRow(s: Store, op: Op)
    requires Fenced(s) && (op.OpDeleteRow? || op.OpRecordFailure?) && Step(s, op) != s
    ensures op.target in s.rows && s.rows[op.target].state in {PendingRow, DeletingRow} && s.rows[op.target].lease.Some?
  {
    if op.target in s.rows {
      assert Settled(s, s.rows[op.target]);
    }
  }

  lemma OverrideAttended(s: Store, op: Op)
    requires Attended(s) && Orderly(s, op) && op.OpForceDelete?
    ensures Attended(Step(s, op))
  {
    var z := Step(s, op);
    if s.instance.Some? && s.instance.value.state in {Waking, Running, Draining} {
      var t := NeededRow(s);
      assert t in z.rows && z.rows[t] == s.rows[t];
    }
  }

  lemma DeleteAttended(s: Store, op: Op)
    requires Attended(s) && Orderly(s, op) && op.OpDeleteRow? && op.target in s.rows && Step(s, op) != s
    requires s.rows[op.target].state in {PendingRow, DeletingRow}
    requires forall t :: t in s.rows && t != op.target ==> s.rows[t].state == DeletedRow
    ensures Attended(Step(s, op))
  {
    if s.instance.Some? && s.instance.value.state in {Waking, Running, Draining} {
      var t := NeededRow(s);
    }
  }

  lemma FailureAttended(s: Store, op: Op)
    requires Attended(s) && PendingCurrent(s) && op.OpRecordFailure? && op.target in s.rows && Step(s, op) != s
    requires s.rows[op.target].state in {PendingRow, DeletingRow}
    requires forall t :: t in s.rows && t != op.target ==> s.rows[t].state == DeletedRow
    ensures Attended(Step(s, op))
  {
    var z := Step(s, op);
    if s.instance.Some? && s.instance.value.state in {Waking, Running, Draining} {
      var t := NeededRow(s);
      assert t in z.rows;
    }
  }

  /** The row a wake, a running instance or a drain needs. */
  lemma NeededRow(s: Store) returns (t: string)
    requires Attended(s) && s.instance.Some? && s.instance.value.state in {Waking, Running, Draining}
    ensures t in s.rows
    ensures
      var g := s.instance.value.generation;
      match s.instance.value.state
      case Waking => s.rows[t].state == PendingRow && s.rows[t].stamp == g
      case Running => s.rows[t].state == ReadyRow && s.rows[t].stamp == g
      case _ => s.rows[t].state == DeletingRow && s.rows[t].stamp == g - 1
  {
    var g := s.instance.value.generation;
    match s.instance.value.state {
      case Waking => t :| t in s.rows && s.rows[t].state == PendingRow && s.rows[t].stamp == g;
      case Running => t :| t in s.rows && s.rows[t].state == ReadyRow && s.rows[t].stamp == g;
      case Draining => t :| t in s.rows && s.rows[t].state == DeletingRow && s.rows[t].stamp == g - 1;
    }
  }

  ghost predicate Sane(s: Store) { Inv(s) && Fenced(s) && Undisturbed(s) && Attended(s) }

  lemma StepSane(s: Store, op: Op)
    requires Sane(s) && Orderly(s, op)
    ensures Sane(Step(s, op))
  {
    hide Inv, Fenced, Undisturbed, Attended, Step, Orderly;
    StepKeeps(s, op);
    StepFenced(s, op);
    OrderlyIsQuiet(s, op);
    StepUndisturbed(s, op);
    PendingIsCurrent(s);
    if op.OpDeleteRow? || op.OpRecordFailure? || op.OpForceDelete? {
      RowOpAttended(s, op);
    } else if op.OpRequestDeletion? || op.OpFinalizeDeletion? {
      DeletionOpAttended(s, op);
    } else if op.OpFinalizeSleep? {
      FinalizeAttended(s, op);
    } else if op.OpCreate? || op.OpAcceptWake? || op.OpBeginSleep? || op.OpCompleteWake? {
      CycleOpAttended(s, op);
    } else {
      LeaseOpAttended(s, op);
    }
  }

  lemma OrderlyIsQuiet(s: Store, op: Op)
    requires Orderly(s, op)
    ensures !Disturbs(s, op) && !op.OpCompareAndSwap?
  {
  }

  /** A step leaves the instance without the row it needs exactly if it marks that row deleted. */
  lemma OrderlyExactly(s: Store, op: Op)
    requires Sane(s) && !op.OpCompareAndSwap?
    ensures Attended(Step(s, op)) <==> Orderly(s, op)
  {
    hide Inv, Undisturbed;
    if Orderly(s, op) {
      StepSane(s, op);
    } else {
      hide Fenced;
      OnlyActive(s, op.target);
    }
  }

  lemma PendingIsCurrent(s: Store)
    requires Undisturbed(s)
    ensures PendingCurrent(s)
  {
  }

  lemma {:induction false} RunSane(ops: seq<Op>)
    requires OrderlyRun(NewStore(), ops)
    ensures Sane(Run(NewStore(), ops))
    decreases |ops|
  {
    hide Step, Orderly, Sane;
    if ops == [] {
      RunUndisturbed([]);
      NewIsAttended();
    } else {
      RunSane(ops[..|ops| - 1]);
      StepSane(Run(NewStore(), ops[..|ops| - 1]), ops[|ops| - 1]);
    }
  }

  lemma NewIsAttended()
    requires Inv(NewStore()) && Fenced(NewStore()) && Undisturbed(NewStore())
    ensures Sane(NewStore())
  {
  }

  // ---- one phase after the other -----------------------------------------

  /** An orderly run leads from one store to the other. */
  ghost predicate Reaches(s: Store, s': Store) { exists ops :: OrderlyRun(s, ops) && s' == Run(s, ops) }

  lemma ReachesHere(s: Store)
    ensures Reaches(s, s)
  {
    assert OrderlyRun(s, []) && s == Run(s, []);
  }

  /** One more orderly step. */
  lemma Onwards(s: Store, y: Store, op: Op)
    requires Reaches(s, y) && Sane(y) && Orderly(y, op)
    ensures Reaches(s, Step(y, op)) && Sane(Step(y, op))
  {
    hide Sane, Orderly, Step;
    var ops :| OrderlyRun(s, ops) && y == Run(s, ops);
    assert (ops + [op])[..|ops|] == ops;
    assert OrderlyRun(s, ops + [op]) && Step(y, op) == Run(s, ops + [op]);
    StepSane(y, op);
  }

  lemma Settles(s: Store, y: Store, t: string) returns (z: Store)
    requires Reaches(s, y) && Sane(y) && t in y.rows
    ensures Reaches(s, z) && Sane(z) && z == y.(rows := y.rows[t := y.rows[t].(effect := None)])
  {
    hide Reaches, Sane;
    var row := y.rows[t];
    if row.effect.Some? {
      var op := OpAckEffect(t, row.effect.value.claim, row.effect.value.id);
      Onwards(s, y, op);
      z := Step(y, op);
    } else {
      z := y;
      assert y.rows[t := row] == y.rows;
    }
  }

  lemma LetsGo(s: Store, y: Store, t: string) returns (z: Store)
    requires Reaches(s, y) && Sane(y) && t in y.rows
    ensures Reaches(s, z) && Sane(z) && t in z.rows
    ensures z == y.(rows := y.rows[t := z.rows[t]])
    ensures z.rows[t] == y.rows[t].(lease := z.rows[t].lease)
    ensures z.rows[t].lease.Some? ==> !z.rows[t].lease.value.live
  {
    hide Reaches, Sane;
    if y.rows[t].lease.Some? {
      Onwards(s, y, OpExpireLease(t));
      z := Step(y, OpExpireLease(t));
    } else {
      z := y;
      assert y.rows[t := y.rows[t]] == y.rows;
    }
  }

  /** Whatever holds a row that needs work, a driver can come to hold it. */
  lemma TakesOver(s: Store, y: Store, t: string) returns (z: Store)
    requires Reaches(s, y) && Sane(y) && t in y.rows && y.rows[t].state in {PendingRow, DeletingRow}
    ensures Reaches(s, z) && Sane(z) && z.instance == y.instance && z.deferred == y.deferred
    ensures
      var attempt := y.rows[t].attempts + 1;
      z.rows == y.rows[t := y.rows[t].(
        attempts := attempt, lease := Some(Lease("driver", attempt, true)), effect := None)]
  {
    hide Reaches, Sane;
    var a := Settles(s, y, t);
    var b := LetsGo(s, a, t);
    var op := OpClaim(t, "driver", true);
    Onwards(s, b, op);
    z := Step(b, op);
    assert z.rows == y.rows[t := z.rows[t]];
  }

  lemma WakeCompletes(s: Store, y: Store) returns (z: Store)
    requires Reaches(s, y) && Sane(y) && y.instance.Some? && y.instance.value.state == Waking
    ensures Reaches(s, z) && Sane(z) && z.instance == Some(Instance(Running, y.instance.value.generation + 1))
    ensures forall t :: t in y.rows && y.rows[t].state == PendingRow ==> t in z.rows && z.rows[t].state == ReadyRow
  {
    hide Reaches, Attended, Inv, Fenced, Undisturbed;
    var t := NeededRow(y);
    OnlyActive(y, t);
    var a := TakesOver(s, y, t);
    var op := OpCompleteWake(t, Claim("driver", a.rows[t].attempts, a.rows[t].stamp));
    Onwards(s, a, op);
    z := Step(a, op);
  }

  lemma SleepBegins(s: Store, y: Store) returns (z: Store)
    requires Reaches(s, y) && Sane(y) && y.instance.Some? && y.instance.value.state == Running
    ensures Reaches(s, z) && Sane(z) && z.instance == Some(Instance(Draining, y.instance.value.generation + 1))
    ensures z.deferred.None?
  {
    hide Reaches, Attended, Inv, Fenced, RowsTell, PendingCurrent;
    var t := NeededRow(y);
    var op := OpBeginSleep(y.instance.value.generation, t, true);
    Onwards(s, y, op);
    z := Step(y, op);
  }

  /** A drain ends Cold, or in the wake that waited for it. */
  lemma DrainEnds(s: Store, y: Store) returns (z: Store)
    requires Reaches(s, y) && Sane(y) && y.instance.Some? && y.instance.value.state == Draining
    ensures Reaches(s, z) && Sane(z)
    ensures
      var g := y.instance.value.generation;
      z.instance == if y.deferred.None? then Some(Instance(Cold, g + 1)) else Some(Instance(Waking, g + 2))
  {
    hide Reaches, Attended, Inv, Fenced, RowsTell, PendingCurrent;
    var t := NeededRow(y);
    var g := y.instance.value.generation;
    var a := TakesOver(s, y, t);
    var claim := Claim("driver", a.rows[t].attempts, a.rows[t].stamp);
    Onwards(s, a, OpFinalizeSleep(t, claim, g));
    z := Step(a, OpFinalizeSleep(t, claim, g));
    DrainHandsOver(a, t, claim, g);
  }

  /** Teardown work, of which there is at most one row, can be finished. */
  lemma CleansUp(s: Store, y: Store) returns (z: Store)
    requires Reaches(s, y) && Sane(y) && y.instance.Some? && y.instance.value.state in {Failed, Deleting}
    ensures Reaches(s, z) && Sane(z) && z.instance == y.instance && AllDeleted(z)
  {
    hide Reaches, Inv, Fenced, Undisturbed, HasRow;
    if t :| t in y.rows && y.rows[t].state != DeletedRow {
      OnlyActive(y, t);
      var a := TakesOver(s, y, t);
      var op := OpDeleteRow(t, Claim("driver", a.rows[t].attempts, a.rows[t].stamp), DeletingRow);
      Onwards(s, a, op);
      z := Step(a, op);
    } else {
      z := y;
    }
  }

  lemma WakeBegins(s: Store, y: Store, t: string) returns (z: Store)
    requires Reaches(s, y) && Sane(y) && y.instance.Some? && y.instance.value.state in {Cold, Failed} && AllDeleted(y)
    ensures Reaches(s, z) && Sane(z) && z.instance == Some(Instance(Waking, y.instance.value.generation + 1))
    ensures t in z.rows && z.rows[t].state == PendingRow
  {
    hide Reaches, Sane, AllDeleted;
    var g := y.instance.value.generation;
    var op := OpAcceptWake(g, t, g + 1, g + 2);
    Onwards(s, y, op);
    z := Step(y, op);
  }

  lemma Vanishes(s: Store, y: Store) returns (z: Store)
    requires Reaches(s, y) && Sane(y)
    ensures Reaches(s, z) && Sane(z) && z.instance.None?
  {
    hide Reaches, Sane, AllDeleted, Step;
    z := y;
    if z.instance.Some? {
      var op := OpRequestDeletion(z.instance.value.generation);
      Onwards(s, z, op);
      DeletionBegins(z);
      z := Step(z, op);
      z := CleansUp(s, z);
      Onwards(s, z, OpFinalizeDeletion);
      DeletionEnds(z);
      z := Step(z, OpFinalizeDeletion);
    }
  }

  lemma DeletionBegins(y: Store)
    requires y.instance.Some?
    ensures
      var z := Step(y, OpRequestDeletion(y.instance.value.generation));
      z.instance.Some? && z.instance.value.state == Deleting
  {
  }

  lemma DeletionEnds(y: Store)
    requires y.instance.Some? && y.instance.value.state == Deleting && AllDeleted(y)
    ensures Step(y, OpFinalizeDeletion).instance.None?
  {
    hide AllDeleted;
  }

  lemma CreatedCold(y: Store)
    requires y.instance.None?
    ensures Step(y, OpCreate).instance.Some? && Step(y, OpCreate).instance.value.state == Cold
  {
  }

  lemma ComesToRest(s: Store, y: Store) returns (z: Store)
    requires Reaches(s, y) && Sane(y)
    ensures Reaches(s, z) && Sane(z) && z.instance.Some? && z.instance.value.state == Cold && AllDeleted(z)
  {
    hide Reaches, Inv, Fenced, Undisturbed, AllDeleted, Step;
    z := y;
    if z.instance.Some? && z.instance.value.state == Failed {
      z := CleansUp(s, z);
      z := WakeBegins(s, z, "");
    }
    if z.instance.Some? && z.instance.value.state == Draining {
      z := DrainEnds(s, z);
    }
    if z.instance.Some? && z.instance.value.state == Waking {
      z := WakeCompletes(s, z);
    }
    if z.instance.Some? && z.instance.value.state == Running {
      z := SleepBegins(s, z);
      z := DrainEnds(s, z);
    }
    if z.instance.None? || z.instance.value.state == Deleting {
      z := Vanishes(s, z);
      Onwards(s, z, OpCreate);
      CreatedCold(z);
      z := Step(z, OpCreate);
    }
  }

  /**
   Wherever an orderly run has led, orderly runs lead on: to a running instance
   on any target, to one asleep, and to none at all.
   */
  lemma NeverStuck(ops: seq<Op>, t: string)
    requires OrderlyRun(NewStore(), ops)
    ensures
      var s := Run(NewStore(), ops);
      && (exists z :: Reaches(s, z) && z.instance.Some? && z.instance.value.state == Running && t in z.rows
            && z.rows[t].state == ReadyRow)
      && (exists z :: Reaches(s, z) && z.instance.Some? && z.instance.value.state == Cold && AllDeleted(z))
      && (exists z :: Reaches(s, z) && z.instance.None?)
  {
    hide Reaches, Sane, AllDeleted;
    var s := Run(NewStore(), ops);
    RunSane(ops);
    ReachesHere(s);
    var asleep := ComesToRest(s, s);
    var woken := WakeBegins(s, asleep, t);
    var running := WakeCompletes(s, woken);
    var gone := Vanishes(s, s);
    assert Reaches(s, asleep) && Reaches(s, running) && Reaches(s, gone);
  }

  /**
   Once the row an instance needs is marked deleted, nothing but a deletion or
   a bare compare-and-swap ever moves the instance: no run of anything else does.
   */
  lemma {:induction false} CutStrands(s: Store, cut: Op, ops: seq<Op>)
    requires Sane(s) && !cut.OpCompareAndSwap? && !Orderly(s, cut)
    requires forall i :: 0 <= i < |ops| ==> !ops[i].OpRequestDeletion? && !ops[i].OpCompareAndSwap?
    ensures Run(Step(s, cut), ops).instance == s.instance && Stranded(Run(Step(s, cut), ops))
    decreases |ops|
  {
    hide Inv, Undisturbed, Stranded, Step;
    if ops == [] {
      CutAway(s, cut);
    } else {
      CutStrands(s, cut, ops[..|ops| - 1]);
      StaysStranded(Run(Step(s, cut), ops[..|ops| - 1]), ops[|ops| - 1]);
    }
  }

  /** A wake, a running instance or a drain without any work left. */
  ghost predicate Stranded(s: Store) {
    s.instance.Some? && s.instance.value.state in {Waking, Running, Draining} && AllDeleted(s)
  }

  lemma CutAway(s: Store, cut: Op)
    requires Fenced(s) && !cut.OpCompareAndSwap? && !Orderly(s, cut)
    ensures Step(s, cut).instance == s.instance && Stranded(Step(s, cut))
  {
    hide Fenced;
    OnlyActive(s, cut.target);
  }

  lemma StaysStranded(s: Store, op: Op)
    requires Stranded(s) && !op.OpRequestDeletion? && !op.OpCompareAndSwap?
    ensures Step(s, op).instance == s.instance && Stranded(Step(s, op))
  {
  }
}
