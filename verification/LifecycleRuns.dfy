/** What generations tell a late or retried actor, over whole runs. */
module LifecycleRuns {
  import opened Prelude
  import opened Lifecycle
  import opened LifecycleLaws
  import opened LifecycleFence

  /** A run may go on. */
  lemma {:induction false} RunGrows(s: Store, ops: seq<Op>)
    requires Inv(s)
    ensures Inv(Run(s, ops)) && Grows(s, Run(s, ops))
    decreases |ops|
  {
    hide Inv, Grows, Step;
    SameGrows(s);
    if ops != [] {
      var n := |ops| - 1;
      RunGrows(s, ops[..n]);
      StepKeeps(Run(s, ops[..n]), ops[n]);
      GrowsTransitive(s, Run(s, ops[..n]), Run(s, ops));
    }
  }

  /**
   Generations order records: a later record has a later generation, or is the
   same record, even across deletion and re-creation.
   */
  lemma GenerationsOrderRecords(s: Store, ops: seq<Op>)
    requires Inv(s) && s.instance.Some? && Run(s, ops).instance.Some?
    ensures
      var before, after := s.instance.value, Run(s, ops).instance.value;
      before.generation < after.generation || before == after
  {
    hide Inv, Run;
    RunGrows(s, ops);
    InstanceKnown(s);
    InstanceKnown(Run(s, ops));
  }

  /** Any step that changes the record gives it a generation never used before. */
  lemma ChangeIsNew(s: Store, op: Op)
    requires Inv(s) && Step(s, op).instance.Some? && Step(s, op).instance != s.instance
    ensures forall g :: g in s.past ==> g < Step(s, op).instance.value.generation
  {
    hide Step;
    StepKeeps(s, op);
    var after := Step(s, op).instance.value;
    InstanceKnown(Step(s, op));
    if s.instance.Some? && s.instance.value.generation == after.generation {
      InstanceKnown(s);
    }
    if s.instance.None? && s.watermark.Some? && s.watermark.value == after.generation {
      RevivalIsLater(s, op);
    }
  }

  /** Only creation brings a deleted instance back, one past the watermark. */
  lemma RevivalIsLater(s: Store, op: Op)
    requires s.instance.None? && s.watermark.Some? && Step(s, op).instance.Some?
    ensures Step(s, op).instance.value.generation == s.watermark.value + 1
  {
  }

  // ---- generation and state fix the recent past --------------------------

  /** What each state can have come from, one generation before. */
  lemma OnlyFrom(past: map<nat, Stage>, g: nat)
    requires g in past && Rooted(past, g)
    ensures past[g].state == Draining ==> g > 0 && g - 1 in past && past[g - 1].state == Running
    ensures past[g].state == Running ==> g > 0 && g - 1 in past && past[g - 1].state == Waking
    ensures past[g].state == Cold && !past[g].created ==> g > 0 && g - 1 in past && past[g - 1].state == Draining
    ensures past[g].state == Waking ==> g > 0 && g - 1 in past && past[g - 1].state in {Cold, Failed, Draining}
    ensures past[g].state == Failed ==> g > 0 && g - 1 in past && past[g - 1].state == Waking
    ensures past[g].state == Deleting ==> g > 0 && g - 1 in past && past[g - 1].state != Deleting
    ensures past[g].state == Deleted ==> g > 0 && g - 1 in past && past[g - 1].state == Deleting
  {
  }

  /** The instance slept at generation `e`: it was Running then and Draining next. */
  ghost predicate Slept(s: Store, e: nat) { WasAt(s, e, Running) && WasAt(s, e + 1, Draining) }

  lemma DrainingCameFromRunning(s: Store, g: nat)
    requires Inv(s) && WasAt(s, g, Draining)
    ensures g > 0 && Slept(s, g - 1)
  {
    OnlyFrom(s.past, g);
  }

  /** A Cold record that is not a creation ends the drain of the generation two before it. */
  lemma ColdCameFromDrain(s: Store, g: nat)
    requires Inv(s) && WasAt(s, g, Cold)
    ensures !s.past[g].created <==> g >= 2 && Slept(s, g - 2)
  {
    if !s.past[g].created {
      OnlyFrom(s.past, g);
      DrainingCameFromRunning(s, g - 1);
    }
  }

  // ---- idle reports answered by generation alone -------------------------

  datatype IdleAnswer = AlreadyDraining | Accepted | Conflict

  function MismatchAnswer(expected: nat, current: Instance): IdleAnswer {
    if current.generation == expected + 1 && current.state == Draining then AlreadyDraining
    else if current.generation == expected + 2 && current.state == Cold then Accepted
    else Conflict
  }

  /**
   A retried report for generation `e` is told "already draining" exactly when
   that sleep is the current drain, and "accepted" truthfully exactly when the
   Cold record is not a creation. While rows tell creations apart, that is
   exactly when the instance has a row.
   */
  lemma MismatchAnswerHonest(s: Store, e: nat)
    requires Inv(s) && s.instance.Some?
    ensures
      var current := s.instance.value;
      var answer := MismatchAnswer(e, current);
      && (answer == AlreadyDraining <==> current.generation == e + 1 && Slept(s, e))
      && (answer == Accepted ==> e + 2 in s.past && (Slept(s, e) <==> !s.past[e + 2].created))
      && (answer == Accepted && RowsTell(s) ==> (Slept(s, e) <==> s.rows != map[]))
  {
    hide Inv;
    InstanceKnown(s);
    var current := s.instance.value;
    if WasAt(s, e + 1, Draining) {
      DrainingCameFromRunning(s, e + 1);
    }
    if MismatchAnswer(e, current) == Accepted {
      ColdCameFromDrain(s, e + 2);
      CreatedIsBorn(s);
    }
  }

  /** Only a creation has no row: a caller can tell one by looking for any. */
  ghost predicate RowsTell(s: Store) {
    s.instance.Some? && s.instance.value.state != Deleting ==>
      (s.rows == map[] <==> s.instance.value.generation == s.born)
  }

  lemma CreatedIsBorn(s: Store)
    requires Inv(s) && s.instance.Some?
    ensures s.instance.value.generation in s.past
    ensures s.past[s.instance.value.generation].created <==> s.instance.value.generation == s.born
  {
    hide AllRooted;
  }

  /** Delete a running instance and its row, then create it again. */
  function Recreation(e: nat, target: string, row: Row): seq<Op> {
    var claim := Claim("driver", row.attempts + 1, row.stamp);
    [OpRequestDeletion(e), OpClaim(target, "driver", true), OpDeleteRow(target, claim, DeletingRow), OpFinalizeDeletion,
      OpCreate]
  }

  lemma RunSnoc(s: Store, ops: seq<Op>, op: Op)
    ensures Run(s, ops + [op]) == Step(Run(s, ops), op)
  {
    assert (ops + [op])[..|ops|] == ops;
  }

  lemma RunFive(s: Store, a: Op, b: Op, c: Op, d: Op, e: Op)
    ensures Run(s, [a, b, c, d, e]) == Step(Step(Step(Step(Step(s, a), b), c), d), e)
  {
    hide Step;
    assert [a, b, c, d] + [e] == [a, b, c, d, e];
    RunFour(s, a, b, c, d);
    RunSnoc(s, [a, b, c, d], e);
  }

  /**
   Deleting and re-creating any running instance makes a report for its
   generation look accepted, though it never slept.
   */
  lemma RecreationLooksAsleep(s: Store, target: string)
    requires Inv(s) && Fenced(s) && s.instance.Some? && s.instance.value.state == Running
    requires target in s.rows && s.rows[target].state == ReadyRow
    ensures
      var e := s.instance.value.generation;
      var after := Run(s, Recreation(e, target, s.rows[target]));
      && after.instance == Some(Instance(Cold, e + 2))
      && MismatchAnswer(e, after.instance.value) == Accepted
      && !Slept(after, e)
  {
    hide Inv, Fenced, Run, Step;
    var e, row := s.instance.value.generation, s.rows[target];
    var claim := Claim("driver", row.attempts + 1, row.stamp);
    InstanceKnown(s);
    OnlyActive(s, target);
    RunFive(s, OpRequestDeletion(e), OpClaim(target, "driver", true), OpDeleteRow(target, claim, DeletingRow),
      OpFinalizeDeletion, OpCreate);
    var doomed := Step(s, OpRequestDeletion(e));
    DoomedRow(s, target);
    var cleaned := Step(Step(doomed, OpClaim(target, "driver", true)), OpDeleteRow(target, claim, DeletingRow));
    CleanedRow(doomed, target, claim);
    var after := Run(s, Recreation(e, target, row));
    GoneAndBack(cleaned, e);
    RunGrows(s, Recreation(e, target, row));
    MismatchAnswerHonest(after, e);
  }

  /** Create an instance, wake it on a target, and complete that wake. */
  function FirstWake(target: string): seq<Op> {
    [OpCreate, OpAcceptWake(0, target, 1, 2), OpClaim(target, "driver", true),
      OpCompleteWake(target, Claim("driver", 1, 1))]
  }

  /** There are running instances, so there are runs after which the answer is false. */
  lemma RunningIsReached(target: string)
    ensures
      var s := Run(NewStore(), FirstWake(target));
      && Inv(s) && Fenced(s) && s.instance == Some(Instance(Running, 2))
      && target in s.rows && s.rows[target].state == ReadyRow
      && MismatchAnswer(2, Run(s, Recreation(2, target, s.rows[target])).instance.value) == Accepted
      && !Slept(Run(s, Recreation(2, target, s.rows[target])), 2)
  {
    hide Inv, Fenced, Slept, MismatchAnswer, Recreation;
    RunFenced(FirstWake(target));
    FirstWakeRuns(target);
    RecreationLooksAsleep(Run(NewStore(), FirstWake(target)), target);
  }

  lemma FirstWakeRuns(target: string)
    ensures
      var s := Run(NewStore(), FirstWake(target));
      s.instance == Some(Instance(Running, 2)) && target in s.rows && s.rows[target].state == ReadyRow
  {
    hide Run;
    var ops := FirstWake(target);
    RunFour(NewStore(), ops[0], ops[1], ops[2], ops[3]);
  }

  lemma RunFour(s: Store, a: Op, b: Op, c: Op, d: Op)
    ensures Run(s, [a, b, c, d]) == Step(Step(Step(Step(s, a), b), c), d)
  {
    hide Step;
    assert [] + [a] == [a] && [a] + [b] == [a, b] && [a, b] + [c] == [a, b, c] && [a, b, c] + [d] == [a, b, c, d];
    RunSnoc(s, [], a);
    RunSnoc(s, [a], b);
    RunSnoc(s, [a, b], c);
    RunSnoc(s, [a, b, c], d);
  }

  lemma DoomedRow(s: Store, target: string)
    requires s.instance.Some? && s.instance.value.state == Running && target in s.rows
      && s.rows[target].state == ReadyRow
    requires forall t :: t in s.rows && t != target ==> s.rows[t].state == DeletedRow
    ensures
      var e := s.instance.value.generation;
      var doomed := Step(s, OpRequestDeletion(e));
      && doomed.instance == Some(Instance(Deleting, e + 1)) && doomed.watermark == Some(e + 1)
      && target in doomed.rows && doomed.rows[target] == s.rows[target].(state := DeletingRow)
      && forall t :: t in doomed.rows && t != target ==> doomed.rows[t].state == DeletedRow
  {
  }

  lemma CleanedRow(s: Store, target: string, claim: Claim)
    requires target in s.rows && s.rows[target].state == DeletingRow && s.rows[target].lease.None?
      && s.rows[target].effect.None?
    requires claim == Claim("driver", s.rows[target].attempts + 1, s.rows[target].stamp)
    requires forall t :: t in s.rows && t != target ==> s.rows[t].state == DeletedRow
    ensures
      var cleaned := Step(Step(s, OpClaim(target, "driver", true)), OpDeleteRow(target, claim, DeletingRow));
      AllDeleted(cleaned) && cleaned.instance == s.instance && cleaned.watermark == s.watermark
  {
  }

  lemma GoneAndBack(s: Store, e: nat)
    requires AllDeleted(s) && s.instance == Some(Instance(Deleting, e + 1)) && s.watermark == Some(e + 1)
    ensures
      var after := Step(Step(s, OpFinalizeDeletion), OpCreate);
      after.instance == Some(Instance(Cold, e + 2)) && e + 2 in after.past && after.past[e + 2].created
  {
  }

  // ---- rows move only their own cycle ------------------------------------

  /** The operations a driver performs under a claim. */
  predicate UnderClaim(op: Op) {
    op.OpReleaseLease? || op.OpCompleteWake? || op.OpFinalizeSleep? || op.OpDeleteRow? || op.OpRecordFailure?
      || op.OpBeginEffect?
  }

  /** The row belongs to the wake or drain the instance is in. */
  ghost predicate OwnCycle(s: Store, row: Row) {
    || (row.state == PendingRow && s.instance == Some(Instance(Waking, row.stamp)) && row.projection == row.stamp + 1)
    || (row.state == DeletingRow && s.instance == Some(Instance(Draining, row.stamp + 1)) && Slept(s, row.stamp)
        && row.projection == row.stamp)
  }

  /** Whatever a driver does under a claim, it moves the instance only out of its row's own wake or drain. */
  lemma ClaimMovesOwnCycle(s: Store, op: Op)
    requires Inv(s) && UnderClaim(op) && Step(s, op).instance != s.instance
    ensures op.target in s.rows && OwnCycle(s, s.rows[op.target])
    ensures
      var row := s.rows[op.target];
      row.lease == Some(Lease(op.claim.owner, row.attempts, true)) && row.effect.None?
  {
    hide Inv, ActivateDeferred, Upsert;
    RowHolds(s, op.target);
    InstanceKnown(s);
    if s.instance.value.state == Draining {
      DrainingCameFromRunning(s, s.instance.value.generation);
    }
  }

  /**
   Any step, bare compare-and-swap aside, by which an instance leaves its drain
   other than into deletion is the finalization under the newest claim of the
   row stamped for exactly that drain.
   */
  lemma FinalizesOwnDrain(s: Store, op: Op)
    requires Inv(s) && s.instance.Some? && s.instance.value.state == Draining && !op.OpCompareAndSwap?
    requires Step(s, op).instance.Some? && Step(s, op).instance.value.state !in {Draining, Deleting}
    ensures op.OpFinalizeSleep? && op.target in s.rows && OwnCycle(s, s.rows[op.target])
    ensures
      var row := s.rows[op.target];
      && row.state == DeletingRow && row.stamp + 1 == s.instance.value.generation
      && op.claim.attempt == row.attempts && row.effect.None?
  {
    hide Inv, Upsert;
    if !op.OpFinalizeSleep? {
      DrainStays(s, op);
    }
    ClaimMovesOwnCycle(s, op);
    RowHolds(s, op.target);
  }

  lemma DrainStays(s: Store, op: Op)
    requires s.instance.Some? && s.instance.value.state == Draining && !op.OpCompareAndSwap? && !op.OpFinalizeSleep?
    ensures Step(s, op).instance == s.instance
         || (Step(s, op).instance.Some? && Step(s, op).instance.value.state == Deleting)
  {
    hide Upsert, AllDeleted;
  }

  /** The same for a wake: only the completion under its own row makes it Running. */
  lemma CompletesOwnWake(s: Store, op: Op)
    requires Inv(s) && s.instance.Some? && s.instance.value.state == Waking && !op.OpCompareAndSwap?
    requires Step(s, op).instance.Some? && Step(s, op).instance.value.state == Running
    ensures op.OpCompleteWake? && op.target in s.rows && OwnCycle(s, s.rows[op.target])
    ensures
      var row := s.rows[op.target];
      && row.state == PendingRow && row.stamp == s.instance.value.generation
      && op.claim == Claim(op.claim.owner, row.attempts, row.stamp)
      && Step(s, op).instance == Some(Instance(Running, row.stamp + 1))
      && Step(s, op).rows[op.target].state == ReadyRow && Step(s, op).rows[op.target].projection == row.stamp + 1
  {
    hide Inv, Step;
    WakeStays(s, op);
    ClaimMovesOwnCycle(s, op);
    CompletedWake(s, op);
    RowHolds(s, op.target);
  }

  lemma CompletedWake(s: Store, op: Op)
    requires op.OpCompleteWake? && Step(s, op) != s
    ensures op.target in s.rows && s.rows[op.target].state == PendingRow
      && s.rows[op.target].stamp == op.claim.generation
    ensures s.rows[op.target].lease.Some? && s.rows[op.target].lease.value.attempt == op.claim.attempt
    ensures Step(s, op).instance == Some(Instance(Running, op.claim.generation + 1))
    ensures op.target in Step(s, op).rows && Step(s, op).rows[op.target].state == ReadyRow
    ensures Step(s, op).rows[op.target].projection == s.rows[op.target].projection
  {
  }

  /** And only a terminal failure recorded under its own row, with no effect unresolved, makes it Failed. */
  lemma FailsOwnWake(s: Store, op: Op)
    requires Inv(s) && s.instance.Some? && s.instance.value.state == Waking && !op.OpCompareAndSwap?
    requires Step(s, op).instance.Some? && Step(s, op).instance.value.state == Failed
    ensures op.OpRecordFailure? && op.terminal && op.target in s.rows && OwnCycle(s, s.rows[op.target])
    ensures s.rows[op.target].stamp == s.instance.value.generation && s.rows[op.target].effect.None?
    ensures op.claim == Claim(op.claim.owner, s.rows[op.target].attempts, s.rows[op.target].stamp)
  {
    hide Inv, Step;
    WakeStays(s, op);
    ClaimMovesOwnCycle(s, op);
    FailedWake(s, op);
    RowHolds(s, op.target);
  }

  lemma FailedWake(s: Store, op: Op)
    requires op.OpRecordFailure? && s.instance.Some? && Step(s, op).instance != s.instance
    ensures op.terminal && op.target in s.rows && s.rows[op.target].stamp == op.claim.generation
    ensures s.rows[op.target].lease == Some(Lease(op.claim.owner, op.claim.attempt, true))
  {
  }

  /** Nothing else takes a waking instance anywhere but into deletion. */
  lemma WakeStays(s: Store, op: Op)
    requires s.instance.Some? && s.instance.value.state == Waking && !op.OpCompareAndSwap?
    ensures
      var after := Step(s, op).instance;
      || after == s.instance
      || (after.Some? && after.value.state == Deleting)
      || (after.Some? && after.value.state == Running && op.OpCompleteWake?)
      || (after.Some? && after.value.state == Failed && op.OpRecordFailure?)
  {
    hide Upsert, AllDeleted;
    UpsertLeaves();
  }

  /** Only the newest claim of a row, on the stamp it was issued for, can do anything. */
  lemma OnlyNewestClaimActs(s: Store, op: Op)
    requires Inv(s) && UnderClaim(op) && Step(s, op) != s
    ensures op.target in s.rows
    ensures
      var row := s.rows[op.target];
      && row.lease == Some(Lease(op.claim.owner, row.attempts, true))
      && op.claim.attempt == row.attempts
      && (!op.OpFinalizeSleep? ==> op.claim.generation == row.stamp)
  {
    hide Inv, ActivateDeferred, Upsert, Advance;
    RowHolds(s, op.target);
  }

  /** No attempt on a stamp is ever issued twice, not even after the instance was deleted and re-created. */
  lemma ClaimsNeverRepeat(s: Store, target: string, owner: string, due: bool)
    requires Inv(s) && ClaimRow(s, target, owner, due).Ok?
    ensures Issue(target, s.rows[target].attempts + 1, s.rows[target].stamp) !in s.issued
  {
    hide Rooted;
    assert RowOk(s, s.rows[target]);
  }

  // ---- what a driver concludes from a record it read ---------------------

  /** What a driver of a Pending row does on reading the instance. */
  datatype PendingPlan = CleanUp | Detached | Project

  function PlanPending(instance: Option<Instance>, stamp: nat): PendingPlan {
    if instance.None? || instance.value.generation != stamp || instance.value.state in {Deleting, Deleted} then CleanUp
    else if instance.value.state != Waking then Detached
    else Project
  }

  /** The row was read at `s`, the instance after any further run: the row is never found detached. */
  lemma PendingNeverDetached(s: Store, target: string, ops: seq<Op>)
    requires Inv(s) && target in s.rows && s.rows[target].state == PendingRow
    ensures PlanPending(Run(s, ops).instance, s.rows[target].stamp) != Detached
  {
    hide Inv, Run;
    RowHolds(s, target);
    RunGrows(s, ops);
    var later := Run(s, ops);
    if later.instance.Some? {
      InstanceKnown(later);
    }
  }

  datatype DeletingPlan = FinalizeDrain(draining: nat) | MarkDeleted

  function PlanDeleting(instance: Option<Instance>, stamp: nat): DeletingPlan {
    if instance.Some? && instance.value.state == Draining && instance.value.generation == stamp + 1
    then FinalizeDrain(stamp + 1)
    else MarkDeleted
  }

  /**
   A row being torn down is current or debris for good: once its drain is not
   the instance's state, no later step makes it so.
   */
  lemma DebrisStaysDebris(s: Store, target: string, ops: seq<Op>)
    requires Inv(s) && Fenced(s) && target in s.rows && s.rows[target].state == DeletingRow
    requires PlanDeleting(s.instance, s.rows[target].stamp) == MarkDeleted
    ensures PlanDeleting(Run(s, ops).instance, s.rows[target].stamp) == MarkDeleted
  {
    hide Inv, Run, Fenced;
    OnlyActive(s, target);
    InstanceKnown(s);
    RunGrows(s, ops);
    if Run(s, ops).instance.Some? {
      InstanceKnown(Run(s, ops));
    }
  }

  /**
   Between two reads that show one generation, the state cannot differ; so a
   wake's chosen generation is still right.
   */
  lemma WakeChoiceStands(s: Store, ops: seq<Op>)
    requires Inv(s) && s.instance.Some? && Run(s, ops).instance.Some?
    requires Run(s, ops).instance.value.generation == s.instance.value.generation
    ensures WakingGeneration(Run(s, ops).instance.value) == WakingGeneration(s.instance.value)
  {
    hide Run, Inv;
    GenerationsOrderRecords(s, ops);
  }

  // ---- a wake deferred during a drain ------------------------------------

  /** The deferred wake is the one the current drain will turn into. */
  ghost predicate DeferredCurrent(s: Store) {
    s.deferred.Some? ==>
      s.instance.Some? && s.instance.value.state == Draining
        && s.deferred.value.generation == s.instance.value.generation + 2
  }

  /** A bare compare-and-swap pulls the instance away from under its deferred wake. */
  predicate Strands(s: Store, op: Op) { op.OpCompareAndSwap? && s.deferred.Some? && Perform(s, op).Ok? }

  /** A step keeps the deferred wake current exactly if it is no such compare-and-swap. */
  lemma StepDeferred(s: Store, op: Op)
    requires DeferredCurrent(s)
    ensures DeferredCurrent(Step(s, op)) <==> !Strands(s, op)
  {
    hide AllDeleted, Upsert;
    UpsertLeaves();
  }

  lemma UpsertLeaves()
    ensures forall s, target, state, stamp, projection ::
      var next := Upsert(s, target, state, stamp, projection);
      next.instance == s.instance && next.deferred == s.deferred
  {
  }

  /** No step of the run strands a deferred wake. */
  ghost predicate Sparing(s: Store, ops: seq<Op>)
    decreases |ops|
  {
    ops != [] ==> Sparing(s, ops[..|ops| - 1]) && !Strands(Run(s, ops[..|ops| - 1]), ops[|ops| - 1])
  }

  /** Over every run that strands none, a deferred wake belongs to the current drain. */
  lemma {:induction false} RunDeferred(ops: seq<Op>)
    requires Sparing(NewStore(), ops)
    ensures DeferredCurrent(Run(NewStore(), ops))
    decreases |ops|
  {
    hide Step, DeferredCurrent, Strands;
    if ops == [] {
      NothingDeferred();
    } else {
      RunDeferred(ops[..|ops| - 1]);
      StepDeferred(Run(NewStore(), ops[..|ops| - 1]), ops[|ops| - 1]);
    }
  }

  lemma NothingDeferred()
    ensures DeferredCurrent(NewStore())
  {
  }

  /**
   Finishing a drain succeeds exactly when the lease holds on the row of that
   drain and any deferred wake is the one the drain turns into; it then starts
   that wake in the same transaction, or leaves the instance Cold.
   */
  lemma DrainHandsOver(s: Store, target: string, claim: Claim, draining: nat)
    requires draining > 0
    ensures
      var done := FinalizeSleep(s, target, claim, draining);
      && (done.Ok? <==>
            && CheckLease(s, target, claim, DeletingRow, draining - 1).Ok?
            && s.instance == Some(Instance(Draining, draining)) && DeferredCurrent(s))
      && (done.Ok? && s.deferred.None? ==> done.value.instance == Some(Instance(Cold, draining + 1)))
      && (done.Ok? && s.deferred.Some? ==>
            && done.value.instance == Some(Instance(Waking, draining + 2)) && done.value.deferred.None?
            && s.deferred.value.target in done.value.rows
            && done.value.rows[s.deferred.value.target].state == PendingRow
            && done.value.rows[s.deferred.value.target].stamp == draining + 2)
  {
  }

  /** Wake, run and drain again by bare compare-and-swap alone. */
  function Swaps(d: nat): seq<Op> {
    [OpCompareAndSwap(d, Waking, WakeRequested), OpCompareAndSwap(d + 1, Running, MaterializationReady),
     OpCompareAndSwap(d + 2, Draining, IdleReported)]
  }

  /** After such a detour the stranded wake blocks every finalization of the new drain. */
  lemma SwapsStrandWake(s: Store, target: string, claim: Claim)
    requires s.instance.Some? && s.instance.value.state == Draining && s.deferred.Some? && DeferredCurrent(s)
    ensures
      var d := s.instance.value.generation;
      var after := Run(s, Swaps(d));
      && after.instance == Some(Instance(Draining, d + 3)) && after.deferred == s.deferred
      && !DeferredCurrent(after) && FinalizeSleep(after, target, claim, d + 3).Err?
  {
    hide Step;
    var d := s.instance.value.generation;
    var a, b, c := Swaps(d)[0], Swaps(d)[1], Swaps(d)[2];
    assert [] + [a] == [a] && [a] + [b] == [a, b] && [a, b] + [c] == Swaps(d);
    RunSnoc(s, [], a);
    RunSnoc(s, [a], b);
    RunSnoc(s, [a, b], c);
    Swapped(s, d, Waking, WakeRequested);
    Swapped(Step(s, a), d + 1, Running, MaterializationReady);
    Swapped(Step(Step(s, a), b), d + 2, Draining, IdleReported);
    DrainHandsOver(Run(s, Swaps(d)), target, claim, d + 3);
  }

  lemma Swapped(s: Store, g: nat, next: InstanceState, reason: Reason)
    requires s.instance.Some? && s.instance.value.generation == g
      && ValidTransition(s.instance.value.state, next, reason)
    ensures
      var after := Step(s, OpCompareAndSwap(g, next, reason));
      after.instance == Some(Instance(next, g + 1)) && after.deferred == s.deferred
  {
  }

  // ---- what holds while no compare-and-swap gets in the way ---------------

  /** Work still pending belongs to the wake in progress. */
  ghost predicate PendingCurrent(s: Store) {
    forall t :: t in s.rows && s.rows[t].state == PendingRow ==> s.instance == Some(Instance(Waking, s.rows[t].stamp))
  }

  ghost predicate Undisturbed(s: Store) { DeferredCurrent(s) && RowsTell(s) && PendingCurrent(s) }

  /** A compare-and-swap of an instance without rows, with pending work, or with a deferred wake. */
  ghost predicate Disturbs(s: Store, op: Op) {
    && op.OpCompareAndSwap? && Perform(s, op).Ok?
    && (s.rows == map[] || s.deferred.Some? || exists t :: t in s.rows && s.rows[t].state == PendingRow)
  }

  ghost predicate Quiet(s: Store, ops: seq<Op>)
    decreases |ops|
  {
    ops != [] ==> Quiet(s, ops[..|ops| - 1]) && !Disturbs(Run(s, ops[..|ops| - 1]), ops[|ops| - 1])
  }

  lemma StepRowsTell(s: Store, op: Op)
    requires Inv(s) && RowsTell(s) && !Disturbs(s, op)
    ensures RowsTell(Step(s, op))
  {
    hide AllDeleted, Inv, Step, RowsTell, Disturbs;
    if s.instance.Some? {
      InstanceKnown(s);
    } else {
      NoRowsYet(s);
    }
    if op.OpCreate? || op.OpAcceptWake? || op.OpBeginSleep? || op.OpCompleteWake? || op.OpFinalizeSleep? {
      CycleRowsTell(s, op);
    } else {
      RestRowsTell(s, op);
    }
  }

  lemma CycleRowsTell(s: Store, op: Op)
    requires op.OpCreate? || op.OpAcceptWake? || op.OpBeginSleep? || op.OpCompleteWake? || op.OpFinalizeSleep?
    requires RowsTell(s) && (s.instance.None? ==> s.rows == map[])
    requires s.instance.Some? ==> s.born <= s.instance.value.generation
    ensures RowsTell(Step(s, op))
  {
    hide AllDeleted;
  }

  lemma RestRowsTell(s: Store, op: Op)
    requires !op.OpCreate? && !op.OpAcceptWake? && !op.OpBeginSleep? && !op.OpCompleteWake? && !op.OpFinalizeSleep?
    requires RowsTell(s) && !Disturbs(s, op) && (s.instance.None? ==> s.rows == map[])
    requires s.instance.Some? ==> s.born <= s.instance.value.generation
    ensures RowsTell(Step(s, op))
  {
    hide AllDeleted;
  }

  lemma StepPendingCurrent(s: Store, op: Op)
    requires Inv(s) && Fenced(s) && PendingCurrent(s) && !Disturbs(s, op)
    ensures PendingCurrent(Step(s, op))
  {
    hide Inv, Fenced, Step;
    if s.instance.None? {
      NoRowsYet(s);
    }
    if op.OpAcceptWake? || op.OpFinalizeSleep? {
      if op.OpFinalizeSleep? && op.target in s.rows && s.rows[op.target].state == DeletingRow {
        OnlyActive(s, op.target);
      }
      WakesPendingCurrent(s, op);
    } else if op.OpBeginSleep? || op.OpCompleteWake? || op.OpRecordFailure? {
      if op.target in s.rows && s.rows[op.target].state != DeletedRow {
        OnlyActive(s, op.target);
      } else if op.target in s.rows {
        FinishedHoldsNothing(s, op.target);
      }
      MovesPendingCurrent(s, op);
    } else {
      RestPendingCurrent(s, op);
    }
  }

  lemma WakesPendingCurrent(s: Store, op: Op)
    requires PendingCurrent(s) && (op.OpAcceptWake? || op.OpFinalizeSleep?)
    requires op.OpFinalizeSleep? && op.target in s.rows && s.rows[op.target].state == DeletingRow ==>
      forall t :: t in s.rows && t != op.target ==> s.rows[t].state == DeletedRow
    ensures PendingCurrent(Step(s, op))
  {
  }

  lemma MovesPendingCurrent(s: Store, op: Op)
    requires PendingCurrent(s) && (op.OpBeginSleep? || op.OpCompleteWake? || op.OpRecordFailure?)
    requires op.target in s.rows && s.rows[op.target].state != DeletedRow ==>
      forall t :: t in s.rows && t != op.target ==> s.rows[t].state == DeletedRow
    requires op.target in s.rows && s.rows[op.target].state == DeletedRow ==> s.rows[op.target].lease.None?
    ensures PendingCurrent(Step(s, op))
  {
  }

  lemma RestPendingCurrent(s: Store, op: Op)
    requires PendingCurrent(s) && !Disturbs(s, op) && (s.instance.None? ==> s.rows == map[])
    requires !op.OpAcceptWake? && !op.OpFinalizeSleep? && !op.OpBeginSleep?
    requires !op.OpCompleteWake? && !op.OpRecordFailure?
    ensures PendingCurrent(Step(s, op))
  {
  }

  lemma NoRowsYet(s: Store)
    requires Inv(s) && s.instance.None?
    ensures s.rows == map[]
  {
  }

  lemma StepUndisturbed(s: Store, op: Op)
    requires Inv(s) && Fenced(s) && Undisturbed(s) && !Disturbs(s, op)
    ensures Undisturbed(Step(s, op))
  {
    hide Step, Inv, Fenced, RowsTell, PendingCurrent, DeferredCurrent;
    StepDeferred(s, op);
    StepRowsTell(s, op);
    StepPendingCurrent(s, op);
  }

  /**
   Every quiet run keeps deferred wakes current, pending work attached, and
   creations the only records without rows.
   */
  lemma {:induction false} RunUndisturbed(ops: seq<Op>)
    requires Quiet(NewStore(), ops)
    ensures Inv(Run(NewStore(), ops)) && Fenced(Run(NewStore(), ops)) && Undisturbed(Run(NewStore(), ops))
    decreases |ops|
  {
    hide Step, Inv, Fenced, Disturbs;
    RunFenced(ops);
    if ops != [] {
      RunUndisturbed(ops[..|ops| - 1]);
      var before := Run(NewStore(), ops[..|ops| - 1]);
      RunFenced(ops[..|ops| - 1]);
      StepUndisturbed(before, ops[|ops| - 1]);
    }
  }

  /** Over every quiet run, a report answered "accepted" by generation slept exactly if the instance has a row. */
  lemma AcceptedExactlyWithRows(ops: seq<Op>, e: nat)
    requires Quiet(NewStore(), ops) && Run(NewStore(), ops).instance.Some?
    requires MismatchAnswer(e, Run(NewStore(), ops).instance.value) == Accepted
    ensures Slept(Run(NewStore(), ops), e) <==> Run(NewStore(), ops).rows != map[]
  {
    hide Run, Inv, Fenced, RowsTell, Slept;
    RunUndisturbed(ops);
    MismatchAnswerHonest(Run(NewStore(), ops), e);
  }

  /** In particular without any compare-and-swap. */
  lemma {:induction false} SwapFreeIsQuiet(s: Store, ops: seq<Op>)
    requires forall i :: 0 <= i < |ops| ==> !ops[i].OpCompareAndSwap?
    ensures Quiet(s, ops) && Sparing(s, ops)
    decreases |ops|
  {
    hide Perform, Run;
    if ops != [] {
      SwapFreeIsQuiet(s, ops[..|ops| - 1]);
    }
  }
}
