/** One active row at a time, and a barrier around every unresolved cluster effect. */
module LifecycleFence {
  import opened Prelude
  import opened Lifecycle
  import opened LifecycleLaws

  /** Finished rows hold nothing; a row being torn down belongs to an earlier generation. */
  ghost predicate Settled(s: Store, row: Row) {
    && (row.state in {ReadyRow, DeletedRow} ==> row.lease.None? && row.effect.None?)
    && (row.state == DeletingRow ==> s.instance.Some? && row.stamp < s.instance.value.generation)
  }

  ghost predicate Fenced(s: Store) {
    && (forall t, u :: t in s.rows && u in s.rows && s.rows[t].state != DeletedRow && s.rows[u].state != DeletedRow ==>
      t == u)
    && (forall t :: t in s.rows ==> Settled(s, s.rows[t]))
  }

  lemma AdvanceFenced(s: Store, state: InstanceState)
    requires Fenced(s) && s.instance.Some?
    ensures Fenced(Advance(s, state))
  {
    var next := Advance(s, state);
    forall t | t in next.rows ensures Settled(next, next.rows[t]) {
      assert Settled(s, s.rows[t]);
    }
  }

  /** Change a row that is active, or that becomes the only active one. */
  lemma SetRowFenced(s: Store, target: string, row: Row)
    requires Fenced(s) && Settled(s, row)
    requires row.state == DeletedRow || forall t :: t in s.rows && t != target ==> s.rows[t].state == DeletedRow
    ensures Fenced(SetRow(s, target, row))
  {
    var next := SetRow(s, target, row);
    forall t | t in next.rows ensures Settled(next, next.rows[t]) {
      assert t != target ==> Settled(s, s.rows[t]);
    }
  }

  lemma OnlyActive(s: Store, target: string)
    requires Fenced(s) && target in s.rows && s.rows[target].state != DeletedRow
    ensures forall t :: t in s.rows && t != target ==> s.rows[t].state == DeletedRow
    ensures Settled(s, s.rows[target])
  {
  }

  lemma UpsertFenced(s: Store, target: string, state: RowState, stamp: nat, projection: nat)
    requires Fenced(s) && state in {PendingRow, ReadyRow}
    requires forall t :: t in s.rows && t != target ==> s.rows[t].state == DeletedRow
    requires target in s.rows ==> s.rows[target].effect.None?
    ensures Fenced(Upsert(s, target, state, stamp, projection))
  {
    hide Fenced;
    SetRowFenced(s, target, Upsert(s, target, state, stamp, projection).rows[target]);
  }

  lemma FinishedHoldsNothing(s: Store, target: string)
    requires Fenced(s) && target in s.rows && s.rows[target].state == DeletedRow
    ensures s.rows[target].effect.None? && s.rows[target].lease.None?
  {
    assert Settled(s, s.rows[target]);
  }

  lemma DeferredFenced(s: Store, intent: Option<Intent>)
    requires Fenced(s)
    ensures Fenced(s.(deferred := intent))
  {
    var next := s.(deferred := intent);
    forall t | t in next.rows ensures Settled(next, next.rows[t]) {
      assert Settled(s, s.rows[t]);
    }
  }

  lemma AcceptWakeFenced(s: Store, expected: nat, target: string, generation: nat, projection: nat)
    requires Fenced(s) && AcceptWake(s, expected, target, generation, projection).Ok?
    ensures Fenced(AcceptWake(s, expected, target, generation, projection).value)
  {
    hide Fenced;
    var next := AcceptWake(s, expected, target, generation, projection).value;
    if next.deferred != s.deferred {
      DeferredFenced(s, next.deferred);
    } else if next != s {
      AdvanceFenced(s, Waking);
      if target in s.rows {
        FinishedHoldsNothing(s, target);
      }
      UpsertFenced(Advance(s, Waking), target, PendingRow, generation, projection);
    }
  }

  lemma BeginSleepFenced(s: Store, expected: nat, target: string, mature: bool)
    requires Fenced(s) && BeginSleep(s, expected, target, mature).Ok?
    ensures Fenced(BeginSleep(s, expected, target, mature).value)
  {
    hide Fenced;
    OnlyActive(s, target);
    AdvanceFenced(s, Draining);
    SetRowFenced(Advance(s, Draining), target, s.rows[target].(state := DeletingRow, lease := None));
  }

  lemma ClaimFenced(s: Store, target: string, owner: string, due: bool)
    requires Fenced(s) && ClaimRow(s, target, owner, due).Ok?
    ensures Fenced(ClaimRow(s, target, owner, due).value)
  {
    var next := ClaimRow(s, target, owner, due).value;
    forall t | t in next.rows ensures Settled(next, next.rows[t]) {
      assert Settled(s, s.rows[t]);
    }
  }

  lemma CompleteWakeFenced(s: Store, target: string, claim: Claim)
    requires Fenced(s) && CompleteWake(s, target, claim).Ok?
    ensures Fenced(CompleteWake(s, target, claim).value)
  {
    hide Fenced;
    OnlyActive(s, target);
    AdvanceFenced(s, Running);
    UpsertFenced(Advance(s, Running), target, ReadyRow, claim.generation + 1, s.rows[target].projection);
  }

  lemma FinalizeSleepFenced(s: Store, target: string, claim: Claim, draining: nat)
    requires Fenced(s) && FinalizeSleep(s, target, claim, draining).Ok?
    ensures Fenced(FinalizeSleep(s, target, claim, draining).value)
  {
    hide Fenced;
    OnlyActive(s, target);
    AdvanceFenced(s, Cold);
    var gone := s.rows[target].(state := DeletedRow, stamp := draining + 1, lease := None);
    SetRowFenced(Advance(s, Cold), target, gone);
    var settled := SetRow(Advance(s, Cold), target, gone);
    if settled.deferred.Some? {
      var intent := settled.deferred.value;
      DeferredFenced(settled, None);
      AdvanceFenced(settled.(deferred := None), Waking);
      if intent.target in settled.rows {
        FinishedHoldsNothing(settled, intent.target);
      }
      UpsertFenced(Advance(settled.(deferred := None), Waking), intent.target, PendingRow, intent.generation,
        intent.projection);
    }
  }

  /** Pending work of the instance's own generation belongs to a wake in progress. */
  lemma PendingIsBehind(s: Store, target: string)
    requires Inv(s) && target in s.rows && s.rows[target].state == PendingRow
    ensures s.instance.Some? && s.rows[target].stamp <= s.instance.value.generation
    ensures s.rows[target].stamp == s.instance.value.generation ==> s.instance.value.state == Waking
  {
    RowHolds(s, target);
    InstanceKnown(s);
  }

  lemma RecordFailureFenced(s: Store, target: string, claim: Claim, state: RowState, terminal: bool)
    requires Inv(s) && Fenced(s) && RecordFailure(s, target, claim, state, terminal).Ok?
    ensures Fenced(RecordFailure(s, target, claim, state, terminal).value)
  {
    hide Fenced, Inv;
    var row := s.rows[target];
    HasLease(s, target);
    OnlyActive(s, target);
    if terminal && row.effect.None? && state == PendingRow {
      PendingIsBehind(s, target);
      var moved := s;
      if s.instance.value == Instance(Waking, claim.generation) {
        AdvanceFenced(s, Failed);
        moved := Advance(s, Failed);
      }
      SetRowFenced(moved, target, row.(state := DeletingRow, lease := None));
    } else {
      SetRowFenced(s, target, row.(lease := None));
    }
  }

  lemma HasLease(s: Store, target: string)
    requires Fenced(s) && target in s.rows && s.rows[target].lease.Some?
    ensures s.rows[target].state in {PendingRow, DeletingRow}
  {
    assert Settled(s, s.rows[target]);
  }

  /** A row is doomed only by an instance that has moved past its stamp. */
  lemma DoomedSettled(s: Store, next: Store, row: Row)
    requires s.instance.Some? && RowOk(s, row) && Settled(s, row)
    requires WasAt(s, s.instance.value.generation, s.instance.value.state)
      && s.watermark == Some(s.instance.value.generation)
    requires next.instance.Some?
    requires if s.instance.value.state == Deleting then next.instance == s.instance
             else next.instance.value.generation == s.instance.value.generation + 1
    ensures Settled(next, Doomed(row))
  {
  }

  lemma RequestDeletionFenced(s: Store, expected: nat)
    requires Inv(s) && Fenced(s) && RequestDeletion(s, expected).Ok?
    ensures Fenced(RequestDeletion(s, expected).value)
  {
    hide Inv, RowOk, Settled;
    var next := RequestDeletion(s, expected).value;
    InstanceKnown(s);
    forall t | t in next.rows ensures Settled(next, next.rows[t]) {
      RowHolds(s, t);
      DoomedSettled(s, next, s.rows[t]);
    }
  }

  lemma RowOpFenced(s: Store, op: Op)
    requires Fenced(s) && RewritesRow(op) && Perform(s, op).Ok?
    ensures Fenced(Perform(s, op).value)
  {
    hide Fenced;
    var next := Perform(s, op).value;
    if next != s {
      var row := s.rows[op.target];
      if row.state == DeletedRow {
        FinishedHoldsNothing(s, op.target);
        SetRowFenced(s, op.target, next.rows[op.target]);
      } else {
        OnlyActive(s, op.target);
        SetRowFenced(s, op.target, next.rows[op.target]);
      }
    }
  }

  lemma StepFenced(s: Store, op: Op)
    requires Inv(s) && Fenced(s)
    ensures Fenced(Step(s, op))
  {
    hide Inv, Fenced, AcceptWake, BeginSleep, ClaimRow, CompleteWake, FinalizeSleep, RecordFailure, RequestDeletion;
    if Perform(s, op).Ok? {
      match op
      case OpCreate => CreateFenced(s);
      case OpAcceptWake(expected, target, generation, projection) =>
        AcceptWakeFenced(s, expected, target, generation, projection);
      case OpBeginSleep(expected, target, mature) => BeginSleepFenced(s, expected, target, mature);
      case OpClaim(target, owner, due) => ClaimFenced(s, target, owner, due);
      case OpCompleteWake(target, claim) => CompleteWakeFenced(s, target, claim);
      case OpFinalizeSleep(target, claim, draining) => FinalizeSleepFenced(s, target, claim, draining);
      case OpRecordFailure(target, claim, state, terminal) => RecordFailureFenced(s, target, claim, state, terminal);
      case OpRequestDeletion(expected) => RequestDeletionFenced(s, expected);
      case OpFinalizeDeletion => RowlessFenced(FinalizeDeletion(s).value);
      case OpCompareAndSwap(expected, next, reason) => AdvanceFenced(s, next);
      case _ => RowOpFenced(s, op);
    }
  }

  lemma RowlessFenced(s: Store)
    requires s.rows == map[]
    ensures Fenced(s)
  {
  }

  lemma CreateFenced(s: Store)
    requires Inv(s) && Create(s).Ok?
    ensures Fenced(Create(s).value)
  {
  }

  /** At most one row of an instance is ever active, in every reachable store. */
  lemma {:induction false} RunFenced(ops: seq<Op>)
    ensures Inv(Run(NewStore(), ops)) && Fenced(Run(NewStore(), ops))
    decreases |ops|
  {
    hide Inv, Fenced, Step;
    RunKeeps(ops);
    if ops == [] {
      RowlessFenced(NewStore());
    } else {
      RunFenced(ops[..|ops| - 1]);
      StepFenced(Run(NewStore(), ops[..|ops| - 1]), ops[|ops| - 1]);
    }
  }

  // ---- the effect barrier ------------------------------------------------

  /** The two ways an unresolved effect is resolved: its exact acknowledgement, or an operator's override. */
  predicate Resolves(op: Op, target: string, mark: EffectMark) {
    op == OpAckEffect(target, mark.claim, mark.id) || op == OpForceDelete(target)
  }

  /** The effect is still there, and nobody was granted the row since. */
  ghost predicate Barred(before: Row, after: Row) {
    && after.effect == before.effect && after.attempts == before.attempts && after.stamp == before.stamp
    && (after.lease.Some? ==> before.lease.Some? && after.lease.value.owner == before.lease.value.owner
                              && after.lease.value.attempt == before.lease.value.attempt)
  }

  /** While an effect is unresolved its row cannot be claimed, completed, finalized or replaced. */
  lemma EffectBars(s: Store, op: Op, target: string, mark: EffectMark)
    requires Inv(s) && Fenced(s) && target in s.rows && s.rows[target].effect == Some(mark)
      && !Resolves(op, target, mark)
    ensures target in Step(s, op).rows && Barred(s.rows[target], Step(s, op).rows[target])
  {
    hide Inv, Fenced, Step;
    NotFinished(s, target);
    OnlyActive(s, target);
    if NeedsFreeRow(op) {
      forall t | t in s.rows && t != target ensures s.rows[t].lease.None? {
        FinishedHoldsNothing(s, t);
      }
      FreeRowRefused(s, op, target);
    } else if op.OpAcceptWake? || op.OpFinalizeDeletion? || op.OpCreate? || op.OpCompareAndSwap? {
      RowHolds(s, target);
      InstanceOpBarred(s, op, target);
    } else {
      RowOpBarred(s, op, target, mark);
    }
  }

  /** Operations that act only on a row without an unresolved effect. */
  predicate NeedsFreeRow(op: Op) {
    op.OpBeginSleep? || op.OpClaim? || op.OpReleaseLease? || op.OpCompleteWake? || op.OpFinalizeSleep?
      || op.OpDeleteRow?
  }

  lemma FreeRowRefused(s: Store, op: Op, target: string)
    requires NeedsFreeRow(op) && target in s.rows && s.rows[target].effect.Some?
      && s.rows[target].state in {PendingRow, DeletingRow}
    requires forall t :: t in s.rows && t != target ==> s.rows[t].state == DeletedRow && s.rows[t].lease.None?
    ensures Step(s, op) == s
  {
    hide ActivateDeferred, Upsert, Advance;
  }

  lemma InstanceOpBarred(s: Store, op: Op, target: string)
    requires op.OpAcceptWake? || op.OpFinalizeDeletion? || op.OpCreate? || op.OpCompareAndSwap?
    requires s.instance.Some? && target in s.rows && s.rows[target].state != DeletedRow
    ensures Step(s, op).rows == s.rows
  {
  }

  lemma RowOpBarred(s: Store, op: Op, target: string, mark: EffectMark)
    requires op.OpExpireLease? || op.OpRenewLease? || op.OpForceDelete? || op.OpBeginEffect? || op.OpAckEffect?
      || op.OpRecordFailure? || op.OpRequestDeletion?
    requires target in s.rows && s.rows[target].effect == Some(mark) && !Resolves(op, target, mark)
    ensures target in Step(s, op).rows && Barred(s.rows[target], Step(s, op).rows[target])
  {
  }

  lemma NotFinished(s: Store, target: string)
    requires Fenced(s) && target in s.rows && s.rows[target].effect.Some?
    ensures s.rows[target].state in {PendingRow, DeletingRow}
  {
    assert Settled(s, s.rows[target]);
  }

  /** Over any run that does not resolve it, the effect keeps its row to itself. */
  lemma {:induction false} EffectBarsRun(s: Store, ops: seq<Op>, target: string, mark: EffectMark)
    requires Inv(s) && Fenced(s) && target in s.rows && s.rows[target].effect == Some(mark)
    requires forall i :: 0 <= i < |ops| ==> !Resolves(ops[i], target, mark)
    ensures Inv(Run(s, ops)) && Fenced(Run(s, ops))
    ensures target in Run(s, ops).rows && Barred(s.rows[target], Run(s, ops).rows[target])
    decreases |ops|
  {
    hide Inv, Fenced, Step, Resolves;
    if ops != [] {
      var n := |ops| - 1;
      EffectBarsRun(s, ops[..n], target, mark);
      var before := Run(s, ops[..n]);
      StepKeeps(before, ops[n]);
      StepFenced(before, ops[n]);
      EffectBars(before, ops[n], target, mark);
    }
  }
}
