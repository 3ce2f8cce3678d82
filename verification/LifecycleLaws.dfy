/** What every reachable lifecycle store satisfies, whatever the drivers did. */
module LifecycleLaws {
  import opened Prelude
  import opened Lifecycle

  // ---- the invariant -----------------------------------------------------

  /** A generation is a creation, the first or one after a deletion, or it follows from the one before it. */
  ghost predicate Rooted(past: map<nat, Stage>, g: nat)
    requires g in past
  {
    if past[g].created then past[g].state == Cold && (g > 0 ==> g - 1 in past && past[g - 1].state == Deleting)
    else g > 0 && g - 1 in past && Follows(past[g - 1].state, past[g].state)
  }

  ghost predicate AllRooted(past: map<nat, Stage>) { forall g :: g in past ==> Rooted(past, g) }

  ghost predicate Before(past: map<nat, Stage>, g: nat) { forall h :: h in past ==> h < g }

  /** The last creation in the history. */
  ghost predicate BornIn(past: map<nat, Stage>, born: nat) {
    born in past && past[born].created && forall g :: g in past && past[g].created ==> g <= born
  }

  /** The history is rooted, goes up to the watermark, and ends with the record, or with its deletion. */
  ghost predicate PastOk(s: Store) {
    && AllRooted(s.past)
    && (match s.watermark
        case None => s.instance.None? && s.past == map[]
        case Some(w) => w in s.past && Before(s.past, w + 1) && s.born <= w && BornIn(s.past, s.born))
    && (match s.instance
        case Some(i) => s.watermark == Some(i.generation) && s.past[i.generation].state == i.state
        case None => s.watermark.Some? ==> s.past[s.watermark.value].state == Deleting)
  }

  ghost predicate WasAt(s: Store, g: nat, state: InstanceState) { g in s.past && s.past[g].state == state }

  /** A row's stamp names the generation it belongs to, and its projection the generation it serves. */
  ghost predicate RowOk(s: Store, row: Row) {
    && s.watermark.Some? && s.born <= row.stamp <= s.watermark.value
    && (row.lease.Some? ==> row.lease.value.attempt == row.attempts)
    && match row.state
       case PendingRow => WasAt(s, row.stamp, Waking) && row.projection == row.stamp + 1
       case ReadyRow => WasAt(s, row.stamp, Running) && row.projection == row.stamp
       case DeletingRow =>
         || (WasAt(s, row.stamp, Waking) && row.projection == row.stamp + 1)
         || (WasAt(s, row.stamp, Running) && row.projection == row.stamp)
       case DeletedRow => true
  }

  ghost predicate RowsOk(s: Store) {
    && (s.instance.None? ==> s.rows == map[])
    && (forall t :: t in s.rows ==> RowOk(s, s.rows[t]))
  }

  /** Every claim ever issued belongs to a row still counting from it, or to a generation gone for good. */
  ghost predicate IssuesOk(s: Store) {
    forall x :: x in s.issued ==>
      && s.watermark.Some? && x.generation <= s.watermark.value
      && ((x.target in s.rows && x.attempt <= s.rows[x.target].attempts) || s.instance.None? || x.generation < s.born)
  }

  ghost predicate DeferredOk(s: Store) {
    s.deferred.Some? ==> s.deferred.value.projection == s.deferred.value.generation + 1
  }

  ghost predicate Inv(s: Store) { PastOk(s) && RowsOk(s) && IssuesOk(s) && DeferredOk(s) }

  /** History is only ever added to. */
  ghost predicate Grows(s: Store, s': Store) {
    && (forall g :: g in s.past ==> g in s'.past && s'.past[g] == s.past[g])
    && (s.watermark.Some? ==> s'.watermark.Some? && s.watermark.value <= s'.watermark.value)
  }

  lemma GrowsTransitive(a: Store, b: Store, c: Store)
    requires Grows(a, b) && Grows(b, c)
    ensures Grows(a, c)
  {
  }

  // ---- the building blocks keep it ---------------------------------------

  lemma AddStage(past: map<nat, Stage>, g: nat, stage: Stage)
    requires AllRooted(past) && Before(past, g) && Rooted(past[g := stage], g)
    ensures AllRooted(past[g := stage]) && Before(past[g := stage], g + 1)
  {
    hide Follows;
    var after := past[g := stage];
    forall h | h in after ensures Rooted(after, h) {
      if h != g {
        assert Rooted(past, h);
      }
    }
  }

  lemma AdvancePast(s: Store, state: InstanceState)
    requires PastOk(s) && s.instance.Some? && Follows(s.instance.value.state, state)
    ensures PastOk(Advance(s, state)) && Grows(s, Advance(s, state))
  {
    hide Follows, AllRooted;
    var g := s.instance.value.generation + 1;
    AddStage(s.past, g, Stage(state, false));
  }

  lemma AdvanceKeeps(s: Store, state: InstanceState)
    requires Inv(s) && s.instance.Some? && Follows(s.instance.value.state, state)
    ensures Inv(Advance(s, state)) && Grows(s, Advance(s, state))
  {
    hide Follows, PastOk;
    var next := Advance(s, state);
    AdvancePast(s, state);
    PastEnds(s);
    forall t | t in next.rows ensures RowOk(next, next.rows[t]) {
      assert RowOk(s, s.rows[t]);
    }
  }

  lemma PastEnds(s: Store)
    requires PastOk(s)
    ensures s.instance.Some? ==> s.watermark == Some(s.instance.value.generation)
    ensures s.watermark.Some? ==> s.born <= s.watermark.value
  {
    hide AllRooted;
  }

  lemma SetRowKeeps(s: Store, target: string, row: Row)
    requires Inv(s) && s.instance.Some? && RowOk(s, row)
    requires target in s.rows ==> s.rows[target].attempts <= row.attempts
    ensures Inv(SetRow(s, target, row)) && Grows(s, SetRow(s, target, row))
  {
    hide Rooted;
    var next := SetRow(s, target, row);
    forall t | t in next.rows ensures RowOk(next, next.rows[t]) {
      if t != target {
        assert RowOk(s, s.rows[t]);
      }
    }
  }

  lemma UpsertKeeps(s: Store, target: string, state: RowState, stamp: nat, projection: nat)
    requires Inv(s) && s.instance.Some?
    requires RowOk(s, Row(state, stamp, projection, 0, None, None))
    ensures Inv(Upsert(s, target, state, stamp, projection)) && Grows(s, Upsert(s, target, state, stamp, projection))
  {
    hide Inv;
    var row := Upsert(s, target, state, stamp, projection).rows[target];
    SetRowKeeps(s, target, row);
  }

  lemma DeferKeeps(s: Store, intent: Option<Intent>)
    requires Inv(s) && (intent.Some? ==> intent.value.projection == intent.value.generation + 1)
    ensures Inv(s.(deferred := intent)) && Grows(s, s.(deferred := intent))
  {
    hide Rooted;
    var next := s.(deferred := intent);
    forall t | t in next.rows ensures RowOk(next, next.rows[t]) {
      assert RowOk(s, s.rows[t]);
    }
  }

  lemma RowHolds(s: Store, target: string)
    requires Inv(s) && target in s.rows
    ensures s.instance.Some? && RowOk(s, s.rows[target])
  {
  }

  lemma InstanceKnown(s: Store)
    requires Inv(s) && s.instance.Some?
    ensures WasAt(s, s.instance.value.generation, s.instance.value.state)
    ensures s.watermark == Some(s.instance.value.generation) && s.born <= s.watermark.value
  {
  }

  // ---- every operation keeps it ------------------------------------------

  lemma CreateKeeps(s: Store)
    requires Inv(s) && s.instance.None?
    ensures Inv(Create(s).value) && Grows(s, Create(s).value)
  {
    hide RowOk, PastOk;
    CreatePast(s);
  }

  lemma CreatePast(s: Store)
    requires PastOk(s) && s.instance.None?
    ensures PastOk(Create(s).value) && Grows(s, Create(s).value)
  {
    hide Follows, AllRooted;
    var g := if s.watermark.Some? then s.watermark.value + 1 else 0;
    AddStage(s.past, g, Stage(Cold, true));
  }

  lemma AcceptWakeKeeps(s: Store, expected: nat, target: string, generation: nat, projection: nat)
    requires Inv(s) && AcceptWake(s, expected, target, generation, projection).Ok?
    ensures
      var next := AcceptWake(s, expected, target, generation, projection).value;
      Inv(next) && Grows(s, next)
  {
    hide Inv, Follows, AllDeleted;
    SameGrows(s);
    var next := AcceptWake(s, expected, target, generation, projection).value;
    if next.deferred != s.deferred {
      DeferKeeps(s, next.deferred);
    } else if next != s {
      assert Follows(s.instance.value.state, Waking) by { WakeFollows(s.instance.value.state); }
      AdvanceKeeps(s, Waking);
      var moved := Advance(s, Waking);
      InstanceKnown(moved);
      UpsertKeeps(moved, target, PendingRow, generation, projection);
      GrowsTransitive(s, moved, next);
    }
  }

  lemma WakeFollows(state: InstanceState)
    requires state in {Cold, Failed, Draining}
    ensures Follows(state, Waking)
  {
    assert ValidTransition(state, Waking, WakeRequested);
  }

  lemma BeginSleepKeeps(s: Store, expected: nat, target: string, mature: bool)
    requires Inv(s) && BeginSleep(s, expected, target, mature).Ok?
    ensures
      var next := BeginSleep(s, expected, target, mature).value;
      Inv(next) && Grows(s, next)
  {
    hide Inv, Follows;
    var row := s.rows[target];
    RowHolds(s, target);
    TransitionFollows(s.instance.value.state, Draining, IdleReported);
    AdvanceKeeps(s, Draining);
    var moved := Advance(s, Draining);
    RowHolds(moved, target);
    SetRowKeeps(moved, target, row.(state := DeletingRow, lease := None));
    GrowsTransitive(s, moved, BeginSleep(s, expected, target, mature).value);
  }

  lemma TransitionFollows(current: InstanceState, next: InstanceState, reason: Reason)
    requires ValidTransition(current, next, reason)
    ensures Follows(current, next)
  {
  }

  lemma ClaimKeeps(s: Store, target: string, owner: string, due: bool)
    requires Inv(s) && ClaimRow(s, target, owner, due).Ok?
    ensures
      var next := ClaimRow(s, target, owner, due).value;
      Inv(next) && Grows(s, next)
  {
    hide Rooted;
    var row := s.rows[target];
    var leased := row.(attempts := row.attempts + 1, lease := Some(Lease(owner, row.attempts + 1, true)));
    assert RowOk(s, row);
    SetRowKeeps(s, target, leased);
    var moved := SetRow(s, target, leased);
    var next := ClaimRow(s, target, owner, due).value;
    forall t | t in next.rows ensures RowOk(next, next.rows[t]) {
      assert RowOk(moved, moved.rows[t]);
    }
  }

  /** An operation that only rewrites one row, in place. */
  lemma RowChangeKeeps(s: Store, target: string, row: Row)
    requires Inv(s) && target in s.rows
    requires row.attempts == s.rows[target].attempts && row.stamp == s.rows[target].stamp
      && row.projection == s.rows[target].projection
    requires row.lease.None?
      || (s.rows[target].lease.Some? && row.lease.value.attempt == s.rows[target].lease.value.attempt)
    requires row.state == s.rows[target].state || row.state == DeletedRow
      || (row.state == DeletingRow && s.rows[target].state in {PendingRow, ReadyRow})
    ensures Inv(SetRow(s, target, row)) && Grows(s, SetRow(s, target, row))
  {
    hide Inv;
    RowHolds(s, target);
    SetRowKeeps(s, target, row);
  }

  lemma CompleteWakeKeeps(s: Store, target: string, claim: Claim)
    requires Inv(s) && CompleteWake(s, target, claim).Ok?
    ensures
      var next := CompleteWake(s, target, claim).value;
      Inv(next) && Grows(s, next)
  {
    hide Inv, Follows;
    var row := s.rows[target];
    RowHolds(s, target);
    TransitionFollows(s.instance.value.state, Running, MaterializationReady);
    AdvanceKeeps(s, Running);
    var moved := Advance(s, Running);
    InstanceKnown(moved);
    UpsertKeeps(moved, target, ReadyRow, claim.generation + 1, row.projection);
    GrowsTransitive(s, moved, CompleteWake(s, target, claim).value);
  }

  lemma ActivateKeeps(s: Store)
    requires Inv(s) && ActivateDeferred(s).Ok?
    ensures Inv(ActivateDeferred(s).value) && Grows(s, ActivateDeferred(s).value)
  {
    hide Inv, Follows;
    DeferKeepsSame(s);
    if s.deferred.Some? {
      var intent := s.deferred.value;
      DeferKeeps(s, None);
      var cleared := s.(deferred := None);
      WakeFollows(Cold);
      AdvanceKeeps(cleared, Waking);
      var moved := Advance(cleared, Waking);
      InstanceKnown(moved);
      UpsertKeeps(moved, intent.target, PendingRow, intent.generation, intent.projection);
      GrowsTransitive(s, cleared, moved);
      GrowsTransitive(s, moved, ActivateDeferred(s).value);
    }
  }

  lemma DeferKeepsSame(s: Store)
    requires Inv(s)
    ensures Grows(s, s) && DeferredOk(s)
  {
  }

  lemma FinalizeSleepKeeps(s: Store, target: string, claim: Claim, draining: nat)
    requires Inv(s) && FinalizeSleep(s, target, claim, draining).Ok?
    ensures
      var next := FinalizeSleep(s, target, claim, draining).value;
      Inv(next) && Grows(s, next)
  {
    hide Inv, Follows, ActivateDeferred;
    var row := s.rows[target];
    TransitionFollows(s.instance.value.state, Cold, DrainCompleted);
    AdvanceKeeps(s, Cold);
    var moved := Advance(s, Cold);
    InstanceKnown(moved);
    var gone := row.(state := DeletedRow, stamp := draining + 1, lease := None);
    SetRowKeeps(moved, target, gone);
    var settled := SetRow(moved, target, gone);
    ActivateKeeps(settled);
    GrowsTransitive(s, moved, settled);
    GrowsTransitive(s, settled, FinalizeSleep(s, target, claim, draining).value);
  }

  lemma RecordFailureKeeps(s: Store, target: string, claim: Claim, state: RowState, terminal: bool)
    requires Inv(s) && RecordFailure(s, target, claim, state, terminal).Ok?
    ensures
      var next := RecordFailure(s, target, claim, state, terminal).value;
      Inv(next) && Grows(s, next)
  {
    hide Inv, Follows;
    var row := s.rows[target];
    DeferKeepsSame(s);
    var moved := s;
    if terminal && row.effect.None? && state == PendingRow && s.instance.value == Instance(Waking, claim.generation) {
      TransitionFollows(Waking, Failed, FailureReported);
      AdvanceKeeps(s, Failed);
      moved := Advance(s, Failed);
    }
    var changed := RecordFailure(s, target, claim, state, terminal).value.rows[target];
    RowChangeKeeps(moved, target, changed);
    GrowsTransitive(s, moved, SetRow(moved, target, changed));
  }

  lemma RequestDeletionKeeps(s: Store, expected: nat)
    requires Inv(s) && RequestDeletion(s, expected).Ok?
    ensures
      var next := RequestDeletion(s, expected).value;
      Inv(next) && Grows(s, next)
  {
    hide Follows, Rooted;
    var moved := s;
    if s.instance.value.state != Deleting {
      assert Follows(s.instance.value.state, Deleting) by { DeletionFollows(s.instance.value.state); }
      AdvanceKeeps(s, Deleting);
      moved := Advance(s, Deleting);
    }
    var next := RequestDeletion(s, expected).value;
    forall t | t in next.rows ensures RowOk(next, next.rows[t]) {
      assert RowOk(moved, moved.rows[t]);
    }
  }

  lemma DeletionFollows(state: InstanceState)
    requires state != Deleting
    ensures Follows(state, Deleting)
  {
  }

  lemma FinalizeDeletionKeeps(s: Store)
    requires Inv(s) && FinalizeDeletion(s).Ok?
    ensures Inv(FinalizeDeletion(s).value) && Grows(s, FinalizeDeletion(s).value)
  {
    hide Rooted;
  }

  lemma CompareAndSwapKeeps(s: Store, expected: nat, state: InstanceState, reason: Reason)
    requires Inv(s) && CompareAndSwap(s, expected, state, reason).Ok?
    ensures
      var next := CompareAndSwap(s, expected, state, reason).value;
      Inv(next) && Grows(s, next)
  {
    hide Inv, Follows;
    TransitionFollows(s.instance.value.state, state, reason);
    AdvanceKeeps(s, state);
  }

  lemma StepKeeps(s: Store, op: Op)
    requires Inv(s)
    ensures Inv(Step(s, op)) && Grows(s, Step(s, op))
  {
    hide Inv, Grows, Create, AcceptWake, BeginSleep, ClaimRow;
    hide CompleteWake, FinalizeSleep, RecordFailure, RequestDeletion, FinalizeDeletion, CompareAndSwap;
    SameGrows(s);
    if Perform(s, op).Ok? {
      match op
      case OpCreate => NoInstance(s); CreateKeeps(s);
      case OpAcceptWake(expected, target, generation, projection) =>
        AcceptWakeKeeps(s, expected, target, generation, projection);
      case OpBeginSleep(expected, target, mature) => BeginSleepKeeps(s, expected, target, mature);
      case OpClaim(target, owner, due) => ClaimKeeps(s, target, owner, due);
      case OpCompleteWake(target, claim) => CompleteWakeKeeps(s, target, claim);
      case OpFinalizeSleep(target, claim, draining) => FinalizeSleepKeeps(s, target, claim, draining);
      case OpRecordFailure(target, claim, state, terminal) => RecordFailureKeeps(s, target, claim, state, terminal);
      case OpRequestDeletion(expected) => RequestDeletionKeeps(s, expected);
      case OpFinalizeDeletion => FinalizeDeletionKeeps(s);
      case OpCompareAndSwap(expected, next, reason) => CompareAndSwapKeeps(s, expected, next, reason);
      case _ => RowOpKeeps(s, op);
    }
  }

  predicate RewritesRow(op: Op) {
    op.OpExpireLease? || op.OpRenewLease? || op.OpReleaseLease? || op.OpDeleteRow? || op.OpForceDelete?
      || op.OpBeginEffect? || op.OpAckEffect?
  }

  lemma RowOpKeeps(s: Store, op: Op)
    requires Inv(s) && RewritesRow(op) && Perform(s, op).Ok?
    ensures Inv(Perform(s, op).value) && Grows(s, Perform(s, op).value)
  {
    hide Inv, Grows;
    SameGrows(s);
    var next := Perform(s, op).value;
    if next != s {
      RowChangeKeeps(s, op.target, next.rows[op.target]);
    }
  }

  lemma NoInstance(s: Store)
    requires Create(s).Ok?
    ensures s.instance.None?
  {
  }

  lemma SameGrows(s: Store)
    ensures Grows(s, s)
  {
  }

  lemma NewStoreHolds()
    ensures Inv(NewStore())
  {
  }

  /** Every reachable store satisfies the invariant. */
  lemma {:induction false} RunKeeps(ops: seq<Op>)
    ensures Inv(Run(NewStore(), ops))
    decreases |ops|
  {
    hide Inv, Step, NewStore;
    NewStoreHolds();
    if ops != [] {
      RunKeeps(ops[..|ops| - 1]);
      StepKeeps(Run(NewStore(), ops[..|ops| - 1]), ops[|ops| - 1]);
    }
  }
}
