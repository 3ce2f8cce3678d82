/** Exactly what moves an instance record, over all transactions but bare compare-and-swap. */
module LifecycleMoves {
  import opened Prelude
  import opened Lifecycle
  import opened LifecycleLaws
  import opened LifecycleFence
  import opened LifecycleRuns

  /** The claim is the live lease of the row, in this state and with this stamp, and no effect is unresolved. */
  ghost predicate Entrusted(s: Store, target: string, claim: Claim, state: RowState, stamp: nat) {
    && target in s.rows && s.rows[target].state == state && s.rows[target].stamp == stamp
    && s.rows[target].lease == Some(Lease(claim.owner, claim.attempt, true)) && s.rows[target].effect.None?
  }

  /** Waking turns into Running. */
  ghost predicate Wakes(s: Store, i: Instance, op: Op) {
    && i.state == Waking && op.OpCompleteWake? && op.claim.generation == i.generation
    && Entrusted(s, op.target, op.claim, PendingRow, i.generation)
  }

  /** Waking turns into Failed. */
  ghost predicate Fails(s: Store, i: Instance, op: Op) {
    && i.state == Waking && op.OpRecordFailure? && op.terminal && op.state == PendingRow
    && op.claim.generation == i.generation && Entrusted(s, op.target, op.claim, PendingRow, i.generation)
  }

  /** Running turns into Draining. */
  ghost predicate Drains(s: Store, i: Instance, op: Op) {
    && i.state == Running && op.OpBeginSleep? && op.expected == i.generation && op.mature && op.target in s.rows
    && s.rows[op.target].state == ReadyRow && s.rows[op.target].stamp == i.generation
  }

  /** Cold or Failed turns into Waking. */
  ghost predicate Rouses(s: Store, i: Instance, op: Op) {
    && i.state in {Cold, Failed} && op.OpAcceptWake? && op.expected == i.generation && AllDeleted(s)
    && op.generation == i.generation + 1 && op.projection == i.generation + 2
  }

  /** Draining turns into Cold, and on into Waking if a wake waits for it. */
  ghost predicate Sleeps(s: Store, i: Instance, op: Op) {
    && i.state == Draining && op.OpFinalizeSleep? && op.draining == i.generation > 0
    && Entrusted(s, op.target, op.claim, DeletingRow, i.generation - 1)
    && (s.deferred.Some? ==> s.deferred.value.generation == i.generation + 2)
  }

  /** Anything but Deleting turns into Deleting. */
  ghost predicate Dooms(i: Instance, op: Op) {
    i.state != Deleting && op.OpRequestDeletion? && op.expected == i.generation
  }

  /** The record goes. */
  ghost predicate Ends(s: Store, i: Instance, op: Op) { i.state == Deleting && op.OpFinalizeDeletion? && AllDeleted(s) }

  /** Where a transaction takes the record. */
  ghost function Moved(s: Store, i: Instance, op: Op): Option<Instance> {
    var g := i.generation;
    if Wakes(s, i, op) then Some(Instance(Running, g + 1))
    else if Fails(s, i, op) then Some(Instance(Failed, g + 1))
    else if Drains(s, i, op) then Some(Instance(Draining, g + 1))
    else if Rouses(s, i, op) then Some(Instance(Waking, g + 1))
    else if Sleeps(s, i, op) then
      Some(if s.deferred.None? then Instance(Cold, g + 1) else Instance(Waking, g + 2))
    else if Dooms(i, op) then Some(Instance(Deleting, g + 1))
    else if Ends(s, i, op) then None
    else Some(i)
  }

  /**
   The whole life of a record: each of its moves is made by one kind of
   transaction, exactly under its condition, and nothing else moves it.
   */
  lemma MovesExactly(s: Store, op: Op)
    requires s.instance.Some? && !op.OpCompareAndSwap?
    ensures Step(s, op).instance == Moved(s, s.instance.value, op)
  {
    hide AllDeleted, Moved, Perform;
    if op.OpAcceptWake? || op.OpBeginSleep? || op.OpCompleteWake? {
      CycleMoves(s, op);
    } else if op.OpFinalizeSleep? || op.OpRecordFailure? {
      EndMoves(s, op);
    } else {
      RestMoves(s, op);
    }
  }

  lemma CycleMoves(s: Store, op: Op)
    requires s.instance.Some? && (op.OpAcceptWake? || op.OpBeginSleep? || op.OpCompleteWake?)
    ensures Step(s, op).instance == Moved(s, s.instance.value, op)
  {
    hide AllDeleted;
  }

  lemma EndMoves(s: Store, op: Op)
    requires s.instance.Some? && (op.OpFinalizeSleep? || op.OpRecordFailure?)
    ensures Step(s, op).instance == Moved(s, s.instance.value, op)
  {
    hide AllDeleted;
  }

  lemma RestMoves(s: Store, op: Op)
    requires s.instance.Some? && !op.OpCompareAndSwap?
    requires !op.OpAcceptWake? && !op.OpBeginSleep? && !op.OpCompleteWake? && !op.OpFinalizeSleep?
    requires !op.OpRecordFailure?
    ensures Step(s, op).instance == Moved(s, s.instance.value, op)
  {
    hide AllDeleted;
  }
}
