/** Drivers: the actors that turn claimed rows into cluster objects, or clean those up, and commit the outcome. */
module LifecycleDrivers {
  import opened Prelude
  import opened Decimal
  import M = Manifests
  import opened Stamps
  import E = ClientErrors
  import opened Planning
  import opened Plans
  import C = Cluster
  import opened Projection
  import opened Rollout
  import opened Teardown
  import opened Lifecycle
  import opened LifecycleLaws
  import opened LifecycleFence
  import opened LifecycleRuns
  import opened LifecycleActors

  datatype DriveResult =
    | GaveUp(error: E.ReconcileError)
    | Cleaned
    | Woken(instance: Instance)
    | Drained(instance: Instance)

  /** Nobody else acts on the store or the cluster, and every call is served. */
  ghost predicate Alone(server: StoreServer, cluster: C.Cluster)
    reads server, cluster
  {
    server.script == [] && cluster.script == []
  }

  /** Claim a row; the record the driver works from is the row as it was claimed. */
  method ClaimWork(server: StoreServer, target: string, owner: string, due: bool)
    returns (r: Option<Row>, ghost at: Store)
    requires server.Valid()
    modifies server
    ensures server.Valid() && Inv(at) && Grows(at, server.store) && Grows(old(server.store), server.store)
    ensures r.Some? ==>
      && target in at.rows && r.value.state == at.rows[target].state && r.value.stamp == at.rows[target].stamp
      && r.value.projection == at.rows[target].projection
      && r.value.state in {PendingRow, DeletingRow} && r.value.lease.Some? && r.value.lease.value.owner == owner
    ensures server.store == Step(at, OpClaim(target, owner, due))
    ensures Perform(at, OpClaim(target, owner, due)).Ok? <==> r.Some?
    ensures r.Some? ==> target in server.store.rows && r.value == server.store.rows[target]
    ensures r.Some? ==> Mine(server.store, target, r.value)
    ensures old(server.script) == [] ==> at == old(server.store) && server.script == []
  {
    hide Inv, Fenced, Grows, Undisturbed;
    var claimed;
    claimed, at := server.Call(OpClaim(target, owner, due));
    match claimed
    case Ok(next) => r := Some(next.rows[target]);
    case Err(_) => r := None;
  }

  // ---- cleaning up -------------------------------------------------------

  /** The log of a teardown that went through: checked, every request made, everything then seen missing. */
  ghost predicate TornDown(before: seq<C.Event>, after: seq<C.Event>, plan: ProjectionPlan) {
    exists seen: Sightings, again: Sightings ::
      && Cleared(plan.objects, seen) && Identified(Observations(plan.objects, seen))
      && |again| == |plan.objects| && (forall i :: 0 <= i < |again| ==> again[i].None?)
      && after == before + (Inspections(plan.objects, seen) + [C.BindingsVerified])
           + DeleteRequests(DeleteOrder(PlanRefs(plan)), Observations(plan.objects, seen), plan)
           + (Inspections(plan.objects, again) + [C.NoDescendants])
  }

  /** The cluster after an undisturbed teardown of what the row recorded. */
  ghost function Emptied(w: C.World, m: M.Materialization): C.World {
    C.Worked(w, CalmDeletes(w, FromRecordedRefs(m)))
  }

  lemma RenewsMine(s: Store, target: string, row: Row)
    requires row.lease.Some? && row.state in {PendingRow, DeletingRow}
    ensures Step(s, OpRenewLease(target, ClaimOf(row), row.state)) == s
    ensures Mine(s, target, row) ==> Perform(s, OpRenewLease(target, ClaimOf(row), row.state)).Ok?
  {
  }

  /** Delete what the row recorded, then make sure the row is still ours. */
  method DeleteRecorded(server: StoreServer, cluster: C.Cluster, target: string, row: Row, m: M.Materialization)
    returns (r: Result<(), E.ReconcileError>)
    requires server.Valid() && cluster.Valid() && row.lease.Some? && row.state in {PendingRow, DeletingRow}
    modifies server, cluster
    ensures server.Valid() && cluster.Valid() && Grows(old(server.store), server.store)
    ensures r.Ok? ==> TornDown(old(cluster.log), cluster.log, FromRecordedRefs(m))
    ensures r.Err? ==> (r.error.LeaseLost? && !Mine(server.store, target, row)) || r.error.Projection?
    ensures old(Alone(server, cluster)) ==> Alone(server, cluster) && server.store == old(server.store)
    ensures old(Alone(server, cluster) && Mine(server.store, target, row)) ==>
      Deletable(old(cluster.world), FromRecordedRefs(m)) ==>
        r.Ok? && cluster.world == Emptied(old(cluster.world), m)
  {
    hide Inv, Fenced, Grows, Perform, Undisturbed, C.Cluster.Valid, Deletable, CalmDeletes, C.Worked, Mine;
    hide C.Onward, Cleared, Identified, Observations, Inspections;
    hide DeleteRequests, DeleteOrder, PlanRefs, FromRecordedRefs, NoAttempts;
    SameGrows(server.store);
    var deleted, seen, checks, done, again, rest := DeleteOwned(cluster, FromRecordedRefs(m));
    if deleted.Err? {
      return Err(E.Projection(deleted.error));
    }
    assert TornDown(old(cluster.log), cluster.log, FromRecordedRefs(m));
    var renewed, at := server.Call(OpRenewLease(target, ClaimOf(row), row.state));
    GrowsTransitive(old(server.store), at, server.store);
    RenewsMine(at, target, row);
    match renewed
    case Ok(_) => r := Ok(());
    case Err(_) => r := Err(E.LeaseLost);
  }

  /** Nobody holds a lease on the row. */
  ghost predicate GivenBack(s: Store, target: string) { target in s.rows && s.rows[target].lease.None? }

  /** Finishing the work of a row consumes its lease. */
  lemma Consumed(s: Store, op: Op)
    requires op.OpDeleteRow? || op.OpFinalizeSleep? || op.OpCompleteWake?
    ensures Perform(s, op).Ok? ==> GivenBack(Step(s, op), op.target)
  {
  }

  /** Only the row was marked deleted, and given back. */
  ghost predicate Marked(s: Store, s': Store, target: string) {
    target in s.rows && s' == SetRow(s, target, s.rows[target].(state := DeletedRow, lease := None))
  }

  lemma MarksMine(s: Store, target: string, row: Row)
    requires row.lease.Some?
    ensures Mine(s, target, row) ==>
      && Perform(s, OpDeleteRow(target, ClaimOf(row), row.state)).Ok?
      && Marked(s, Step(s, OpDeleteRow(target, ClaimOf(row), row.state)), target)
  {
  }

  method MarkRowDeleted(server: StoreServer, target: string, row: Row) returns (r: DriveResult)
    requires server.Valid() && row.lease.Some?
    modifies server
    ensures server.Valid() && Grows(old(server.store), server.store)
    ensures r == Cleaned || (r.GaveUp? && r.error.Store?)
    ensures r == Cleaned ==> GivenBack(server.store, target)
    ensures old(server.script) == [] ==> server.script == [] && (r.GaveUp? ==> server.store == old(server.store))
    ensures old(server.script == [] && Mine(server.store, target, row)) ==>
      r == Cleaned && Marked(old(server.store), server.store, target)
  {
    hide Inv, Fenced, Grows, Perform, Undisturbed, Mine, Marked;
    var deleted, before := server.Call(OpDeleteRow(target, ClaimOf(row), row.state));
    Consumed(before, OpDeleteRow(target, ClaimOf(row), row.state));
    MarksMine(before, target, row);
    r := match deleted case Ok(_) => Cleaned case Err(error) => GaveUp(E.Store(error));
  }

  /** The drain of the row is over: asleep, or on into the wake that waited for it. */
  ghost predicate Ended(s: Store, s': Store, target: string, stamp: nat, ended: Instance) {
    && s'.instance == Some(ended) && target in s'.rows
    && match s.deferred
       case None =>
         && ended == Instance(Cold, stamp + 2) && target in s.rows
         && s'.rows == s.rows[target := s.rows[target].(state := DeletedRow, stamp := stamp + 2, lease := None)]
       case Some(intent) =>
         && ended == Instance(Waking, stamp + 3) && intent.target in s'.rows
         && s'.rows[intent.target].state == PendingRow && s'.rows[intent.target].stamp == stamp + 3
  }

  /** The wake that waits, if any, waits for this drain. */
  ghost predicate Awaited(s: Store, stamp: nat) { s.deferred.Some? ==> s.deferred.value.generation == stamp + 3 }

  lemma EndsMine(s: Store, target: string, row: Row)
    requires row.lease.Some? && row.state == DeletingRow
    ensures
      var finish := OpFinalizeSleep(target, ClaimOf(row), row.stamp + 1);
      && (Perform(s, finish).Err? ==> Step(s, finish) == s)
      && (Mine(s, target, row) && s.instance == Some(Instance(Draining, row.stamp + 1)) && Awaited(s, row.stamp) ==>
            && Perform(s, finish).Ok? && Step(s, finish).instance.Some?
            && Ended(s, Step(s, finish), target, row.stamp, Step(s, finish).instance.value))
  {
  }

  /**
   What becomes of a Deleting row if nobody else is there and everything
   recorded may go: its drain ends if the instance is in it, else it is marked.
   */
  ghost predicate DeletingAlone(s: Store, w: C.World, s': Store, w': C.World, target: string, row: Row,
                                m: M.Materialization, r: DriveResult) {
    Deletable(w, FromRecordedRefs(m)) ==>
      && w' == Emptied(w, m)
      && if s.instance == Some(Instance(Draining, row.stamp + 1))
         then Awaited(s, row.stamp) ==> r.Drained? && Ended(s, s', target, row.stamp, r.instance)
         else r == Cleaned && Marked(s, s', target)
  }

  /**
   Drive a Deleting row: delete its objects, then finish the drain it was
   stamped for if that is the instance's state, else only mark the row. A
   finished drain is the row's own, whatever happened in between, and every
   recorded object was seen missing before.
   */
  method DriveDeleting(server: StoreServer, cluster: C.Cluster, target: string, row: Row, m: M.Materialization)
    returns (r: DriveResult)
    requires server.Valid() && cluster.Valid() && row.state == DeletingRow && row.lease.Some?
    modifies server, cluster
    ensures server.Valid() && cluster.Valid() && Grows(old(server.store), server.store)
    ensures !r.Woken? && (!r.GaveUp? ==> GivenBack(server.store, target))
    ensures !r.GaveUp? ==> TornDown(old(cluster.log), cluster.log, FromRecordedRefs(m))
    ensures r.Drained? ==>
      && Slept(server.store, row.stamp) && WasAt(server.store, row.stamp + 2, Cold)
      && server.store.instance == Some(r.instance)
      && (r.instance == Instance(Cold, row.stamp + 2) || r.instance == Instance(Waking, row.stamp + 3))
    ensures old(Alone(server, cluster)) ==> Alone(server, cluster) && (r.GaveUp? ==> server.store == old(server.store))
    ensures old(Alone(server, cluster) && Mine(server.store, target, row)) ==>
      DeletingAlone(old(server.store), old(cluster.world), server.store, cluster.world, target, row, m, r)
  {
    hide Inv, Fenced, Grows, Undisturbed, C.Cluster.Valid, TornDown, FromRecordedRefs, GivenBack, Slept, WasAt;
    hide Deletable, Mine, Marked, Ended, Emptied;
    var deleted := DeleteRecorded(server, cluster, target, row, m);
    if deleted.Err? {
      return GaveUp(deleted.error);
    }
    ghost var middle := server.store;
    var instance := server.ReadInstance();
    GrowsTransitive(old(server.store), middle, server.store);
    middle := server.store;
    match PlanDeleting(instance, row.stamp)
    case MarkDeleted =>
      r := MarkRowDeleted(server, target, row);
      GrowsTransitive(old(server.store), middle, server.store);
    case FinalizeDrain(draining) =>
      r := FinishDrain(server, target, row, draining);
      GrowsTransitive(old(server.store), middle, server.store);
  }

  method FinishDrain(server: StoreServer, target: string, row: Row, draining: nat) returns (r: DriveResult)
    requires server.Valid() && row.lease.Some? && row.state == DeletingRow && draining == row.stamp + 1
    modifies server
    ensures server.Valid() && Grows(old(server.store), server.store)
    ensures (r.Drained? || r.GaveUp?) && (r.Drained? ==> GivenBack(server.store, target))
    ensures r.Drained? ==>
      && Slept(server.store, row.stamp) && WasAt(server.store, row.stamp + 2, Cold)
      && server.store.instance == Some(r.instance)
      && (r.instance == Instance(Cold, row.stamp + 2) || r.instance == Instance(Waking, row.stamp + 3))
    ensures old(server.script) == [] ==>
      && server.script == [] && (r.GaveUp? ==> server.store == old(server.store))
      && (old(Mine(server.store, target, row) && server.store.instance == Some(Instance(Draining, row.stamp + 1))) ==>
            Awaited(old(server.store), row.stamp) ==>
              r.Drained? && Ended(old(server.store), server.store, target, row.stamp, r.instance))
  {
    hide Inv, Fenced, Grows, Undisturbed, GivenBack, Slept, WasAt, Leads, Mine, Ended, Awaited;
    var finished, before := server.Call(OpFinalizeSleep(target, ClaimOf(row), draining));
    EndsMine(before, target, row);
    match finished
    case Err(error) => r := GaveUp(E.Store(error));
    case Ok(next) =>
      Consumed(before, OpFinalizeSleep(target, ClaimOf(row), draining));
      FinishedDrain(before, target, ClaimOf(row), draining, next);
      r := Drained(next.instance.value);
  }

  lemma FinishedDrain(s: Store, target: string, claim: Claim, draining: nat, next: Store)
    requires Inv(s) && FinalizeSleep(s, target, claim, draining) == Ok(next)
    ensures draining > 0 && next.instance.Some?
    ensures Slept(next, draining - 1) && WasAt(next, draining + 1, Cold)
    ensures next.instance.value == Instance(Cold, draining + 1) || next.instance.value == Instance(Waking, draining + 2)
  {
    hide Inv, Upsert;
    InstanceKnown(s);
    DrainingCameFromRunning(s, draining);
    FinalizeSleepKeeps(s, target, claim, draining);
    WasAtLater(s, next, draining, Draining);
    WasAtLater(s, next, draining - 1, Running);
    var gone := s.rows[target].(state := DeletedRow, stamp := draining + 1, lease := None);
    ColdStaysKnown(SetRow(Advance(s, Cold), target, gone), next);
  }

  /** Starting the deferred wake keeps the Cold generation in the history. */
  lemma ColdStaysKnown(settled: Store, next: Store)
    requires settled.instance.Some? && settled.instance.value.state == Cold
    requires WasAt(settled, settled.instance.value.generation, Cold) && ActivateDeferred(settled) == Ok(next)
    ensures
      var g := settled.instance.value.generation;
      && WasAt(next, g, Cold)
      && (next.instance == settled.instance || next.instance == Some(Instance(Waking, g + 1)))
  {
  }

  // ---- projecting a wake -------------------------------------------------

  /**
   A projection that went through: inspected, then every request of the plan
   made and in effect, the backend ready, and everything seen owned and standing.
   */
  ghost predicate Projected(before: seq<C.Event>, after: seq<C.Event>, c: C.Chronicle, plan: ProjectionPlan) {
    exists seen: Sightings, again: Sightings ::
      && AllOwned(plan.objects, seen) && plan.manifest.Some? && |again| == |plan.objects|
        && AllStanding(plan.objects, again)
      && after == before + Inspections(plan.objects, seen)
           + Trace(plan.manifest.value.objects, Observations(plan.objects, seen), plan)
           + [C.BackendReady] + Inspections(plan.objects, again)
      && C.AllTook(c, Trace(plan.manifest.value.objects, Observations(plan.objects, seen), plan),
                   |before| + |plan.objects|)
  }

  /** Everything planned is there, owned by the plan, and not being deleted. */
  ghost predicate AllStanding(objects: seq<ObjectPlan>, seen: Sightings) {
    && |seen| == |objects|
    && forall i :: 0 <= i < |seen| ==>
         seen[i].Some? && Owns(objects[i].expected, seen[i].value.tags) && !seen[i].value.deleting
  }

  lemma OwnedMeansStanding(objects: seq<ObjectPlan>, seen: Sightings)
    requires |seen| == |objects|
    ensures (forall i :: 0 <= i < |seen| ==> Observations(objects, seen)[i].state == PresentOwned) <==>
      AllStanding(objects, seen)
  {
    hide Owns, OwnershipMismatch;
    forall i | 0 <= i < |seen|
      ensures Observations(objects, seen)[i].state == PresentOwned <==>
              seen[i].Some? && Owns(objects[i].expected, seen[i].value.tags) && !seen[i].value.deleting
    {
    }
  }

  lemma StandingIsOwned(objects: seq<ObjectPlan>, seen: Sightings)
    ensures AllStanding(objects, seen) ==> AllOwned(objects, seen)
  {
    hide Owns;
  }

  predicate AllPresentOwned(observations: seq<Observation>) {
    forall i :: 0 <= i < |observations| ==> observations[i].state == PresentOwned
  }

  /** Wait for the backend and look again: success means it was ready, and then everything was owned and standing. */
  method Verify(cluster: C.Cluster, plan: ProjectionPlan)
    returns (r: Result<(), E.ReconcileError>, ghost again: Sightings)
    requires cluster.Valid()
    modifies cluster
    ensures cluster.Valid() && cluster.answers == old(cluster.answers)
    ensures r.Err? ==> r.error.Projection?
    ensures r.Ok? ==>
      && |again| == |plan.objects| && AllStanding(plan.objects, again)
      && cluster.log == old(cluster.log) + [C.BackendReady] + Inspections(plan.objects, again)
    ensures old(cluster.script) == [] ==>
      && cluster.script == [] && cluster.world == old(cluster.world)
      && (r.Ok? <==> AllStanding(plan.objects, SeenIn(old(cluster.world), plan.objects)))
  {
    hide C.Cluster.Valid, C.Onward, Genuine, Observations, Inspections, NoAttempts, AllStanding, SeenIn;
    again := [];
    var ready := cluster.Confirm(C.BackendReady);
    if ready.Err? {
      var unready := Projection.Failed(ReadinessRef(plan), Unready, "readiness_wait_failed");
      var failure := E.NotReady(PlanRefs(plan), ready.error);
      return Err(E.Projection(E.ReadinessError([unready], failure))), again;
    }
    var observations;
    observations, again := Inspect(cluster, plan);
    if observations.Err? {
      return Err(E.Projection(observations.error)), again;
    }
    CountsMatch(cluster.log, plan, again);
    var conflicts := Conflicts(observations.value);
    OwnedMeansStanding(plan.objects, again);
    NoConflictsMeansOwned(plan.objects, again);
    StandingIsOwned(plan.objects, again);
    if conflicts != [] {
      return Err(E.Projection(E.OwnershipConflict(conflicts))), again;
    }
    if !AllPresentOwned(observations.value) {
      return Err(E.Projection(E.Incomplete(observations.value))), again;
    }
    r := Ok(());
  }

  /** The plan can be applied, and all of it stands then. */
  ghost predicate Projectable(w: C.World, plan: ProjectionPlan) {
    Appliable(w, plan) && AllStanding(plan.objects, SeenIn(C.Worked(w, CalmTrace(w, plan)), plan.objects))
  }

  /** Apply a plan, then verify it. */
  method ProjectPlan(cluster: C.Cluster, plan: ProjectionPlan) returns (r: Result<(), E.ReconcileError>)
    requires cluster.Valid()
    modifies cluster
    ensures cluster.Valid()
    ensures r.Ok? ==> Projected(old(cluster.log), cluster.log, cluster.chronicle, plan)
    ensures r.Err? ==> r.error.Projection?
    ensures old(cluster.script) == [] ==> cluster.script == []
    ensures old(cluster.script) == [] && Projectable(old(cluster.world), plan) ==>
      r.Ok? && cluster.world == C.Worked(old(cluster.world), CalmTrace(old(cluster.world), plan))
  {
    hide C.Cluster.Valid, C.Onward, AllOwned, Observations, Inspections, Trace, Reports, Renderable, NoAttempts;
    hide Appliable, CalmTrace, C.Worked, SeenIn;
    hide AllStanding, C.AllOk, C.AllTook, TookUpTo, Projected;
    var applied, seen, steps := Apply(cluster, plan);
    if applied.Err? {
      return Err(E.Projection(applied.error));
    }
    ghost var again;
    r, again := Verify(cluster, plan);
    if r.Ok? {
      WentThrough(cluster, old(cluster.log), plan, seen, again);
    }
  }

  lemma Regrouped<T>(a: seq<T>, b: seq<T>, c: seq<T>)
    ensures a + b + c == a + (b + c)
  {
  }

  lemma WentThrough(cluster: C.Cluster, before: seq<C.Event>, plan: ProjectionPlan, seen: Sightings, again: Sightings)
    requires cluster.Valid() && plan.manifest.Some? && AllOwned(plan.objects, seen)
    requires |again| == |plan.objects| && AllStanding(plan.objects, again)
    requires
      var steps := Trace(plan.manifest.value.objects, Observations(plan.objects, seen), plan);
      && C.AllOk(cluster.answers, steps, |before| + |plan.objects|)
      && cluster.log ==
           before + Inspections(plan.objects, seen) + steps + [C.BackendReady] + Inspections(plan.objects, again)
    ensures Projected(before, cluster.log, cluster.chronicle, plan)
  {
    hide C.Cluster.Valid, Observations, Inspections, Trace, AllStanding, C.AllOk, C.AllTook, C.Deletes;
    var steps := Trace(plan.manifest.value.objects, Observations(plan.objects, seen), plan);
    TraceDeletesNothing(plan.manifest.value.objects, Observations(plan.objects, seen), plan);
    var first, ready, last := before + Inspections(plan.objects, seen), [C.BackendReady],
      Inspections(plan.objects, again);
    Regrouped(first + steps, ready, last);
    OkTook(cluster, first, steps, ready + last);
  }

  /** The wake of the row is over: the instance runs, served by the row. */
  ghost predicate Served(s: Store, s': Store, target: string, row: Row) {
    && s'.instance == Some(Instance(Running, row.stamp + 1)) && target in s.rows
    && s'.rows == s.rows[target := s.rows[target].(state := ReadyRow, stamp := row.stamp + 1, lease := None)]
  }

  lemma CompletesMine(s: Store, target: string, row: Row)
    requires row.lease.Some? && row.state == PendingRow
    ensures
      var complete := OpCompleteWake(target, ClaimOf(row));
      && (Perform(s, complete).Err? ==> Step(s, complete) == s)
      && (Mine(s, target, row) && s.instance == Some(Instance(Waking, row.stamp)) ==>
            Perform(s, complete).Ok? && Served(s, Step(s, complete), target, row))
  {
  }

  /** What a failure of projection before the cluster is asked says about the manifest. */
  ghost predicate PendingCause(m: M.Materialization, rendered: Option<M.Manifest>, render: Renderer,
                               error: E.ReconcileError) {
    && (error == E.Render ==> rendered.None?)
    && (error.Materializer? ==> rendered.Some? && !Plannable(m, rendered.value))
    && (error == E.StaleDesiredRefs ==>
          rendered.Some? && PlanRefs(PlanOf(m, rendered.value, render)) != m.renderedObjects)
  }

  /** What becomes of a Pending row whose wake is on, if nobody else is there. */
  ghost predicate ProjectAlone(s: Store, w: C.World, s': Store, w': C.World, target: string, row: Row,
                               m: M.Materialization, rendered: Option<M.Manifest>, render: Renderer,
                               r: DriveResult) {
    if rendered.None? then r == GaveUp(E.Render)
    else if !Plannable(m, rendered.value) then r.GaveUp? && r.error.Materializer?
    else
      var plan := PlanOf(m, rendered.value, render);
      if PlanRefs(plan) != m.renderedObjects then r == GaveUp(E.StaleDesiredRefs)
      else Projectable(w, plan) ==>
        && r == Woken(Instance(Running, row.stamp + 1)) && Served(s, s', target, row)
        && w' == C.Worked(w, CalmTrace(w, plan))
  }

  /** What becomes of a Pending row if nobody else is there: it is projected if its wake is on, else cleaned up. */
  ghost predicate PendingAlone(s: Store, w: C.World, s': Store, w': C.World, target: string, row: Row,
                               m: M.Materialization, rendered: Option<M.Manifest>, render: Renderer,
                               r: DriveResult) {
    if s.instance == Some(Instance(Waking, row.stamp)) then
      ProjectAlone(s, w, s', w', target, row, m, rendered, render, r)
    else Deletable(w, FromRecordedRefs(m)) ==> r == Cleaned && Marked(s, s', target) && w' == Emptied(w, m)
  }

  /**
   Drive a Pending row: read the instance, then project and complete, or clean
   up. `rendered` is the manifest rendered for the projected instance. Success
   means that the row's own plan was applied in full and then seen owned and
   standing, and that the very wake the row was stamped for went on to Running.
   The row is never found on an instance of its generation that is not waking.
   */
  method DrivePending(server: StoreServer, cluster: C.Cluster, target: string, row: Row, m: M.Materialization,
                      rendered: Option<M.Manifest>, render: Renderer, ghost at: Store)
    returns (r: DriveResult)
    requires server.Valid() && cluster.Valid() && Inv(at) && Grows(at, server.store)
    requires target in at.rows && at.rows[target].state == PendingRow && row.state == PendingRow
    requires row.stamp == at.rows[target].stamp && row.lease.Some? && m.projectionGeneration == row.projection
    modifies server, cluster
    ensures server.Valid() && cluster.Valid() && Grows(old(server.store), server.store)
    ensures !r.Drained? && (!r.GaveUp? ==> GivenBack(server.store, target))
    ensures r == Cleaned ==> TornDown(old(cluster.log), cluster.log, FromRecordedRefs(m))
    ensures r.Woken? ==>
      && rendered.Some? && Plannable(m, rendered.value)
      && PlanRefs(PlanOf(m, rendered.value, render)) == m.renderedObjects
      && Projected(old(cluster.log), cluster.log, cluster.chronicle, PlanOf(m, rendered.value, render))
    ensures r.Woken? ==>
      && r.instance == Instance(Running, row.stamp + 1) && server.store.instance == Some(r.instance)
      && WasAt(server.store, row.stamp, Waking)
    ensures r.GaveUp? ==> PendingCause(m, rendered, render, r.error)
    ensures old(Alone(server, cluster)) ==> Alone(server, cluster) && (r.GaveUp? ==> server.store == old(server.store))
    ensures old(Alone(server, cluster) && Mine(server.store, target, row)) ==>
      PendingAlone(old(server.store), old(cluster.world), server.store, cluster.world, target, row, m, rendered,
                   render, r)
  {
    hide Inv, Fenced, Grows, Undisturbed, C.Cluster.Valid, TornDown;
    hide FromRecordedRefs, Projected, Plannable, PlanOf, PlanRefs, GivenBack;
    hide Mine, Marked, Deletable, Projectable, Emptied, Served;
    ghost var start := server.store;
    RowHolds(at, target);
    var instance := server.ReadInstance();
    GrowsTransitive(at, start, server.store);
    WasAtLater(at, server.store, row.stamp, Waking);
    NeverDetached(server.store, row.stamp);
    ghost var read := server.store;
    if PlanPending(instance, row.stamp) == CleanUp {
      var deleted := DeleteRecorded(server, cluster, target, row, m);
      GrowsTransitive(start, read, server.store);
      if deleted.Err? {
        return GaveUp(deleted.error);
      }
      read := server.store;
      r := MarkRowDeleted(server, target, row);
      GrowsTransitive(start, read, server.store);
      return;
    }
    assert PlanPending(instance, row.stamp) == Project;
    r := ProjectAndComplete(server, cluster, target, row, m, rendered, render);
    GrowsTransitive(start, read, server.store);
  }

  /** Render, plan and project, then complete the wake. */
  method ProjectAndComplete(server: StoreServer, cluster: C.Cluster, target: string, row: Row, m: M.Materialization,
                            rendered: Option<M.Manifest>, render: Renderer)
    returns (r: DriveResult)
    requires server.Valid() && cluster.Valid() && row.lease.Some? && row.state == PendingRow
    modifies server, cluster
    ensures server.Valid() && cluster.Valid() && Grows(old(server.store), server.store)
    ensures (r.Woken? || r.GaveUp?) && (r.Woken? ==> GivenBack(server.store, target))
    ensures r.Woken? ==>
      && rendered.Some? && Plannable(m, rendered.value)
      && PlanRefs(PlanOf(m, rendered.value, render)) == m.renderedObjects
      && Projected(old(cluster.log), cluster.log, cluster.chronicle, PlanOf(m, rendered.value, render))
      && r.instance == Instance(Running, row.stamp + 1) && server.store.instance == Some(r.instance)
      && WasAt(server.store, row.stamp, Waking)
    ensures r.GaveUp? ==> PendingCause(m, rendered, render, r.error)
    ensures old(Alone(server, cluster)) ==> Alone(server, cluster) && (r.GaveUp? ==> server.store == old(server.store))
    ensures old(Alone(server, cluster) && Mine(server.store, target, row)) ==>
      old(server.store).instance == Some(Instance(Waking, row.stamp)) ==>
        ProjectAlone(old(server.store), old(cluster.world), server.store, cluster.world, target, row, m, rendered,
                     render, r)
  {
    hide Inv, Fenced, Grows, Undisturbed, C.Cluster.Valid, GivenBack, WasAt;
    hide Projected, Plannable, PlanOf, PlanRefs, Mine, Projectable, Served;
    SameGrows(server.store);
    if rendered.None? {
      return GaveUp(E.Render);
    }
    var plan := FromManifest(m, rendered.value, render);
    if plan.Err? {
      return GaveUp(E.Materializer(plan.error));
    }
    if PlanRefs(plan.value) != m.renderedObjects {
      return GaveUp(E.StaleDesiredRefs);
    }
    var projected := ProjectPlan(cluster, plan.value);
    if projected.Err? {
      return GaveUp(projected.error);
    }
    r := CompleteOwnWake(server, target, row);
  }

  /** Renew, then complete the wake the row was claimed for. */
  method CompleteOwnWake(server: StoreServer, target: string, row: Row) returns (r: DriveResult)
    requires server.Valid() && row.lease.Some? && row.state == PendingRow
    modifies server
    ensures server.Valid() && Grows(old(server.store), server.store)
    ensures (r.Woken? || r.GaveUp?) && (r.Woken? ==> GivenBack(server.store, target))
    ensures r.Woken? ==>
      && r.instance == Instance(Running, row.stamp + 1) && server.store.instance == Some(r.instance)
      && WasAt(server.store, row.stamp, Waking)
    ensures r.GaveUp? ==> r.error.LeaseLost? || r.error.Store?
    ensures old(server.script) == [] ==>
      && server.script == [] && (r.GaveUp? ==> server.store == old(server.store))
      && (old(Mine(server.store, target, row) && server.store.instance == Some(Instance(Waking, row.stamp))) ==>
            r == Woken(Instance(Running, row.stamp + 1)) && Served(old(server.store), server.store, target, row))
  {
    hide Inv, Fenced, Grows, Undisturbed, Mine, Served;
    var renewed, at := server.Call(OpRenewLease(target, ClaimOf(row), row.state));
    RenewsMine(at, target, row);
    if renewed.Err? {
      return GaveUp(E.LeaseLost);
    }
    ghost var middle := server.store;
    var completed, before := server.Call(OpCompleteWake(target, ClaimOf(row)));
    CompletesMine(before, target, row);
    GrowsTransitive(old(server.store), middle, server.store);
    match completed
    case Err(error) => r := GaveUp(E.Store(error));
    case Ok(next) =>
      Consumed(before, OpCompleteWake(target, ClaimOf(row)));
      InstanceKnown(before);
      WasAtLater(before, server.store, row.stamp, Waking);
      r := Woken(next.instance.value);
  }

  lemma NeverDetached(s: Store, stamp: nat)
    requires Inv(s) && WasAt(s, stamp, Waking)
    ensures PlanPending(s.instance, stamp) != Detached
  {
    if s.instance.Some? {
      InstanceKnown(s);
    }
  }

  // ---- a whole job -------------------------------------------------------

  /** The driver no longer holds the row, unless an unresolved effect keeps it. */
  ghost predicate LetGo(s: Store, target: string, claim: Claim) {
    Holds(s, target, claim) ==> s.rows[target].effect.Some?
  }

  /** What is recorded of a job that gave up. */
  function FailureOf(target: string, row: Row, error: E.ReconcileError, expired: bool): Op
    requires row.lease.Some?
  {
    OpRecordFailure(target, ClaimOf(row), row.state, E.Permanent(error) || expired)
  }

  lemma ReleaseLetsGo(s: Store, target: string, claim: Claim)
    requires Fenced(s)
    ensures LetGo(Step(s, OpReleaseLease(target, claim)), target, claim)
  {
    if Holds(s, target, claim) {
      assert Settled(s, s.rows[target]);
    }
  }

  lemma FailureLetsGo(s: Store, target: string, row: Row, error: E.ReconcileError, expired: bool)
    requires row.lease.Some? && Perform(s, FailureOf(target, row, error, expired)).Ok?
    ensures LetGo(Step(s, FailureOf(target, row, error, expired)), target, ClaimOf(row))
  {
  }

  /** A failure of the row's holder is always recorded. */
  lemma HolderIsHeard(s: Store, target: string, row: Row, error: E.ReconcileError, expired: bool)
    requires Inv(s) && row.lease.Some? && Holds(s, target, ClaimOf(row)) && s.rows[target].state == row.state
    ensures Perform(s, FailureOf(target, row, error, expired)).Ok?
  {
    hide Inv;
    RowHolds(s, target);
  }

  /** Endings that are not failures of the row. */
  predicate Unrecorded(error: E.ReconcileError) { error.LeaseLost? || error.Cancelled? }

  /**
   A job that gave up at `s` left the store at `s'`: its failure was recorded,
   unless the lease was lost or the job cancelled; and if that did not consume the lease, it was
   released, after whatever others did.
   */
  ghost predicate GaveUpAt(s: Store, s': Store, target: string, row: Row, error: E.ReconcileError, expired: bool)
    requires row.lease.Some?
  {
    if Unrecorded(error) then s' == Step(s, OpReleaseLease(target, ClaimOf(row)))
    else if Perform(s, FailureOf(target, row, error, expired)).Ok? then
      s' == Step(s, FailureOf(target, row, error, expired))
    else exists last :: Leads(s, last) && s' == Step(last, OpReleaseLease(target, ClaimOf(row)))
  }

  /** Record the failure, and release the lease if need be. */
  method GiveUp(server: StoreServer, target: string, row: Row, error: E.ReconcileError, expired: bool)
    returns (ghost at: Store)
    requires server.Valid() && row.lease.Some?
    modifies server
    ensures server.Valid() && Inv(at) && Leads(old(server.store), at) && Grows(old(server.store), at)
    ensures GaveUpAt(at, server.store, target, row, error, expired) && LetGo(server.store, target, ClaimOf(row))
    ensures old(server.script) == [] ==> at == old(server.store) && server.script == []
  {
    hide Inv, Fenced, Grows, Undisturbed, Perform, LetGo, Leads;
    if !Unrecorded(error) {
      var recorded;
      recorded, at := server.Call(FailureOf(target, row, error, expired));
      if recorded.Ok? {
        FailureLetsGo(at, target, row, error, expired);
        return;
      }
    }
    var _, last := server.Call(OpReleaseLease(target, ClaimOf(row)));
    ReleaseLetsGo(last, target, ClaimOf(row));
    if Unrecorded(error) {
      at := last;
    }
  }

  /** What a job that ended well has seen and done. */
  ghost predicate Accomplished(before: seq<C.Event>, after: seq<C.Event>, c: C.Chronicle, s: Store, row: Row,
                               m: M.Materialization, rendered: Option<M.Manifest>, render: Renderer,
                               r: DriveResult) {
    match r
    case Woken(instance) =>
      && instance == Instance(Running, row.stamp + 1) && WasAt(s, row.stamp, Waking)
      && m.projectionGeneration == row.stamp + 1
      && rendered.Some? && Projected(before, after, c, PlanOf(m, rendered.value, render))
    case Drained(instance) =>
      && Slept(s, row.stamp) && WasAt(s, row.stamp + 2, Cold) && TornDown(before, after, FromRecordedRefs(m))
      && (instance == Instance(Cold, row.stamp + 2) || instance == Instance(Waking, row.stamp + 3))
    case Cleaned => TornDown(before, after, FromRecordedRefs(m))
    case GaveUp(_) => true
  }

  /** What a job does if nobody else is there: every row that may be claimed is, and driven by its state. */
  ghost predicate JobAlone(s: Store, w: C.World, s': Store, w': C.World, claim: Op, row: Row, m: M.Materialization,
                           rendered: Option<M.Manifest>, render: Renderer, r: Option<DriveResult>)
    requires claim.OpClaim?
  {
    match Perform(s, claim)
    case Err(_) => r.None? && s' == s && w' == w
    case Ok(claimed) =>
      && claim.target in claimed.rows
      && if claimed.rows[claim.target].projection > U64_MAX then r.None? && s' == claimed && w' == w
         else
           && r.Some? && row == claimed.rows[claim.target]
           && var driven := if r.value.GaveUp? then claimed else s';
              if row.state == PendingRow
              then PendingAlone(claimed, w, driven, w', claim.target, row, m, rendered, render, r.value)
              else DeletingAlone(claimed, w, driven, w', claim.target, row, m, r.value)
  }

  /**
   One scheduled job: claim the row, drive it by its state, and give up if that
   fails. `m` is the claimed row as projection sees it; `expired` is whether its
   deadline has passed. A row whose generation the record type cannot hold
   fails to load and is left alone. However the job ends, it lets go of the row;
   if it gave up, that is on record, which by `HolderIsHeard` is never refused
   to a driver that still holds the row. Without others it does exactly what
   `JobAlone` says.
   */
  method ClaimAndReconcile(server: StoreServer, cluster: C.Cluster, target: string, owner: string, due: bool,
                           id: string, instanceId: string, refs: seq<M.ObjectRef>,
                           rendered: Option<M.Manifest>, render: Renderer, expired: bool)
    returns (r: Option<DriveResult>, ghost row: Row, m: M.Materialization, ghost at: Store)
    requires server.Valid() && cluster.Valid()
    modifies server, cluster
    ensures server.Valid() && cluster.Valid()
    ensures r.None? ==> cluster.log == old(cluster.log) && cluster.world == old(cluster.world)
    ensures m.id == id && m.instanceId == instanceId && m.renderedObjects == refs
    ensures r.Some? ==> row.lease.Some? && row.lease.value.owner == owner && LetGo(server.store, target, ClaimOf(row))
    ensures r.Some? ==>
      Accomplished(old(cluster.log), cluster.log, cluster.chronicle, server.store, row, m, rendered, render, r.value)
    ensures r.Some? && r.value.GaveUp? ==>
      && Inv(at) && Grows(old(server.store), at)
      && GaveUpAt(at, server.store, target, row, r.value.error, expired)
      && (row.state == PendingRow ==> PendingCause(m, rendered, render, r.value.error))
      && (old(Alone(server, cluster)) ==> at == Step(old(server.store), OpClaim(target, owner, due)))
    ensures old(Alone(server, cluster)) ==>
      && Alone(server, cluster)
      && JobAlone(old(server.store), old(cluster.world), server.store, cluster.world, OpClaim(target, owner, due),
                  row, m, rendered, render, r)
  {
    hide Inv, Fenced, Grows, Slept, Undisturbed, C.Cluster.Valid, GivenBack, LetGo, Perform, GaveUpAt, WasAt;
    hide TornDown, FromRecordedRefs, Projected, Plannable, PlanOf, PendingCause, DeletingAlone, PendingAlone, Mine;
    m := M.Materialization(id, instanceId, 0, refs);
    var claimed;
    claimed, at := ClaimWork(server, target, owner, due);
    if claimed.None? || claimed.value.projection > U64_MAX {
      row := NoRow();
      return None, row, m, at;
    }
    row, m := claimed.value, M.Materialization(id, instanceId, claimed.value.projection, refs);
    RowHolds(at, target);
    var result;
    ghost var start := server.store;
    if claimed.value.state == PendingRow {
      result := DrivePending(server, cluster, target, claimed.value, m, rendered, render, at);
    } else {
      result := DriveDeleting(server, cluster, target, claimed.value, m);
    }
    GrowsTransitive(old(server.store), start, server.store);
    if result.GaveUp? {
      ghost var before := server.store;
      at := GiveUp(server, target, claimed.value, result.error, expired);
      GrowsTransitive(old(server.store), before, at);
    } else {
      BackMeansLetGo(server.store, target, ClaimOf(row));
    }
    r := Some(result);
  }

  ghost function NoRow(): Row { Row(DeletedRow, 0, 0, 0, None, None) }

  lemma BackMeansLetGo(s: Store, target: string, claim: Claim)
    requires GivenBack(s, target)
    ensures LetGo(s, target, claim)
  {
  }
}
