/** Deleting what a plan owns, and nothing else. */
module Teardown {
  import opened Prelude
  import opened Manifests
  import opened Stamps
  import opened ClientErrors
  import opened Planning
  import opened Plans
  import opened Cluster
  import opened Projection
  import opened Rollout

  /** Every volume seen keeps its storage when released. */
  ghost predicate VolumesRetained(objects: seq<ObjectPlan>, seen: Sightings) {
    && |seen| == |objects|
    && forall i :: 0 <= i < |seen| && seen[i].Some? && objects[i].objectRef.kind == "PersistentVolume" ==>
         seen[i].value.reclaimPolicy == Some("Retain")
  }

  predicate IsUnsafe(o: Observation) {
    o.objectRef.kind == "PersistentVolume" && o.state != Missing && o.reclaimPolicy != Some("Retain")
  }

  function UnsafeVolumes(observations: seq<Observation>): (r: seq<Observation>)
    ensures r == [] <==> forall i :: 0 <= i < |observations| ==> !IsUnsafe(observations[i])
  {
    if observations == [] then []
    else
      var o := observations[|observations| - 1];
      var rest := UnsafeVolumes(observations[..|observations| - 1]);
      if IsUnsafe(o)
      then rest + [Observation(o.objectRef, DeleteBlocked, Some("managed_volume_requires_retain_before_cleanup"), None,
        None, o.finalizers)]
      else rest
  }

  lemma SafeMeansRetained(objects: seq<ObjectPlan>, seen: Sightings)
    requires |seen| == |objects|
    ensures UnsafeVolumes(Observations(objects, seen)) == [] <==> VolumesRetained(objects, seen)
  {
    hide Owns, OwnershipMismatch;
    forall i | 0 <= i < |seen|
      ensures IsUnsafe(Observations(objects, seen)[i]) <==>
              seen[i].Some? && objects[i].objectRef.kind == "PersistentVolume"
                && seen[i].value.reclaimPolicy != Some("Retain")
    {
    }
  }

  /** What to ask for one reference: delete the version seen, if it was owned and not already going. */
  function DeleteRequest(target: ObjectRef, observations: seq<Observation>, plan: ProjectionPlan): (r: Option<Request>)
    requires forall o :: o in observations && o.state == PresentOwned ==> o.identity.Some?
  {
    match Noted(observations, target)
    case None => None
    case Some(o) => if o.state == PresentOwned then Some(Request(Delete(target, o.identity.value), plan)) else None
  }

  /** The requests of a stretch of references, in order. */
  function DeleteRequests(targets: seq<ObjectRef>, observations: seq<Observation>, plan: ProjectionPlan): seq<Event>
    requires forall o :: o in observations && o.state == PresentOwned ==> o.identity.Some?
  {
    if targets == [] then []
    else
      var n := |targets| - 1;
      DeleteRequests(targets[..n], observations, plan) + AttemptOf(DeleteRequest(targets[n], observations, plan))
  }

  function AttemptOf(r: Option<Request>): seq<Event> { if r.Some? then [Attempted(r.value)] else [] }

  lemma OwnedHasIdentity(objects: seq<ObjectPlan>, seen: Sightings)
    requires |seen| == |objects|
    ensures forall o :: o in Observations(objects, seen) && o.state == PresentOwned ==> o.identity.Some?
  {
    hide Owns, OwnershipMismatch;
  }

  lemma DeleteLicensed(log: seq<Event>, plan: ProjectionPlan, seen: Sightings, target: ObjectRef)
    requires Genuine(log, plan.objects, seen) && AllOwned(plan.objects, seen) && VolumesRetained(plan.objects, seen)
    requires forall o :: o in Observations(plan.objects, seen) && o.state == PresentOwned ==> o.identity.Some?
    ensures
      var r := DeleteRequest(target, Observations(plan.objects, seen), plan);
      r.Some? ==> r.value.effect.target == target && Licensed(r.value, log)
  {
    hide Owns;
    var observations := Observations(plan.objects, seen);
    var r := DeleteRequest(target, observations, plan);
    if r.Some? {
      var i := NotedSighting(plan.objects, seen, target);
      assert PlanOwns(plan, target, seen[i].value.tags);
      LicenseFrom(r.value, log, Inspected(target, seen[i]));
    }
  }

  lemma RequestsGrow(targets: seq<ObjectRef>, i: nat, observations: seq<Observation>, plan: ProjectionPlan)
    requires i < |targets|
    requires forall o :: o in observations && o.state == PresentOwned ==> o.identity.Some?
    ensures DeleteRequests(targets[..i + 1], observations, plan) ==
      DeleteRequests(targets[..i], observations, plan) + AttemptOf(DeleteRequest(targets[i], observations, plan))
  {
    hide DeleteRequest, AttemptOf;
    assert targets[..i + 1][..i] == targets[..i];
  }

  /**
   Issue the delete requests in order, stopping at the first failure; `done`
   targets were dealt with, and all requests but a failing last one answered
   with success.
   */
  method DeleteAll(cluster: Cluster, targets: seq<ObjectRef>, observations: seq<Observation>, plan: ProjectionPlan,
                   ghost seen: Sightings)
    returns (r: Result<(), ProjectionError>, ghost done: nat)
    requires cluster.Valid() && Genuine(cluster.log, plan.objects, seen)
    requires AllOwned(plan.objects, seen) && VolumesRetained(plan.objects, seen)
    requires observations == Observations(plan.objects, seen)
    requires forall o :: o in observations && o.state == PresentOwned ==> o.identity.Some?
    modifies cluster
    ensures cluster.Valid() && Onward(old(cluster.Now()), cluster.Now())
    ensures done <= |targets| && cluster.log == old(cluster.log) + DeleteRequests(targets[..done], observations, plan)
    ensures r.Ok? ==> done == |targets|
    ensures r.Err? ==>
      && r.error.DeleteError? && r.error.failure.DeleteFailed?
      && done > 0 && r.error.failure.failed == targets[done - 1]
    ensures Keeps(old(cluster.answers), cluster.answers)
    ensures r.Ok? ==> AllOk(cluster.answers, DeleteRequests(targets, observations, plan), |old(cluster.log)|)
    ensures r.Err? ==>
      && AllOk(cluster.answers, DeleteRequests(targets[..done - 1], observations, plan), |old(cluster.log)|)
      && cluster.log != old(cluster.log) && |cluster.log| - 1 in cluster.answers
      && cluster.answers[|cluster.log| - 1] == Err(r.error.failure.source)
    ensures old(cluster.script) == [] ==>
      && cluster.script == []
      && (AllLand(old(cluster.world), DeleteRequests(targets, observations, plan)) ==>
            r.Ok? && cluster.world == Worked(old(cluster.world), DeleteRequests(targets, observations, plan)))
  {
    hide Cluster.Valid, Onward, Genuine, AllOwned, VolumesRetained;
    hide Observations, DeleteRequests, DeleteRequest, Licensed, Keeps, AllOk, AllLand, Worked, Lands, After;
    SameIsOnward(cluster.Now());
    NothingWorked(cluster.world);
    ghost var trace := DeleteRequests(targets, observations, plan);
    SameKeeps(cluster.answers);
    NothingIsOk(cluster.answers, |cluster.log|);
    NoRequests(observations, plan);
    assert targets[..0] == [];
    for i := 0 to |targets|
      invariant cluster.Valid() && Genuine(cluster.log, plan.objects, seen) && Onward(old(cluster.Now()), cluster.Now())
      invariant cluster.log == old(cluster.log) + DeleteRequests(targets[..i], observations, plan)
      invariant Keeps(old(cluster.answers), cluster.answers)
      invariant AllOk(cluster.answers, DeleteRequests(targets[..i], observations, plan), |old(cluster.log)|)
      invariant old(cluster.script) == [] ==> cluster.script == []
      invariant old(cluster.script) == [] && AllLand(old(cluster.world), trace) ==>
        cluster.world == Worked(old(cluster.world), DeleteRequests(targets[..i], observations, plan))
    {
      ghost var earlier := DeleteRequests(targets[..i], observations, plan);
      RequestsGrow(targets, i, observations, plan);
      DeleteLands(old(cluster.world), targets, i, observations, plan);
      var request := DeleteRequest(targets[i], observations, plan);
      if request.Some? {
        DeleteLicensed(cluster.log, plan, seen, targets[i]);
        ghost var before, logged, told := cluster.Now(), cluster.log, cluster.answers;
        var result, _, _ := cluster.Mutate(request.value);
        KeepsTransitive(old(cluster.answers), told, cluster.answers);
        OneMore(told, cluster.answers, earlier, request.value, |old(cluster.log)|);
        GenuineLater(logged, cluster.log, plan.objects, seen);
        OnwardTransitive(old(cluster.Now()), before, cluster.Now());
        if result.Err? {
          done := i + 1;
          StillOk(told, cluster.answers, earlier, |old(cluster.log)|);
          var blocked := Failed(targets[i], DeleteBlocked, "delete_request_failed");
          return Err(DeleteError([blocked], DeleteFailed(targets[i], result.error))), done;
        }
      } else {
        assert earlier + [] == earlier;
      }
    }
    done := |targets|;
    assert targets[..|targets|] == targets;
    r := Ok(());
  }

  lemma {:induction false} RequestsPrefix(targets: seq<ObjectRef>, i: nat, observations: seq<Observation>,
                                          plan: ProjectionPlan)
    requires i <= |targets| && forall o :: o in observations && o.state == PresentOwned ==> o.identity.Some?
    ensures DeleteRequests(targets[..i], observations, plan) <= DeleteRequests(targets, observations, plan)
    decreases |targets|
  {
    hide DeleteRequest, DeleteRequests, AttemptOf;
    if i == |targets| {
      assert targets[..i] == targets;
    } else {
      var n := |targets| - 1;
      RequestsPrefix(targets[..n], i, observations, plan);
      assert targets[..n][..i] == targets[..i] && targets[..n + 1] == targets;
      RequestsGrow(targets, n, observations, plan);
    }
  }

  lemma DeleteLands(w: World, targets: seq<ObjectRef>, i: nat, observations: seq<Observation>, plan: ProjectionPlan)
    requires i < |targets| && forall o :: o in observations && o.state == PresentOwned ==> o.identity.Some?
    ensures
      var done, r := DeleteRequests(targets[..i], observations, plan), DeleteRequest(targets[i], observations, plan);
      AllLand(w, DeleteRequests(targets, observations, plan)) && r.Some? ==>
        && Lands(Worked(w, done), r.value.effect)
        && Worked(w, done + [Attempted(r.value)]) == After(Worked(w, done), r.value.effect)
  {
    hide DeleteRequest, DeleteRequests, AllLand, Worked, Lands, After;
    var done, r := DeleteRequests(targets[..i], observations, plan), DeleteRequest(targets[i], observations, plan);
    if AllLand(w, DeleteRequests(targets, observations, plan)) && r.Some? {
      RequestsGrow(targets, i, observations, plan);
      RequestsPrefix(targets, i + 1, observations, plan);
      LandsNext(w, done, [Attempted(r.value)], DeleteRequests(targets, observations, plan));
      WorkedOne(Worked(w, done), r.value);
    }
  }

  lemma StillOk(answers: Answers, later: Answers, steps: seq<Event>, from: nat)
    requires AllOk(answers, steps, from) && Keeps(answers, later)
    ensures AllOk(later, steps, from)
  {
  }

  lemma NoRequests(observations: seq<Observation>, plan: ProjectionPlan)
    requires forall o :: o in observations && o.state == PresentOwned ==> o.identity.Some?
    ensures DeleteRequests([], observations, plan) == []
  {
  }

  /** What still stands in the way, as reported to the caller. */
  function Blocked(o: Observation): Option<Observation> {
    match o.state
    case Missing => None
    case PresentOwned => Some(Observation(o.objectRef, DeleteBlocked, Some("delete_pending"), None, None, o.finalizers))
    case DeletingOwned =>
      var reason := if o.finalizers == [] then "deletion_in_progress" else "finalizers_blocking";
      Some(Observation(o.objectRef, DeleteBlocked, Some(reason), None, None, o.finalizers))
    case _ => Some(o)
  }

  function AllBlocked(observations: seq<Observation>): (r: seq<Observation>)
    ensures r == [] <==> forall i :: 0 <= i < |observations| ==> observations[i].state == Missing
  {
    if observations == [] then []
    else
      var rest := AllBlocked(observations[..|observations| - 1]);
      match Blocked(observations[|observations| - 1])
      case Some(b) => rest + [b]
      case None => rest
  }

  /** The checks that have to pass before anything is deleted. */
  ghost predicate Cleared(objects: seq<ObjectPlan>, seen: Sightings) {
    AllOwned(objects, seen) && VolumesRetained(objects, seen)
  }

  /**
   The first phase: inspect and check. It attempts nothing; success means every
   object seen is owned, every volume retained, and the bindings were verified.
   */
  method Check(cluster: Cluster, plan: ProjectionPlan)
    returns (r: Result<seq<Observation>, ProjectionError>, ghost seen: Sightings, ghost events: seq<Event>)
    requires cluster.Valid()
    modifies cluster
    ensures cluster.Valid() && Onward(old(cluster.Now()), cluster.Now())
    ensures cluster.log == old(cluster.log) + events && NoAttempts(events)
    ensures r.Ok? ==>
      && Genuine(cluster.log, plan.objects, seen) && Cleared(plan.objects, seen)
      && r.value == Observations(plan.objects, seen)
      && events == Inspections(plan.objects, seen) + [BindingsVerified]
    ensures r.Err? ==> !r.error.DeleteError?
    ensures r.Err? && r.error.OwnershipConflict? ==> |seen| == |plan.objects| && !AllOwned(plan.objects, seen)
    ensures r.Err? && r.error.CleanupBlocked? ==> |seen| == |plan.objects| && !VolumesRetained(plan.objects, seen)
    ensures old(cluster.script) == [] ==>
      && cluster.script == [] && cluster.Now() == old(cluster.Now())
      && seen == SeenIn(old(cluster.world), plan.objects) && (r.Ok? <==> Cleared(plan.objects, seen))
  {
    hide Cluster.Valid, Onward, Genuine, AllOwned, VolumesRetained, Observations, Inspections;
    var observations;
    observations, seen := Inspect(cluster, plan);
    if observations.Err? {
      events :| cluster.log == old(cluster.log) + events && NoAttempts(events);
      return Err(observations.error), seen, events;
    }
    CountsMatch(cluster.log, plan, seen);
    InspectingAttemptsNothing(plan.objects, seen);
    events := Inspections(plan.objects, seen);
    NoConflictsMeansOwned(plan.objects, seen);
    SafeMeansRetained(plan.objects, seen);
    var conflicts := Conflicts(observations.value);
    if conflicts != [] {
      return Err(OwnershipConflict(conflicts)), seen, events;
    }
    var volumes := UnsafeVolumes(observations.value);
    if volumes != [] {
      return Err(CleanupBlocked(volumes)), seen, events;
    }
    ghost var middle, logged := cluster.Now(), cluster.log;
    var verified := cluster.Confirm(BindingsVerified);
    OnwardTransitive(old(cluster.Now()), middle, cluster.Now());
    GenuineLater(logged, cluster.log, plan.objects, seen);
    if verified.Err? {
      var unproven := Failed(ReadinessRef(plan), DeleteBlocked, "retained_static_binding_not_proven");
      return Err(InspectError(ReadinessRef(plan), [unproven], verified.error)), seen, events;
    }
    events := events + [BindingsVerified];
    r := Ok(observations.value);
  }

  /** The last phase: look again; success means everything was seen missing and nothing is left below it. */
  method Settle(cluster: Cluster, plan: ProjectionPlan)
    returns (r: Result<(), ProjectionError>, ghost seen: Sightings, ghost events: seq<Event>)
    requires cluster.Valid()
    modifies cluster
    ensures cluster.Valid() && Onward(old(cluster.Now()), cluster.Now())
    ensures cluster.log == old(cluster.log) + events && NoAttempts(events)
    ensures r.Ok? ==>
      && |seen| == |plan.objects| && (forall i :: 0 <= i < |seen| ==> seen[i].None?)
      && events == Inspections(plan.objects, seen) + [NoDescendants]
    ensures r.Err? ==> !r.error.DeleteError?
    ensures cluster.answers == old(cluster.answers)
    ensures old(cluster.script) == [] ==>
      && cluster.script == [] && cluster.Now() == old(cluster.Now())
      && (r.Ok? <==>
            forall i :: 0 <= i < |plan.objects| ==> LookIn(old(cluster.world), plan.objects[i].objectRef).None?)
  {
    hide Cluster.Valid, Onward, Genuine, Inspections, Owns, OwnershipMismatch;
    var observations;
    observations, seen := Inspect(cluster, plan);
    if observations.Err? {
      events :| cluster.log == old(cluster.log) + events && NoAttempts(events);
      return Err(observations.error), seen, events;
    }
    CountsMatch(cluster.log, plan, seen);
    InspectingAttemptsNothing(plan.objects, seen);
    events := Inspections(plan.objects, seen);
    var conflicts := Conflicts(observations.value);
    if conflicts != [] {
      return Err(OwnershipConflict(conflicts)), seen, events;
    }
    var blocked := AllBlocked(observations.value);
    if blocked != [] {
      return Err(CleanupBlocked(blocked)), seen, events;
    }
    forall i | 0 <= i < |seen| ensures seen[i].None? {
      assert observations.value[i].state == Missing;
    }
    ghost var middle := cluster.Now();
    var none := cluster.Confirm(NoDescendants);
    OnwardTransitive(old(cluster.Now()), middle, cluster.Now());
    if none.Err? {
      var remaining := Failed(ReadinessRef(plan), DeleteBlocked, "descendants_remain_or_inspection_failed");
      return Err(InspectError(ReadinessRef(plan), [remaining], none.error)), seen, events;
    }
    events := events + [NoDescendants];
    r := Ok(());
  }

  /**
   Delete everything a plan owns. Nothing is attempted unless the checks passed;
   then exactly the owned, standing objects are asked for, in delete order, each
   only after the one before was answered with success; and success means that
   after the last request every reference was seen missing and no descendants
   remained.
   */
  method DeleteOwned(cluster: Cluster, plan: ProjectionPlan)
    returns (r: Result<(), ProjectionError>, ghost seen: Sightings, ghost checks: seq<Event>, ghost done: nat,
             ghost again: Sightings, ghost rest: seq<Event>)
    requires cluster.Valid()
    modifies cluster
    ensures cluster.Valid() && Onward(old(cluster.Now()), cluster.Now())
    ensures NoAttempts(checks) && NoAttempts(rest)
    ensures cluster.log == old(cluster.log) + checks || (
      && Cleared(plan.objects, seen)
      && checks == Inspections(plan.objects, seen) + [BindingsVerified]
      && done <= |DeleteOrder(PlanRefs(plan))|
      && Identified(Observations(plan.objects, seen))
      && cluster.log == old(cluster.log) + checks
           + DeleteRequests(DeleteOrder(PlanRefs(plan))[..done], Observations(plan.objects, seen), plan) + rest)
    ensures r.Ok? ==>
      && Cleared(plan.objects, seen)
      && checks == Inspections(plan.objects, seen) + [BindingsVerified]
      && |again| == |plan.objects| && (forall i :: 0 <= i < |again| ==> again[i].None?)
      && rest == Inspections(plan.objects, again) + [NoDescendants]
      && Identified(Observations(plan.objects, seen))
      && cluster.log == old(cluster.log) + checks
           + DeleteRequests(DeleteOrder(PlanRefs(plan)), Observations(plan.objects, seen), plan) + rest
      && AllOk(cluster.answers, DeleteRequests(DeleteOrder(PlanRefs(plan)), Observations(plan.objects, seen), plan),
               |old(cluster.log)| + |checks|)
    ensures r.Err? && r.error.DeleteError? ==>
      && 0 < done <= |DeleteOrder(PlanRefs(plan))| && |seen| == |plan.objects|
      && Identified(Observations(plan.objects, seen))
      && AllOk(cluster.answers,
               DeleteRequests(DeleteOrder(PlanRefs(plan))[..done - 1], Observations(plan.objects, seen), plan),
               |old(cluster.log)| + |checks|)
    ensures old(cluster.script) == [] ==> cluster.script == []
    ensures old(cluster.script) == [] && Deletable(old(cluster.world), plan) ==>
      r.Ok? && cluster.world == Worked(old(cluster.world), CalmDeletes(old(cluster.world), plan))
  {
    hide Cluster.Valid, Onward, Genuine, AllOwned, VolumesRetained, Observations;
    hide Inspections, DeleteRequests, NoAttempts, DeleteOrder, PlanRefs, AllOk, Keeps, AllLand, Worked, SeenIn;
    done, again, rest := 0, [], [];
    NothingIsNoAttempt();
    var observations;
    observations, seen, checks := Check(cluster, plan);
    if observations.Err? {
      return Err(observations.error), seen, checks, done, again, rest;
    }
    CountsMatch(cluster.log, plan, seen);
    OwnedHasIdentity(plan.objects, seen);
    ghost var middle := cluster.Now();
    var order := DeleteOrder(PlanRefs(plan));
    r, done := DeleteAll(cluster, order, observations.value, plan, seen);
    OnwardTransitive(old(cluster.Now()), middle, cluster.Now());
    if r.Err? {
      return;
    }
    assert order[..|order|] == order;
    middle := cluster.Now();
    r, again, rest := Settle(cluster, plan);
    OnwardTransitive(old(cluster.Now()), middle, cluster.Now());
  }

  /** The requests of a teardown that nothing comes in between. */
  ghost function CalmDeletes(w: World, plan: ProjectionPlan): seq<Event> {
    var seen := SeenIn(w, plan.objects);
    OwnedHasIdentity(plan.objects, seen);
    DeleteRequests(DeleteOrder(PlanRefs(plan)), Observations(plan.objects, seen), plan)
  }

  /** The checks pass, every request finds what it expects, and then nothing planned is left. */
  ghost predicate Deletable(w: World, plan: ProjectionPlan) {
    && Cleared(plan.objects, SeenIn(w, plan.objects)) && AllLand(w, CalmDeletes(w, plan))
    && forall i :: 0 <= i < |plan.objects| ==> LookIn(Worked(w, CalmDeletes(w, plan)), plan.objects[i].objectRef).None?
  }

  /** What a reconciler may be asked to do, and time passing after it gave up. */
  datatype Job = ApplyJob(plan: ProjectionPlan) | DeleteJob(plan: ProjectionPlan) | Waiting

  /** What is promised of every effect: the attempt behind it, the inspection behind the attempt, and its legitimacy. */
  ghost predicate Traceable(l: Landing, log: seq<Event>) {
    var r := l.sent.request;
    && l.sent.ticket < |log| && log[l.sent.ticket] == Attempted(r)
    && (r.effect.Create? ==> l.found.None?)
    && (!r.effect.Create? ==>
          && l.found.Some? && l.found.value.identity == r.effect.version
          && PlanOwns(r.under, r.effect.target, l.found.value.tags)
          && exists i :: 0 <= i < l.sent.ticket && log[i] == Inspected(r.effect.target, l.found))
    && (r.effect.Delete? && r.effect.target.kind == "PersistentVolume" ==>
          l.found.Some? && l.found.value.reclaimPolicy == Some("Retain"))
  }

  // ---- who changes what --------------------------------------------------

  ghost predicate ByOthers(d: Deed, name: ObjectRef) { !d.Ours? && d.target == name }

  /** The `n`-th deed changes what stands under the name. */
  ghost predicate Alters(c: Chronicle, n: nat, name: ObjectRef)
    requires n < |c.deeds|
  {
    LookIn(Replay(c, n + 1), name) != LookIn(Replay(c, n), name)
  }

  /** Others did it, or a mutation of ours with every right to, which found exactly what stood there. */
  ghost predicate Accountable(d: Deed, name: ObjectRef, stood: Option<LiveObject>, log: seq<Event>) {
    || ByOthers(d, name)
    || (&& d.Ours? && d.landing.sent.request.effect.target == name && d.landing.found == stood
        && Traceable(d.landing, log))
  }

  lemma OnlyThere(w: World, d: Deed, name: ObjectRef)
    requires Fits(w, d) && LookIn(Enact(w, d), name) != LookIn(w, name)
    ensures ByOthers(d, name)
      || (d.Ours? && d.landing.sent.request.effect.target == name && d.landing.found == LookIn(w, name))
  {
  }

  /** Whatever changes under a name is answered for. */
  lemma AlterationAnswered(cluster: Cluster, n: nat, name: ObjectRef)
    requires cluster.Valid() && n < |cluster.chronicle.deeds| && Alters(cluster.chronicle, n, name)
    ensures Accountable(cluster.chronicle.deeds[n], name, LookIn(Replay(cluster.chronicle, n), name), cluster.log)
  {
    hide Consistent, LogTrue, Accounted, AllTruthful, Foretold, LandingsOf, Enact, Fits, Traceable;
    var c := cluster.chronicle;
    assert Fits(Replay(c, n), c.deeds[n]);
    OnlyThere(Replay(c, n), c.deeds[n], name);
    if c.deeds[n].Ours? {
      LandingsCome(c.deeds, c.deeds[n].landing);
      AllTraceable(cluster);
    }
  }

  /** No attempt on the name was made for a plan that owns the object. */
  ghost predicate Unclaimed(log: seq<Event>, name: ObjectRef, live: LiveObject) {
    forall r :: Attempted(r) in log && r.effect.target == name ==> !PlanOwns(r.under, name, live.tags)
  }

  /** The script holds nothing that others do to the name. */
  ghost predicate Spared(script: seq<Turn>, name: ObjectRef) {
    forall d :: d in Scripted(script) ==> !ByOthers(d, name)
  }

  lemma NotRightful(d: Deed, name: ObjectRef, live: LiveObject, log: seq<Event>)
    requires Unclaimed(log, name, live) && !ByOthers(d, name)
    ensures !Accountable(d, name, Some(live), log)
  {
    hide PlanOwns;
  }

  /** What no plan owns and nobody else touches stays as it is. */
  lemma {:induction false} UnclaimedStays(cluster: Cluster, from: nat, n: nat, name: ObjectRef, live: LiveObject)
    requires cluster.Valid() && from <= n <= |cluster.chronicle.deeds| && Unclaimed(cluster.log, name, live)
    requires LookIn(Replay(cluster.chronicle, from), name) == Some(live)
    requires forall k :: from <= k < n ==> !ByOthers(cluster.chronicle.deeds[k], name)
    ensures LookIn(Replay(cluster.chronicle, n), name) == Some(live)
    decreases n
  {
    hide Cluster.Valid, Replay, LookIn, Unclaimed, Accountable, ByOthers;
    if n > from {
      UnclaimedStays(cluster, from, n - 1, name, live);
      if Alters(cluster.chronicle, n - 1, name) {
        AlterationAnswered(cluster, n - 1, name);
        NotRightful(cluster.chronicle.deeds[n - 1], name, live, cluster.log);
      }
    }
  }

  lemma {:induction false} OthersAppend(a: seq<Deed>, b: seq<Deed>)
    ensures OthersOf(a + b) == OthersOf(a) + OthersOf(b)
  {
    if b == [] {
      assert a + b == a;
    } else {
      var n := |b| - 1;
      assert (a + b)[..|a| + n] == a + b[..n];
      OthersAppend(a, b[..n]);
    }
  }

  lemma {:induction false} OthersKept(deeds: seq<Deed>, k: nat)
    requires k < |deeds| && !deeds[k].Ours?
    ensures deeds[k] in OthersOf(deeds)
  {
    if k < |deeds| - 1 {
      OthersKept(deeds[..|deeds| - 1], k);
    }
  }

  /** What others did since was in the script then. */
  lemma OthersScripted(plot: seq<Deed>, earlier: seq<Deed>, script: seq<Turn>, deeds: seq<Deed>, left: seq<Turn>,
                       k: nat)
    requires Foretold(plot, earlier, [], script) && Foretold(plot, deeds, [], left)
    requires earlier <= deeds && |earlier| <= k < |deeds| && !deeds[k].Ours?
    ensures deeds[k] in Scripted(script)
  {
    hide OthersOf, Scripted;
    var since := deeds[|earlier|..];
    assert deeds == earlier + since && since[k - |earlier|] == deeds[k];
    OthersAppend(earlier, since);
    OthersKept(since, k - |earlier|);
    SameTail(OthersOf(earlier), Scripted(script), OthersOf(since), Scripted(left));
  }

  lemma SameTail<T>(a: seq<T>, b: seq<T>, c: seq<T>, d: seq<T>)
    requires a + ([] + b) == (a + c) + ([] + d)
    ensures b == c + d
  {
    assert forall i :: 0 <= i < |b| ==> b[i] == (a + ([] + b))[|a| + i];
    assert forall i :: 0 <= i < |c + d| ==> (c + d)[i] == ((a + c) + ([] + d))[|a| + i];
  }

  lemma Told(cluster: Cluster)
    requires cluster.Valid()
    ensures Foretold(cluster.plot, cluster.chronicle.deeds, [], cluster.script)
    ensures cluster.world == Replay(cluster.chronicle, |cluster.chronicle.deeds|)
  {
    hide Consistent, LogTrue, Accounted, AllTruthful;
  }

  /** The same between two moments: `earlier`, with `script` still to come, and now. */
  lemma UnclaimedSince(cluster: Cluster, earlier: Moment, script: seq<Turn>, name: ObjectRef)
    requires cluster.Valid() && Onward(earlier, cluster.Now())
    requires Foretold(cluster.plot, earlier.chronicle.deeds, [], script)
    requires earlier.world == Replay(earlier.chronicle, |earlier.chronicle.deeds|)
    requires LookIn(earlier.world, name).Some? && Unclaimed(cluster.log, name, LookIn(earlier.world, name).value)
    requires Spared(script, name)
    ensures LookIn(cluster.world, name) == LookIn(earlier.world, name)
  {
    hide Cluster.Valid, Later, Replay, LookIn, Unclaimed, ByOthers, Foretold;
    Told(cluster);
    var c, from := cluster.chronicle, |earlier.chronicle.deeds|;
    ReplaySame(earlier.chronicle, c, from);
    forall k | from <= k < |c.deeds| ensures !ByOthers(c.deeds[k], name) {
      if !c.deeds[k].Ours? {
        OthersScripted(cluster.plot, earlier.chronicle.deeds, script, c.deeds, cluster.script, k);
      } else {
        OursIsNotOthers(c.deeds[k], name);
      }
    }
    UnclaimedStays(cluster, from, |c.deeds|, name, LookIn(earlier.world, name).value);
  }

  lemma OursIsNotOthers(d: Deed, name: ObjectRef)
    requires d.Ours?
    ensures !ByOthers(d, name)
  {
  }

  /**
   Any sequence of jobs for any plans, under any script of interference, lost
   calls, retries and late arrivals. Whatever changed under any name, at any
   point of what became of the cluster, was changed by others or by a mutation
   of ours that found exactly what stood there: one that was attempted, took
   effect only once, and created an absent name or changed the version inspected
   before the attempt, which its plan owns; a volume was deleted only with its
   storage retained. So an object that no plan acting on it owns, and that the
   script spares, is in the end what it was. Of each request, no more took effect
   or may still do so than were attempted.
   */
  method PerformAll(cluster: Cluster, jobs: seq<Job>)
    requires cluster.Valid()
    modifies cluster
    ensures cluster.Valid() && Onward(old(cluster.Now()), cluster.Now())
    ensures forall n, name :: 0 <= n < |cluster.chronicle.deeds| && Alters(cluster.chronicle, n, name) ==>
      Accountable(cluster.chronicle.deeds[n], name, LookIn(Replay(cluster.chronicle, n), name), cluster.log)
    ensures forall name ::
      && LookIn(old(cluster.world), name).Some?
      && Unclaimed(cluster.log, name, LookIn(old(cluster.world), name).value) && Spared(old(cluster.script), name) ==>
        LookIn(cluster.world, name) == LookIn(old(cluster.world), name)
    ensures forall l :: l in cluster.landings ==> Traceable(l, cluster.log)
    ensures forall i, j :: 0 <= i < j < |cluster.landings| ==>
      cluster.landings[i].sent.ticket != cluster.landings[j].sent.ticket
    ensures forall r ::
      multiset(Requests(Landers(cluster.landings)))[r] + multiset(Requests(cluster.inFlight))[r]
        <= multiset(cluster.log)[Attempted(r)]
  {
    hide Cluster.Valid, Onward, Licensed, Genuine, AllOwned, Observations, Inspections, DeleteRequests, NoAttempts;
    hide DeleteOrder, PlanRefs, Reports, Trace, Traceable, TookUpTo, AllTook, AllOk, Foretold, Replay, LookIn;
    hide Unclaimed, Accountable, Alters, Spared;
    Told(cluster);
    SameIsOnward(cluster.Now());
    for i := 0 to |jobs|
      invariant cluster.Valid() && Onward(old(cluster.Now()), cluster.Now())
    {
      ghost var before := cluster.Now();
      match jobs[i] {
        case ApplyJob(plan) => var _, _, _ := Apply(cluster, plan);
        case DeleteJob(plan) => var _, _, _, _, _, _ := DeleteOwned(cluster, plan);
        case Waiting => var _ := cluster.NextTurn();
      }
      OnwardTransitive(old(cluster.Now()), before, cluster.Now());
    }
    AllTraceable(cluster);
    forall n, name | 0 <= n < |cluster.chronicle.deeds| && Alters(cluster.chronicle, n, name)
      ensures Accountable(cluster.chronicle.deeds[n], name, LookIn(Replay(cluster.chronicle, n), name), cluster.log)
    {
      AlterationAnswered(cluster, n, name);
    }
    forall name |
      && LookIn(old(cluster.world), name).Some?
      && Unclaimed(cluster.log, name, LookIn(old(cluster.world), name).value) && Spared(old(cluster.script), name)
      ensures LookIn(cluster.world, name) == LookIn(old(cluster.world), name)
    {
      UnclaimedSince(cluster, old(cluster.Now()), old(cluster.script), name);
    }
    forall r
      ensures multiset(Requests(Landers(cluster.landings)))[r] + multiset(Requests(cluster.inFlight))[r]
              <= multiset(cluster.log)[Attempted(r)]
    {
      AttemptsBound(cluster, r);
    }
  }

  lemma AllTraceable(cluster: Cluster)
    requires cluster.Valid()
    ensures forall l :: l in cluster.landings ==> Traceable(l, cluster.log)
    ensures forall i, j :: 0 <= i < j < |cluster.landings| ==>
      cluster.landings[i].sent.ticket != cluster.landings[j].sent.ticket
  {
    hide Consistent, LogTrue, PlanOwns;
  }

  lemma AttemptsBound(cluster: Cluster, r: Request)
    requires cluster.Valid()
    ensures multiset(Requests(Landers(cluster.landings)))[r] + multiset(Requests(cluster.inFlight))[r]
            <= multiset(cluster.log)[Attempted(r)]
  {
    hide Consistent, LogTrue, Accounted;
    LandingsWithinAttempts(cluster.landings, cluster.inFlight, cluster.log, r);
  }

  ghost predicate Identified(observations: seq<Observation>) {
    forall o :: o in observations && o.state == PresentOwned ==> o.identity.Some?
  }

  lemma NothingIsNoAttempt()
    ensures NoAttempts([])
  {
  }
}
