/** What applying a plan does as a whole. */
module Rollout {
  import opened Prelude
  import opened Manifests
  import opened Stamps
  import opened ClientErrors
  import opened Planning
  import opened Plans
  import opened Cluster
  import opened Projection

  lemma InspectingAttemptsNothing(objects: seq<ObjectPlan>, seen: Sightings)
    requires |seen| == |objects|
    ensures NoAttempts(Inspections(objects, seen))
  {
  }

  function FallbackRef(plan: ProjectionPlan): ObjectRef {
    if plan.objects == [] then ObjectRef("", "", "", "") else plan.objects[0].objectRef
  }

  /** The object readiness problems are reported on. */
  function ReadinessRef(plan: ProjectionPlan): ObjectRef {
    FirstService(plan.objects, FallbackRef(plan))
  }

  function FirstService(objects: seq<ObjectPlan>, otherwise: ObjectRef): ObjectRef {
    if objects == [] then otherwise
    else if objects[0].objectRef.kind == "Service" && objects[0].objectRef.apiVersion == "v1" then objects[0].objectRef
    else FirstService(objects[1..], otherwise)
  }

  function Rejected(plan: ProjectionPlan, e: MaterializerError): Observation {
    match e
    case ApplyFailed(failed, _, _) => Failed(failed, ApplyRejected, "apply_rejected")
    case ClaimNotBound(namespace, name, _, _) =>
      Failed(ObjectRef("v1", "PersistentVolumeClaim", namespace, name), ApplyRejected, "pvc_bound_wait_failed")
    case InvalidManifest(_) => Failed(FallbackRef(plan), ApplyRejected, "invalid_manifest")
    case NotReady(_, _) => Failed(ReadinessRef(plan), Unready, "readiness_wait_failed")
    case DeleteFailed(failed, _) => Failed(failed, DeleteBlocked, "delete_request_failed")
  }

  /** The steps of an application that nothing comes in between. */
  ghost function CalmTrace(w: World, plan: ProjectionPlan): seq<Event>
    requires plan.manifest.Some?
  {
    Trace(plan.manifest.value.objects, Observations(plan.objects, SeenIn(w, plan.objects)), plan)
  }

  /** There is a manifest in order, nothing foreign stands in its way, and every request finds what it expects. */
  ghost predicate Appliable(w: World, plan: ProjectionPlan) {
    && plan.manifest.Some? && Renderable(plan.manifest.value) && AllOwned(plan.objects, SeenIn(w, plan.objects))
    && AllLand(w, CalmTrace(w, plan))
  }

  /** Inspect, and refuse anything foreign and plans that have nothing to apply. */
  method Survey(cluster: Cluster, plan: ProjectionPlan)
    returns (r: Result<seq<Observation>, ProjectionError>, ghost seen: Sightings)
    requires cluster.Valid()
    modifies cluster
    ensures cluster.Valid() && Onward(old(cluster.Now()), cluster.Now())
    ensures r.Ok? ==>
      && plan.manifest.Some? && Genuine(cluster.log, plan.objects, seen) && AllOwned(plan.objects, seen)
      && |seen| == |plan.objects| && r.value == Observations(plan.objects, seen)
      && cluster.log == old(cluster.log) + Inspections(plan.objects, seen)
    ensures r.Err? ==>
      && (r.error.InspectError? || r.error == MissingManifest || r.error.OwnershipConflict?)
      && (exists events :: cluster.log == old(cluster.log) + events && NoAttempts(events))
      && (r.error.OwnershipConflict? ==> |seen| == |plan.objects| && !AllOwned(plan.objects, seen))
      && (r.error == MissingManifest ==> plan.manifest.None?)
    ensures old(cluster.script) == [] ==>
      && cluster.script == [] && cluster.Now() == old(cluster.Now())
      && seen == SeenIn(old(cluster.world), plan.objects)
      && (r.Ok? <==> AllOwned(plan.objects, seen) && plan.manifest.Some?)
  {
    hide Cluster.Valid, Onward, Genuine, AllOwned, Observations, Inspections, NoAttempts, SeenIn;
    var observations;
    observations, seen := Inspect(cluster, plan);
    if observations.Err? {
      return Err(observations.error), seen;
    }
    CountsMatch(cluster.log, plan, seen);
    InspectingAttemptsNothing(plan.objects, seen);
    NoConflictsMeansOwned(plan.objects, seen);
    var conflicts := Conflicts(observations.value);
    if conflicts != [] {
      return Err(OwnershipConflict(conflicts)), seen;
    }
    if plan.manifest.None? {
      return Err(MissingManifest), seen;
    }
    r := Ok(observations.value);
  }

  /**
   Inspect, refuse anything foreign, then apply. Nothing is attempted unless the
   plan owns every object it saw, and then only requests licensed by what was
   seen; with the cluster valid, whatever of them lands, now or later, is
   justified. Success means that every request of the trace took effect; an
   apply error, that everything it reports as applied did.
   */
  method Apply(cluster: Cluster, plan: ProjectionPlan)
    returns (r: Result<(), ProjectionError>, ghost seen: Sightings, ghost steps: seq<Event>)
    requires cluster.Valid()
    modifies cluster
    ensures cluster.Valid() && Onward(old(cluster.Now()), cluster.Now())
    ensures r.Ok? || r.error.ApplyError? ==>
      && plan.manifest.Some? && AllOwned(plan.objects, seen)
      && cluster.log == old(cluster.log) + Inspections(plan.objects, seen) + steps
    ensures
      var from := |old(cluster.log)| + |plan.objects|;
      && (r.Ok? ==>
            && steps == Trace(plan.manifest.value.objects, Observations(plan.objects, seen), plan)
            && AllOk(cluster.answers, steps, from) && AllTook(cluster.chronicle, steps, from))
      && (r.Err? && r.error.ApplyError? ==>
            && TookUpTo(r.error.failure, cluster.chronicle, cluster.landings, cluster.inFlight, steps, from)
            && if Renderable(plan.manifest.value)
               then Reports(r.error.failure,
                 Trace(plan.manifest.value.objects, Observations(plan.objects, seen), plan), steps, [])
               else steps == [])
    ensures r.Err? && !r.error.ApplyError? ==>
      && (r.error.InspectError? || r.error == MissingManifest || r.error.OwnershipConflict?)
      && (exists events :: cluster.log == old(cluster.log) + events && NoAttempts(events))
      && (r.error.OwnershipConflict? ==> |seen| == |plan.objects| && !AllOwned(plan.objects, seen))
      && (r.error == MissingManifest ==> plan.manifest.None?)
    ensures old(cluster.script) == [] ==> cluster.script == [] && seen == SeenIn(old(cluster.world), plan.objects)
    ensures old(cluster.script) == [] && Appliable(old(cluster.world), plan) ==>
      r.Ok? && cluster.world == Worked(old(cluster.world), CalmTrace(old(cluster.world), plan))
  {
    hide Cluster.Valid, Onward, Genuine, AllOwned, Observations, Inspections, Trace, Reports, Renderable, NoAttempts;
    hide Keeps, AllOk, AllTook, TookUpTo, AllLand, Worked, SeenIn;
    steps := [];
    var observations;
    observations, seen := Survey(cluster, plan);
    if observations.Err? {
      return Err(observations.error), seen, steps;
    }
    ghost var middle := cluster.Now();
    var applied;
    applied, steps := ApplyManifest(cluster, plan.manifest.value, observations.value, plan, seen);
    OnwardTransitive(old(cluster.Now()), middle, cluster.Now());
    if applied.Err? {
      return Err(ApplyError([Rejected(plan, applied.error)], applied.error)), seen, steps;
    }
    r := Ok(());
  }

  lemma CountsMatch(log: seq<Event>, plan: ProjectionPlan, seen: Sightings)
    requires Genuine(log, plan.objects, seen)
    ensures |seen| == |plan.objects|
  {
  }

  // ---- what the trace says -----------------------------------------------

  lemma RefsAppend(a: Objects, b: Objects)
    ensures Refs(a + b) == Refs(a) + Refs(b)
  {
  }

  lemma Regroup<T>(v: seq<T>, c: seq<T>, e: seq<T>, r: seq<T>, w: seq<T>)
    ensures (v + c) + [] + (e + r + w) == v + c + e + r + w
  {
  }

  lemma OrderedRefs(s: Objects)
    ensures Refs(Ordered(s)) ==
      Refs(Group(s, VolumeOrder)) + Refs(Group(s, ClaimOrder)) + Refs(Group(s, SecretOrder))
      + Refs(Group(s, ServiceOrder)) + Refs(Group(s, WorkloadOrder))
  {
    hide Group, Refs;
    var v, c, e, r, w := Group(s, VolumeOrder), Group(s, ClaimOrder), Group(s, SecretOrder), Group(s, ServiceOrder),
      Group(s, WorkloadOrder);
    RefsAppend(v + c + e + r, w);
    RefsAppend(v + c + e, r);
    RefsAppend(v + c, e);
    RefsAppend(v, c);
  }

  /** Applying attempts every reference of the manifest once, in the recorded order. */
  lemma TraceRefs(s: Objects, observations: seq<Observation>, plan: ProjectionPlan)
    ensures AttemptRefs(Trace(s, observations, plan)) == Refs(Ordered(s))
  {
    hide Group, Attempts, AttemptRefs, Refs, Bound, GroupsTrace, Ordered;
    var storage, serving := GroupsTrace(s, STORAGE, observations, plan), GroupsTrace(s, SERVING, observations, plan);
    var bound := Bound(Refs(Group(s, ClaimOrder)));
    StorageRefs(s, observations, plan);
    ServingRefs(s, observations, plan);
    AttemptRefsBound(Refs(Group(s, ClaimOrder)));
    AttemptRefsAppend(storage + bound, serving);
    AttemptRefsAppend(storage, bound);
    OrderedRefs(s);
    Regroup(Refs(Group(s, VolumeOrder)), Refs(Group(s, ClaimOrder)), Refs(Group(s, SecretOrder)),
            Refs(Group(s, ServiceOrder)), Refs(Group(s, WorkloadOrder)));
  }

  lemma StorageRefs(s: Objects, observations: seq<Observation>, plan: ProjectionPlan)
    ensures GroupsTrace(s, STORAGE, observations, plan) ==
      Attempts(Group(s, VolumeOrder), observations, plan) + Attempts(Group(s, ClaimOrder), observations, plan)
    ensures AttemptRefs(GroupsTrace(s, STORAGE, observations, plan)) == Refs(Group(s, VolumeOrder))
      + Refs(Group(s, ClaimOrder))
  {
    hide Group, Attempts, AttemptRefs, Refs, GroupsTrace;
    var v, c := Attempts(Group(s, VolumeOrder), observations, plan), Attempts(Group(s, ClaimOrder), observations, plan);
    assert STORAGE[..0] == [] && STORAGE[..2] == STORAGE;
    NoGroups(s, observations, plan);
    GroupsGrow(s, STORAGE, 0, observations, plan);
    GroupsGrow(s, STORAGE, 1, observations, plan);
    assert [] + v == v;
    AttemptRefsAppend(v, c);
    AttemptRefsOf(Group(s, VolumeOrder), observations, plan);
    AttemptRefsOf(Group(s, ClaimOrder), observations, plan);
  }

  lemma ServingRefs(s: Objects, observations: seq<Observation>, plan: ProjectionPlan)
    ensures AttemptRefs(GroupsTrace(s, SERVING, observations, plan)) ==
      Refs(Group(s, SecretOrder)) + Refs(Group(s, ServiceOrder)) + Refs(Group(s, WorkloadOrder))
  {
    hide Group, Attempts, AttemptRefs, Refs, GroupsTrace;
    var e, r, w := Attempts(Group(s, SecretOrder), observations, plan),
      Attempts(Group(s, ServiceOrder), observations, plan), Attempts(Group(s, WorkloadOrder), observations, plan);
    assert SERVING[..0] == [] && SERVING[..3] == SERVING;
    NoGroups(s, observations, plan);
    GroupsGrow(s, SERVING, 0, observations, plan);
    GroupsGrow(s, SERVING, 1, observations, plan);
    GroupsGrow(s, SERVING, 2, observations, plan);
    assert [] + e == e;
    AttemptRefsAppend(e + r, w);
    AttemptRefsAppend(e, r);
    AttemptRefsOf(Group(s, SecretOrder), observations, plan);
    AttemptRefsOf(Group(s, ServiceOrder), observations, plan);
    AttemptRefsOf(Group(s, WorkloadOrder), observations, plan);
  }

  lemma AttemptRefsPrefix(a: seq<Event>, b: seq<Event>)
    requires a <= b
    ensures AttemptRefs(a) <= AttemptRefs(b)
  {
    assert b == a + b[|a|..];
    AttemptRefsAppend(a, b[|a|..]);
  }

  /**
   For every failure point, what the error reports as applied, and the failing
   object after it, start the recorded references.
   */
  lemma AppliedIsPrefix(s: Objects, observations: seq<Observation>, plan: ProjectionPlan, e: MaterializerError,
                        steps: seq<Event>)
    requires Reports(e, Trace(s, observations, plan), steps, [])
    ensures e.ApplyFailed? || e.ClaimNotBound?
    ensures e.applied <= Refs(Ordered(s))
    ensures e.ApplyFailed? ==> e.applied + [e.failed] <= Refs(Ordered(s))
  {
    hide Trace, Ordered, Refs;
    TraceRefs(s, observations, plan);
    AttemptRefsPrefix(steps, Trace(s, observations, plan));
    if e.ApplyFailed? {
      var n := |steps| - 1;
      assert [] + AttemptRefs(steps[..n]) == AttemptRefs(steps[..n]);
    } else {
      assert [] + AttemptRefs(steps) == AttemptRefs(steps);
    }
  }

  /** When anything but storage is attempted, every claim of the manifest has been seen bound. */
  lemma ClaimsBoundFirst(s: Objects, observations: seq<Observation>, plan: ProjectionPlan, i: nat)
    requires i < |Trace(s, observations, plan)| && Trace(s, observations, plan)[i].Attempted?
    ensures
      var trace := Trace(s, observations, plan);
      || (exists x ::
            && x in s && x.applyOrder in {VolumeOrder, ClaimOrder}
            && trace[i] == Attempted(RequestFor(x, observations, plan)))
      || (forall c :: c in Group(s, ClaimOrder) ==> ClaimBound(RefOf(c.resource)) in trace[..i])
  {
    hide GroupsTrace, Trace, Group, Attempts, Refs, Bound, RequestFor, EffectFor;
    var v, claims := Group(s, VolumeOrder), Group(s, ClaimOrder);
    var storage, bound := GroupsTrace(s, STORAGE, observations, plan), Bound(Refs(claims));
    var serving := TraceParts(s, observations, plan);
    if i < |storage| {
      StorageRefs(s, observations, plan);
      FirstPart(storage, bound, serving, i);
      var x := AttemptIn(v, claims, observations, plan, i);
    } else {
      NotWaiting(storage, Refs(claims), serving, i);
      forall c | c in claims ensures ClaimBound(RefOf(c.resource)) in Trace(s, observations, plan)[..i] {
        var k := ClaimIsBound(claims, c);
        MiddlePart(storage, bound, serving, i, k);
      }
    }
  }

  lemma TraceParts(s: Objects, observations: seq<Observation>, plan: ProjectionPlan) returns (serving: seq<Event>)
    ensures Trace(s, observations, plan) == GroupsTrace(s, STORAGE, observations, plan)
      + Bound(Refs(Group(s, ClaimOrder))) + serving
  {
    serving := GroupsTrace(s, SERVING, observations, plan);
  }

  lemma FirstPart<T>(a: seq<T>, b: seq<T>, c: seq<T>, i: nat)
    requires i < |a|
    ensures (a + b + c)[i] == a[i]
  {
  }

  lemma MiddlePart<T>(a: seq<T>, b: seq<T>, c: seq<T>, i: nat, k: nat)
    requires k < |b| && |a| + |b| <= i <= |a + b + c|
    ensures b[k] in (a + b + c)[..i]
  {
    assert (a + b + c)[..i][|a| + k] == b[k];
  }

  lemma NotWaiting(storage: seq<Event>, refs: seq<ObjectRef>, serving: seq<Event>, i: nat)
    requires |storage| <= i < |storage + Bound(refs) + serving| && (storage + Bound(refs) + serving)[i].Attempted?
    ensures i >= |storage| + |Bound(refs)|
  {
  }

  lemma ClaimIsBound(claims: Objects, c: ManifestObject) returns (k: nat)
    requires c in claims
    ensures k < |Bound(Refs(claims))| && Bound(Refs(claims))[k] == ClaimBound(RefOf(c.resource))
  {
    hide RefOf;
    k :| 0 <= k < |claims| && claims[k] == c;
  }

  lemma AttemptIn(v: Objects, c: Objects, observations: seq<Observation>, plan: ProjectionPlan, i: nat)
    returns (x: ManifestObject)
    requires i < |v| + |c|
    ensures x in v || x in c
    ensures (Attempts(v, observations, plan) + Attempts(c, observations, plan))[i] ==
      Attempted(RequestFor(x, observations, plan))
  {
    hide RequestFor;
    x := if i < |v| then v[i] else c[i - |v|];
  }
}
