/** The projection reconciler: inspect, refuse foreign objects, then apply or delete under preconditions. */
module Projection {
  import opened Prelude
  import opened Manifests
  import opened Stamps
  import opened ClientErrors
  import opened Planning
  import opened Plans
  import opened Cluster

  type Sightings = seq<Option<LiveObject>>

  // ---- inspection --------------------------------------------------------

  function Inspections(objects: seq<ObjectPlan>, seen: Sightings): (r: seq<Event>)
    requires |seen| == |objects|
    ensures |r| == |objects|
  {
    seq(|objects|, i requires 0 <= i < |objects| => Inspected(objects[i].objectRef, seen[i]))
  }

  function Observations(objects: seq<ObjectPlan>, seen: Sightings): (r: seq<Observation>)
    requires |seen| == |objects|
    ensures |r| == |objects|
    ensures forall i :: 0 <= i < |r| ==> r[i] == Classify(objects[i], seen[i])
  {
    seq(|objects|, i requires 0 <= i < |objects| => Classify(objects[i], seen[i]))
  }

  /** What an inspection sees if nothing comes in between. */
  function SeenIn(w: World, objects: seq<ObjectPlan>): (r: Sightings)
    ensures |r| == |objects| && forall i :: 0 <= i < |r| ==> r[i] == LookIn(w, objects[i].objectRef)
  {
    seq(|objects|, i requires 0 <= i < |objects| => LookIn(w, objects[i].objectRef))
  }

  /** Every sighting is in the log, as an inspection of the object it was taken for. */
  ghost predicate Genuine(log: seq<Event>, objects: seq<ObjectPlan>, seen: Sightings) {
    && |seen| == |objects|
    && forall i :: 0 <= i < |seen| && seen[i].Some? ==> Inspected(objects[i].objectRef, seen[i]) in log
  }

  lemma GenuineLater(log: seq<Event>, log': seq<Event>, objects: seq<ObjectPlan>, seen: Sightings)
    requires Genuine(log, objects, seen) && log <= log'
    ensures Genuine(log', objects, seen)
  {
    forall i | 0 <= i < |seen| && seen[i].Some? ensures Inspected(objects[i].objectRef, seen[i]) in log' {
      var k :| 0 <= k < |log| && log[k] == Inspected(objects[i].objectRef, seen[i]);
      assert log'[k] == log[k];
    }
  }

  lemma JustInspected(log: seq<Event>, objects: seq<ObjectPlan>, seen: Sightings)
    requires |seen| == |objects|
    ensures Genuine(log + Inspections(objects, seen), objects, seen)
  {
    forall i | 0 <= i < |seen| ensures Inspected(objects[i].objectRef, seen[i]) in log + Inspections(objects, seen) {
      assert (log + Inspections(objects, seen))[|log| + i] == Inspected(objects[i].objectRef, seen[i]);
    }
  }

  ghost predicate NoAttempts(events: seq<Event>) {
    forall i :: 0 <= i < |events| ==> !events[i].Attempted?
  }

  /** Classify every planned object, in plan order. */
  method Inspect(cluster: Cluster, plan: ProjectionPlan)
    returns (r: Result<seq<Observation>, ProjectionError>, ghost seen: Sightings)
    requires cluster.Valid()
    modifies cluster
    ensures cluster.Valid() && Onward(old(cluster.Now()), cluster.Now())
    ensures r.Ok? ==>
      && Genuine(cluster.log, plan.objects, seen)
      && r.value == Observations(plan.objects, seen)
      && cluster.log == old(cluster.log) + Inspections(plan.objects, seen)
    ensures r.Err? ==>
      && r.error.InspectError?
      && exists events :: cluster.log == old(cluster.log) + events && NoAttempts(events)
    ensures cluster.answers == old(cluster.answers)
    ensures old(cluster.script) == [] ==>
      && r.Ok? && cluster.script == [] && cluster.Now() == old(cluster.Now())
      && seen == SeenIn(old(cluster.world), plan.objects)
  {
    hide Cluster.Valid, Onward, Recorded, Classify;
    SameIsOnward(cluster.Now());
    var observations := [];
    seen := [];
    assert plan.objects[..0] == [];
    for i := 0 to |plan.objects|
      invariant cluster.Valid() && Onward(old(cluster.Now()), cluster.Now())
      invariant |seen| == i && cluster.answers == old(cluster.answers)
      invariant old(cluster.script) == [] ==>
        && cluster.script == [] && cluster.Now() == old(cluster.Now())
        && forall k :: 0 <= k < i ==> seen[k] == LookIn(old(cluster.world), plan.objects[k].objectRef)
      invariant observations == Observations(plan.objects[..i], seen)
      invariant cluster.log == old(cluster.log) + Inspections(plan.objects[..i], seen)
    {
      var planned := plan.objects[i];
      ghost var before := cluster.Now();
      var found := cluster.InspectObject(planned.objectRef);
      OnwardTransitive(old(cluster.Now()), before, cluster.Now());
      if found.Err? {
        var unseen := Failed(planned.objectRef, InspectFailed, "inspect_failed");
        return Err(InspectError(planned.objectRef, [unseen], found.error)), seen;
      }
      observations := observations + [Classify(planned, found.value)];
      InspectionGrows(plan.objects, i, seen, found.value);
      seen := seen + [found.value];
    }
    assert plan.objects[..|plan.objects|] == plan.objects;
    JustInspected(old(cluster.log), plan.objects, seen);
    r := Ok(observations);
  }

  lemma InspectionGrows(objects: seq<ObjectPlan>, i: nat, seen: Sightings, found: Option<LiveObject>)
    requires i < |objects| && |seen| == i
    ensures Observations(objects[..i + 1], seen + [found]) == Observations(objects[..i], seen)
      + [Classify(objects[i], found)]
    ensures Inspections(objects[..i + 1], seen + [found]) == Inspections(objects[..i], seen)
      + [Inspected(objects[i].objectRef, found)]
  {
    hide Classify;
  }

  function Failed(r: ObjectRef, state: ObservationState, reason: string): Observation {
    Observation(r, state, Some(reason), None, None, [])
  }

  /** The observations of objects this plan does not own. */
  function Conflicts(observations: seq<Observation>): (r: seq<Observation>)
    ensures r == [] <==> forall i :: 0 <= i < |observations| ==> !IsConflict(observations[i])
  {
    if observations == [] then []
    else
      var rest := Conflicts(observations[..|observations| - 1]);
      if IsConflict(observations[|observations| - 1]) then rest + [observations[|observations| - 1]] else rest
  }

  /** The plan owns whatever was seen. */
  ghost predicate AllOwned(objects: seq<ObjectPlan>, seen: Sightings) {
    && |seen| == |objects|
    && forall i :: 0 <= i < |seen| && seen[i].Some? ==> Owns(objects[i].expected, seen[i].value.tags)
  }

  lemma NoConflictsMeansOwned(objects: seq<ObjectPlan>, seen: Sightings)
    requires |seen| == |objects|
    ensures Conflicts(Observations(objects, seen)) == [] <==> AllOwned(objects, seen)
  {
    hide Classify, Owns;
    forall i | 0 <= i < |seen|
      ensures IsConflict(Observations(objects, seen)[i]) <==>
        seen[i].Some? && !Owns(objects[i].expected, seen[i].value.tags)
    {
      Conflicting(objects[i], seen[i]);
    }
  }

  lemma Conflicting(planned: ObjectPlan, found: Option<LiveObject>)
    ensures IsConflict(Classify(planned, found)) <==> found.Some? && !Owns(planned.expected, found.value.tags)
  {
  }

  // ---- apply -------------------------------------------------------------

  /** The first observation of an object. */
  function Noted(observations: seq<Observation>, target: ObjectRef): (r: Option<Observation>)
    ensures r.Some? ==> r.value in observations && r.value.objectRef == target
    ensures r.None? ==> forall o :: o in observations ==> o.objectRef != target
  {
    if observations == [] then None
    else if observations[0].objectRef == target then Some(observations[0])
    else Noted(observations[1..], target)
  }

  /** Create what was not seen; otherwise patch exactly the version that was. */
  function EffectFor(body: KubernetesObject, observations: seq<Observation>): (e: Effect)
    ensures e.target == RefOf(body)
  {
    match Noted(observations, RefOf(body))
    case Some(o) => if o.identity.Some? then Patch(RefOf(body), body, o.identity.value) else Create(RefOf(body), body)
    case None => Create(RefOf(body), body)
  }

  function RequestFor(x: ManifestObject, observations: seq<Observation>, plan: ProjectionPlan): Request {
    Request(EffectFor(x.resource, observations), plan)
  }

  /** Having seen only objects it owns, a plan is licensed to apply anything. */
  lemma ApplyLicensed(log: seq<Event>, plan: ProjectionPlan, seen: Sightings, x: ManifestObject)
    requires Genuine(log, plan.objects, seen) && AllOwned(plan.objects, seen)
    ensures Licensed(RequestFor(x, Observations(plan.objects, seen), plan), log)
  {
    hide Owns, Observations, Noted, RefOf;
    var observations := Observations(plan.objects, seen);
    var r := RequestFor(x, observations, plan);
    if r.effect.Patch? {
      var i := NotedSighting(plan.objects, seen, RefOf(x.resource));
      assert PlanOwns(plan, r.effect.target, seen[i].value.tags);
      LicenseFrom(r, log, Inspected(r.effect.target, seen[i]));
    }
  }

  /** An observation on record comes from a sighting of that object. */
  lemma NotedSighting(objects: seq<ObjectPlan>, seen: Sightings, target: ObjectRef) returns (i: nat)
    requires |seen| == |objects| && Noted(Observations(objects, seen), target).Some?
    ensures i < |seen| && objects[i].objectRef == target
    ensures Noted(Observations(objects, seen), target).value == Classify(objects[i], seen[i])
  {
    hide Classify, Noted;
    var observations := Observations(objects, seen);
    i :| 0 <= i < |observations| && observations[i] == Noted(observations, target).value;
    ClassifiesItsOwn(objects[i], seen[i]);
  }

  lemma ClassifiesItsOwn(planned: ObjectPlan, found: Option<LiveObject>)
    ensures Classify(planned, found).objectRef == planned.objectRef
  {
  }

  lemma LicenseFrom(r: Request, log: seq<Event>, e: Event)
    requires e in log && Shows(e, r)
    ensures Licensed(r, log)
  {
    hide Shows;
    var k :| 0 <= k < |log| && log[k] == e;
    assert Shows(log[k], r);
  }

  function Attempts(s: Objects, observations: seq<Observation>, plan: ProjectionPlan): (r: seq<Event>)
    ensures |r| == |s|
    ensures forall i :: 0 <= i < |s| ==> r[i] == Attempted(RequestFor(s[i], observations, plan))
  {
    seq(|s|, i requires 0 <= i < |s| => Attempted(RequestFor(s[i], observations, plan)))
  }

  function Bound(refs: seq<ObjectRef>): (r: seq<Event>)
    ensures |r| == |refs|
    ensures forall i :: 0 <= i < |refs| ==> r[i] == ClaimBound(refs[i])
  {
    seq(|refs|, i requires 0 <= i < |refs| => ClaimBound(refs[i]))
  }

  /** Apply group after group. */
  function GroupsTrace(s: Objects, orders: seq<ApplyOrder>, observations: seq<Observation>,
                       plan: ProjectionPlan): seq<Event> {
    if orders == [] then []
    else
      var n := |orders| - 1;
      GroupsTrace(s, orders[..n], observations, plan) + Attempts(Group(s, orders[n]), observations, plan)
  }

  const STORAGE := [VolumeOrder, ClaimOrder]
  const SERVING := [SecretOrder, ServiceOrder, WorkloadOrder]

  /** Everything applying a manifest does, in order: storage, waiting until every claim is bound, then the rest. */
  function Trace(s: Objects, observations: seq<Observation>, plan: ProjectionPlan): seq<Event> {
    GroupsTrace(s, STORAGE, observations, plan)
    + Bound(Refs(Group(s, ClaimOrder)))
    + GroupsTrace(s, SERVING, observations, plan)
  }

  /** The objects a stretch of events tried to change. */
  function AttemptRefs(events: seq<Event>): seq<ObjectRef> {
    if events == [] then []
    else
      var last := events[|events| - 1];
      AttemptRefs(events[..|events| - 1]) + if last.Attempted? then [last.request.effect.target] else []
  }

  lemma {:induction false} AttemptRefsAppend(a: seq<Event>, b: seq<Event>)
    ensures AttemptRefs(a + b) == AttemptRefs(a) + AttemptRefs(b)
  {
    if b == [] {
      assert a + b == a;
    } else {
      assert (a + b)[..|a + b| - 1] == a + b[..|b| - 1];
      AttemptRefsAppend(a, b[..|b| - 1]);
    }
  }

  lemma {:induction false} AttemptRefsOf(s: Objects, observations: seq<Observation>, plan: ProjectionPlan)
    ensures AttemptRefs(Attempts(s, observations, plan)) == Refs(s)
  {
    hide EffectFor;
    if s != [] {
      var n := |s| - 1;
      AttemptRefsOf(s[..n], observations, plan);
      assert Attempts(s, observations, plan)[..n] == Attempts(s[..n], observations, plan);
      assert Refs(s) == Refs(s[..n]) + [RefOf(s[n].resource)];
    }
  }

  lemma {:induction false} AttemptRefsBound(refs: seq<ObjectRef>)
    ensures AttemptRefs(Bound(refs)) == []
  {
    if refs != [] {
      AttemptRefsBound(refs[..|refs| - 1]);
      assert Bound(refs)[..|refs| - 1] == Bound(refs[..|refs| - 1]);
    }
  }

  /**
   A run of `trace` that had already applied `before` stopped after `steps` with
   error `e`: the error names the step that failed and exactly what was applied.
   */
  ghost predicate Reports(e: MaterializerError, trace: seq<Event>, steps: seq<Event>, before: seq<ObjectRef>) {
    && steps <= trace
    && match e
       case ApplyFailed(failed, applied, _) =>
         var n := |steps| - 1;
         n >= 0 && steps[n].Attempted? && failed == steps[n].request.effect.target
           && applied == before + AttemptRefs(steps[..n])
       case ClaimNotBound(namespace, name, applied, _) =>
         var n := |steps|;
         && n < |trace| && trace[n].ClaimBound?
         && namespace == trace[n].target.namespace && name == trace[n].target.name
           && applied == before + AttemptRefs(steps)
       case _ => false
  }

  lemma ReportsBefore(e: MaterializerError, trace: seq<Event>, steps: seq<Event>, before: seq<ObjectRef>,
                      more: seq<Event>)
    requires Reports(e, trace, steps, before)
    ensures Reports(e, trace + more, steps, before)
  {
    hide AttemptRefs;
  }

  lemma ReportsAfter(e: MaterializerError, trace: seq<Event>, steps: seq<Event>, before: seq<ObjectRef>,
                     first: seq<Event>)
    requires Reports(e, trace, steps, before + AttemptRefs(first))
    ensures Reports(e, first + trace, first + steps, before)
  {
    hide AttemptRefs;
    var n := |steps| - 1;
    if e.ApplyFailed? {
      assert (first + steps)[..|first| + n] == first + steps[..n];
      AttemptRefsAppend(first, steps[..n]);
    } else {
      AttemptRefsAppend(first, steps);
      assert (first + trace)[|first| + |steps|] == trace[|steps|];
    }
  }

  /** How far `steps` got before error `e`: every attempt but a failing last one was answered with success. */
  ghost predicate Went(e: MaterializerError, answers: Answers, steps: seq<Event>, from: nat) {
    match e
    case ApplyFailed(_, _, source) =>
      var n := |steps| - 1;
      n >= 0 && AllOk(answers, steps[..n], from) && from + n in answers && answers[from + n] == Err(source)
    case _ => AllOk(answers, steps, from)
  }

  lemma WentAfter(e: MaterializerError, answers: Answers, later: Answers, first: seq<Event>,
                  steps: seq<Event>, from: nat)
    requires AllOk(answers, first, from) && Keeps(answers, later) && Went(e, later, steps, from + |first|)
    ensures Went(e, later, first + steps, from)
  {
    hide AllOk, Keeps;
    if e.ApplyFailed? {
      var n := |steps| - 1;
      assert (first + steps)[..|first| + n] == first + steps[..n];
      AllOkJoins(answers, later, first, steps[..n], from);
    } else {
      AllOkJoins(answers, later, first, steps, from);
    }
  }

  /** From log `start` and answers `told`, the steps were taken and everything attempted was answered with success. */
  ghost predicate Progress(start: seq<Event>, told: Answers, log: seq<Event>, answers: Answers, steps: seq<Event>) {
    log == start + steps && Keeps(told, answers) && AllOk(answers, steps, |start|)
  }

  /** Likewise, up to error `e`. */
  ghost predicate Stopped(e: MaterializerError, start: seq<Event>, told: Answers, log: seq<Event>, answers: Answers,
                          steps: seq<Event>) {
    log == start + steps && Keeps(told, answers) && Went(e, answers, steps, |start|)
  }

  lemma NoProgress(log: seq<Event>, answers: Answers)
    ensures Progress(log, answers, log, answers, [])
  {
  }

  lemma ProgressJoins(start: seq<Event>, told: Answers, log: seq<Event>, answers: Answers, a: seq<Event>,
                      log': seq<Event>, answers': Answers, b: seq<Event>)
    requires Progress(start, told, log, answers, a) && Progress(log, answers, log', answers', b)
    ensures Progress(start, told, log', answers', a + b)
  {
    hide Keeps, AllOk;
    KeepsTransitive(told, answers, answers');
    AllOkJoins(answers, answers', a, b, |start|);
    assert start + a + b == start + (a + b);
  }

  lemma StoppedAfter(e: MaterializerError, start: seq<Event>, told: Answers, log: seq<Event>, answers: Answers,
                     a: seq<Event>, log': seq<Event>, answers': Answers, b: seq<Event>)
    requires Progress(start, told, log, answers, a) && Stopped(e, log, answers, log', answers', b)
    ensures Stopped(e, start, told, log', answers', a + b)
  {
    hide Keeps, AllOk, Went;
    KeepsTransitive(told, answers, answers');
    WentAfter(e, answers, answers', a, b, |start|);
    assert start + a + b == start + (a + b);
  }

  /**
   The same of the cluster: everything before a failing attempt took effect,
   and that one never does unless its outcome is uncertain.
   */
  ghost predicate TookUpTo(e: MaterializerError, c: Chronicle, landings: seq<Landing>, inFlight: seq<Sent>,
                           steps: seq<Event>, from: nat) {
    match e
    case ApplyFailed(_, _, source) =>
      var n := |steps| - 1;
      && n >= 0 && AllTook(c, steps[..n], from)
      && (source.outcomeUncertain || Free(from + n, landings, inFlight))
    case _ => AllTook(c, steps, from)
  }

  lemma AttemptsDeleteNothing(s: Objects, observations: seq<Observation>, plan: ProjectionPlan)
    ensures forall i :: 0 <= i < |s| ==> !Deletes(Attempts(s, observations, plan)[i])
  {
  }

  lemma {:induction false} GroupsDeleteNothing(s: Objects, orders: seq<ApplyOrder>, observations: seq<Observation>,
                                               plan: ProjectionPlan)
    ensures forall e :: e in GroupsTrace(s, orders, observations, plan) ==> !Deletes(e)
  {
    hide Attempts, Group, Deletes;
    if orders != [] {
      var n := |orders| - 1;
      GroupsDeleteNothing(s, orders[..n], observations, plan);
      AttemptsDeleteNothing(Group(s, orders[n]), observations, plan);
    }
  }

  /** Applying never deletes. */
  lemma TraceDeletesNothing(s: Objects, observations: seq<Observation>, plan: ProjectionPlan)
    ensures forall e :: e in Trace(s, observations, plan) ==> !Deletes(e)
  {
    hide GroupsTrace, Group, Refs;
    GroupsDeleteNothing(s, STORAGE, observations, plan);
    GroupsDeleteNothing(s, SERVING, observations, plan);
  }

  lemma OkTook(cluster: Cluster, before: seq<Event>, steps: seq<Event>, rest: seq<Event>)
    requires cluster.Valid() && cluster.log == before + steps + rest
    requires AllOk(cluster.answers, steps, |before|) && forall e :: e in steps ==> !Deletes(e)
    ensures AllTook(cluster.chronicle, steps, |before|)
  {
    hide Consistent, LogTrue, Accounted, AllTruthful, AllOk, AllTook, Chronicled, Foretold;
    OkMeansTook(cluster.answers, cluster.landings, cluster.inFlight, cluster.log, before, steps, rest,
      cluster.chronicle, cluster.world);
  }

  lemma WentTook(cluster: Cluster, before: seq<Event>, steps: seq<Event>, e: MaterializerError)
    requires cluster.Valid() && cluster.log == before + steps && Went(e, cluster.answers, steps, |before|)
    requires forall x :: x in steps ==> !Deletes(x)
    ensures TookUpTo(e, cluster.chronicle, cluster.landings, cluster.inFlight, steps, |before|)
  {
    hide Consistent, LogTrue, Accounted, AllOk, AllTook, Free, Took, Chronicled, Foretold;
    if e.ApplyFailed? {
      var n := |steps| - 1;
      assert cluster.log == before + steps[..n] + [steps[n]];
      OkTook(cluster, before, steps[..n], [steps[n]]);
    } else {
      assert cluster.log == before + steps + [];
      OkTook(cluster, before, steps, []);
    }
  }

  function WithApplied(e: MaterializerError, applied: seq<ObjectRef>): MaterializerError {
    match e
    case ApplyFailed(failed, _, source) => ApplyFailed(failed, applied, source)
    case ClaimNotBound(namespace, name, _, source) => ClaimNotBound(namespace, name, applied, source)
    case _ => e
  }

  method ApplyObject(cluster: Cluster, x: ManifestObject, observations: seq<Observation>, plan: ProjectionPlan)
    returns (r: Result<ObjectRef, MaterializerError>)
    requires cluster.Valid() && Licensed(RequestFor(x, observations, plan), cluster.log)
    modifies cluster
    ensures cluster.Valid() && Onward(old(cluster.Now()), cluster.Now())
    ensures
      var steps := [Attempted(RequestFor(x, observations, plan))];
      if r.Ok? then Progress(old(cluster.log), old(cluster.answers), cluster.log, cluster.answers, steps)
      else Stopped(r.error, old(cluster.log), old(cluster.answers), cluster.log, cluster.answers, steps)
    ensures r.Ok? ==> r.value == RefOf(x.resource)
    ensures r.Err? ==> r.error.ApplyFailed? && r.error.failed == RefOf(x.resource)
    ensures old(cluster.script) == [] ==>
      && cluster.script == []
      && (AllLand(old(cluster.world), [Attempted(RequestFor(x, observations, plan))]) ==>
            r.Ok? && cluster.world == Worked(old(cluster.world), [Attempted(RequestFor(x, observations, plan))]))
  {
    hide Cluster.Valid, Onward, Licensed, Keeps;
    WorkedOne(cluster.world, RequestFor(x, observations, plan));
    var result, _, _ := cluster.Mutate(RequestFor(x, observations, plan));
    match result
    case Ok(_) => r := Ok(RefOf(x.resource));
    case Err(source) => r := Err(ApplyFailed(RefOf(x.resource), [], source));
  }

  lemma AttemptsGrow(s: Objects, i: nat, observations: seq<Observation>, plan: ProjectionPlan)
    requires i < |s|
    ensures Attempts(s[..i + 1], observations, plan) == Attempts(s[..i], observations, plan)
      + [Attempted(RequestFor(s[i], observations, plan))]
    ensures Attempts(s[..i + 1], observations, plan) <= Attempts(s, observations, plan)
    ensures Refs(s[..i + 1]) == Refs(s[..i]) + [RefOf(s[i].resource)]
  {
    hide EffectFor, RefOf;
  }

  lemma GroupReports(s: Objects, i: nat, observations: seq<Observation>, plan: ProjectionPlan, e: MaterializerError,
                     before: seq<ObjectRef>)
    requires i < |s| && e.ApplyFailed? && e.failed == RefOf(s[i].resource) && e.applied == before + Refs(s[..i])
    ensures Reports(e, Attempts(s, observations, plan), Attempts(s[..i + 1], observations, plan), before)
  {
    hide AttemptRefs, Attempts, Refs, RefOf;
    AttemptsGrow(s, i, observations, plan);
    AttemptRefsOf(s[..i], observations, plan);
    var steps := Attempts(s[..i + 1], observations, plan);
    assert steps[..|steps| - 1] == Attempts(s[..i], observations, plan);
  }

  /** Apply one group after `applied`; `steps` is what was done of it. */
  method ApplyGroup(cluster: Cluster, group: Objects, observations: seq<Observation>, plan: ProjectionPlan,
                    applied: seq<ObjectRef>, ghost seen: Sightings)
    returns (r: Result<seq<ObjectRef>, MaterializerError>, ghost steps: seq<Event>)
    requires cluster.Valid() && Genuine(cluster.log, plan.objects, seen) && AllOwned(plan.objects, seen)
    requires observations == Observations(plan.objects, seen)
    modifies cluster
    ensures cluster.Valid() && Genuine(cluster.log, plan.objects, seen) && Onward(old(cluster.Now()), cluster.Now())
    ensures r.Ok? ==> steps == Attempts(group, observations, plan) && r.value == applied + AttemptRefs(steps)
    ensures r.Err? ==> Reports(r.error, Attempts(group, observations, plan), steps, applied)
    ensures
      if r.Ok? then Progress(old(cluster.log), old(cluster.answers), cluster.log, cluster.answers, steps)
      else Stopped(r.error, old(cluster.log), old(cluster.answers), cluster.log, cluster.answers, steps)
    ensures old(cluster.script) == [] ==>
      && cluster.script == []
      && (AllLand(old(cluster.world), Attempts(group, observations, plan)) ==>
            r.Ok? && cluster.world == Worked(old(cluster.world), Attempts(group, observations, plan)))
  {
    hide Cluster.Valid, Onward, Genuine, AllOwned, Observations, EffectFor, Progress, Stopped;
    hide Licensed, Attempts, Refs, RefOf, Reports, AttemptRefs, AllLand, Worked;
    SameIsOnward(cluster.Now());
    NothingAttempted(observations, plan);
    NothingWorked(cluster.world);
    NoProgress(cluster.log, cluster.answers);
    ghost var start, told := cluster.log, cluster.answers;
    var soFar := applied;
    steps := [];
    assert group[..0] == [];
    for i := 0 to |group|
      invariant cluster.Valid() && Genuine(cluster.log, plan.objects, seen) && Onward(old(cluster.Now()), cluster.Now())
      invariant Progress(start, told, cluster.log, cluster.answers, steps)
      invariant steps == Attempts(group[..i], observations, plan) && soFar == applied + Refs(group[..i])
      invariant old(cluster.script) == [] ==> cluster.script == []
      invariant old(cluster.script) == [] && AllLand(old(cluster.world), Attempts(group, observations, plan)) ==>
        cluster.world == Worked(old(cluster.world), steps)
    {
      ApplyLicensed(cluster.log, plan, seen, group[i]);
      ghost var before, logged, known := cluster.Now(), cluster.log, cluster.answers;
      ghost var step := [Attempted(RequestFor(group[i], observations, plan))];
      AttemptsGrow(group, i, observations, plan);
      if AllLand(old(cluster.world), Attempts(group, observations, plan)) {
        LandsNext(old(cluster.world), steps, step, Attempts(group, observations, plan));
      }
      var one := ApplyObject(cluster, group[i], observations, plan);
      OnwardTransitive(old(cluster.Now()), before, cluster.Now());
      match one {
        case Ok(objectRef) =>
          ProgressGenuine(logged, known, cluster.log, cluster.answers, step, plan.objects, seen);
          ProgressJoins(start, told, logged, known, steps, cluster.log, cluster.answers, step);
          soFar := soFar + [objectRef];
          steps := steps + step;
        case Err(error) =>
          StoppedGenuine(error, logged, known, cluster.log, cluster.answers, step, plan.objects, seen);
          StoppedAfter(error, start, told, logged, known, steps, cluster.log, cluster.answers, step);
          steps := steps + step;
          Relabelled(error, soFar, start, told, cluster.log, cluster.answers, steps);
          GroupReports(group, i, observations, plan, WithApplied(error, soFar), applied);
          return Err(WithApplied(error, soFar)), steps;
      }
    }
    assert group[..|group|] == group;
    AttemptRefsOf(group, observations, plan);
    r := Ok(soFar);
  }

  /** Undisturbed, the next steps of a trace whose requests all land do land, where the earlier ones left the world. */
  lemma LandsNext(w: World, done: seq<Event>, next: seq<Event>, trace: seq<Event>)
    requires AllLand(w, trace) && done + next <= trace
    ensures AllLand(Worked(w, done), next) && Worked(w, done + next) == Worked(Worked(w, done), next)
  {
    hide AllLand, Worked;
    assert trace == (done + next) + trace[|done + next|..];
    WorkedJoins(w, done + next, trace[|done + next|..]);
    WorkedJoins(w, done, next);
  }

  lemma NothingWorked(w: World)
    ensures Worked(w, []) == w
  {
  }

  lemma ProgressGenuine(start: seq<Event>, told: Answers, log: seq<Event>, answers: Answers, steps: seq<Event>,
                        objects: seq<ObjectPlan>, seen: Sightings)
    requires Progress(start, told, log, answers, steps) && Genuine(start, objects, seen)
    ensures Genuine(log, objects, seen)
  {
    hide Genuine;
    GenuineLater(start, log, objects, seen);
  }

  lemma StoppedGenuine(e: MaterializerError, start: seq<Event>, told: Answers, log: seq<Event>, answers: Answers,
                       steps: seq<Event>, objects: seq<ObjectPlan>, seen: Sightings)
    requires Stopped(e, start, told, log, answers, steps) && Genuine(start, objects, seen)
    ensures Genuine(log, objects, seen)
  {
    hide Genuine;
    GenuineLater(start, log, objects, seen);
  }

  /** What an error says was applied makes no difference to how far things went. */
  lemma Relabelled(e: MaterializerError, applied: seq<ObjectRef>, start: seq<Event>, told: Answers, log: seq<Event>,
                   answers: Answers, steps: seq<Event>)
    requires Stopped(e, start, told, log, answers, steps)
    ensures Stopped(WithApplied(e, applied), start, told, log, answers, steps)
  {
  }

  lemma SameKeeps(answers: Answers)
    ensures Keeps(answers, answers)
  {
  }

  lemma KeepsTransitive(a: Answers, b: Answers, c: Answers)
    requires Keeps(a, b) && Keeps(b, c)
    ensures Keeps(a, c)
  {
  }

  lemma NothingIsOk(answers: Answers, from: nat)
    ensures AllOk(answers, [], from)
  {
  }

  lemma OneMore(answers: Answers, later: Answers, steps: seq<Event>, r: Request, from: nat)
    requires AllOk(answers, steps, from) && Keeps(answers, later) && from + |steps| in later
    ensures later[from + |steps|].Ok? ==> AllOk(later, steps + [Attempted(r)], from)
  {
    hide AllOk, Keeps;
    if later[from + |steps|].Ok? {
      assert AllOk(later, [Attempted(r)], from + |steps|) by {
        JustOk(later, r, from + |steps|);
      }
      AllOkJoins(answers, later, steps, [Attempted(r)], from);
    }
  }

  lemma JustOk(answers: Answers, r: Request, t: nat)
    requires t in answers && answers[t].Ok?
    ensures AllOk(answers, [Attempted(r)], t)
  {
  }

  lemma NothingAttempted(observations: seq<Observation>, plan: ProjectionPlan)
    ensures Attempts([], observations, plan) == [] && Refs([]) == []
  {
  }

  lemma BoundGrows(claims: seq<ObjectRef>, i: nat)
    requires i < |claims|
    ensures Bound(claims[..i + 1]) == Bound(claims[..i]) + [ClaimBound(claims[i])]
  {
  }

  lemma WaitReports(claims: seq<ObjectRef>, i: nat, e: MaterializerError, before: seq<ObjectRef>)
    requires i < |claims| && e.ClaimNotBound?
    requires e.namespace == claims[i].namespace && e.name == claims[i].name && e.applied == before
    ensures Reports(e, Bound(claims), Bound(claims[..i]), before)
  {
    AttemptRefsBound(claims[..i]);
  }

  /** Wait for each claim in turn. */
  method AwaitClaims(cluster: Cluster, claims: seq<ObjectRef>, applied: seq<ObjectRef>)
    returns (r: Result<(), MaterializerError>, ghost steps: seq<Event>)
    requires cluster.Valid()
    modifies cluster
    ensures cluster.Valid() && Onward(old(cluster.Now()), cluster.Now())
    ensures cluster.log == old(cluster.log) + steps
    ensures r.Ok? ==> steps == Bound(claims)
    ensures r.Err? ==> Reports(r.error, Bound(claims), steps, applied) && r.error.ClaimNotBound?
    ensures cluster.answers == old(cluster.answers) && NoAttempts(steps)
    ensures old(cluster.script) == [] ==> r.Ok? && cluster.script == [] && cluster.Now() == old(cluster.Now())
  {
    hide Cluster.Valid, Onward, Bound, Reports;
    SameIsOnward(cluster.Now());
    NoneBound();
    steps := [];
    assert claims[..0] == [];
    for i := 0 to |claims|
      invariant cluster.Valid() && Onward(old(cluster.Now()), cluster.Now())
      invariant cluster.log == old(cluster.log) + steps && steps == Bound(claims[..i])
      invariant cluster.answers == old(cluster.answers)
      invariant old(cluster.script) == [] ==> cluster.script == [] && cluster.Now() == old(cluster.Now())
    {
      ghost var before := cluster.Now();
      var bound := cluster.Confirm(ClaimBound(claims[i]));
      OnwardTransitive(old(cluster.Now()), before, cluster.Now());
      if bound.Err? {
        var error := WithApplied(ClaimNotBound(claims[i].namespace, claims[i].name, [], bound.error), applied);
        WaitReports(claims, i, error, applied);
        return Err(error), steps;
      }
      BoundGrows(claims, i);
      steps := Bound(claims[..i + 1]);
    }
    assert claims[..|claims|] == claims;
    r := Ok(());
  }

  lemma NoneBound()
    ensures Bound([]) == []
  {
  }

  lemma {:induction false} GroupsPrefix(s: Objects, orders: seq<ApplyOrder>, i: nat, observations: seq<Observation>,
                                        plan: ProjectionPlan)
    returns (rest: seq<Event>)
    requires i <= |orders|
    ensures GroupsTrace(s, orders, observations, plan) == GroupsTrace(s, orders[..i], observations, plan) + rest
    decreases |orders|
  {
    hide Attempts, Group, GroupsTrace;
    var n := |orders| - 1;
    if i == |orders| {
      assert orders[..i] == orders;
      rest := [];
    } else {
      var inner := GroupsPrefix(s, orders[..n], i, observations, plan);
      assert orders[..n][..i] == orders[..i] && orders[..n + 1] == orders;
      GroupsGrow(s, orders, n, observations, plan);
      rest := inner + Attempts(Group(s, orders[n]), observations, plan);
    }
  }

  lemma GroupsGrow(s: Objects, orders: seq<ApplyOrder>, i: nat, observations: seq<Observation>, plan: ProjectionPlan)
    requires i < |orders|
    ensures GroupsTrace(s, orders[..i + 1], observations, plan) ==
      GroupsTrace(s, orders[..i], observations, plan) + Attempts(Group(s, orders[i]), observations, plan)
  {
    assert orders[..i + 1][..i] == orders[..i];
  }

  /** A group that failed after the earlier ones went through makes the whole sequence of groups fail there. */
  lemma GroupsReport(s: Objects, orders: seq<ApplyOrder>, i: nat, observations: seq<Observation>, plan: ProjectionPlan,
                     e: MaterializerError, more: seq<Event>, before: seq<ObjectRef>)
    requires i < |orders|
    requires
      var done := GroupsTrace(s, orders[..i], observations, plan);
      Reports(e, Attempts(Group(s, orders[i]), observations, plan), more, before + AttemptRefs(done))
    ensures
      var done := GroupsTrace(s, orders[..i], observations, plan);
      Reports(e, GroupsTrace(s, orders, observations, plan), done + more, before)
  {
    hide Attempts, Group, Reports, AttemptRefs, GroupsTrace;
    var done := GroupsTrace(s, orders[..i], observations, plan);
    GroupsGrow(s, orders, i, observations, plan);
    ReportsAfter(e, Attempts(Group(s, orders[i]), observations, plan), more, before, done);
    var rest := GroupsPrefix(s, orders, i + 1, observations, plan);
    ReportsBefore(e, GroupsTrace(s, orders[..i + 1], observations, plan), done + more, before, rest);
  }

  /** Apply the groups in the given order. */
  method ApplyGroups(cluster: Cluster, objects: Objects, orders: seq<ApplyOrder>, observations: seq<Observation>,
                     plan: ProjectionPlan,
                     applied: seq<ObjectRef>, ghost seen: Sightings)
    returns (r: Result<seq<ObjectRef>, MaterializerError>, ghost steps: seq<Event>)
    requires cluster.Valid() && Genuine(cluster.log, plan.objects, seen) && AllOwned(plan.objects, seen)
    requires observations == Observations(plan.objects, seen)
    modifies cluster
    ensures cluster.Valid() && Genuine(cluster.log, plan.objects, seen) && Onward(old(cluster.Now()), cluster.Now())
    ensures r.Ok? ==>
      steps == GroupsTrace(objects, orders, observations, plan) && r.value == applied + AttemptRefs(steps)
    ensures r.Err? ==> Reports(r.error, GroupsTrace(objects, orders, observations, plan), steps, applied)
    ensures
      if r.Ok? then Progress(old(cluster.log), old(cluster.answers), cluster.log, cluster.answers, steps)
      else Stopped(r.error, old(cluster.log), old(cluster.answers), cluster.log, cluster.answers, steps)
    ensures old(cluster.script) == [] ==>
      && cluster.script == []
      && (AllLand(old(cluster.world), GroupsTrace(objects, orders, observations, plan)) ==>
            r.Ok? && cluster.world == Worked(old(cluster.world), GroupsTrace(objects, orders, observations, plan)))
  {
    hide Cluster.Valid, Onward, Genuine, AllOwned, Observations, Attempts, Group, Reports, AttemptRefs, GroupsTrace;
    hide Progress, Stopped, AllLand, Worked;
    SameIsOnward(cluster.Now());
    NothingWorked(cluster.world);
    NoGroups(objects, observations, plan);
    NoProgress(cluster.log, cluster.answers);
    ghost var start, told := cluster.log, cluster.answers;
    var soFar := applied;
    steps := [];
    assert orders[..0] == [];
    for i := 0 to |orders|
      invariant cluster.Valid() && Genuine(cluster.log, plan.objects, seen) && Onward(old(cluster.Now()), cluster.Now())
      invariant Progress(start, told, cluster.log, cluster.answers, steps)
      invariant steps == GroupsTrace(objects, orders[..i], observations, plan) && soFar == applied + AttemptRefs(steps)
      invariant old(cluster.script) == [] ==> cluster.script == []
      invariant
        var trace := GroupsTrace(objects, orders, observations, plan);
        old(cluster.script) == [] && AllLand(old(cluster.world), trace) ==>
          cluster.world == Worked(old(cluster.world), steps)
    {
      ghost var before, logged, known := cluster.Now(), cluster.log, cluster.answers;
      ghost var more;
      GroupLands(old(cluster.world), objects, orders, i, observations, plan);
      r, more := ApplyGroup(cluster, Group(objects, orders[i]), observations, plan, soFar, seen);
      OnwardTransitive(old(cluster.Now()), before, cluster.Now());
      GroupsGrow(objects, orders, i, observations, plan);
      if r.Err? {
        StoppedAfter(r.error, start, told, logged, known, steps, cluster.log, cluster.answers, more);
        GroupsReport(objects, orders, i, observations, plan, r.error, more, applied);
        steps := steps + more;
        return;
      }
      ProgressJoins(start, told, logged, known, steps, cluster.log, cluster.answers, more);
      AttemptRefsAppend(steps, more);
      steps := steps + more;
      soFar := r.value;
    }
    assert orders[..|orders|] == orders;
    r := Ok(soFar);
  }

  lemma GroupLands(w: World, s: Objects, orders: seq<ApplyOrder>, i: nat, observations: seq<Observation>,
                   plan: ProjectionPlan)
    requires i < |orders|
    ensures
      var done := GroupsTrace(s, orders[..i], observations, plan);
      var next := Attempts(Group(s, orders[i]), observations, plan);
      AllLand(w, GroupsTrace(s, orders, observations, plan)) ==>
        AllLand(Worked(w, done), next) && Worked(w, done + next) == Worked(Worked(w, done), next)
  {
    hide GroupsTrace, Attempts, Group, AllLand, Worked;
    GroupsGrow(s, orders, i, observations, plan);
    var rest := GroupsPrefix(s, orders, i + 1, observations, plan);
    if AllLand(w, GroupsTrace(s, orders, observations, plan)) {
      LandsNext(w, GroupsTrace(s, orders[..i], observations, plan), Attempts(Group(s, orders[i]), observations, plan),
        GroupsTrace(s, orders, observations, plan));
    }
  }

  lemma NoGroups(s: Objects, observations: seq<Observation>, plan: ProjectionPlan)
    ensures GroupsTrace(s, [], observations, plan) == [] && AttemptRefs([]) == []
  {
  }

  lemma {:induction false} GroupsOrdered(s: Objects, orders: seq<ApplyOrder>, observations: seq<Observation>,
                                         plan: ProjectionPlan)
    ensures GroupsTrace(Ordered(s), orders, observations, plan) == GroupsTrace(s, orders, observations, plan)
  {
    hide Ordered, Group, Attempts;
    if orders != [] {
      var n := |orders| - 1;
      GroupsOrdered(s, orders[..n], observations, plan);
      GroupOrdered(s, orders[n]);
    }
  }

  /**
   Apply a manifest under the preconditions of an inspection that found nothing
   foreign. Whatever fails, what was done is a prefix of the one trace, the
   error reports exactly the objects applied before the failure, and those took
   effect; success means that the whole trace did.
   */
  method ApplyManifest(cluster: Cluster, manifest: Manifest, observations: seq<Observation>, plan: ProjectionPlan,
                       ghost seen: Sightings)
    returns (r: Result<seq<ObjectRef>, MaterializerError>, ghost steps: seq<Event>)
    requires cluster.Valid() && Genuine(cluster.log, plan.objects, seen) && AllOwned(plan.objects, seen)
    requires observations == Observations(plan.objects, seen)
    modifies cluster
    ensures cluster.Valid() && Onward(old(cluster.Now()), cluster.Now())
    ensures cluster.log == old(cluster.log) + steps
    ensures
      var trace := Trace(manifest.objects, observations, plan);
      && (r.Ok? ==> Renderable(manifest) && steps == trace && r.value == Refs(Ordered(manifest.objects)))
      && (r.Err? ==>
        if Renderable(manifest) then Reports(r.error, trace, steps, []) else r.error.InvalidManifest? && steps == [])
    ensures Keeps(old(cluster.answers), cluster.answers)
    ensures
      var from := |old(cluster.log)|;
      if r.Ok? then AllOk(cluster.answers, steps, from) && AllTook(cluster.chronicle, steps, from)
      else TookUpTo(r.error, cluster.chronicle, cluster.landings, cluster.inFlight, steps, from)
    ensures old(cluster.script) == [] ==>
      var trace := Trace(manifest.objects, observations, plan);
      && cluster.script == []
      && (Renderable(manifest) && AllLand(old(cluster.world), trace) ==>
            r.Ok? && cluster.world == Worked(old(cluster.world), trace))
  {
    hide Cluster.Valid, Onward, Genuine, AllOwned, Observations, Keeps, AllOk, AllTook, Went, TookUpTo, Trace, Reports;
    hide AllLand, Worked;
    SameIsOnward(cluster.Now());
    SameKeeps(cluster.answers);
    steps := [];
    var rendered := RenderedRefs(manifest);
    if rendered.Err? {
      NothingTook(rendered.error, cluster.chronicle, cluster.landings, cluster.inFlight, |cluster.log|);
      return Err(rendered.error), steps;
    }
    r, steps := ApplyInOrder(cluster, manifest.objects, observations, plan, seen);
    TraceDeletesNothing(manifest.objects, observations, plan);
    if r.Err? {
      assert steps <= Trace(manifest.objects, observations, plan) by {
        ReportsPrefix(r.error, Trace(manifest.objects, observations, plan), steps);
      }
      WentTook(cluster, old(cluster.log), steps, r.error);
      return;
    }
    assert cluster.log == old(cluster.log) + steps + [];
    OkTook(cluster, old(cluster.log), steps, []);
    r := Ok(rendered.value);
  }

  lemma ReportsPrefix(e: MaterializerError, trace: seq<Event>, steps: seq<Event>)
    requires Reports(e, trace, steps, [])
    ensures steps <= trace
  {
  }

  lemma NothingTook(e: MaterializerError, c: Chronicle, landings: seq<Landing>, inFlight: seq<Sent>, from: nat)
    requires e.InvalidManifest?
    ensures TookUpTo(e, c, landings, inFlight, [], from)
  {
  }

  /** Storage first, then everything that may depend on it. */
  method ApplyInOrder(cluster: Cluster, manifest: Objects, observations: seq<Observation>, plan: ProjectionPlan,
                      ghost seen: Sightings)
    returns (r: Result<seq<ObjectRef>, MaterializerError>, ghost steps: seq<Event>)
    requires cluster.Valid() && Genuine(cluster.log, plan.objects, seen) && AllOwned(plan.objects, seen)
    requires observations == Observations(plan.objects, seen)
    modifies cluster
    ensures cluster.Valid() && Onward(old(cluster.Now()), cluster.Now())
    ensures
      var trace := Trace(manifest, observations, plan);
      if r.Ok? then steps == trace else Reports(r.error, trace, steps, [])
    ensures
      if r.Ok? then Progress(old(cluster.log), old(cluster.answers), cluster.log, cluster.answers, steps)
      else Stopped(r.error, old(cluster.log), old(cluster.answers), cluster.log, cluster.answers, steps)
    ensures old(cluster.script) == [] ==>
      && cluster.script == []
      && (AllLand(old(cluster.world), Trace(manifest, observations, plan)) ==>
            r.Ok? && cluster.world == Worked(old(cluster.world), Trace(manifest, observations, plan)))
  {
    hide Cluster.Valid, Onward, Genuine, AllOwned, Observations, GroupsTrace, Group;
    hide Ordered, Bound, Reports, AttemptRefs, Refs, Progress, Stopped, AllLand, Worked;
    var objects := Ordered(manifest);
    GroupsOrdered(manifest, STORAGE, observations, plan);
    GroupsOrdered(manifest, SERVING, observations, plan);
    GroupOrdered(manifest, ClaimOrder);
    ghost var storage, serving :=
      GroupsTrace(objects, STORAGE, observations, plan), GroupsTrace(objects, SERVING, observations, plan);
    ghost var bound := Bound(Refs(Group(objects, ClaimOrder)));
    WorkedJoins(cluster.world, storage, bound + serving);
    assert storage + (bound + serving) == (storage + bound) + serving;
    r, steps := ApplyGroups(cluster, objects, STORAGE, observations, plan, [], seen);
    if r.Err? {
      ReportsBefore(r.error, storage, steps, [], bound);
      ReportsBefore(r.error, storage + bound, steps, [], serving);
      return;
    }
    ghost var more;
    ghost var middle, logged, known := cluster.Now(), cluster.log, cluster.answers;
    r, more := FinishApply(cluster, objects, observations, plan, r.value, seen);
    OnwardTransitive(old(cluster.Now()), middle, cluster.Now());
    steps := storage + more;
    if r.Err? {
      assert [] + AttemptRefs(storage) == AttemptRefs(storage);
      ReportsAfter(r.error, bound + serving, more, [], storage);
      StoppedAfter(r.error, old(cluster.log), old(cluster.answers), logged, known, storage, cluster.log,
                   cluster.answers, more);
    } else {
      ProgressJoins(old(cluster.log), old(cluster.answers), logged, known, storage, cluster.log, cluster.answers, more);
    }
  }

  /** Wait for the claims and apply everything that may depend on them. */
  method FinishApply(cluster: Cluster, objects: Objects, observations: seq<Observation>, plan: ProjectionPlan,
                     applied: seq<ObjectRef>, ghost seen: Sightings)
    returns (r: Result<seq<ObjectRef>, MaterializerError>, ghost steps: seq<Event>)
    requires cluster.Valid() && Genuine(cluster.log, plan.objects, seen) && AllOwned(plan.objects, seen)
    requires observations == Observations(plan.objects, seen)
    modifies cluster
    ensures cluster.Valid() && Onward(old(cluster.Now()), cluster.Now())
    ensures
      var trace := Bound(Refs(Group(objects, ClaimOrder))) + GroupsTrace(objects, SERVING, observations, plan);
      if r.Ok? then steps == trace else Reports(r.error, trace, steps, applied)
    ensures
      if r.Ok? then Progress(old(cluster.log), old(cluster.answers), cluster.log, cluster.answers, steps)
      else Stopped(r.error, old(cluster.log), old(cluster.answers), cluster.log, cluster.answers, steps)
    ensures old(cluster.script) == [] ==>
      var trace := Bound(Refs(Group(objects, ClaimOrder))) + GroupsTrace(objects, SERVING, observations, plan);
      && cluster.script == []
      && (AllLand(old(cluster.world), trace) ==> r.Ok? && cluster.world == Worked(old(cluster.world), trace))
  {
    hide Cluster.Valid, Onward, Genuine, AllOwned, Observations, GroupsTrace, Group, Bound, Reports, AttemptRefs, Refs;
    hide NoAttempts, Progress, Stopped, AllLand, Worked;
    ghost var bound, serving :=
      Bound(Refs(Group(objects, ClaimOrder))), GroupsTrace(objects, SERVING, observations, plan);
    var waited;
    waited, steps := AwaitClaims(cluster, Refs(Group(objects, ClaimOrder)), applied);
    WaitingProgress(old(cluster.log), cluster.log, cluster.answers, steps);
    if waited.Err? {
      NotApplied(waited.error, old(cluster.log), cluster.log, cluster.answers, steps);
      ReportsBefore(waited.error, bound, steps, applied, serving);
      return Err(waited.error), steps;
    }
    ghost var middle, logged, known := cluster.Now(), cluster.log, cluster.answers;
    GenuineLater(old(cluster.log), cluster.log, plan.objects, seen);
    WaitingWorks(cluster.world, Refs(Group(objects, ClaimOrder)), serving);
    ghost var more;
    r, more := ApplyGroups(cluster, objects, SERVING, observations, plan, applied, seen);
    OnwardTransitive(old(cluster.Now()), middle, cluster.Now());
    steps := bound + more;
    if r.Err? {
      AttemptRefsBound(Refs(Group(objects, ClaimOrder)));
      assert applied + AttemptRefs(bound) == applied;
      ReportsAfter(r.error, serving, more, applied, bound);
      StoppedAfter(r.error, old(cluster.log), old(cluster.answers), logged, known, bound, cluster.log,
                   cluster.answers, more);
    } else {
      ProgressJoins(old(cluster.log), old(cluster.answers), logged, known, bound, cluster.log, cluster.answers, more);
    }
  }

  lemma WaitingWorks(w: World, refs: seq<ObjectRef>, rest: seq<Event>)
    ensures Worked(w, Bound(refs) + rest) == Worked(w, rest)
    ensures AllLand(w, Bound(refs) + rest) <==> AllLand(w, rest)
  {
    hide AllLand, Worked;
    WorkedNone(w, Bound(refs));
    WorkedJoins(w, Bound(refs), rest);
  }

  lemma WaitingProgress(start: seq<Event>, log: seq<Event>, answers: Answers, steps: seq<Event>)
    requires NoAttempts(steps) && log == start + steps
    ensures Progress(start, answers, log, answers, steps)
  {
  }

  lemma NotApplied(e: MaterializerError, start: seq<Event>, log: seq<Event>, answers: Answers, steps: seq<Event>)
    requires e.ClaimNotBound? && Progress(start, answers, log, answers, steps)
    ensures Stopped(e, start, answers, log, answers, steps)
  {
  }
}
