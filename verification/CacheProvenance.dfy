/** Where a cached answer's subscription ID comes from, over whole runs. */
module CacheProvenance {
  import opened Prelude
  import opened CacheSpec
  import opened CacheLines

  /** `request` is answered by an answer that `id` backs. */
  ghost predicate Backs(line: Line<Route>, request: RouteIdentity, id: SubscriptionId) {
    exists s :: s in line && s.identity == request && s.body.subscription == Some(id)
  }

  /** The one operation that attaches an ID to an answer. */
  predicate Attaches(op: Op, request: RouteIdentity, id: SubscriptionId) {
    op.OpInsertResolved? && op.request == request && op.incoming.subscription == Some(id)
  }

  /** What ends the tie between an ID and an answer, whatever the cache holds. */
  predicate Severs(op: Op, request: RouteIdentity, id: SubscriptionId) {
    || op.OpRotate?
    || op.OpClear?
    || op == OpInvalidateSubscription(id)
    || op == OpInvalidateRequest(request)
    || (op.OpInsertNegative? && op.request == request)
  }

  /** Some operation of the run attached `id` to `request` and none after it severed them. */
  ghost predicate AttachedSince(ops: seq<Op>, request: RouteIdentity, id: SubscriptionId) {
    exists k :: 0 <= k < |ops| && Attaches(ops[k], request, id)
                && forall j :: k < j < |ops| ==> !Severs(ops[j], request, id)
  }

  lemma BacksPart(part: Line<Route>, whole: Line<Route>, request: RouteIdentity, id: SubscriptionId)
    requires Backs(part, request, id) && forall s :: s in part ==> s in whole
    ensures Backs(whole, request, id)
  {
  }

  lemma {:induction false} SweptPart<B>(line: Line<B>, now: nat, limit: nat)
    ensures forall i :: 0 <= i < |Sweep(line, now, limit).kept| ==> Sweep(line, now, limit).kept[i] in line
    decreases limit
  {
    if limit != 0 && line != [] && line[Earliest(line)].expiresAt <= now {
      SweptPart(RemoveAt(line, Earliest(line)), now, limit - 1);
    }
  }

  lemma BacksRefreshed(line: Line<Route>, at: RouteIdentity, matched: RouteIdentity, entry: RouteEntry, expiresAt: nat,
                       request: RouteIdentity, id: SubscriptionId)
    requires Backs(Refresh(line, at, matched, entry, expiresAt), request, id)
    ensures Backs(line, request, id)
  {
    var after := Refresh(line, at, matched, entry, expiresAt);
    var i :| 0 <= i < |after| && after[i].identity == request && after[i].body.subscription == Some(id);
    assert line[i] in line;
  }

  lemma BacksInstalled(v: View, incoming: Route, at: RouteIdentity, expiresAt: nat, request: RouteIdentity,
                       id: SubscriptionId)
    requires Tidy(v) && Backs(Installed(v, at, incoming, expiresAt).view.hits, request, id)
    ensures Backs(v.hits, request, id) || (at == request && incoming.subscription == Some(id))
  {
    hide Tidy, Holder, Without, Unaliased;
    var kept := v.(hits := Without(v.hits, at));
    WithoutHitTidy(v, at);
    WithoutExcludes(v.hits, at);
    UnaliasedTidy(kept, incoming.subscription);
    var full := Joined(v.hits, at, incoming, expiresAt);
    BacksPart(full[Over(full, v.capacity)..], full, request, id);
  }

  lemma BacksExpired(v: View, now: nat, limit: nat, request: RouteIdentity, id: SubscriptionId)
    requires Backs(ExpireLimited(v, now, limit).view.hits, request, id)
    ensures Backs(v.hits, request, id)
  {
    SweptPart(v.hits, now, limit);
  }

  /** One step: an ID backs an answer afterwards only if it was attached now, or before and not severed. */
  lemma StepBacks(v: View, op: Op, request: RouteIdentity, id: SubscriptionId)
    requires WellFormed(v) && Backs(Step(v, op).view.hits, request, id)
    ensures Attaches(op, request, id) || (Backs(v.hits, request, id) && !Severs(op, request, id))
  {
    hide Tidy, Holder, Without, Unaliased, ExpireLimited, Installed, Find, Refresh, Unregistered;
    match op
    case OpInsertResolved(at, incoming, expiresAt, now) =>
      var swept := ExpireLimited(v, now, INSERT_EXPIRY_BUDGET).view;
      ExpireWellFormed(v, now, INSERT_EXPIRY_BUDGET);
      WithoutExcludes(swept.hits, at);
      if !RefusesIncoming(swept, at, incoming) {
        BacksInstalled(swept, incoming, at, expiresAt, request, id);
      } else if Find(swept.hits, at).value.body.subscription.None? {
        BacksPart(Without(swept.hits, at), swept.hits, request, id);
      }
      if Backs(swept.hits, request, id) {
        BacksExpired(v, now, INSERT_EXPIRY_BUDGET, request, id);
      }
    case OpInsertNegative(at, ttl, now) =>
      var swept := ExpireLimited(v, now, INSERT_EXPIRY_BUDGET).view;
      WithoutExcludes(swept.hits, at);
      BacksPart(Without(swept.hits, at), swept.hits, request, id);
      BacksExpired(v, now, INSERT_EXPIRY_BUDGET, request, id);
    case OpExpire(now, limit) => BacksExpired(v, now, limit, request, id);
    case OpInvalidateSubscription(_) => UnaliasedTidy(v, Some(op.id));
    case OpInvalidateRequest(at) => WithoutExcludes(v.hits, at);
    case OpReplace(_, _, _, _, _) => ReplaceBacks(v, op, request, id);
    case OpRefresh(at, matched, entry, ttl, now) => BacksRefreshed(v.hits, at, matched, entry, now + ttl, request, id);
    case OpUpdate(_, _, _, _, _) => ReplaceBacks(v, op, request, id);
    case OpReadyWake(cached, ready, now) => ReadyWakeBacks(v, op, request, id);
    case OpRotate =>
    case OpClear =>
  }

  lemma ReplaceBacks(v: View, op: Op, request: RouteIdentity, id: SubscriptionId)
    requires op.OpReplace? || op.OpUpdate?
    requires Backs(Step(v, op).view.hits, request, id)
    ensures Backs(v.hits, request, id)
  {
    hide Find, Holder, Refresh, Backs;
    var at := Holder(v.hits, op.id);
    if Step(v, op).view != v {
      BacksRefreshed(v.hits, at.value, op.matched, op.entry, op.now + op.ttl, request, id);
    }
  }

  lemma ReadyWakeBacks(v: View, op: Op, request: RouteIdentity, id: SubscriptionId)
    requires op.OpReadyWake? && Backs(Step(v, op).view.hits, request, id)
    ensures Backs(v.hits, request, id)
  {
    hide Find, Holder, Refresh, Backs;
    if Step(v, op).view != v {
      var left := Max(op.cached.expiresAt - op.now, 0);
      BacksRefreshed(v.hits, op.cached.identity, op.cached.body.matched, op.ready, op.now + left, request, id);
    }
  }

  /** Every ID a run leaves on an answer was attached to that very answer and not severed since. */
  lemma {:induction false} RunBacks(capacity: nat, ops: seq<Op>, request: RouteIdentity, id: SubscriptionId)
    requires Backs(Run(Empty(capacity), ops).view.hits, request, id)
    ensures AttachedSince(ops, request, id)
    decreases |ops|
  {
    hide Step, Severs, Attaches, Tidy, WellFormed;
    if ops != [] {
      var n := |ops| - 1;
      var before := Run(Empty(capacity), ops[..n]).view;
      RunWellFormed(capacity, ops[..n]);
      StepBacks(before, ops[n], request, id);
      if !Attaches(ops[n], request, id) {
        RunBacks(capacity, ops[..n], request, id);
        var k :| 0 <= k < n && Attaches(ops[..n][k], request, id)
                 && forall j :: k < j < n ==> !Severs(ops[..n][j], request, id);
        assert Attaches(ops[k], request, id);
        forall j | k < j < |ops| ensures !Severs(ops[j], request, id) {
          assert j < n ==> ops[..n][j] == ops[j];
        }
      }
    }
  }

  /** A control-plane message addressed by subscription ID. */
  predicate Message(op: Op) { op.OpUpdate? || op.OpReplace? || op.OpInvalidateSubscription? }

  lemma UnknownIdIgnored(v: View, op: Op)
    requires Message(op) && forall request :: !Backs(v.hits, request, op.id)
    ensures Step(v, op) == Outcome(v, [])
  {
    hide Find, Refresh, Without;
    forall s | s in v.hits ensures s.body.subscription != Some(op.id) {
      assert s.body.subscription == Some(op.id) ==> Backs(v.hits, s.identity, op.id);
    }
  }

  /** After a rotation, a message changes nothing until its ID is attached again. */
  lemma OldIdIgnored(capacity: nat, before: seq<Op>, after: seq<Op>, op: Op)
    requires Message(op) && forall i, request :: 0 <= i < |after| ==> !Attaches(after[i], request, op.id)
    ensures
      var v := Run(Empty(capacity), before + [OpRotate] + after).view;
      Step(v, op) == Outcome(v, [])
  {
    hide Step, Run, AttachedSince;
    var ops := before + [OpRotate] + after;
    var v := Run(Empty(capacity), ops).view;
    forall request ensures !Backs(v.hits, request, op.id) {
      RotationSevers(before, after, request, op.id);
      if Backs(v.hits, request, op.id) {
        RunBacks(capacity, ops, request, op.id);
      }
    }
    UnknownIdIgnored(v, op);
  }

  lemma RotationSevers(before: seq<Op>, after: seq<Op>, request: RouteIdentity, id: SubscriptionId)
    requires forall i :: 0 <= i < |after| ==> !Attaches(after[i], request, id)
    ensures !AttachedSince(before + [OpRotate] + after, request, id)
  {
    var ops := before + [OpRotate] + after;
    forall i | |before| <= i < |ops| ensures !Attaches(ops[i], request, id) {
      assert i > |before| ==> ops[i] == after[i - |before| - 1];
    }
    assert Severs(ops[|before|], request, id);
  }

  /** A message reaches at most the one answer its ID backs. */
  lemma MessageReachesOne(v: View, op: Op, request: RouteIdentity)
    requires WellFormed(v) && Message(op) && !Backs(v.hits, request, op.id)
    ensures Find(Step(v, op).view.hits, request) == Find(v.hits, request)
    ensures Step(v, op).view.misses == v.misses
  {
    hide Find, Refresh, Without, DistinctSubscriptions;
    var at := Holder(v.hits, op.id);
    if at.Some? {
      assert at.value != request by {
        var s :| s in v.hits && s.body.subscription == Some(op.id) && s.identity == at.value;
      }
      FindWithout(v.hits, at.value, request);
      if !op.OpInvalidateSubscription? {
        FindRefreshed(v.hits, at.value, op.matched, op.entry, op.now + op.ttl, request);
      }
    }
  }

  lemma {:induction false} FindWithout<B>(line: Line<B>, gone: RouteIdentity, id: RouteIdentity)
    ensures Find(Without(line, gone), id) == if id == gone then None else Find(line, id)
  {
    if line != [] {
      FindWithout(line[1..], gone, id);
      var rest := Without(line[1..], gone);
      assert ([line[0]] + rest)[1..] == rest && [] + rest == rest;
    }
  }

  lemma {:induction false} FindRefreshed(line: Line<Route>, at: RouteIdentity, matched: RouteIdentity,
                                         entry: RouteEntry,
                                         expiresAt: nat, id: RouteIdentity)
    ensures
      var was := Find(line, id);
      Find(Refresh(line, at, matched, entry, expiresAt), id) ==
        if id == at && was.Some? then Some(Slot(id, expiresAt, Route(was.value.body.subscription, matched, entry)))
          else was
  {
    if line != [] {
      FindRefreshed(line[1..], at, matched, entry, expiresAt, id);
      assert Refresh(line, at, matched, entry, expiresAt)[1..] == Refresh(line[1..], at, matched, entry, expiresAt);
    }
  }

  /** The same answer with no ID. */
  function Unlinked(s: Slot<Route>): Slot<Route> { s.(body := s.body.(subscription := None)) }

  lemma {:induction false} FindUnregistered(line: Line<Route>, id: RouteIdentity)
    ensures
      var was := Find(line, id);
      Find(Unregistered(line), id) == if was.Some? then Some(Unlinked(was.value)) else None
  {
    if line != [] {
      FindUnregistered(line[1..], id);
      assert Unregistered(line)[1..] == Unregistered(line[1..]);
    }
  }

  lemma {:induction false} NoIds(line: Line<Route>)
    requires forall s :: s in line ==> s.body.subscription == None
    ensures Ids(line) == []
  {
    if line != [] {
      NoIds(line[1..]);
    }
  }

  /**
   Rotation changes nothing about any lookup but the ID, leaves no ID alive,
   and marks exactly the answers still unexpired for registering again.
   */
  lemma RotationKeepsAnswers(v: View, id: RouteIdentity, t: nat)
    ensures
      var before := LookupAt(v, id, t);
      LookupAt(RotateSession(v), id, t) == if before.Positive? then Positive(Unlinked(before.hit)) else before
    ensures Ids(RotateSession(v).hits) == []
    ensures NeedsReregistration(RotateSession(v), id, t) <==> LookupAt(v, id, t).Positive?
  {
    hide Find;
    FindUnregistered(v.hits, id);
    NoIds(RotateSession(v).hits);
  }
}
