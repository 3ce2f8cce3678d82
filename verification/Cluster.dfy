/**
 The live cluster as the projection protocol meets it. Other actors may change
 anything between any two calls and a request may land long after its caller
 gave up on it. Only three things are assumed: every change of an object gives
 it a version number never used before, a conditional request takes effect only
 on the version it names, and a create only on an absent name.
 */
module Cluster {
  import opened Prelude
  import opened Manifests
  import opened Stamps
  import opened ClientErrors
  import opened Planning
  import opened Retry

  datatype Effect =
    | Create(target: ObjectRef, body: KubernetesObject)
    | Patch(target: ObjectRef, body: KubernetesObject, version: LiveIdentity)
    | Delete(target: ObjectRef, version: LiveIdentity)

  /** An effect and the plan on whose behalf it was requested. */
  datatype Request = Request(effect: Effect, under: ProjectionPlan)

  datatype Version = Version(target: ObjectRef, live: LiveObject)

  /** `history` is every version there ever was, by version number. */
  datatype World = World(objects: map<ObjectRef, LiveObject>, clock: nat, history: map<nat, Version>)

  ghost predicate Recorded(w: World, target: ObjectRef, live: LiveObject) {
    var v := live.identity.resourceVersion;
    v in w.history && w.history[v] == Version(target, live)
  }

  ghost predicate Consistent(w: World) {
    && (forall r :: r in w.objects ==> Recorded(w, r, w.objects[r]))
    && (forall v :: v in w.history ==> 0 < v <= w.clock)
    && (forall v :: v in w.history ==> w.history[v].live.identity.uid > 0)
  }

  /** Versions are never rewritten. */
  ghost predicate Later(w: World, w': World) {
    forall v :: v in w.history ==> v in w'.history && w'.history[v] == w.history[v]
  }

  function LookIn(w: World, target: ObjectRef): Option<LiveObject> {
    if target in w.objects then Some(w.objects[target]) else None
  }

  /** Store a new version of an object, under a version number never used before. */
  function Put(w: World, target: ObjectRef, live: LiveObject): World {
    var now := w.clock + 1;
    var uid := if target in w.objects then w.objects[target].identity.uid else now;
    var stored := live.(identity := LiveIdentity(uid, now));
    World(w.objects[target := stored], now, w.history[now := Version(target, stored)])
  }

  function Drop(w: World, target: ObjectRef): World { w.(objects := w.objects - {target}) }

  lemma PutConsistent(w: World, target: ObjectRef, live: LiveObject)
    requires Consistent(w)
    ensures Consistent(Put(w, target, live)) && Later(w, Put(w, target, live))
  {
  }

  lemma DropConsistent(w: World, target: ObjectRef)
    requires Consistent(w)
    ensures Consistent(Drop(w, target)) && Later(w, Drop(w, target))
  {
  }

  lemma LaterTransitive(a: World, b: World, c: World)
    requires Later(a, b) && Later(b, c)
    ensures Later(a, c)
  {
  }

  // ---- a request takes effect --------------------------------------------

  datatype Arrival = Landed | Absent | Mismatch

  function Created(body: KubernetesObject): LiveObject {
    LiveObject(Policy(body), LiveIdentity(0, 0), body.metadata.tags, false, [])
  }

  function Policy(body: KubernetesObject): Option<string> {
    if body.PersistentVolume? then body.reclaimPolicy else None
  }

  /** A merge patch adds and overwrites what its body says. */
  function Patched(live: LiveObject, body: KubernetesObject): LiveObject {
    live.(
      tags :=
        Tags(live.tags.labels + body.metadata.tags.labels, live.tags.annotations + body.metadata.tags.annotations),
      reclaimPolicy := if Policy(body).Some? then Policy(body) else live.reclaimPolicy)
  }

  /** Whether an effect would land now. */
  function Meets(w: World, e: Effect): Arrival {
    match e
    case Create(target, _) => if target in w.objects then Mismatch else Landed
    case Patch(target, _, version) =>
      if target !in w.objects then Absent else if w.objects[target].identity == version then Landed else Mismatch
    case Delete(target, version) =>
      if target !in w.objects then Absent else if w.objects[target].identity == version then Landed else Mismatch
  }

  /** The effect lands if nothing comes in between: the client lets it pass, and the world is as it expects. */
  predicate Lands(w: World, e: Effect) {
    && Meets(w, e) == Landed
    && (e.Delete? && e.target.kind == "PersistentVolume" ==> w.objects[e.target].reclaimPolicy == Some("Retain"))
  }

  /** The world after an effect landed; finalizers keep a deleted object around, marked. */
  function After(w: World, e: Effect): World
    requires Meets(w, e) == Landed
  {
    match e
    case Create(target, body) => Put(w, target, Created(body))
    case Patch(target, body, _) => Put(w, target, Patched(w.objects[target], body))
    case Delete(target, _) =>
      if w.objects[target].finalizers == [] then Drop(w, target)
      else Put(w, target, w.objects[target].(deleting := true))
  }

  lemma AfterConsistent(w: World, e: Effect)
    requires Consistent(w) && Meets(w, e) == Landed
    ensures Consistent(After(w, e)) && Later(w, After(w, e))
  {
    hide Consistent, Later, Put, Drop;
    match e
    case Create(target, body) => PutConsistent(w, target, Created(body));
    case Patch(target, body, _) => PutConsistent(w, target, Patched(w.objects[target], body));
    case Delete(target, _) =>
      DropConsistent(w, target);
      PutConsistent(w, target, w.objects[target].(deleting := true));
  }

  // ---- what makes a request safe -----------------------------------------

  ghost predicate PlanOwns(plan: ProjectionPlan, target: ObjectRef, tags: Tags) {
    exists i :: 0 <= i < |plan.objects| && plan.objects[i].objectRef == target && Owns(plan.objects[i].expected, tags)
  }

  /** The plan may act on this version: it owns it, and may delete it only if its storage is retained. */
  ghost predicate MayTouch(r: Request, live: LiveObject) {
    && PlanOwns(r.under, r.effect.target, live.tags)
    && (r.effect.Delete? && r.effect.target.kind == "PersistentVolume" ==> live.reclaimPolicy == Some("Retain"))
  }

  datatype Event =
    | Inspected(target: ObjectRef, found: Option<LiveObject>)
    | Attempted(request: Request)
    | ClaimBound(target: ObjectRef)
    | BindingsVerified
    | NoDescendants
    | BackendReady

  /** The inspection that licenses a conditional request: it showed the named version, which the plan may act on. */
  ghost predicate Shows(e: Event, r: Request) {
    && e.Inspected? && !r.effect.Create? && e.target == r.effect.target
    && e.found.Some? && e.found.value.identity == r.effect.version && MayTouch(r, e.found.value)
  }

  /** A conditional request names a version inspected before event `t`. */
  ghost predicate LicensedBy(r: Request, log: seq<Event>, t: nat) {
    !r.effect.Create? ==> exists i :: 0 <= i < t && i < |log| && Shows(log[i], r)
  }

  ghost predicate Licensed(r: Request, log: seq<Event>) { LicensedBy(r, log, |log|) }

  /** What the log says was seen did exist. */
  ghost predicate LogTrue(log: seq<Event>, w: World) {
    forall i :: 0 <= i < |log| && log[i].Inspected? && log[i].found.Some? ==>
      Recorded(w, log[i].target, log[i].found.value)
  }

  /** A mutation on its way; its ticket is the place of its attempt in the log. */
  datatype Sent = Sent(ticket: nat, request: Request)

  /** What a mutation found when it took effect. */
  datatype Landing = Landing(sent: Sent, found: Option<LiveObject>)

  /** The mutation was attempted, under a license older than the attempt. */
  ghost predicate Backed(s: Sent, log: seq<Event>) {
    s.ticket < |log| && log[s.ticket] == Attempted(s.request) && LicensedBy(s.request, log, s.ticket)
  }

  /** It created an absent name, or changed exactly what was inspected before the attempt, which its plan may act on. */
  ghost predicate Justified(l: Landing, log: seq<Event>) {
    var r := l.sent.request;
    if r.effect.Create? then l.found.None?
    else
      && l.found.Some? && l.found.value.identity == r.effect.version && MayTouch(r, l.found.value)
      && exists i :: 0 <= i < l.sent.ticket && i < |log| && log[i] == Inspected(r.effect.target, l.found)
  }

  /** The heart of the protocol: a licensed request that lands, however late, is justified. */
  lemma LandingJustified(s: Sent, log: seq<Event>, w: World)
    requires Consistent(w) && LogTrue(log, w) && Backed(s, log) && Meets(w, s.request.effect) == Landed
    ensures Justified(Landing(s, LookIn(w, s.request.effect.target)), log)
  {
    hide MayTouch;
    var r := s.request;
    if !r.effect.Create? {
      var i :| 0 <= i < s.ticket && i < |log| && Shows(log[i], r);
      var live := log[i].found.value;
      assert Recorded(w, r.effect.target, live);
      assert Recorded(w, r.effect.target, w.objects[r.effect.target]);
      assert live == w.objects[r.effect.target] && log[i] == Inspected(r.effect.target, Some(live));
    }
  }

  // ---- every mutation takes effect at most once --------------------------

  /** The mutation has neither landed nor is it still on its way. */
  ghost predicate Free(ticket: nat, landings: seq<Landing>, inFlight: seq<Sent>) {
    && (forall i :: 0 <= i < |landings| ==> landings[i].sent.ticket != ticket)
    && (forall i :: 0 <= i < |inFlight| ==> inFlight[i].ticket != ticket)
  }

  /** The mutation may still arrive. */
  ghost predicate Flying(ticket: nat, inFlight: seq<Sent>) {
    exists i :: 0 <= i < |inFlight| && inFlight[i].ticket == ticket
  }

  /** Landed and flying mutations were all attempted, each is one of a kind, and every landing is justified. */
  ghost predicate Accounted(landings: seq<Landing>, inFlight: seq<Sent>, log: seq<Event>) {
    && (forall i :: 0 <= i < |inFlight| ==> Backed(inFlight[i], log))
    && (forall i :: 0 <= i < |landings| ==> Backed(landings[i].sent, log) && Justified(landings[i], log))
    && (forall i, j :: 0 <= i < j < |inFlight| ==> inFlight[i].ticket != inFlight[j].ticket)
    && (forall i, j :: 0 <= i < j < |landings| ==> landings[i].sent.ticket != landings[j].sent.ticket)
    && (forall i, j :: 0 <= i < |landings| && 0 <= j < |inFlight| ==> landings[i].sent.ticket != inFlight[j].ticket)
  }

  lemma BackedLater(s: Sent, log: seq<Event>, e: Event)
    requires Backed(s, log)
    ensures Backed(s, log + [e])
  {
    hide Shows;
    if !s.request.effect.Create? {
      var i :| 0 <= i < s.ticket && i < |log| && Shows(log[i], s.request);
      assert (log + [e])[i] == log[i];
    }
  }

  lemma JustifiedLater(l: Landing, log: seq<Event>, e: Event)
    requires Justified(l, log)
    ensures Justified(l, log + [e])
  {
    hide MayTouch;
    var r := l.sent.request;
    if !r.effect.Create? {
      var i :| 0 <= i < l.sent.ticket && i < |log| && log[i] == Inspected(r.effect.target, l.found);
      assert (log + [e])[i] == log[i];
    }
  }

  lemma AccountedLogged(landings: seq<Landing>, inFlight: seq<Sent>, log: seq<Event>, e: Event)
    requires Accounted(landings, inFlight, log)
    ensures Accounted(landings, inFlight, log + [e])
    ensures Free(|log|, landings, inFlight)
  {
    hide Justified, LicensedBy;
    forall i | 0 <= i < |inFlight| ensures Backed(inFlight[i], log + [e]) {
      BackedLater(inFlight[i], log, e);
    }
    forall i | 0 <= i < |landings| ensures Backed(landings[i].sent, log + [e]) && Justified(landings[i], log + [e]) {
      BackedLater(landings[i].sent, log, e);
      JustifiedLater(landings[i], log, e);
    }
  }

  lemma AccountedLanded(landings: seq<Landing>, inFlight: seq<Sent>, log: seq<Event>, l: Landing)
    requires Accounted(landings, inFlight, log) && Free(l.sent.ticket, landings, inFlight)
    requires Backed(l.sent, log) && Justified(l, log)
    ensures Accounted(landings + [l], inFlight, log)
  {
    hide Justified, Backed;
  }

  lemma AccountedSent(landings: seq<Landing>, inFlight: seq<Sent>, log: seq<Event>, s: Sent)
    requires Accounted(landings, inFlight, log) && Free(s.ticket, landings, inFlight) && Backed(s, log)
    ensures Accounted(landings, inFlight + [s], log)
  {
    hide Justified, Backed;
  }

  function Without(inFlight: seq<Sent>, k: nat): (r: seq<Sent>)
    requires k < |inFlight|
    ensures |r| == |inFlight| - 1
    ensures forall i :: 0 <= i < |r| ==> r[i] == inFlight[if i < k then i else i + 1]
  {
    inFlight[..k] + inFlight[k + 1..]
  }

  lemma AccountedTaken(landings: seq<Landing>, inFlight: seq<Sent>, log: seq<Event>, k: nat)
    requires Accounted(landings, inFlight, log) && k < |inFlight|
    ensures Accounted(landings, Without(inFlight, k), log)
    ensures Free(inFlight[k].ticket, landings, Without(inFlight, k)) && Backed(inFlight[k], log)
  {
    hide Justified, Backed;
  }

  function Landers(landings: seq<Landing>): (r: seq<Sent>)
    ensures |r| == |landings| && forall i :: 0 <= i < |r| ==> r[i] == landings[i].sent
  {
    seq(|landings|, i requires 0 <= i < |landings| => landings[i].sent)
  }

  function Requests(sent: seq<Sent>): (r: seq<Request>)
    ensures |r| == |sent| && forall i :: 0 <= i < |r| ==> r[i] == sent[i].request
  {
    seq(|sent|, i requires 0 <= i < |sent| => sent[i].request)
  }

  /** Distinct tickets point at distinct attempts. */
  lemma {:induction false} TicketsWithinAttempts(sent: seq<Sent>, log: seq<Event>, r: Request)
    requires forall i :: 0 <= i < |sent| ==> sent[i].ticket < |log| && log[sent[i].ticket] == Attempted(sent[i].request)
    requires forall i, j :: 0 <= i < j < |sent| ==> sent[i].ticket != sent[j].ticket
    ensures multiset(Requests(sent))[r] <= multiset(log)[Attempted(r)]
    decreases |log|
  {
    if log == [] {
      assert Requests(sent) == [];
    } else {
      var n := |log| - 1;
      assert log == log[..n] + [log[n]];
      if k :| 0 <= k < |sent| && sent[k].ticket == n {
        var rest := Without(sent, k);
        TicketsWithinAttempts(rest, log[..n], r);
        TakenOut(sent, k);
      } else {
        TicketsWithinAttempts(sent, log[..n], r);
      }
    }
  }

  lemma TakenOut(sent: seq<Sent>, k: nat)
    requires k < |sent|
    ensures multiset(Requests(sent)) == multiset(Requests(Without(sent, k))) + multiset{sent[k].request}
  {
    var all := Requests(sent);
    assert all == all[..k] + ([all[k]] + all[k + 1..]);
    assert Requests(Without(sent, k)) == all[..k] + all[k + 1..];
  }

  /** Of each request, no more took effect or may still take effect than were attempted. */
  lemma LandingsWithinAttempts(landings: seq<Landing>, inFlight: seq<Sent>, log: seq<Event>, r: Request)
    requires Accounted(landings, inFlight, log)
    ensures
      multiset(Requests(Landers(landings)))[r] + multiset(Requests(inFlight))[r] <= multiset(log)[Attempted(r)]
  {
    hide Justified, LicensedBy;
    var all := Landers(landings) + inFlight;
    TicketsWithinAttempts(all, log, r);
    assert Requests(all) == Requests(Landers(landings)) + Requests(inFlight);
  }

  // ---- what became of the world ------------------------------------------

  /** Everything that ever changes the world: what others write and remove, and what of ours lands. */
  datatype Deed = Wrote(target: ObjectRef, live: LiveObject) | Removed(target: ObjectRef) | Ours(landing: Landing)

  /** The world at first, and what was done to it since. */
  datatype Chronicle = Chronicle(start: World, deeds: seq<Deed>)

  function Enact(w: World, d: Deed): World {
    match d
    case Wrote(target, live) => Put(w, target, live)
    case Removed(target) => Drop(w, target)
    case Ours(l) => if Meets(w, l.sent.request.effect) == Landed then After(w, l.sent.request.effect) else w
  }

  /** The world after the first `n` deeds. */
  function Replay(c: Chronicle, n: nat): World
    requires n <= |c.deeds|
  {
    if n == 0 then c.start else Enact(Replay(c, n - 1), c.deeds[n - 1])
  }

  /** A landing met the world as it was, and found there what it says it found. */
  ghost predicate Fits(w: World, d: Deed) {
    d.Ours? ==>
      && Meets(w, d.landing.sent.request.effect) == Landed
      && d.landing.found == LookIn(w, d.landing.sent.request.effect.target)
  }

  function LandingsOf(deeds: seq<Deed>): seq<Landing> {
    if deeds == [] then []
    else
      var d := deeds[|deeds| - 1];
      LandingsOf(deeds[..|deeds| - 1]) + if d.Ours? then [d.landing] else []
  }

  /** The world is what its deeds made of it, ours among them being the landings. */
  ghost predicate Chronicled(c: Chronicle, w: World, landings: seq<Landing>) {
    && w == Replay(c, |c.deeds|) && landings == LandingsOf(c.deeds)
    && forall n :: 0 <= n < |c.deeds| ==> Fits(Replay(c, n), c.deeds[n])
  }

  function Extended(c: Chronicle, d: Deed): Chronicle { c.(deeds := c.deeds + [d]) }

  lemma {:induction false} ReplaySame(c: Chronicle, d: Chronicle, n: nat)
    requires c.start == d.start && c.deeds <= d.deeds && n <= |c.deeds|
    ensures Replay(c, n) == Replay(d, n)
  {
    if n > 0 {
      ReplaySame(c, d, n - 1);
    }
  }

  lemma ChronicledDeed(c: Chronicle, w: World, landings: seq<Landing>, d: Deed)
    requires Chronicled(c, w, landings) && Fits(w, d)
    ensures Chronicled(Extended(c, d), Enact(w, d), landings + if d.Ours? then [d.landing] else [])
  {
    hide Enact, Fits, LandingsOf;
    var e := Extended(c, d);
    LandingsMore(c.deeds, d);
    forall n | 0 <= n <= |c.deeds| ensures Replay(e, n) == Replay(c, n) {
      ReplaySame(c, e, n);
    }
  }

  lemma LandingsMore(deeds: seq<Deed>, d: Deed)
    ensures LandingsOf(deeds + [d]) == LandingsOf(deeds) + if d.Ours? then [d.landing] else []
  {
    assert (deeds + [d])[..|deeds|] == deeds;
  }

  /** The `n`-th deed is this mutation taking effect: it made of the world what it asks for. */
  ghost predicate Came(s: Sent, c: Chronicle, n: nat)
    requires n < |c.deeds|
  {
    && c.deeds[n].Ours? && c.deeds[n].landing.sent == s
    && Meets(Replay(c, n), s.request.effect) == Landed
    && Replay(c, n + 1) == After(Replay(c, n), s.request.effect)
  }

  ghost predicate Happened(s: Sent, c: Chronicle) { exists n :: 0 <= n < |c.deeds| && Came(s, c, n) }

  lemma {:induction false} LandingsCome(deeds: seq<Deed>, l: Landing)
    ensures l in LandingsOf(deeds) <==> Ours(l) in deeds
  {
    if deeds != [] {
      LandingsCome(deeds[..|deeds| - 1], l);
      assert deeds == deeds[..|deeds| - 1] + [deeds[|deeds| - 1]];
    }
  }

  /** To have landed is to have changed the world. */
  lemma TookHappened(s: Sent, c: Chronicle, w: World, landings: seq<Landing>)
    requires Chronicled(c, w, landings)
    ensures Took(s, landings) <==> Happened(s, c)
  {
    hide LandingsOf, Put, Drop, After;
    if Took(s, landings) {
      var i :| 0 <= i < |landings| && landings[i].sent == s;
      LandingsCome(c.deeds, landings[i]);
      var n :| 0 <= n < |c.deeds| && c.deeds[n] == Ours(landings[i]);
      assert Fits(Replay(c, n), c.deeds[n]);
      assert Came(s, c, n);
    }
    if Happened(s, c) {
      var n :| 0 <= n < |c.deeds| && Came(s, c, n);
      LandingsCome(c.deeds, c.deeds[n].landing);
    }
  }

  /** What did not land did not happen. */
  lemma NeverCame(s: Sent, c: Chronicle, w: World, landings: seq<Landing>)
    requires Chronicled(c, w, landings) && forall i :: 0 <= i < |landings| ==> landings[i].sent.ticket != s.ticket
    ensures !Happened(s, c)
  {
    hide Chronicled, Happened;
    TookHappened(s, c, w, landings);
  }

  lemma DeliveredTook(s: Sent, c: Chronicle, w: World, landings: seq<Landing>)
    requires Chronicled(c, w, landings)
    ensures c.deeds != [] && Came(s, c, |c.deeds| - 1) ==> Took(s, landings)
  {
    hide Chronicled, Came, Took;
    TookHappened(s, c, w, landings);
  }

  lemma JustCame(c: Chronicle, w: World, landings: seq<Landing>, l: Landing)
    requires Chronicled(c, w, landings) && Fits(w, Ours(l))
    ensures Came(l.sent, Extended(c, Ours(l)), |c.deeds|)
  {
    hide LandingsOf, After;
    ReplaySame(c, Extended(c, Ours(l)), |c.deeds|);
  }

  // ---- what others do is what the script says ----------------------------

  /** What others may do between two calls; `Arrive` delivers a mutation still in flight. */
  datatype Change = Write(target: ObjectRef, live: LiveObject) | Remove(target: ObjectRef) | Arrive(index: nat)

  function DeedOf(change: Change): seq<Deed> {
    match change
    case Write(target, live) => [Wrote(target, live)]
    case Remove(target) => [Removed(target)]
    case Arrive(_) => []
  }

  function Coming(changes: seq<Change>): seq<Deed> {
    if changes == [] then [] else DeedOf(changes[0]) + Coming(changes[1..])
  }

  function Scripted(script: seq<Turn>): seq<Deed> {
    if script == [] then [] else Coming(script[0].changes) + Scripted(script[1..])
  }

  function OthersOf(deeds: seq<Deed>): seq<Deed> {
    if deeds == [] then []
    else
      var d := deeds[|deeds| - 1];
      OthersOf(deeds[..|deeds| - 1]) + if d.Ours? then [] else [d]
  }

  /** What others did, and will do this turn and later, is the plot. */
  ghost predicate Foretold(plot: seq<Deed>, deeds: seq<Deed>, pending: seq<Change>, script: seq<Turn>) {
    plot == OthersOf(deeds) + (Coming(pending) + Scripted(script))
  }

  lemma OthersMore(deeds: seq<Deed>, d: Deed)
    ensures OthersOf(deeds + [d]) == OthersOf(deeds) + if d.Ours? then [] else [d]
  {
    assert (deeds + [d])[..|deeds|] == deeds;
  }

  lemma ForetoldChange(plot: seq<Deed>, deeds: seq<Deed>, pending: seq<Change>, script: seq<Turn>)
    requires pending != [] && Foretold(plot, deeds, pending, script)
    ensures Foretold(plot, deeds + DeedOf(pending[0]), pending[1..], script)
  {
    hide OthersOf, Scripted;
    var d := DeedOf(pending[0]);
    if d == [] {
      assert deeds + d == deeds && d + Coming(pending[1..]) == Coming(pending[1..]);
    } else {
      OthersMore(deeds, d[0]);
      Moved(OthersOf(deeds), d, Coming(pending[1..]), Scripted(script));
    }
  }

  lemma Moved<T>(a: seq<T>, b: seq<T>, c: seq<T>, d: seq<T>)
    ensures a + ((b + c) + d) == (a + b) + (c + d)
  {
  }

  lemma ForetoldTurn(plot: seq<Deed>, deeds: seq<Deed>, script: seq<Turn>)
    requires script != [] && Foretold(plot, deeds, [], script)
    ensures Foretold(plot, deeds, script[0].changes, script[1..])
  {
    hide OthersOf;
    assert Coming([]) == [];
    var rest := Coming(script[0].changes) + Scripted(script[1..]);
    assert [] + rest == rest;
  }

  lemma ForetoldLanding(plot: seq<Deed>, deeds: seq<Deed>, pending: seq<Change>, script: seq<Turn>, l: Landing)
    requires Foretold(plot, deeds, pending, script)
    ensures Foretold(plot, deeds + [Ours(l)], pending, script)
  {
    hide OthersOf, Coming, Scripted;
    OthersMore(deeds, Ours(l));
    assert OthersOf(deeds) + [] == OthersOf(deeds);
  }

  // ---- what answers mean -------------------------------------------------

  type Answer = Result<(), ClientError>

  /** What was answered, by ticket. */
  type Answers = map<nat, Answer>

  /** The mutation took effect. */
  ghost predicate Took(s: Sent, landings: seq<Landing>) { exists i :: 0 <= i < |landings| && landings[i].sent == s }

  /**
   Success is only ever reported of what took effect or of a delete that found
   nothing; a failure that is not uncertain, only of what never takes effect.
   */
  ghost predicate Truthful(s: Sent, a: Answer, landings: seq<Landing>, inFlight: seq<Sent>) {
    match a
    case Ok(_) => Took(s, landings) || (s.request.effect.Delete? && Free(s.ticket, landings, inFlight))
    case Err(e) => e.outcomeUncertain || Free(s.ticket, landings, inFlight)
  }

  ghost predicate AllTruthful(answers: Answers, landings: seq<Landing>, inFlight: seq<Sent>,
                              log: seq<Event>) {
    forall t :: t in answers ==>
      && t < |log| && log[t].Attempted?
      && Truthful(Sent(t, log[t].request), answers[t], landings, inFlight)
  }

  /** Nothing certain was said about the mutation yet. */
  ghost predicate Open(ticket: nat, answers: Answers) {
    ticket in answers ==> answers[ticket].Err? && answers[ticket].error.outcomeUncertain
  }

  lemma TruthfulLogged(answers: Answers, landings: seq<Landing>, inFlight: seq<Sent>, log: seq<Event>,
                       e: Event)
    requires AllTruthful(answers, landings, inFlight, log)
    ensures AllTruthful(answers, landings, inFlight, log + [e]) && |log| !in answers
  {
    hide Truthful;
  }

  /** Answers stay true while effects accumulate and what is certain not to land stays so. */
  lemma TruthfulLater(answers: Answers, landings: seq<Landing>, inFlight: seq<Sent>, log: seq<Event>,
                      more: seq<Landing>, flying: seq<Sent>)
    requires AllTruthful(answers, landings, inFlight, log)
    requires forall t :: t in answers && !Open(t, answers) && Free(t, landings, inFlight) ==>
      Free(t, landings + more, flying)
    ensures AllTruthful(answers, landings + more, flying, log)
  {
    hide Free;
    forall t | t in answers ensures Truthful(Sent(t, log[t].request), answers[t], landings + more, flying) {
      var s := Sent(t, log[t].request);
      if Took(s, landings) {
        var i :| 0 <= i < |landings| && landings[i].sent == s;
        assert (landings + more)[i].sent == s;
      }
    }
  }

  /** What may still arrive was not answered for certain. */
  lemma FlyingOpen(answers: Answers, landings: seq<Landing>, inFlight: seq<Sent>, log: seq<Event>, k: nat)
    requires Accounted(landings, inFlight, log) && AllTruthful(answers, landings, inFlight, log) && k < |inFlight|
    ensures Open(inFlight[k].ticket, answers)
  {
    hide Justified, Backed;
  }

  /** A delivered mutation is answered truthfully. */
  lemma DeliveredTruthful(s: Sent, a: Answer, landings: seq<Landing>, inFlight: seq<Sent>, log: seq<Event>)
    requires a.Ok? && Accounted(landings, inFlight, log) && Backed(s, log) && !Flying(s.ticket, inFlight)
    requires s.request.effect.Delete? || Took(s, landings)
    ensures Truthful(s, a, landings, inFlight)
  {
    hide Justified, LicensedBy;
    if !Took(s, landings) {
      forall i | 0 <= i < |landings| ensures landings[i].sent.ticket != s.ticket {
        assert Backed(landings[i].sent, log);
      }
    }
  }

  lemma NewlyTruthful(answers: Answers, landings: seq<Landing>, inFlight: seq<Sent>, log: seq<Event>,
                      s: Sent, a: Answer)
    requires AllTruthful(answers, landings, inFlight, log) && Backed(s, log)
    requires a.Err? && !a.error.outcomeUncertain ==> Free(s.ticket, landings, inFlight)
    requires a.Ok? ==> Truthful(s, a, landings, inFlight)
    ensures AllTruthful(answers[s.ticket := a], landings, inFlight, log)
  {
    hide Free, Took;
  }

  /** Every mutation attempted in this stretch of the log was answered with success. */
  ghost predicate AllOk(answers: Answers, steps: seq<Event>, from: nat) {
    forall i :: 0 <= i < |steps| && steps[i].Attempted? ==> from + i in answers && answers[from + i].Ok?
  }

  /** Every mutation attempted in this stretch of the log took effect: it made of the world what it asks for. */
  ghost predicate AllTook(c: Chronicle, steps: seq<Event>, from: nat) {
    forall i :: 0 <= i < |steps| && steps[i].Attempted? ==> Happened(Sent(from + i, steps[i].request), c)
  }

  ghost predicate Deletes(e: Event) { e.Attempted? && e.request.effect.Delete? }

  /** Of creates and patches, success says that they took effect. */
  lemma OkMeansTook(answers: Answers, landings: seq<Landing>, inFlight: seq<Sent>, log: seq<Event>,
                    before: seq<Event>, steps: seq<Event>, rest: seq<Event>, c: Chronicle, w: World)
    requires AllTruthful(answers, landings, inFlight, log) && log == before + steps + rest
    requires Chronicled(c, w, landings)
    requires AllOk(answers, steps, |before|) && forall i :: 0 <= i < |steps| ==> !Deletes(steps[i])
    ensures AllTook(c, steps, |before|)
  {
    hide Took, Free, Happened, Chronicled;
    forall i | 0 <= i < |steps| && steps[i].Attempted?
      ensures Happened(Sent(|before| + i, steps[i].request), c)
    {
      TookHappened(Sent(|before| + i, steps[i].request), c, w, landings);
      assert log[|before| + i] == steps[i] && !Deletes(steps[i]);
      assert Truthful(Sent(|before| + i, steps[i].request), answers[|before| + i], landings, inFlight);
    }
  }

  /** Answers are never taken back. */
  ghost predicate Keeps(answers: Answers, later: Answers) {
    forall t :: t in answers ==> t in later && later[t] == answers[t]
  }

  lemma AllOkJoins(answers: Answers, later: Answers, a: seq<Event>, b: seq<Event>, from: nat)
    requires AllOk(answers, a, from) && Keeps(answers, later) && AllOk(later, b, from + |a|)
    ensures AllOk(later, a + b, from)
  {
    forall i | 0 <= i < |a + b| && (a + b)[i].Attempted? ensures from + i in later && later[from + i].Ok? {
      if i < |a| {
        assert a[i].Attempted?;
      } else {
        assert b[i - |a|].Attempted? && from + i == from + |a| + (i - |a|);
      }
    }
  }

  // ---- the cluster as callers see it -------------------------------------

  /** A status other than "not found", which the server uses only for what is absent. */
  type Status = code: nat | code != 404 witness 400

  /** Why a call never left the client. */
  datatype Unsendable = BadRequest | BadUri | NoCredentials

  /**
   What the client gets to see of a call that got lost: a server fault of 500 or
   above, a broken connection, nothing.
   */
  datatype Transit =
    | ServerFault(above: nat, conflict: bool) | BrokenConnection | ServiceDown | BrokenEvents | OtherFault | NoReply

  /**
   How a call ends. The server processes it, and labels a failed condition as a
   conflict or not; it declines it with some status, having done nothing; the
   call is never sent; or it vanishes, and may still arrive at any later time.
   */
  datatype Fate =
    | Processed(asConflict: bool)
    | Declined(code: Status, conflict: bool)
    | NotSent(cause: Unsendable)
    | Vanished(transit: Transit)

  datatype Turn = Turn(changes: seq<Change>, fate: Fate)

  /** The error the client library reports; a missing reply is none of its errors. */
  function Reported(fate: Fate): Option<KubeError> {
    match fate
    case Processed(_) => None
    case Declined(code, conflict) => Some(Api(code, conflict))
    case NotSent(BadRequest) => Some(BuildRequest)
    case NotSent(BadUri) => Some(HttpError)
    case NotSent(NoCredentials) => Some(AuthError)
    case Vanished(ServerFault(above, conflict)) => Some(Api(500 + above, conflict))
    case Vanished(BrokenConnection) => Some(HyperError)
    case Vanished(ServiceDown) => Some(ServiceError)
    case Vanished(BrokenEvents) => Some(ReadEvents)
    case Vanished(OtherFault) => Some(OtherError)
    case Vanished(NoReply) => None
  }

  function ReadError(fate: Fate): ClientError {
    match Reported(fate)
    case Some(error) => KubeErrorOf(error, "read failed")
    case None => Transient("read timed out")
  }

  function WriteError(fate: Fate): ClientError {
    match Reported(fate)
    case Some(error) => MutationError(error, "mutation failed")
    case None => Uncertain("outcome is unknown")
  }

  /** An outcome is uncertain exactly if the call got lost or looks like it; a retry is for conflicts and throttling. */
  lemma UncertainExactly(fate: Fate)
    requires !fate.Processed?
    ensures WriteError(fate).outcomeUncertain <==> fate.Vanished? || (fate.Declined? && fate.code >= 500)
    ensures WriteError(fate).retryable <==>
      fate.Declined? && fate.code < 500 && (fate.conflict || fate.code == 429)
  {
  }

  /** The server's answer to a request it processed. */
  function AnswerTo(a: Arrival, e: Effect, asConflict: bool): Answer {
    match a
    case Landed => Ok(())
    case Absent => if e.Delete? then Ok(()) else Err(MutationError(Api(404, false), "not found"))
    case Mismatch => Err(MutationError(Api(409, asConflict), "conflict"))
  }

  function IsRetryable(): ClientError -> bool { (e: ClientError) => e.retryable }

  /** The world and how it came about. */
  datatype Moment = Moment(world: World, chronicle: Chronicle)

  /** Versions are never rewritten, and what was done is never undone. */
  ghost predicate Onward(m: Moment, m': Moment) {
    && Later(m.world, m'.world)
    && m.chronicle.start == m'.chronicle.start && m.chronicle.deeds <= m'.chronicle.deeds
  }

  class Cluster {
    var world: World
    var inFlight: seq<Sent>
    var script: seq<Turn>
    /** What others still do this turn. */
    var pending: seq<Change>
    const policy: RetryPolicy
    /** What was seen, attempted and confirmed so far; it numbers the mutations. */
    var log: seq<Event>
    ghost var landings: seq<Landing>
    /** What callers were told, by ticket. */
    ghost var answers: Answers
    /** What became of the world, by whom. */
    ghost var chronicle: Chronicle
    /** What others do, first to last. */
    ghost const plot: seq<Deed>

    ghost predicate Sound()
      reads this
    {
      && Consistent(world) && LogTrue(log, world) && Accounted(landings, inFlight, log)
      && AllTruthful(answers, landings, inFlight, log)
      && Chronicled(chronicle, world, landings) && Foretold(plot, chronicle.deeds, pending, script)
    }

    ghost predicate Valid()
      reads this
    {
      Sound() && pending == []
    }

    ghost function Now(): Moment
      reads this
    {
      Moment(world, chronicle)
    }

    /** Any cluster state whatever, and any script of what others will do. */
    constructor (world: World, script: seq<Turn>, policy: RetryPolicy)
      requires Consistent(world)
      ensures Valid() && this.world == world && this.script == script && landings == [] && log == []
      ensures chronicle == Chronicle(world, []) && plot == Scripted(script)
    {
      this.world := world;
      this.script := script;
      this.policy := policy;
      inFlight, landings, log, answers, pending := [], [], [], map[], [];
      chronicle, plot := Chronicle(world, []), Scripted(script);
      new;
      assert [] + ([] + Scripted(script)) == Scripted(script);
    }

    /** A mutation reaches the server. */
    method Land(s: Sent) returns (a: Arrival)
      requires Sound() && Backed(s, log) && Free(s.ticket, landings, inFlight) && Open(s.ticket, answers)
      modifies this`world, this`landings, this`chronicle
      ensures Sound() && Onward(old(Now()), Now())
      ensures a == Meets(old(world), s.request.effect)
      ensures
        var l := Landing(s, LookIn(old(world), s.request.effect.target));
        if a == Landed
        then landings == old(landings) + [l] && chronicle == Extended(old(chronicle), Ours(l))
          && world == After(old(world), s.request.effect)
        else landings == old(landings) && chronicle == old(chronicle) && world == old(world)
    {
      hide Consistent, Later, Justified, LogTrue, Accounted, Backed, AllTruthful, Open, Chronicled, Foretold;
      a := Meets(world, s.request.effect);
      if a == Landed {
        var l := Landing(s, LookIn(world, s.request.effect.target));
        LandingJustified(s, log, world);
        AccountedLanded(landings, inFlight, log, l);
        TruthfulLater(answers, landings, inFlight, log, [l], inFlight);
        AfterConsistent(world, s.request.effect);
        LogStaysTrue(log, world, After(world, s.request.effect));
        ChronicledDeed(chronicle, world, landings, Ours(l));
        ForetoldLanding(plot, chronicle.deeds, pending, script, l);
        landings := landings + [l];
        chronicle := Extended(chronicle, Ours(l));
        world := After(world, s.request.effect);
      } else {
        SameIsLater(world);
      }
    }

    /** The next change of this turn. */
    method Suffer()
      requires Sound() && pending != []
      modifies this`world, this`landings, this`inFlight, this`chronicle, this`pending
      ensures Sound() && Onward(old(Now()), Now()) && old(landings) <= landings
      ensures pending == old(pending)[1..]
      ensures forall t :: Free(t, old(landings), old(inFlight)) ==> Free(t, landings, inFlight)
    {
      hide Consistent, Later, Justified, LogTrue, Accounted, Backed, Put, Drop, AllTruthful, Open, Chronicled, Foretold;
      SameIsLater(world);
      ForetoldChange(plot, chronicle.deeds, pending, script);
      var change := pending[0];
      pending := pending[1..];
      match change
      case Write(target, live) =>
        PutConsistent(world, target, live);
        LogStaysTrue(log, world, Put(world, target, live));
        ChronicledDeed(chronicle, world, landings, Wrote(target, live));
        assert landings + [] == landings;
        chronicle := Extended(chronicle, Wrote(target, live));
        world := Put(world, target, live);
      case Remove(target) =>
        DropConsistent(world, target);
        LogStaysTrue(log, world, Drop(world, target));
        ChronicledDeed(chronicle, world, landings, Removed(target));
        assert landings + [] == landings;
        chronicle := Extended(chronicle, Removed(target));
        world := Drop(world, target);
      case Arrive(index) =>
        assert chronicle.deeds + [] == chronicle.deeds;
        if index < |inFlight| {
          var s := inFlight[index];
          AccountedTaken(landings, inFlight, log, index);
          FlyingOpen(answers, landings, inFlight, log, index);
          ghost var before := inFlight;
          inFlight := Without(inFlight, index);
          assert landings + [] == landings;
          TruthfulLater(answers, landings, before, log, [], inFlight);
          var _ := Land(s);
          assert before[index] == s;
        }
    }

    /** Everything the others do before the next call is served. */
    method NextTurn() returns (fate: Fate)
      requires Valid()
      modifies this`world, this`landings, this`inFlight, this`chronicle, this`script, this`pending
      ensures Valid() && Onward(old(Now()), Now()) && old(landings) <= landings
      ensures forall t :: Free(t, old(landings), old(inFlight)) ==> Free(t, landings, inFlight)
      ensures old(script) == [] ==>
        fate == Processed(false) && script == [] && Now() == old(Now()) && inFlight == old(inFlight)
    {
      hide Consistent, Onward, Justified, LogTrue, Accounted, Free, AllTruthful, Chronicled, Foretold;
      SameIsOnward(Now());
      if script == [] {
        return Processed(false);
      }
      var turn := script[0];
      ForetoldTurn(plot, chronicle.deeds, script);
      script := script[1..];
      pending := turn.changes;
      while pending != []
        invariant Sound() && Onward(old(Now()), Now()) && old(landings) <= landings
        invariant forall t :: Free(t, old(landings), old(inFlight)) ==> Free(t, landings, inFlight)
        decreases |pending|
      {
        ghost var before := Now();
        Suffer();
        OnwardTransitive(old(Now()), before, Now());
      }
      return turn.fate;
    }

    method InspectObject(target: ObjectRef) returns (r: Result<Option<LiveObject>, ClientError>)
      requires Valid()
      modifies this
      ensures Valid() && Onward(old(Now()), Now())
      ensures r.Ok? ==> r.value == LookIn(world, target) && log == old(log) + [Inspected(target, r.value)]
      ensures r.Err? ==> log == old(log)
      ensures answers == old(answers)
      ensures old(script) == [] ==> r == Ok(LookIn(old(world), target)) && script == [] && Now() == old(Now())
    {
      hide Onward, Justified, Accounted, AllTruthful, Chronicled, Foretold;
      var fate := NextTurn();
      if !fate.Processed? {
        return Err(ReadError(fate));
      }
      r := Ok(LookIn(world, target));
      AccountedLogged(landings, inFlight, log, Inspected(target, r.value));
      TruthfulLogged(answers, landings, inFlight, log, Inspected(target, r.value));
      LogGrowsTrue(log, world, Inspected(target, r.value));
      log := log + [Inspected(target, r.value)];
    }

    /**
     The call itself. Success means it landed just now, or found nothing to
     delete; an error that is not uncertain means it did nothing and never will.
     */
    method Send(s: Sent) returns (result: Answer)
      requires Valid() && Backed(s, log) && Free(s.ticket, landings, inFlight) && s.ticket !in answers
      modifies this`world, this`landings, this`inFlight, this`chronicle, this`script, this`pending
      ensures Valid() && Onward(old(Now()), Now())
      ensures result.Ok? ==> Delivered(s) && !Flying(s.ticket, inFlight)
      ensures result.Err? ==> forall i :: 0 <= i < |landings| ==> landings[i].sent.ticket != s.ticket
      ensures result.Err? ==> !Happened(s, chronicle)
      ensures result.Err? && !result.error.outcomeUncertain ==> Free(s.ticket, landings, inFlight)
      ensures old(script) == [] ==> script == [] && (Meets(old(world), s.request.effect) == Landed ==>
        result.Ok? && world == After(old(world), s.request.effect))
    {
      hide Consistent, Onward, Justified, LogTrue, Accounted, Backed, AllTruthful, Chronicled, Foretold, Came;
      hide Happened;
      var fate := NextTurn();
      match fate {
        case Processed(asConflict) =>
          ghost var last, landed := Now(), landings;
          var a := Land(s);
          OnwardTransitive(old(Now()), last, Now());
          result := AnswerTo(a, s.request.effect, asConflict);
          if a == Landed {
            JustCame(last.chronicle, last.world, landed, landings[|landings| - 1]);
          }
        case Vanished(_) =>
          AccountedSent(landings, inFlight, log, s);
          assert landings + [] == landings;
          TruthfulLater(answers, landings, inFlight, log, [], inFlight + [s]);
          inFlight := inFlight + [s];
          result := Err(WriteError(fate));
        case _ => result := Err(WriteError(fate));
      }
      if result.Err? {
        NeverCame(s, chronicle, world, landings);
      }
    }

    /** The last thing that happened is the mutation taking effect; or it was a delete and its object is absent. */
    ghost predicate Delivered(s: Sent)
      reads this
    {
      || (chronicle.deeds != [] && Came(s, chronicle, |chronicle.deeds| - 1))
      || (s.request.effect.Delete? && s.request.effect.target !in world.objects)
    }

    /** One dispatch: the checks the client makes before the call, then the call. */
    method Dispatch(s: Sent) returns (result: Answer)
      requires Valid() && Backed(s, log) && Free(s.ticket, landings, inFlight) && s.ticket !in answers
      modifies this`world, this`landings, this`inFlight, this`chronicle, this`script, this`pending
      ensures Valid() && Onward(old(Now()), Now())
      ensures result.Ok? ==> Delivered(s) && !Flying(s.ticket, inFlight)
      ensures result.Err? ==> forall i :: 0 <= i < |landings| ==> landings[i].sent.ticket != s.ticket
      ensures result.Err? && !result.error.outcomeUncertain ==> Free(s.ticket, landings, inFlight)
      ensures old(script) == [] ==> script == []
      ensures old(script) == [] && Lands(old(world), s.request.effect) ==>
        result.Ok? && world == After(old(world), s.request.effect)
    {
      hide Consistent, Onward, Justified, LogTrue, Accounted, Backed, AllTruthful, Chronicled, Foretold;
      SameIsOnward(Now());
      var e := s.request.effect;
      if !e.Create? && Meets(world, e) == Landed {
        LiveIsNumbered(world, e);
      }
      if !e.Create? && (e.version.uid == 0 || e.version.resourceVersion == 0) {
        return Err(Definite("conditional mutation requires UID and resourceVersion"));
      }
      if e.Delete? && e.target.kind == "PersistentVolume" {
        var seen := NextTurn();
        if !seen.Processed? {
          return Err(ReadError(seen));
        }
        var live := LookIn(world, e.target);
        if live.None? {
          return Ok(());
        }
        if live.value.identity != e.version {
          return Err(Transient("changed since inspection"));
        }
        if live.value.reclaimPolicy != Some("Retain") {
          return Err(Definite("volume requires Retain"));
        }
      }
      ghost var middle := Now();
      result := Send(s);
      OnwardTransitive(old(Now()), middle, Now());
    }

    /**
     A mutation under the retry loop, with anything happening between its
     dispatches. However it ends it lands at most once, over all its dispatches
     and all later arrivals, since its ticket is one of a kind. Success means
     it landed or, for a delete, that the object is absent; an error that is
     not uncertain means it never will; and an uncertain result is the last.
     */
    method Mutate(r: Request)
      returns (result: Answer, ghost results: seq<Answer>, waits: seq<nat>)
      requires Valid() && Licensed(r, log)
      modifies this
      ensures Valid() && Onward(old(Now()), Now())
      ensures log == old(log) + [Attempted(r)]
      ensures answers == old(answers)[|old(log)| := result] && Keeps(old(answers), answers)
      ensures RetryRun(policy, results, IsRetryable(), waits) && result == results[|results| - 1]
      ensures forall i :: 0 <= i < |results| - 1 ==> results[i].Err? && !results[i].error.outcomeUncertain
      ensures
        var s := Sent(|old(log)|, r);
        && (result.Ok? ==> Delivered(s) && !Flying(s.ticket, inFlight))
        && (result.Err? ==> forall i :: 0 <= i < |landings| ==> landings[i].sent.ticket != s.ticket)
        && (result.Err? ==> !Happened(s, chronicle))
        && (result.Err? && !result.error.outcomeUncertain ==> Free(s.ticket, landings, inFlight))
      ensures old(script) == [] ==> script == []
      ensures old(script) == [] && Lands(old(world), r.effect) ==> result.Ok? && world == After(old(world), r.effect)
    {
      hide Consistent, Onward, Justified, LogTrue, Accounted, LicensedBy, Free, AllTruthful, Truthful, Chronicled;
      hide Foretold, Came, Happened, Took, Lands, After, Backed;
      var maxAttempts := Max(policy.maxAttempts, 1);
      var backoff := policy.initialBackoff;
      var s := Sent(|log|, r);
      AccountedLogged(landings, inFlight, log, Attempted(r));
      TruthfulLogged(answers, landings, inFlight, log, Attempted(r));
      LogGrowsTrue(log, world, Attempted(r));
      SameIsOnward(Now());
      NewlyBacked(r, log);
      log := log + [Attempted(r)];
      results, waits := [], [];
      var attempts := 0;
      while true
        invariant Valid() && Onward(old(Now()), Now()) && log == old(log) + [Attempted(r)]
        invariant Backed(s, log) && Free(s.ticket, landings, inFlight)
        invariant answers == old(answers) && s.ticket !in answers
        invariant old(script) == [] ==>
          script == [] && (Lands(old(world), r.effect) ==> results == [] && world == old(world))
        invariant attempts == |results| == |waits| < maxAttempts
        invariant forall i :: 0 <= i < |results| ==> Retries(results[i], IsRetryable())
        invariant forall n :: 0 <= n < |waits| ==> waits[n] == Wait(policy, n)
        invariant backoff == Wait(policy, attempts)
        decreases maxAttempts - attempts
      {
        ghost var before := Now();
        result := Dispatch(s);
        OnwardTransitive(old(Now()), before, Now());
        attempts := attempts + 1;
        results := results + [result];
        if result.Err? && attempts < maxAttempts && result.error.retryable {
          waits := waits + [backoff];
          NextWait(policy, attempts - 1);
          backoff := NextBackoff(backoff, policy.maxBackoff);
        } else {
          if result.Ok? {
            DeliveredTook(s, chronicle, world, landings);
            DeliveredTruthful(s, result, landings, inFlight, log);
          } else {
            NeverCame(s, chronicle, world, landings);
          }
          NewlyTruthful(answers, landings, inFlight, log, s, result);
          answers := answers[s.ticket := result];
          return;
        }
      }
    }

    /** A read whose answer is taken from the script; success is logged. */
    method Confirm(e: Event) returns (result: Answer)
      requires Valid() && !e.Inspected? && !e.Attempted?
      modifies this
      ensures Valid() && Onward(old(Now()), Now())
      ensures log == (if result.Ok? then old(log) + [e] else old(log)) && answers == old(answers)
      ensures old(script) == [] ==> result.Ok? && script == [] && Now() == old(Now())
    {
      hide Consistent, Onward, Justified, LogTrue, Accounted, AllTruthful, Chronicled, Foretold;
      var fate := NextTurn();
      if !fate.Processed? {
        return Err(ReadError(fate));
      }
      AccountedLogged(landings, inFlight, log, e);
      TruthfulLogged(answers, landings, inFlight, log, e);
      LogGrowsTrue(log, world, e);
      log := log + [e];
      return Ok(());
    }
  }

  lemma LiveIsNumbered(w: World, e: Effect)
    requires Consistent(w) && Meets(w, e) == Landed && !e.Create?
    ensures e.version.uid > 0 && e.version.resourceVersion > 0
  {
    assert Recorded(w, e.target, w.objects[e.target]);
  }

  // ---- undisturbed -------------------------------------------------------

  /** What the requests of a stretch of events make of the world if nothing comes in between. */
  ghost function Worked(w: World, steps: seq<Event>): World {
    if steps == [] then w
    else
      var n := |steps| - 1;
      var u := Worked(w, steps[..n]);
      if steps[n].Attempted? && Meets(u, steps[n].request.effect) == Landed
      then After(u, steps[n].request.effect) else u
  }

  /** Each request in turn finds the world as it expects it. */
  ghost predicate AllLand(w: World, steps: seq<Event>) {
    if steps == [] then true
    else
      var n := |steps| - 1;
      && AllLand(w, steps[..n])
      && (steps[n].Attempted? ==> Lands(Worked(w, steps[..n]), steps[n].request.effect))
  }

  lemma {:induction false} WorkedJoins(w: World, a: seq<Event>, b: seq<Event>)
    ensures Worked(w, a + b) == Worked(Worked(w, a), b)
    ensures AllLand(w, a + b) <==> AllLand(w, a) && AllLand(Worked(w, a), b)
  {
    hide After, Meets, Lands;
    if b == [] {
      assert a + b == a;
    } else {
      var n := |b| - 1;
      assert (a + b)[..|a| + n] == a + b[..n];
      WorkedJoins(w, a, b[..n]);
    }
  }

  lemma WorkedOne(w: World, r: Request)
    ensures AllLand(w, [Attempted(r)]) <==> Lands(w, r.effect)
    ensures Lands(w, r.effect) ==> Worked(w, [Attempted(r)]) == After(w, r.effect)
  {
    hide After, Meets;
    assert [Attempted(r)][..0] == [];
  }

  lemma {:induction false} WorkedNone(w: World, steps: seq<Event>)
    requires forall i :: 0 <= i < |steps| ==> !steps[i].Attempted?
    ensures Worked(w, steps) == w && AllLand(w, steps)
  {
    if steps != [] {
      WorkedNone(w, steps[..|steps| - 1]);
    }
  }

  lemma SameIsOnward(m: Moment)
    ensures Onward(m, m)
  {
  }

  lemma OnwardTransitive(a: Moment, b: Moment, c: Moment)
    requires Onward(a, b) && Onward(b, c)
    ensures Onward(a, c)
  {
    hide Later;
    LaterTransitive(a.world, b.world, c.world);
  }

  lemma SameIsLater(w: World)
    ensures Later(w, w)
  {
  }

  lemma LogStaysTrue(log: seq<Event>, w: World, w': World)
    requires LogTrue(log, w) && Later(w, w')
    ensures LogTrue(log, w')
  {
  }

  lemma LogGrowsTrue(log: seq<Event>, w: World, e: Event)
    requires LogTrue(log, w) && (e.Inspected? && e.found.Some? ==> Recorded(w, e.target, e.found.value))
    ensures LogTrue(log + [e], w)
  {
  }

  lemma NewlyBacked(r: Request, log: seq<Event>)
    requires Licensed(r, log)
    ensures Backed(Sent(|log|, r), log + [Attempted(r)])
  {
    hide Shows;
    if !r.effect.Create? {
      var i :| 0 <= i < |log| && Shows(log[i], r);
      assert (log + [Attempted(r)])[i] == log[i];
    }
  }
}
