/** Actors that talk to the lifecycle store call by call, while others do anything between two calls. */
module LifecycleActors {
  import opened Prelude
  import opened Lifecycle
  import opened LifecycleLaws
  import opened LifecycleFence
  import opened LifecycleRuns

  /** Some run leads from one store to the other. */
  ghost predicate Leads(s: Store, s': Store) { exists ops :: s' == Run(s, ops) }

  /** The target's row, unless it is finished. */
  function ActiveRow(s: Store, target: string): (r: Option<Row>)
    ensures r.Some? <==> target in s.rows && s.rows[target].state != DeletedRow
    ensures r.Some? ==> r.value == s.rows[target]
  {
    if target in s.rows && s.rows[target].state != DeletedRow then Some(s.rows[target]) else None
  }

  class StoreServer {
    var store: Store
    /** What everybody else does before each of our calls is served. */
    var script: seq<seq<Op>>

    ghost predicate Valid()
      reads this
    {
      Inv(store) && Fenced(store)
    }

    /** Nobody uses bare compare-and-swap, and nobody has. */
    ghost predicate Quiet()
      reads this
    {
      Undisturbed(store) && forall i, j :: 0 <= i < |script| && 0 <= j < |script[i]| ==> !script[i][j].OpCompareAndSwap?
    }

    constructor (script: seq<seq<Op>>)
      ensures Valid() && store == NewStore() && this.script == script && Undisturbed(store)
    {
      store := NewStore();
      this.script := script;
      new;
      RunFenced([]);
    }

    /** Others have their turn; `ran` is what they did. */
    method Yield() returns (ghost ran: seq<Op>)
      requires Valid()
      modifies this
      ensures Valid() && Grows(old(store), store) && store == Run(old(store), ran)
      ensures old(Quiet()) ==> Quiet()
      ensures old(script) == [] ==> store == old(store) && script == []
    {
      hide Inv, Fenced, Grows, Step, Undisturbed;
      SameGrows(store);
      ran := [];
      if script != [] {
        var ops := script[0];
        script := script[1..];
        for i := 0 to |ops|
          invariant Valid() && Grows(old(store), store)
          invariant old(Quiet()) ==> Undisturbed(store)
          invariant script == old(script)[1..] && ran == ops[..i] && store == Run(old(store), ran)
        {
          StepKeeps(store, ops[i]);
          StepFenced(store, ops[i]);
          if old(Quiet()) {
            StepUndisturbed(store, ops[i]);
          }
          GrowsTransitive(old(store), store, Step(store, ops[i]));
          RunSnoc(old(store), ran, ops[i]);
          ran := ran + [ops[i]];
          store := Step(store, ops[i]);
        }
      }
    }

    /** One transaction of ours, after whatever came before it. */
    method Call(op: Op) returns (r: Result<Store, Error>, ghost at: Store)
      requires Valid() && !op.OpCompareAndSwap?
      modifies this
      ensures Valid() && Inv(at) && Fenced(at) && Grows(old(store), at) && Grows(at, store)
      ensures Leads(old(store), at) && Grows(old(store), store)
      ensures old(script) == [] ==> at == old(store) && script == []
      ensures r == Perform(at, op) && store == Step(at, op)
      ensures old(Quiet()) ==> Quiet() && Undisturbed(at)
    {
      hide Inv, Fenced, Grows, Perform, Undisturbed;
      ghost var ran := Yield();
      assert store == Run(old(store), ran);
      at := store;
      if old(Quiet()) {
        StepUndisturbed(store, op);
      }
      StepKeeps(store, op);
      StepFenced(store, op);
      r := Perform(store, op);
      store := Step(store, op);
      GrowsTransitive(old(store), at, store);
    }

    method ReadInstance() returns (r: Option<Instance>)
      requires Valid()
      modifies this
      ensures Valid() && Grows(old(store), store) && r == store.instance
      ensures old(Quiet()) ==> Quiet()
      ensures Leads(old(store), store) && (old(script) == [] ==> store == old(store) && script == [])
    {
      ghost var _ := Yield();
      r := store.instance;
    }

    /** The target's row, unless it is finished. */
    method ReadActiveRow(target: string) returns (r: Option<Row>)
      requires Valid()
      modifies this
      ensures Valid() && Grows(old(store), store)
      ensures r == ActiveRow(store, target)
      ensures old(Quiet()) ==> Quiet()
      ensures Leads(old(store), store) && (old(script) == [] ==> store == old(store) && script == [])
    {
      ghost var _ := Yield();
      r := ActiveRow(store, target);
    }
  }

  /** The claim a driver acts under. */
  function ClaimOf(row: Row): Claim
    requires row.lease.Some?
  {
    Claim(row.lease.value.owner, row.lease.value.attempt, row.stamp)
  }

  /** The claim still is the row's live lease. */
  ghost predicate Holds(s: Store, target: string, claim: Claim) {
    && target in s.rows && s.rows[target].stamp == claim.generation
    && s.rows[target].lease == Some(Lease(claim.owner, claim.attempt, true))
  }

  /** The row is as it was claimed, under the same lease, with no effect unresolved. */
  ghost predicate Mine(s: Store, target: string, row: Row)
    requires row.lease.Some?
  {
    Holds(s, target, ClaimOf(row)) && s.rows[target].state == row.state && s.rows[target].effect.None?
  }

  lemma WasAtLater(s: Store, s': Store, g: nat, state: InstanceState)
    requires WasAt(s, g, state) && Grows(s, s')
    ensures WasAt(s', g, state)
  {
  }

  // ---- idle reports ------------------------------------------------------

  datatype IdleResult =
    | SleepAccepted(instance: Instance) | SleepUnderWay(instance: Instance) | SleepUnavailable(instance: Instance)

  datatype IdleError =
    | ActiveRequests | IdleNotFound | IdleConflict(expected: nat, actual: nat) | Unsupported | IdleStore(error: Error)

  function FromMismatch(e: nat, current: Instance): Result<IdleResult, IdleError> {
    match MismatchAnswer(e, current)
    case AlreadyDraining => Ok(SleepUnderWay(current))
    case Accepted => Ok(SleepAccepted(current))
    case Conflict => Err(IdleConflict(e, current.generation))
  }

  /**
   What a positive answer to a report for `e` means: it slept and, by the record
   as it stands, did not wake since; or the record is a creation, which without
   compare-and-swap (`quiet`) is exactly when it has no row.
   */
  ghost predicate IdleTruth(s: Store, e: nat, r: Result<IdleResult, IdleError>, quiet: bool) {
    r.Ok? ==>
      && s.instance == Some(r.value.instance)
      && match r.value
         case SleepUnderWay(i) => i == Instance(Draining, e + 1) && Slept(s, e)
         case SleepAccepted(i) =>
           || (i == Instance(Draining, e + 1) && Slept(s, e))
           || (&& i == Instance(Cold, e + 2) && e + 2 in s.past
               && (Slept(s, e) <==> !s.past[e + 2].created)
               && (quiet ==> (Slept(s, e) <==> s.rows != map[])))
         case SleepUnavailable(_) => true
  }

  lemma MismatchTruth(s: Store, e: nat)
    requires Inv(s) && s.instance.Some?
    ensures IdleTruth(s, e, FromMismatch(e, s.instance.value), Undisturbed(s))
  {
    hide Inv, Slept, RowsTell;
    MismatchAnswerHonest(s, e);
    InstanceKnown(s);
  }

  /** The row of the target serves the running generation. */
  predicate Serves(s: Store, target: string, running: nat) {
    var row := ActiveRow(s, target);
    row.Some? && row.value.state == ReadyRow && row.value.stamp == running
  }

  /** Why a report for `e` was turned down: `at` is the store when the record was read, `s` when the call ended. */
  ghost predicate IdleCause(at: Store, s: Store, target: string, e: nat, verified: bool, mature: bool,
                            error: IdleError) {
    match error
    case ActiveRequests => false
    case IdleNotFound => at.instance.None? || s.instance.None?
    case Unsupported =>
      && at.instance.Some? && at.instance.value.state == Running
      && (Serves(s, target, at.instance.value.generation) ==> !verified)
    case IdleConflict(expected, actual) => expected == e && actual != e && actual in s.past
    case IdleStore(refusal) =>
      && at.instance == Some(Instance(Running, e)) && verified
      && Perform(s, OpBeginSleep(e, target, mature)) == Err(refusal)
  }

  /** What a report does if nobody else is at the store. */
  ghost predicate IdleAlone(s: Store, s': Store, target: string, e: nat, verified: bool, mature: bool,
                            r: Result<IdleResult, IdleError>) {
    match s.instance
    case None => r == Err(IdleNotFound) && s' == s
    case Some(i) =>
      if i.state != Running then
        r == (if i.generation != e then FromMismatch(e, i) else Ok(SleepUnavailable(i))) && s' == s
      else if !Serves(s, target, i.generation) then r == Err(Unsupported) && s' == s
      else if i.generation != e then r == Err(IdleConflict(e, i.generation)) && s' == s
      else if !verified then r == Err(Unsupported) && s' == s
      else if !mature then r == Err(IdleStore(SleepDeferred)) && s' == s
      else
        && r == Ok(SleepAccepted(Instance(Draining, e + 1))) && s'.instance == Some(Instance(Draining, e + 1))
        && s'.rows == s.rows[target := s.rows[target].(state := DeletingRow, lease := None)]
  }

  /**
   A sidecar reports generation `e` idle; `verified` is the membership check of
   the reporting pod. A sleep begins only for a verified report of a mature row;
   every refusal has its cause; and without others at the store the call does
   exactly what `IdleAlone` says.
   */
  method ReportIdle(server: StoreServer, target: string, e: nat, activeCount: nat, verified: bool, mature: bool)
    returns (r: Result<IdleResult, IdleError>, ghost at: Store)
    requires server.Valid()
    modifies server
    ensures server.Valid() && IdleTruth(server.store, e, r, old(server.Quiet()))
    ensures activeCount > 0 ==> r == Err(ActiveRequests) && server.store == old(server.store)
    ensures Leads(old(server.store), at)
    ensures activeCount == 0 && r.Err? ==> IdleCause(at, server.store, target, e, verified, mature, r.error)
    ensures r.Ok? && r.value.SleepAccepted? && r.value.instance.state == Draining ==> verified && mature
    ensures activeCount == 0 && old(server.script) == [] ==>
      IdleAlone(old(server.store), server.store, target, e, verified, mature, r)
  {
    hide Inv, Fenced, Grows, Slept, Perform, Undisturbed;
    at := server.store;
    LeadsHere(at);
    if activeCount > 0 {
      return Err(ActiveRequests), at;
    }
    var current := server.ReadInstance();
    at := server.store;
    if current.None? {
      return Err(IdleNotFound), at;
    }
    InstanceKnown(server.store);
    if current.value.state != Running {
      MismatchTruth(server.store, e);
      r := if current.value.generation != e
        then FromMismatch(e, current.value) else Ok(SleepUnavailable(current.value));
      return;
    }
    var row := server.ReadActiveRow(target);
    if row.None? || row.value.state != ReadyRow || row.value.stamp != current.value.generation {
      return Err(Unsupported), at;
    }
    RowHolds(server.store, target);
    WasAtLater(at, server.store, current.value.generation, Running);
    if row.value.projection != e {
      return Err(IdleConflict(e, row.value.projection)), at;
    }
    if !verified {
      return Err(Unsupported), at;
    }
    r := BeginRunningSleep(server, target, current.value.generation, e, mature);
  }

  /** Why a sleep did not begin. */
  ghost predicate SleepRefused(s: Store, target: string, e: nat, mature: bool, error: IdleError) {
    match error
    case IdleNotFound => s.instance.None?
    case IdleConflict(expected, actual) => expected == e && actual != e && actual in s.past
    case IdleStore(refusal) => Perform(s, OpBeginSleep(e, target, mature)) == Err(refusal)
    case _ => false
  }

  lemma LeadsHere(s: Store)
    ensures Leads(s, s)
  {
    assert s == Run(s, []);
  }

  /** What the store's answer to a sleep of `e` says. */
  lemma SleepAnswer(s: Store, target: string, e: nat, mature: bool)
    ensures
      var begun := Perform(s, OpBeginSleep(e, target, mature));
      && (begun.Ok? ==> begun.value.instance == Some(Instance(Draining, e + 1)) && mature)
      && (begun == Err(NotFound) ==> s.instance.None?)
      && (begun.Err? && begun.error.GenerationConflict? ==>
            begun.error.expected == e && s.instance.Some? && s.instance.value.generation == begun.error.actual != e)
  {
  }

  lemma SleepAlone(s: Store, target: string, e: nat, mature: bool)
    requires s.instance == Some(Instance(Running, e)) && Serves(s, target, e)
    ensures
      match Perform(s, OpBeginSleep(e, target, mature))
      case Ok(next) =>
        next.instance.Some? && IdleAlone(s, next, target, e, true, mature, Ok(SleepAccepted(next.instance.value)))
      case Err(error) =>
        && !error.GenerationConflict? && !error.NotFound?
        && IdleAlone(s, s, target, e, true, mature, Err(IdleStore(error)))
  {
  }

  /** The row just verified serves generation `e`, which therefore is the running generation. */
  method BeginRunningSleep(server: StoreServer, target: string, running: nat, e: nat, mature: bool)
    returns (r: Result<IdleResult, IdleError>)
    requires server.Valid() && running == e
    modifies server
    ensures server.Valid() && IdleTruth(server.store, e, r, old(server.Quiet()))
    ensures r.Err? ==> SleepRefused(server.store, target, e, mature, r.error)
    ensures r.Ok? && r.value.SleepAccepted? && r.value.instance.state == Draining ==> mature
    ensures old(server.script) == [] && old(server.store).instance == Some(Instance(Running, e)) ==>
      Serves(old(server.store), target, e) ==>
        IdleAlone(old(server.store), server.store, target, e, true, mature, r)
  {
    hide Inv, Fenced, Grows, Slept, Undisturbed, Perform, IdleAlone, Serves, Leads;
    var begun, at := server.Call(OpBeginSleep(running, target, mature));
    SleepAnswer(at, target, e, mature);
    if at.instance == Some(Instance(Running, e)) && Serves(at, target, e) {
      SleepAlone(at, target, e, mature);
    }
    if at.instance.Some? {
      InstanceKnown(at);
      WasAtLater(at, server.store, at.instance.value.generation, at.instance.value.state);
    }
    match begun
    case Ok(next) =>
      var instance := next.instance.value;
      InstanceKnown(server.store);
      DrainingCameFromRunning(server.store, e + 1);
      r := Ok(SleepAccepted(instance));
    case Err(GenerationConflict(expected, actual)) =>
      if actual == expected + 1 {
        ghost var earlier := server.store;
        var current := server.ReadInstance();
        WasAtLater(earlier, server.store, actual, earlier.past[actual].state);
        if current.None? {
          return Err(IdleNotFound);
        }
        if current.value.generation == actual {
          MismatchTruth(server.store, e);
          return FromMismatch(e, current.value);
        }
      }
      r := Err(IdleConflict(expected, actual));
    case Err(NotFound) => r := Err(IdleNotFound);
    case Err(error) => r := Err(IdleStore(error));
  }

  // ---- wakes -------------------------------------------------------------

  datatype WakeResult = AlreadyRunning(instance: Instance) | AlreadyWaking(instance: Instance)

  datatype WakeError =
    | WakeNotFound | WakeConflict(expected: nat, actual: nat) | WakeUnavailable | NoReadyRow | WakeStore(error: Error)

  /** The target has a row for the wake at generation `g`; only compare-and-swap could make it an older one. */
  ghost predicate RowWaiting(s: Store, target: string, g: nat, quiet: bool) {
    target in s.rows && s.rows[target].state == PendingRow && (quiet ==> s.rows[target].stamp == g)
  }

  /**
   The wake chosen on reading `read` is in the store: it has begun, with a row
   for the target, or it waits for the drain to end.
   */
  ghost predicate UnderWay(s: Store, read: Instance, answered: Instance, target: string, quiet: bool) {
    && WasAt(s, read.generation, read.state)
    && (|| (read.state == Waking && answered == read && RowWaiting(s, target, read.generation, true))
        || (&& answered == Instance(Waking, WakingGeneration(read)) && s.instance == Some(answered)
            && RowWaiting(s, target, WakingGeneration(read), quiet))
        || (&& read.state == Draining && answered == read && s.instance == Some(answered)
            && s.deferred.Some? && s.deferred.value.target == target
            && (quiet ==> s.deferred.value.generation == WakingGeneration(read))))
  }

  /** The row of the target waits for the wake at generation `g`. */
  predicate Waits(s: Store, target: string, g: nat) {
    var row := ActiveRow(s, target);
    row.Some? && row.value.state == PendingRow && row.value.stamp == g
  }

  /** The transaction that accepts the wake this record calls for. */
  function AcceptOp(read: Instance, target: string): Op {
    OpAcceptWake(read.generation, target, WakingGeneration(read), WakingGeneration(read) + 1)
  }

  /** Why a wake was turned down: `at` is the store when the record was read, `s` when the call ended. */
  ghost predicate WakeCause(at: Store, s: Store, target: string, expected: nat, error: WakeError) {
    match error
    case WakeNotFound => at.instance.None?
    case WakeConflict(e, actual) => at.instance.Some? && e == expected != at.instance.value.generation == actual
    case WakeUnavailable =>
      at.instance == Some(Instance(Deleting, expected)) || at.instance == Some(Instance(Deleted, expected))
    case NoReadyRow => at.instance == Some(Instance(Running, expected)) && !Serves(s, target, expected)
    case WakeStore(refusal) =>
      && at.instance.Some? && at.instance.value.generation == expected
      && (|| (at.instance.value.state == Waking && !Waits(s, target, expected))
          || (&& at.instance.value.state in {Cold, Failed, Draining}
              && Perform(s, AcceptOp(at.instance.value, target)) == Err(refusal)))
  }

  /** What a wake does if nobody else is at the store. */
  ghost predicate WakeAlone(s: Store, s': Store, target: string, expected: nat, r: Result<WakeResult, WakeError>) {
    match s.instance
    case None => r == Err(WakeNotFound) && s' == s
    case Some(i) =>
      if i.generation != expected then r == Err(WakeConflict(expected, i.generation)) && s' == s
      else
        match i.state
        case Running => r == (if Serves(s, target, expected) then Ok(AlreadyRunning(i)) else Err(NoReadyRow)) && s' == s
        case Waking =>
          r == (if Waits(s, target, expected) then Ok(AlreadyWaking(i)) else Err(WakeStore(InvalidArgument))) && s' == s
        case Deleting => r == Err(WakeUnavailable) && s' == s
        case Deleted => r == Err(WakeUnavailable) && s' == s
        case Draining =>
          if s.deferred.None? || s.deferred.value.target == target
          then r == Ok(AlreadyWaking(i)) && s'.instance == s.instance && s'.rows == s.rows
            && s'.deferred ==
               (if s.deferred.Some? then s.deferred else Some(Intent(target, expected + 2, expected + 3)))
          else r == Err(WakeStore(InvalidArgument)) && s' == s
        case _ =>
          if AllDeleted(s)
          then r == Ok(AlreadyWaking(Instance(Waking, expected + 1))) && s'.instance == Some(r.value.instance)
            && Waits(s', target, expected + 1) && s'.rows[target].projection == expected + 2
            && s'.rows[target].lease.None?
          else r == Err(WakeStore(Unavailable)) && s' == s
  }

  /**
   Ask for a wake of generation `expected`. What is answered is what the record
   read at that generation calls for: the wake already under way, the one just
   begun at the generation chosen for it, or the one now waiting for the drain.
   Every refusal has its cause; and without others at the store the call does
   exactly what `WakeAlone` says.
   */
  method WakeInstance(server: StoreServer, target: string, expected: nat)
    returns (r: Result<WakeResult, WakeError>, ghost at: Store)
    requires server.Valid()
    modifies server
    ensures server.Valid()
    ensures r.Ok? && r.value.AlreadyRunning? ==>
      && r.value.instance == Instance(Running, expected) && WasAt(server.store, expected, Running)
      && target in server.store.rows && server.store.rows[target].state == ReadyRow
      && server.store.rows[target].stamp == expected
    ensures r.Ok? && r.value.AlreadyWaking? ==>
      exists read: Instance ::
        read.generation == expected && UnderWay(server.store, read, r.value.instance, target, old(server.Quiet()))
    ensures Leads(old(server.store), at)
    ensures r.Err? ==> WakeCause(at, server.store, target, expected, r.error)
    ensures old(server.script) == [] ==> WakeAlone(old(server.store), server.store, target, expected, r)
  {
    hide Inv, Fenced, Grows, Perform, Undisturbed, Leads, AllDeleted;
    var read := server.ReadInstance();
    at := server.store;
    if read.None? {
      return Err(WakeNotFound), at;
    }
    var instance := read.value;
    if instance.generation != expected {
      return Err(WakeConflict(expected, instance.generation)), at;
    }
    InstanceKnown(at);
    match instance.state
    case Running =>
      var row := server.ReadActiveRow(target);
      WasAtLater(at, server.store, expected, Running);
      if row.None? || row.value.state != ReadyRow || row.value.stamp != expected {
        return Err(NoReadyRow), at;
      }
      return Ok(AlreadyRunning(instance)), at;
    case Waking =>
      var row := server.ReadActiveRow(target);
      WasAtLater(at, server.store, expected, Waking);
      if row.None? || row.value.state != PendingRow || row.value.stamp != expected {
        return Err(WakeStore(InvalidArgument)), at;
      }
      assert UnderWay(server.store, instance, instance, target, old(server.Quiet()));
      return Ok(AlreadyWaking(instance)), at;
    case Deleting => return Err(WakeUnavailable), at;
    case Deleted => return Err(WakeUnavailable), at;
    case Cold => r := CommitWake(server, target, instance);
    case Failed => r := CommitWake(server, target, instance);
    case Draining => r := CommitWake(server, target, instance);
  }

  method CommitWake(server: StoreServer, target: string, instance: Instance) returns (r: Result<WakeResult, WakeError>)
    requires server.Valid() && WasAt(server.store, instance.generation, instance.state)
    requires instance.state in {Cold, Failed, Draining}
    modifies server
    ensures server.Valid()
    ensures r.Ok? ==>
      r.value.AlreadyWaking? && UnderWay(server.store, instance, r.value.instance, target, old(server.Quiet()))
    ensures r.Err? ==>
      r.error.WakeStore? && Perform(server.store, AcceptOp(instance, target)) == Err(r.error.error)
    ensures old(server.script) == [] && old(server.store).instance == Some(instance) ==>
      WakeAlone(old(server.store), server.store, target, instance.generation, r)
  {
    hide Inv, Fenced, Grows, Upsert, Undisturbed, Perform, Leads, AllDeleted, Step;
    ghost var seen := server.store;
    var accepted, at := server.Call(AcceptOp(instance, target));
    AcceptedAlone(at, instance, target);
    match accepted
    case Err(error) => r := Err(WakeStore(error));
    case Ok(next) =>
      WasAtLater(seen, at, instance.generation, instance.state);
      WasAtLater(at, server.store, instance.generation, instance.state);
      AcceptedWake(at, instance, target, next, old(server.Quiet()));
      r := Ok(AlreadyWaking(next.instance.value));
  }

  lemma AcceptedAlone(s: Store, instance: Instance, target: string)
    requires instance.state in {Cold, Failed, Draining}
    ensures
      var accepted := Perform(s, AcceptOp(instance, target));
      && (accepted.Ok? ==> accepted.value == Step(s, AcceptOp(instance, target)) && accepted.value.instance.Some?)
      && (accepted.Err? ==> s == Step(s, AcceptOp(instance, target)))
      && (s.instance == Some(instance) ==>
            WakeAlone(s, Step(s, AcceptOp(instance, target)), target, instance.generation,
                      if accepted.Ok? then Ok(AlreadyWaking(accepted.value.instance.value))
                      else Err(WakeStore(accepted.error))))
  {
    hide AllDeleted;
  }

  /** The state behind the generation cannot have changed, so acceptance goes the way the caller chose. */
  lemma AcceptedWake(s: Store, instance: Instance, target: string, next: Store, quiet: bool)
    requires Inv(s) && WasAt(s, instance.generation, instance.state) && instance.state in {Cold, Failed, Draining}
    requires Perform(s, AcceptOp(instance, target)) == Ok(next)
    requires WasAt(next, instance.generation, instance.state) && (quiet ==> Undisturbed(s))
    ensures next.instance.Some? && UnderWay(next, instance, next.instance.value, target, quiet)
  {
    hide Inv, AllDeleted, RowsTell;
    InstanceKnown(s);
  }
}
