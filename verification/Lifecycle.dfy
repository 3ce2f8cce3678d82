/**
 The lifecycle store of one instance: its record, its rows per target, a wake
 deferred until the drain ends, and the watermark that outlives deletion. Every
 operation is one transaction; a failed one changes nothing. `past`, `born` and
 `issued` are history, kept only to state what the generations tell.
 */
module Lifecycle {
  import opened Prelude

  datatype InstanceState = Cold | Waking | Running | Draining | Failed | Deleting | Deleted

  datatype Reason =
    | OperatorRequested | WakeRequested | MaterializationReady | SleepRequested | IdleReported
    | DrainCompleted | FailureReported | DeleteRequested | DeleteFinalized

  datatype Instance = Instance(state: InstanceState, generation: nat)

  datatype RowState = PendingRow | ReadyRow | DeletingRow | DeletedRow

  datatype Lease = Lease(owner: string, attempt: nat, live: bool)

  /** What a driver presents: who it is, which attempt it claimed, and the stamp it saw. */
  datatype Claim = Claim(owner: string, attempt: nat, generation: nat)

  /** A cluster effect begun under a claim and not yet acknowledged. */
  datatype EffectMark = EffectMark(claim: Claim, id: nat)

  datatype Row = Row(
    state: RowState,
    stamp: nat,
    projection: nat,
    attempts: nat,
    lease: Option<Lease>,
    effect: Option<EffectMark>)

  datatype Intent = Intent(target: string, generation: nat, projection: nat)

  /** What an instance was at one generation, and whether that was its creation. */
  datatype Stage = Stage(state: InstanceState, created: bool)

  datatype Issue = Issue(target: string, attempt: nat, generation: nat)

  datatype Store = Store(
    instance: Option<Instance>,
    watermark: Option<nat>,
    rows: map<string, Row>,
    deferred: Option<Intent>,
    past: map<nat, Stage>,
    born: nat,
    issued: set<Issue>)

  datatype Error =
    | NotFound | AlreadyExists | GenerationConflict(expected: nat, actual: nat) | InvalidArgument | Unavailable
    | LeaseConflict | SleepDeferred | ExclusivityConflict | IdempotencyConflict | IdempotencyResourceDeleted | Internal

  function NewStore(): Store { Store(None, None, map[], None, map[], 0, {}) }

  // ---- the transition table ----------------------------------------------

  predicate ValidTransition(current: InstanceState, next: InstanceState, reason: Reason) {
    match (current, next)
    case (Cold, Waking) => reason == WakeRequested
    case (Cold, Deleting) => reason == DeleteRequested
    case (Waking, Running) => reason == MaterializationReady
    case (Waking, Failed) => reason == FailureReported
    case (Waking, Deleting) => reason == DeleteRequested
    case (Running, Draining) => reason == SleepRequested || reason == IdleReported
    case (Running, Deleting) => reason == DeleteRequested
    case (Draining, Cold) => reason == DrainCompleted
    case (Draining, Waking) => reason == WakeRequested
    case (Draining, Deleting) => reason == DeleteRequested
    case (Failed, Waking) => reason == WakeRequested
    case (Failed, Deleting) => reason == DeleteRequested
    case (Deleting, Deleted) => reason == DeleteFinalized
    case _ => false
  }

  /** One generation may turn into the next: by the table, or by a deletion request. */
  ghost predicate Follows(current: InstanceState, next: InstanceState) {
    (exists reason :: ValidTransition(current, next, reason)) || (next == Deleting && current != Deleting)
  }

  // ---- building blocks ---------------------------------------------------

  /** Move the instance to its next generation. */
  function Advance(s: Store, state: InstanceState): Store
    requires s.instance.Some?
  {
    var g := s.instance.value.generation + 1;
    s.(instance := Some(Instance(state, g)), watermark := Some(g), past := s.past[g := Stage(state, false)])
  }

  function SetRow(s: Store, target: string, row: Row): Store { s.(rows := s.rows[target := row]) }

  /** Insert or overwrite a target's row; its attempt counter and effect stay. */
  function Upsert(s: Store, target: string, state: RowState, stamp: nat, projection: nat): Store {
    var attempts := if target in s.rows then s.rows[target].attempts else 0;
    var effect := if target in s.rows then s.rows[target].effect else None;
    SetRow(s, target, Row(state, stamp, projection, attempts, None, effect))
  }

  predicate AllDeleted(s: Store) { forall t :: t in s.rows ==> s.rows[t].state == DeletedRow }

  /** The claim is the row's current lease, still live, on work in the expected state. */
  function CheckLease(s: Store, target: string, claim: Claim, state: RowState, generation: nat): Result<Row, Error> {
    if target !in s.rows || s.rows[target].state != state || s.rows[target].stamp != generation then Err(NotFound)
    else
      var row := s.rows[target];
      if row.lease.None? || row.lease.value.owner != claim.owner || row.lease.value.attempt != claim.attempt then
        Err(LeaseConflict)
      else if !row.lease.value.live || row.effect.Some? then Err(LeaseConflict)
      else Ok(row)
  }

  // ---- operations --------------------------------------------------------

  function Create(s: Store): Result<Store, Error> {
    if s.instance.Some? then Err(AlreadyExists)
    else
      var g := if s.watermark.Some? then s.watermark.value + 1 else 0;
      var past := s.past[g := Stage(Cold, true)];
      Ok(s.(instance := Some(Instance(Cold, g)), watermark := Some(g), past := past, born := g))
  }

  /** The generation a wake from this record will wake at. */
  function WakingGeneration(i: Instance): nat { if i.state == Draining then i.generation + 2 else i.generation + 1 }

  function AcceptWake(s: Store, expected: nat, target: string, generation: nat, projection: nat): Result<Store, Error> {
    if s.instance.None? then Err(NotFound)
    else
      var current := s.instance.value;
      if current.state == Waking && current.generation == generation then
        if target in s.rows && s.rows[target].state == PendingRow then Ok(s) else Err(InvalidArgument)
      else if current.generation != expected then Err(GenerationConflict(expected, current.generation))
      else if current.state !in {Cold, Failed, Draining} then Err(InvalidArgument)
      else if current.state != Draining && !AllDeleted(s) then Err(Unavailable)
      else if generation != WakingGeneration(current) || projection != generation + 1 then Err(InvalidArgument)
      else if current.state == Draining then
        match s.deferred
        case None => Ok(s.(deferred := Some(Intent(target, generation, projection))))
        case Some(intent) => if intent.target == target then Ok(s) else Err(InvalidArgument)
      else Ok(Upsert(Advance(s, Waking), target, PendingRow, generation, projection))
  }

  /** `mature` says whether the Ready row is old enough to sleep. */
  function BeginSleep(s: Store, expected: nat, target: string, mature: bool): Result<Store, Error> {
    if s.instance.None? then Err(NotFound)
    else
      var current := s.instance.value;
      if current.generation != expected then Err(GenerationConflict(expected, current.generation))
      else if !ValidTransition(current.state, Draining, IdleReported) then Err(InvalidArgument)
      else if target !in s.rows || s.rows[target].state != ReadyRow || s.rows[target].stamp != expected then
        Err(InvalidArgument)
      else if !mature then Err(SleepDeferred)
      else Ok(SetRow(Advance(s, Draining), target, s.rows[target].(state := DeletingRow, lease := None)))
  }

  /** `due` covers back-off, drain grace and failure bookkeeping. */
  function ClaimRow(s: Store, target: string, owner: string, due: bool): Result<Store, Error> {
    if target !in s.rows then Err(NotFound)
    else
      var row := s.rows[target];
      if !due || row.state !in {PendingRow, DeletingRow} || row.effect.Some?
        || (row.lease.Some? && row.lease.value.live) then Err(LeaseConflict)
      else
        var attempt := row.attempts + 1;
        Ok(SetRow(s, target, row.(attempts := attempt, lease := Some(Lease(owner, attempt, true))))
           .(issued := s.issued + {Issue(target, attempt, row.stamp)}))
  }

  function ExpireLease(s: Store, target: string): Result<Store, Error> {
    if target !in s.rows || s.rows[target].lease.None? then Err(NotFound)
    else Ok(SetRow(s, target, s.rows[target].(lease := Some(s.rows[target].lease.value.(live := false)))))
  }

  /** A driver makes sure, just before it commits, that the work is still its own. */
  function RenewLease(s: Store, target: string, claim: Claim, state: RowState): Result<Store, Error> {
    if target !in s.rows then Err(NotFound)
    else
      var row := s.rows[target];
      if row.state == state && state in {PendingRow, DeletingRow} && row.stamp == claim.generation
         && row.lease == Some(Lease(claim.owner, claim.attempt, true))
      then Ok(s)
      else Err(LeaseConflict)
  }

  function ReleaseLease(s: Store, target: string, claim: Claim): Result<Store, Error> {
    if target !in s.rows then Err(NotFound)
    else
      match CheckLease(s, target, claim, s.rows[target].state, claim.generation)
      case Err(e) => Err(e)
      case Ok(row) =>
        if row.state in {PendingRow, DeletingRow} then Ok(SetRow(s, target, row.(lease := None))) else Err(NotFound)
  }

  function CompleteWake(s: Store, target: string, claim: Claim): Result<Store, Error> {
    match CheckLease(s, target, claim, PendingRow, claim.generation)
    case Err(e) => Err(e)
    case Ok(row) =>
      if s.instance.None? then Err(NotFound)
      else
        var current := s.instance.value;
        if current.generation != claim.generation then Err(GenerationConflict(claim.generation, current.generation))
        else if !ValidTransition(current.state, Running, MaterializationReady) then Err(InvalidArgument)
        else Ok(Upsert(Advance(s, Running), target, ReadyRow, claim.generation + 1, row.projection))
  }

  /** Start the wake that waited for the drain, in the same transaction. */
  function ActivateDeferred(s: Store): Result<Store, Error> {
    match s.deferred
    case None => Ok(s)
    case Some(intent) =>
      if s.instance.Some? && s.instance.value.state == Cold && s.instance.value.generation + 1 == intent.generation
      then Ok(Upsert(Advance(s.(deferred := None), Waking), intent.target, PendingRow, intent.generation,
        intent.projection))
      else Err(InvalidArgument)
  }

  function FinalizeSleep(s: Store, target: string, claim: Claim, draining: nat): Result<Store, Error> {
    if draining == 0 then Err(InvalidArgument)
    else
      match CheckLease(s, target, claim, DeletingRow, draining - 1)
      case Err(e) => Err(e)
      case Ok(row) =>
      if s.instance.None? then Err(NotFound)
      else
        var current := s.instance.value;
        if current.generation != draining then Err(GenerationConflict(draining, current.generation))
        else if !ValidTransition(current.state, Cold, DrainCompleted) then Err(InvalidArgument)
        else
          var gone := row.(state := DeletedRow, stamp := draining + 1, lease := None);
          ActivateDeferred(SetRow(Advance(s, Cold), target, gone))
  }

  function DeleteRow(s: Store, target: string, claim: Claim, state: RowState): Result<Store, Error> {
    match CheckLease(s, target, claim, state, claim.generation)
    case Err(e) => Err(e)
    case Ok(row) => Ok(SetRow(s, target, row.(state := DeletedRow, lease := None)))
  }

  /** `terminal` says whether the failure is permanent or the deadline passed. */
  function RecordFailure(s: Store, target: string, claim: Claim, state: RowState,
                         terminal: bool): Result<Store, Error> {
    if s.instance.None? || target !in s.rows then Err(NotFound)
    else
      var row := s.rows[target];
      var current := s.instance.value;
      if row.state != state || row.stamp != claim.generation
        || row.lease != Some(Lease(claim.owner, claim.attempt, true)) then Err(LeaseConflict)
      else if terminal && row.effect.None? && state == PendingRow then
        var moved := if current == Instance(Waking, claim.generation) then Advance(s, Failed) else s;
        Ok(SetRow(moved, target, row.(state := DeletingRow, lease := None)))
      else Ok(SetRow(s, target, row.(lease := None)))
  }

  function Doomed(row: Row): Row { if row.state in {PendingRow, ReadyRow} then row.(state := DeletingRow) else row }

  function RequestDeletion(s: Store, expected: nat): Result<Store, Error> {
    if s.instance.None? then Err(NotFound)
    else
      var current := s.instance.value;
      var accepted := current.state == Deleting && current.generation == expected + 1;
      if current.generation != expected && !accepted then Err(GenerationConflict(expected, current.generation))
      else
        var moved := if current.state == Deleting then s else Advance(s, Deleting);
        Ok(moved.(deferred := None, rows := map t | t in s.rows :: Doomed(s.rows[t])))
  }

  function FinalizeDeletion(s: Store): Result<Store, Error> {
    if s.instance.None? then Err(NotFound)
    else if s.instance.value.state != Deleting || !AllDeleted(s) then Err(InvalidArgument)
    else Ok(s.(instance := None, rows := map[], deferred := None))
  }

  function ForceDelete(s: Store, target: string): Result<Store, Error> {
    if target !in s.rows then Err(NotFound)
    else Ok(SetRow(s, target, s.rows[target].(state := DeletedRow, lease := None, effect := None)))
  }

  function BeginEffect(s: Store, target: string, claim: Claim, state: RowState, id: nat): Result<Store, Error> {
    if target !in s.rows then Err(NotFound)
    else
      var row := s.rows[target];
      if row.state != state || row.stamp != claim.generation
        || row.lease != Some(Lease(claim.owner, claim.attempt, true)) then Err(LeaseConflict)
      else if row.effect.Some? then (if row.effect.value == EffectMark(claim, id) then Ok(s) else Err(LeaseConflict))
      else Ok(SetRow(s, target, row.(effect := Some(EffectMark(claim, id)))))
  }

  /** An exact acknowledgement counts even after the lease expired. */
  function AckEffect(s: Store, target: string, claim: Claim, id: nat): Result<Store, Error> {
    if target !in s.rows || s.rows[target].effect != Some(EffectMark(claim, id)) then Err(NotFound)
    else Ok(SetRow(s, target, s.rows[target].(effect := None)))
  }

  function CompareAndSwap(s: Store, expected: nat, next: InstanceState, reason: Reason): Result<Store, Error> {
    if s.instance.None? then Err(NotFound)
    else
      var current := s.instance.value;
      if current.generation != expected then Err(GenerationConflict(expected, current.generation))
      else if !ValidTransition(current.state, next, reason) then Err(InvalidArgument)
      else Ok(Advance(s, next))
  }

  // ---- runs --------------------------------------------------------------

  datatype Op =
    | OpCreate
    | OpAcceptWake(expected: nat, target: string, generation: nat, projection: nat)
    | OpBeginSleep(expected: nat, target: string, mature: bool)
    | OpClaim(target: string, owner: string, due: bool)
    | OpExpireLease(target: string)
    | OpRenewLease(target: string, claim: Claim, state: RowState)
    | OpReleaseLease(target: string, claim: Claim)
    | OpCompleteWake(target: string, claim: Claim)
    | OpFinalizeSleep(target: string, claim: Claim, draining: nat)
    | OpDeleteRow(target: string, claim: Claim, state: RowState)
    | OpRecordFailure(target: string, claim: Claim, state: RowState, terminal: bool)
    | OpRequestDeletion(expected: nat)
    | OpFinalizeDeletion
    | OpForceDelete(target: string)
    | OpBeginEffect(target: string, claim: Claim, state: RowState, id: nat)
    | OpAckEffect(target: string, claim: Claim, id: nat)
    | OpCompareAndSwap(expected: nat, next: InstanceState, reason: Reason)

  function Perform(s: Store, op: Op): Result<Store, Error> {
    match op
    case OpCreate => Create(s)
    case OpAcceptWake(expected, target, generation, projection) =>
      AcceptWake(s, expected, target, generation, projection)
    case OpBeginSleep(expected, target, mature) => BeginSleep(s, expected, target, mature)
    case OpClaim(target, owner, due) => ClaimRow(s, target, owner, due)
    case OpExpireLease(target) => ExpireLease(s, target)
    case OpRenewLease(target, claim, state) => RenewLease(s, target, claim, state)
    case OpReleaseLease(target, claim) => ReleaseLease(s, target, claim)
    case OpCompleteWake(target, claim) => CompleteWake(s, target, claim)
    case OpFinalizeSleep(target, claim, draining) => FinalizeSleep(s, target, claim, draining)
    case OpDeleteRow(target, claim, state) => DeleteRow(s, target, claim, state)
    case OpRecordFailure(target, claim, state, terminal) => RecordFailure(s, target, claim, state, terminal)
    case OpRequestDeletion(expected) => RequestDeletion(s, expected)
    case OpFinalizeDeletion => FinalizeDeletion(s)
    case OpForceDelete(target) => ForceDelete(s, target)
    case OpBeginEffect(target, claim, state, id) => BeginEffect(s, target, claim, state, id)
    case OpAckEffect(target, claim, id) => AckEffect(s, target, claim, id)
    case OpCompareAndSwap(expected, next, reason) => CompareAndSwap(s, expected, next, reason)
  }

  /** A failed transaction changes nothing. */
  function Step(s: Store, op: Op): Store {
    match Perform(s, op) case Ok(next) => next case Err(_) => s
  }

  function Run(s: Store, ops: seq<Op>): Store
    decreases |ops|
  {
    if ops == [] then s else Step(Run(s, ops[..|ops| - 1]), ops[|ops| - 1])
  }
}
