/**
 Lifecycle, Registry projection and Admission gate of one module.

 Every map the controllers keep is indexed by module id and each method touches only its own
 module's entries, so one module's entries are the state; a publication for another module only
 moves the shared registry revision. Asynchronous methods are split at their awaits: a begin
 step records a call in flight, and its resume steps may happen at any later point. Run
 identities are objects, so each carries the serial number of its creation besides its epoch.
 */
module Lifecycle {
  import opened Common

  type Op = int
  type CallId = int
  type LeaseId = int

  datatype Identity = Identity(serial: int, epoch: int)

  datatype Phase = Discovered | Starting | Active | Stopping | Stopped | Failed

  /** `scope` is the identity whose start created the task scope. */
  datatype Life = Life(phase: Phase, epoch: int, identity: Option<Identity>, scope: Option<Identity>,
                       healthy: bool, cleanupPending: bool)

  datatype Record = Record(serial: int, startAttempted: bool, stopCompleted: bool, everActive: bool,
                           setupRunning: bool, stopRunning: bool)

  datatype StartStage = AwaitStart | AwaitHealth | AwaitFailedStop
  datatype StopStage = InScope | InSetup(setupOf: int) | InStop(stopOf: int)

  /** A suspended call: what its local variables hold. */
  datatype Call =
    | StartCall(id: CallId, op: Op, identity: Identity, rec: int, starting: StartStage)
    | StopCall(id: CallId, op: Op, stopping: StopStage)
    | RollbackCall(id: CallId, op: Op, rec: int)

  datatype State = State(
    registered: bool, enabled: bool, projected: int, revision: int,
    epochs: int,
    life: Option<Life>,
    rec: Option<Record>,
    op: Option<Op>,
    gate: Option<Identity>,
    leases: map<LeaseId, Identity>,
    calls: set<Call>,
    records: int,
    issued: seq<Identity>,
    activated: seq<Identity>)

  const INITIAL := State(false, false, 0, 0, 0, None, None, None, None, map[], {}, 0, [], [])

  // ----- Pieces shared by several methods -----

  /** `AdmissionController.close`: only the exact open identity closes the gate. */
  function Close(s: State, identity: Option<Identity>): State {
    if identity.Some? && s.gate == identity then s.(gate := None) else s
  }

  /** `Registry._publish_lifecycle_projection` with a revision that matches. */
  function Project(s: State, enabled: bool, epoch: int): State {
    if s.enabled == enabled && s.projected == epoch then s
    else s.(enabled := enabled, projected := epoch, revision := s.revision + 1)
  }

  /** A new run identity with its own, never used epoch. */
  function Allocate(s: State, epoch: int): State {
    s.(epochs := epoch, issued := s.issued + [Identity(|s.issued|, epoch)])
  }

  function Newest(s: State): Identity
    requires s.issued != []
  {
    s.issued[|s.issued| - 1]
  }

  function NextEpoch(s: State): int { Max(s.epochs, s.projected) + 1 }

  predicate InstancePending(s: State) {
    s.rec.Some? && (!s.rec.value.stopCompleted || s.rec.value.setupRunning || s.rec.value.stopRunning)
  }

  /** `_mark_cleanup_failed`; `busy` is what the scope reports about unfinished tasks. */
  function MarkFailed(s: State, busy: bool): State {
    if s.life.None? then s
    else
      Close(s, s.life.value.identity).(life := Some(s.life.value.(
        phase := Failed, cleanupPending := busy || InstancePending(s))))
  }

  predicate Terminal(s: State) {
    s.life.None? || s.life.value.phase in {Discovered, Stopped, Failed}
  }

  /** `_claim_operation` succeeds. */
  predicate CanClaim(s: State, op: Op, replaceTerminal: bool) {
    s.op == None || s.op == Some(op) || (replaceTerminal && Terminal(s))
  }

  predicate IsActive(s: State, identity: Identity) {
    s.life.Some? && s.life.value.phase == Active && s.life.value.identity == Some(identity)
  }

  /** `_assert_starting_candidate`. */
  predicate StillStarting(s: State, c: Call)
    requires c.StartCall?
  {
    && s.op == Some(c.op) && s.life.Some?
    && s.life.value.identity == Some(c.identity) && s.life.value.phase == Starting
  }

  predicate SameRecord(s: State, rec: int) { s.rec.Some? && s.rec.value.serial == rec }

  /** The final block of `stop_candidate`: whatever the state is by now becomes STOPPED. */
  function FinishStop(s: State): State
    requires s.life.Some?
  {
    s.(life := Some(s.life.value.(phase := Stopped, epoch := s.projected, scope := None, cleanupPending := false)),
       op := None)
  }

  /** `AdmissionController._active_identity`. */
  function ActiveIdentity(s: State): Option<Identity> {
    if s.registered && s.life.Some? && s.life.value.identity.Some? && s.gate == s.life.value.identity
       && s.life.value.phase == Active && !s.life.value.cleanupPending
       && s.enabled && s.projected == s.life.value.identity.value.epoch
    then s.life.value.identity else None
  }

  /** `AdmissionController.check` as far as Lifecycle and Registry decide it. */
  predicate CheckPasses(s: State, l: LeaseId) {
    l in s.leases && ActiveIdentity(s) == Some(s.leases[l])
  }

  // ----- Steps -----

  datatype Step =
    // Registry
    | RegisterModule
    | OtherPublication
    | SetEnabled(on: bool)
    // Lifecycle
    | InstallDormant
    | RefusedClaim(op: Op)
    | BeginStart(id: CallId, op: Op)
    | ResumeStart(c: Call)
    | FailStart(c: Call, busy: bool)
    | ResumeFailedStop(c: Call, done: bool)
    | Quiesce(op: Op)
    | BeginStop(id: CallId, op: Op)
    | ContinueStop(c: Call)
    | ResumeSetup(c: Call)
    | ResumeStop(c: Call)
    | FailStop(c: Call, busy: bool)
    | BeginRollback(id: CallId, op: Op)
    | RollbackStops(c: Call)
    | FinishRollback(c: Call)
    | FailRollback(c: Call, busy: bool, started: bool)
    | PublishEnabled(op: Op, identity: Identity, current: bool, covered: bool)
    | PublishDisabled(op: Op, identity: Identity)
    | ScopeTimeout(identity: Identity)
    | Detach
    // Tasks of the instance
    | SetupDone
    | StopDone(ok: bool)
    // Admission
    | Admit(l: LeaseId)
    | Release(l: LeaseId)
    | CloseCurrent

  predicate Enabled(s: State, a: Step) {
    match a
    case RegisterModule => !s.registered && s.life.None? && s.rec.None?
    case OtherPublication => true
    case SetEnabled(on) => s.registered && !(s.life.Some? && s.life.value.phase == Active)
    case InstallDormant =>
      && s.registered && s.rec.None?
      && (s.life.Some? ==> s.life.value.phase !in {Active, Starting, Stopping} && !s.life.value.cleanupPending)
    case RefusedClaim(op) => s.registered && CanClaim(s, op, true)
    case BeginStart(id, op) =>
      && s.registered && CanClaim(s, op, false) && s.rec.Some?
      && !(s.rec.value.startAttempted && !s.rec.value.stopCompleted)
      && (s.life.Some? ==> s.life.value.phase !in {Active, Starting, Stopping} && !s.life.value.cleanupPending)
      && (forall c :: c in s.calls ==> c.id != id)
    case ResumeStart(c) => c in s.calls && c.StartCall? && !c.starting.AwaitFailedStop? && StillStarting(s, c)
    case FailStart(c, busy) => c in s.calls && c.StartCall? && !c.starting.AwaitFailedStop?
    case ResumeFailedStop(c, done) =>
      c in s.calls && c.StartCall? && c.starting.AwaitFailedStop? && (done ==> s.op == Some(c.op))
    case Quiesce(op) =>
      && s.registered && s.life.Some? && CanClaim(s, op, true) && s.life.value.phase != Starting
    case BeginStop(id, op) =>
      && s.registered && CanClaim(s, op, true)
      && s.life.Some? && s.life.value.phase in {Stopping, Failed, Stopped}
      && (forall c :: c in s.calls ==> c.id != id)
    case ContinueStop(c) =>
      && c in s.calls && c.StopCall? && c.stopping.InScope?
      && (if s.rec.Some? && !s.rec.value.stopCompleted
          then s.rec.value.setupRunning || s.op == Some(c.op)
          else s.registered && s.life.Some?)
    case ResumeSetup(c) => c in s.calls && c.StopCall? && c.stopping.InSetup? && s.op == Some(c.op)
    case ResumeStop(c) =>
      && c in s.calls && c.StopCall? && c.stopping.InStop? && s.op == Some(c.op) && s.registered && s.life.Some?
    case FailStop(c, busy) => c in s.calls && c.StopCall?
    case BeginRollback(id, op) =>
      && s.registered && s.rec.Some? && !s.rec.value.everActive && s.life.Some? && s.life.value.phase != Active
      && !s.enabled && (s.op == None || s.op == Some(op))
      && (forall c :: c in s.calls ==> c.id != id)
    case RollbackStops(c) => c in s.calls && c.RollbackCall? && s.op == Some(c.op) && SameRecord(s, c.rec)
    case FinishRollback(c) =>
      && c in s.calls && c.RollbackCall? && s.registered && !s.enabled && SameRecord(s, c.rec) && s.op == Some(c.op)
      && s.rec.value.stopCompleted && !s.rec.value.setupRunning && !s.rec.value.stopRunning
    case FailRollback(c, busy, started) => c in s.calls && c.RollbackCall?
    case PublishEnabled(op, identity, current, covered) =>
      && s.op == Some(op) && s.life.Some? && s.life.value.identity == Some(identity)
      && s.life.value.phase == Starting && s.life.value.healthy && (current ==> s.registered)
    case PublishDisabled(op, identity) =>
      && s.op == Some(op) && s.life.Some? && s.life.value.identity == Some(identity)
      && s.life.value.phase in {Stopping, Failed, Stopped} && s.registered
    case ScopeTimeout(identity) =>
      s.life.Some? && s.life.value.scope.Some? && s.life.value.identity == Some(identity)
    case Detach =>
      && s.registered && !s.enabled
      && (s.life.Some? ==> s.life.value.phase == Stopped && !s.life.value.cleanupPending && s.life.value.scope.None?)
      && (s.rec.Some? ==> s.rec.value.stopCompleted)
    case SetupDone => s.rec.Some? && s.rec.value.setupRunning
    case StopDone(ok) => s.rec.Some? && s.rec.value.stopRunning
    case Admit(l) => l !in s.leases && ActiveIdentity(s).Some?
    case Release(l) => true
    case CloseCurrent => s.life.Some?
  }

  predicate DirectoryStep(a: Step) { a.RegisterModule? || a.OtherPublication? || a.SetEnabled? || a.InstallDormant? || a.RefusedClaim? || a.Detach? }

  function ApplyDirectory(s: State, a: Step): State
    requires Enabled(s, a) && DirectoryStep(a)
  {
    match a
    case RegisterModule => s.(registered := true, enabled := false, projected := 0, revision := s.revision + 1)
    case OtherPublication => s.(revision := s.revision + 1)
    case SetEnabled(on) => Project(s, on, s.projected)
    case InstallDormant =>
      var epoch := Max(s.epochs, s.projected);
      s.(revision := s.revision + 1, epochs := epoch, op := None,
         rec := Some(Record(s.records, false, false, false, false, false)), records := s.records + 1,
         life := Some(Life(if s.enabled then Discovered else Stopped, epoch, None, None, false, false)))
    case RefusedClaim(op) => s.(op := Some(op))
    case Detach => s.(registered := false, revision := s.revision + 1, rec := None, life := None, op := None)
  }

  predicate TaskStep(a: Step) { a.SetupDone? || a.StopDone? || a.Admit? || a.Release? || a.CloseCurrent? }

  function ApplyTask(s: State, a: Step): State
    requires Enabled(s, a) && TaskStep(a)
  {
    match a
    case SetupDone => s.(rec := Some(s.rec.value.(setupRunning := false)))
    case StopDone(ok) =>
      s.(rec := Some(s.rec.value.(stopRunning := false, stopCompleted := ok || s.rec.value.stopCompleted)))
    case Admit(l) => s.(leases := s.leases[l := ActiveIdentity(s).value])
    case Release(l) => s.(leases := s.leases - {l})
    case CloseCurrent => Close(s, s.life.value.identity)
  }

  predicate StartStep(a: Step) { a.BeginStart? || a.ResumeStart? || a.FailStart? || a.ResumeFailedStop? }

  function ApplyStart(s: State, a: Step): State
    requires Enabled(s, a) && StartStep(a)
  {
    match a
    case BeginStart(id, op) =>
      var t := Allocate(s, NextEpoch(s));
      var identity := Newest(t);
      t.(op := Some(op),
         life := Some(Life(Starting, identity.epoch, Some(identity), Some(identity), false, false)),
         rec := Some(s.rec.value.(startAttempted := true, stopCompleted := false, setupRunning := true)),
         calls := s.calls + {StartCall(id, op, identity, s.rec.value.serial, AwaitStart)})
    case ResumeStart(c) =>
      if c.starting.AwaitStart? then
        s.(calls := s.calls - {c} + {c.(starting := AwaitHealth)},
           rec := if SameRecord(s, c.rec) then Some(s.rec.value.(setupRunning := true)) else s.rec)
      else s.(calls := s.calls - {c}, life := Some(s.life.value.(healthy := true)))
    case FailStart(c, busy) =>
      if s.life.None? || s.life.value.identity != Some(c.identity) then s.(calls := s.calls - {c})
      else
        var pending := busy || (SameRecord(s, c.rec) && s.rec.value.setupRunning);
        var failed := Close(s, Some(c.identity)).(
          life := Some(s.life.value.(phase := Failed, cleanupPending := pending)));
        if SameRecord(s, c.rec) && !s.rec.value.stopCompleted && !pending && s.op == Some(c.op) then
          failed.(rec := Some(s.rec.value.(stopRunning := true)),
                  calls := s.calls - {c} + {c.(starting := AwaitFailedStop)})
        else failed.(calls := s.calls - {c},
                     life := Some(failed.life.value.(cleanupPending := pending || InstancePending(s))))
    case ResumeFailedStop(c, done) =>
      var rec := if done && SameRecord(s, c.rec)
                 then Some(s.rec.value.(startAttempted := false, stopCompleted := true)) else s.rec;
      var t := s.(calls := s.calls - {c}, rec := rec);
      if s.life.Some? && s.life.value.identity == Some(c.identity)
      then t.(life := Some(s.life.value.(cleanupPending := s.life.value.cleanupPending || InstancePending(t))))
      else t
  }

  predicate StopStep(a: Step) { a.BeginStop? || a.ContinueStop? || a.ResumeSetup? || a.ResumeStop? || a.FailStop? }

  function ApplyStop(s: State, a: Step): State
    requires Enabled(s, a) && StopStep(a)
  {
    match a
    case BeginStop(id, op) => s.(op := Some(op), calls := s.calls + {StopCall(id, op, InScope)})
    case ContinueStop(c) =>
      if s.rec.Some? && !s.rec.value.stopCompleted then
        if s.rec.value.setupRunning
        then s.(calls := s.calls - {c} + {c.(stopping := InSetup(s.rec.value.serial))})
        else s.(calls := s.calls - {c} + {c.(stopping := InStop(s.rec.value.serial))},
                rec := Some(s.rec.value.(stopRunning := true)))
      else FinishStop(s.(calls := s.calls - {c}))
    case ResumeSetup(c) =>
      var rec := c.stopping.setupOf;
      s.(calls := s.calls - {c} + {c.(stopping := InStop(rec))},
         rec := if SameRecord(s, rec) then Some(s.rec.value.(stopRunning := true)) else s.rec)
    case ResumeStop(c) =>
      FinishStop(s.(calls := s.calls - {c},
                    rec := if SameRecord(s, c.stopping.stopOf)
                           then Some(s.rec.value.(startAttempted := false, stopCompleted := true)) else s.rec))
    case FailStop(c, busy) => MarkFailed(s, busy).(calls := s.calls - {c})
  }

  predicate RollbackStep(a: Step) { a.BeginRollback? || a.RollbackStops? || a.FinishRollback? || a.FailRollback? }

  function ApplyRollback(s: State, a: Step): State
    requires Enabled(s, a) && RollbackStep(a)
  {
    match a
    case BeginRollback(id, op) =>
      var life := s.life.value;
      var closed := Close(s, life.identity);
      var invalidate := life.phase == Starting || (life.identity.Some? && life.identity.value.epoch > s.projected);
      var epoch := Max(Max(s.epochs, s.projected), life.epoch);
      var t := if invalidate then Project(Allocate(closed, epoch + 1), false, epoch + 1) else closed;
      t.(op := Some(op),
         life := Some(life.(phase := Stopping, epoch := if invalidate then epoch + 1 else epoch,
                            identity := if invalidate then Some(Newest(t)) else life.identity)),
         calls := s.calls + {RollbackCall(id, op, s.rec.value.serial)})
    case RollbackStops(c) => s.(rec := Some(s.rec.value.(stopRunning := true)))
    case FinishRollback(c) => s.(calls := s.calls - {c}, rec := None, life := None, op := None)
    case FailRollback(c, busy, started) =>
      var t := MarkFailed(s, busy).(calls := s.calls - {c});
      t.(life := if t.life.Some? then Some(t.life.value.(phase := Failed, cleanupPending := true)) else None,
         rec := if !started && SameRecord(s, c.rec) then Some(s.rec.value.(startAttempted := false)) else s.rec)
  }

  predicate PublishStep(a: Step) { a.PublishEnabled? || a.PublishDisabled? }

  function ApplyPublish(s: State, a: Step): State
    requires Enabled(s, a) && PublishStep(a)
  {
    match a
    case PublishEnabled(op, identity, current, covered) =>
      if !current then
        Close(s, Some(identity)).(life := Some(s.life.value.(phase := Failed, cleanupPending := InstancePending(s))))
      else
        var active := Project(s, true, identity.epoch).(
          life := Some(s.life.value.(phase := Active)), activated := s.activated + [identity]);
        if active.life.value.cleanupPending || !(active.gate == None || active.gate == Some(identity)) || !covered then
          Close(active, Some(identity)).(
            life := Some(active.life.value.(phase := Failed, cleanupPending := InstancePending(s))))
        else active.(gate := Some(identity), op := None,
                     rec := if s.rec.Some? then Some(s.rec.value.(everActive := true)) else None)
    case PublishDisabled(op, identity) =>
      Project(s, false, identity.epoch).(
        life := Some(s.life.value.(phase := if s.life.value.phase == Stopped then Stopped else Stopping)))
  }

  predicate InvalidateStep(a: Step) { a.Quiesce? || a.ScopeTimeout? }

  function ApplyInvalidate(s: State, a: Step): State
    requires Enabled(s, a) && InvalidateStep(a)
  {
    match a
    case Quiesce(op) =>
      var life := s.life.value;
      var closed := if life.phase == Active then Close(s, life.identity) else s;
      if life.phase in {Stopping, Failed} && life.identity.Some? && life.identity.value.epoch == s.projected then
        closed.(op := Some(op), life := Some(life.(phase := Stopping)))
      else
        var t := Allocate(closed, NextEpoch(s));
        Project(t, s.enabled, Newest(t).epoch).(
          op := Some(op),
          life := Some(life.(phase := Stopping, epoch := Newest(t).epoch, identity := Some(Newest(t)))))
    case ScopeTimeout(identity) =>
      var closed := Close(s, Some(identity));
      if s.registered then
        var t := Allocate(closed, NextEpoch(s));
        Project(t, s.enabled, Newest(t).epoch).(
          life := Some(s.life.value.(phase := Failed, identity := Some(Newest(t)), epoch := Newest(t).epoch,
                                     cleanupPending := true)))
      else closed.(life := Some(s.life.value.(phase := Failed, epoch := identity.epoch, cleanupPending := true)))
  }

  function Apply(s: State, a: Step): State
    requires Enabled(s, a)
  {
    if DirectoryStep(a) then ApplyDirectory(s, a)
    else if TaskStep(a) then ApplyTask(s, a)
    else if StartStep(a) then ApplyStart(s, a)
    else if StopStep(a) then ApplyStop(s, a)
    else if RollbackStep(a) then ApplyRollback(s, a)
    else if PublishStep(a) then ApplyPublish(s, a)
    else ApplyInvalidate(s, a)
  }

  ghost predicate Steps(s: State, steps: seq<Step>, s': State)
    decreases |steps|
  {
    if steps == [] then s == s'
    else Enabled(s, steps[0]) && Steps(Apply(s, steps[0]), steps[1..], s')
  }
}
