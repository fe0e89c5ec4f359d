/**
 The rules the lifecycle keeps in every step and run: which step moves which phase, who may take an operation over,
 when an instance may be forgotten, what a failure leaves behind, and what an activation must have been through.
 */
module LifecycleRules {
  import opened Common
  import opened Lifecycle
  import opened Fencing
  import opened Leases

  // ----- Phases -----

  function PhaseOf(s: State): Option<Phase> { if s.life.Some? then Some(s.life.value.phase) else None }

  /** Nothing is under way. */
  predicate Resting(phase: Option<Phase>) {
    phase == None || phase == Some(Discovered) || phase == Some(Stopped) || phase == Some(Failed)
  }

  /** The state graph: every move of the phase and the steps that may make it. */
  predicate PhaseMove(a: Step, from: Option<Phase>, to: Option<Phase>) {
    from == to ||
    match to
    case Some(Discovered) => a.InstallDormant? && Resting(from)
    case Some(Starting) => a.BeginStart? && Resting(from)
    case Some(Active) => a.PublishEnabled? && from == Some(Starting)
    case Some(Stopping) =>
      || (a.Quiesce? && from != None && (from == Some(Active) || Resting(from)))
      || (a.BeginRollback? && from != Some(Active))
      || (a.PublishDisabled? && from == Some(Failed))
    case Some(Stopped) =>
      || (a.InstallDormant? && Resting(from))
      || a.ContinueStop? || a.ResumeStop?
    case Some(Failed) =>
      || (a.PublishEnabled? && from == Some(Starting))
      || a.FailStart? || a.FailStop? || a.FailRollback? || a.ScopeTimeout?
    case None => (a.Detach? && from == Some(Stopped)) || a.FinishRollback?
  }

  lemma SixPhases(s: State)
    ensures s.life.Some? && s.life.value.phase !in {Active, Starting, Stopping} ==> Resting(PhaseOf(s))
  {
    if s.life.Some? {
      var phase := s.life.value.phase;
      assert phase.Discovered? || phase.Starting? || phase.Active? || phase.Stopping? || phase.Stopped? || phase.Failed?;
    }
  }

  lemma DirectoryPhase(s: State, a: Step)
    requires Enabled(s, a) && DirectoryStep(a)
    ensures PhaseMove(a, PhaseOf(s), PhaseOf(ApplyDirectory(s, a)))
  {
    SixPhases(s);
  }

  lemma TaskPhase(s: State, a: Step)
    requires Enabled(s, a) && TaskStep(a)
    ensures ApplyTask(s, a).life == s.life
  {}

  lemma StartPhase(s: State, a: Step)
    requires Enabled(s, a) && StartStep(a)
    ensures PhaseMove(a, PhaseOf(s), PhaseOf(ApplyStart(s, a)))
  {
    SixPhases(s);
  }

  lemma StopPhase(s: State, a: Step)
    requires Enabled(s, a) && StopStep(a)
    ensures PhaseMove(a, PhaseOf(s), PhaseOf(ApplyStop(s, a)))
  {}

  lemma RollbackPhase(s: State, a: Step)
    requires Enabled(s, a) && RollbackStep(a)
    ensures PhaseMove(a, PhaseOf(s), PhaseOf(ApplyRollback(s, a)))
  {}

  lemma PublishPhase(s: State, a: Step)
    requires Enabled(s, a) && PublishStep(a)
    ensures PhaseMove(a, PhaseOf(s), PhaseOf(ApplyPublish(s, a)))
  {}

  lemma InvalidatePhase(s: State, a: Step)
    requires Enabled(s, a) && InvalidateStep(a)
    ensures PhaseMove(a, PhaseOf(s), PhaseOf(ApplyInvalidate(s, a)))
  {}

  lemma PhaseStep(s: State, a: Step)
    requires Enabled(s, a)
    ensures PhaseMove(a, PhaseOf(s), PhaseOf(Apply(s, a)))
  {
    hide Enabled, PhaseMove, ApplyDirectory, ApplyTask, ApplyStart, ApplyStop, ApplyRollback, ApplyPublish, ApplyInvalidate;
    if DirectoryStep(a) { DirectoryPhase(s, a); }
    else if TaskStep(a) { TaskPhase(s, a); SamePhase(a, PhaseOf(s)); }
    else if StartStep(a) { StartPhase(s, a); }
    else if StopStep(a) { StopPhase(s, a); }
    else if RollbackStep(a) { RollbackPhase(s, a); }
    else if PublishStep(a) { PublishPhase(s, a); }
    else { InvalidatePhase(s, a); }
  }

  lemma SamePhase(a: Step, phase: Option<Phase>)
    ensures PhaseMove(a, phase, phase)
  {}

  /** While cleanup is pending the module is neither started, installed nor detached, and serves nobody. */
  lemma PendingBlocks(s: State, a: Step)
    requires s.life.Some? && s.life.value.cleanupPending && Enabled(s, a)
    ensures !a.BeginStart? && !a.InstallDormant? && !a.Detach? && !a.Admit? && forall l :: !CheckPasses(s, l)
  {}

  // ----- Operations -----

  /** The operation a step works for. */
  function Works(a: Step): Option<Op> {
    match a
    case RefusedClaim(op) => Some(op)
    case BeginStart(_, op) => Some(op)
    case Quiesce(op) => Some(op)
    case BeginStop(_, op) => Some(op)
    case BeginRollback(_, op) => Some(op)
    case PublishEnabled(op, _, _, _) => Some(op)
    case PublishDisabled(op, _) => Some(op)
    case ResumeStart(c) => Some(c.op)
    case ResumeSetup(c) => Some(c.op)
    case ResumeStop(c) => Some(c.op)
    case RollbackStops(c) => Some(c.op)
    case FinishRollback(c) => Some(c.op)
    case _ => None
  }

  /** A step works for the operation that owns the module. It may take over an unowned one; and one owned by another
      operation only where nothing is under way, and never for a start, a rollback or a publication. */
  lemma WorksForOwner(s: State, a: Step)
    requires Enabled(s, a) && Works(a).Some?
    ensures s.op == Works(a) || s.op == None
      || ((a.RefusedClaim? || a.Quiesce? || a.BeginStop?) && Resting(PhaseOf(s)))
    ensures s.op == None ==> a.RefusedClaim? || a.BeginStart? || a.Quiesce? || a.BeginStop? || a.BeginRollback?
  {}

  /** Where nothing is under way, any operation may take the module over. */
  lemma TakeoverAllowed(s: State, op: Op)
    requires s.registered && Resting(PhaseOf(s))
    ensures Enabled(s, RefusedClaim(op)) && (s.life.Some? ==> Enabled(s, Quiesce(op)))
  {}

  predicate OwnerAfter(s: State, a: Step, s': State) {
    || s'.op == s.op
    || (s'.op == Works(a) && s'.op.Some?)
    || (s'.op == None && (a.InstallDormant? || a.Detach? || a.ContinueStop? || a.ResumeStop? || a.FinishRollback? || a.PublishEnabled?))
  }

  lemma StartOwner(s: State, a: Step)
    requires Enabled(s, a) && StartStep(a)
    ensures OwnerAfter(s, a, ApplyStart(s, a))
  {}

  lemma StopOwner(s: State, a: Step)
    requires Enabled(s, a) && StopStep(a)
    ensures OwnerAfter(s, a, ApplyStop(s, a)) && (a.ResumeStop? ==> ApplyStop(s, a).op == None)
  {}

  lemma RollbackOwner(s: State, a: Step)
    requires Enabled(s, a) && RollbackStep(a)
    ensures OwnerAfter(s, a, ApplyRollback(s, a)) && (a.FinishRollback? ==> ApplyRollback(s, a).op == None)
  {}

  lemma OthersOwner(s: State, a: Step)
    requires Enabled(s, a) && !StartStep(a) && !StopStep(a) && !RollbackStep(a)
    ensures OwnerAfter(s, a, Apply(s, a)) && (a.InstallDormant? || a.Detach? ==> Apply(s, a).op == None)
  {
    hide ApplyStart, ApplyStop, ApplyRollback;
  }

  /** Ownership changes hands only to the operation a step works for, and ends only where its work does. */
  lemma OwnerStep(s: State, a: Step)
    requires Enabled(s, a)
    ensures OwnerAfter(s, a, Apply(s, a))
    ensures a.InstallDormant? || a.Detach? || a.ResumeStop? || a.FinishRollback? ==> Apply(s, a).op == None
  {
    hide Enabled, OwnerAfter, ApplyDirectory, ApplyTask, ApplyStart, ApplyStop, ApplyRollback, ApplyPublish, ApplyInvalidate;
    if StartStep(a) { StartOwner(s, a); }
    else if StopStep(a) { StopOwner(s, a); }
    else if RollbackStep(a) { RollbackOwner(s, a); }
    else { OthersOwner(s, a); }
  }

  // ----- Instances -----

  predicate SameInstance(s: State, s': State) {
    s.rec.Some? && s'.rec.Some? && s'.rec.value.serial == s.rec.value.serial
  }

  /** The step is told that the instance has stopped. */
  predicate ReportsStop(a: Step) { a == StopDone(true) || a.ResumeStop? || (a.ResumeFailedStop? && a.done) }

  /** What a step may do to the instance record. */
  predicate InstanceMove(s: State, a: Step, s': State)
    requires s.rec.Some?
  {
    && (SameInstance(s, s') || (s'.rec.None? && s.rec.value.stopCompleted && (a.Detach? || a.FinishRollback?)))
    && (s'.rec.Some? && s'.rec.value.stopCompleted ==> s.rec.value.stopCompleted || ReportsStop(a))
    && (s'.rec.Some? && s.rec.value.startAttempted && !s'.rec.value.startAttempted ==> ReportsStop(a) || a.FailRollback?)
  }

  lemma StartInstance(s: State, a: Step)
    requires Enabled(s, a) && s.rec.Some? && StartStep(a)
    ensures InstanceMove(s, a, ApplyStart(s, a))
  {}

  lemma StopInstance(s: State, a: Step)
    requires Enabled(s, a) && s.rec.Some? && StopStep(a)
    ensures InstanceMove(s, a, ApplyStop(s, a))
  {}

  lemma RollbackInstance(s: State, a: Step)
    requires Enabled(s, a) && s.rec.Some? && RollbackStep(a)
    ensures InstanceMove(s, a, ApplyRollback(s, a))
  {}

  lemma DirectoryInstance(s: State, a: Step)
    requires Enabled(s, a) && s.rec.Some? && DirectoryStep(a)
    ensures InstanceMove(s, a, ApplyDirectory(s, a))
  {}

  lemma TaskInstance(s: State, a: Step)
    requires Enabled(s, a) && s.rec.Some? && TaskStep(a)
    ensures InstanceMove(s, a, ApplyTask(s, a))
  {}

  lemma PublishInstance(s: State, a: Step)
    requires Enabled(s, a) && s.rec.Some? && PublishStep(a)
    ensures InstanceMove(s, a, ApplyPublish(s, a))
  {}

  lemma InvalidateInstance(s: State, a: Step)
    requires Enabled(s, a) && s.rec.Some? && InvalidateStep(a)
    ensures InstanceMove(s, a, ApplyInvalidate(s, a))
  {}

  /** An instance gives way only after it has stopped, and only by being detached or rolled back; it counts as stopped
      only when its stop was reported. */
  lemma InstanceStep(s: State, a: Step)
    requires Enabled(s, a) && s.rec.Some?
    ensures InstanceMove(s, a, Apply(s, a))
  {
    hide Enabled, InstanceMove, ApplyDirectory, ApplyTask, ApplyStart, ApplyStop, ApplyRollback, ApplyPublish, ApplyInvalidate;
    if DirectoryStep(a) { DirectoryInstance(s, a); }
    else if TaskStep(a) { TaskInstance(s, a); }
    else if StartStep(a) { StartInstance(s, a); }
    else if StopStep(a) { StopInstance(s, a); }
    else if RollbackStep(a) { RollbackInstance(s, a); }
    else if PublishStep(a) { PublishInstance(s, a); }
    else { InvalidateInstance(s, a); }
  }

  /** Started, and not known to have stopped. */
  predicate Alive(s: State, serial: int) {
    s.rec.Some? && s.rec.value.serial == serial && s.rec.value.startAttempted && !s.rec.value.stopCompleted
  }

  /** A started instance is neither forgotten nor started again until its stop is reported, or a rollback fails before
      it could ask for it. */
  lemma {:induction false} AliveStays(s: State, steps: seq<Step>, s': State, serial: int)
    requires Alive(s, serial) && Steps(s, steps, s')
    requires forall i :: 0 <= i < |steps| ==> !ReportsStop(steps[i]) && !steps[i].FailRollback?
    ensures Alive(s', serial) && forall id, op :: !Enabled(s', BeginStart(id, op))
    decreases |steps|
  {
    hide Apply;
    if steps != [] {
      InstanceStep(s, steps[0]);
      assert Alive(Apply(s, steps[0]), serial);
      AliveStays(Apply(s, steps[0]), steps[1..], s', serial);
    }
  }

  /** A start makes its instance alive. */
  lemma StartMakesAlive(s: State, id: CallId, op: Op)
    requires Enabled(s, BeginStart(id, op))
    ensures Alive(Apply(s, BeginStart(id, op)), s.rec.value.serial)
  {}

  /** Rolling an instance back is over only when its stop was reported and nothing of it runs; what was once active, or is
      enabled, is never rolled back at all. */
  lemma RollbackEnds(s: State, a: Step)
    requires Enabled(s, a)
    ensures a.FinishRollback? ==>
      !s.enabled && s.rec.Some? && s.rec.value.stopCompleted && !s.rec.value.setupRunning && !s.rec.value.stopRunning
    ensures a.BeginRollback? ==> !s.enabled && s.rec.Some? && !s.rec.value.everActive
    ensures a.Detach? ==> !s.enabled && (s.life.Some? ==> s.life.value.scope.None?)
    ensures a.InstallDormant? ==> s.rec.None?
  {}

  // ----- Failures -----

  /** Something of the instance may still run, or has not been stopped. */
  predicate Unfinished(s: State) {
    s.rec.Some? && (!s.rec.value.stopCompleted || s.rec.value.setupRunning || s.rec.value.stopRunning)
  }

  /** A failing stop, publication or rollback leaves a FAILED module, which is marked for cleanup unless its instance is
      known to be finished. */
  lemma FailureMarks(s: State, a: Step)
    requires Enabled(s, a) && s.life.Some? && (a.FailStop? || a.FailRollback? || (a.PublishEnabled? && !a.current))
    ensures PhaseOf(Apply(s, a)) == Some(Failed)
    ensures Unfinished(s) || a.FailRollback? ==> Apply(s, a).life.value.cleanupPending
    ensures !a.PublishEnabled? && a.busy ==> Apply(s, a).life.value.cleanupPending
    ensures s.life.value.identity.Some? ==> Apply(s, a).gate != s.life.value.identity
  {}

  /** So does a failing start, which may first wait for its instance to stop. */
  lemma FailedStartMarks(s: State, c: Call, busy: bool)
    requires Enabled(s, FailStart(c, busy)) && Current(s, c.identity)
    ensures var s' := Apply(s, FailStart(c, busy));
      && PhaseOf(s') == Some(Failed) && s'.gate != Some(c.identity)
      && (busy ==> s'.life.value.cleanupPending)
      && (Unfinished(s) ==> s'.life.value.cleanupPending || c.(starting := AwaitFailedStop) in s'.calls)
  {}

  /** When that wait ends without the stop being reported, it is marked for cleanup too. */
  lemma FailedStopMarks(s: State, c: Call)
    requires Enabled(s, ResumeFailedStop(c, false)) && Current(s, c.identity) && Unfinished(s)
    ensures Apply(s, ResumeFailedStop(c, false)).life.value.cleanupPending
  {}

  lemma FailedStopSucceeds(s: State, c: Call)
    requires Enabled(s, ResumeFailedStop(c, true)) && SameRecord(s, c.rec)
    ensures var s' := Apply(s, ResumeFailedStop(c, true)); s'.rec.value.stopCompleted && !s'.rec.value.startAttempted
  {}

  lemma TimeoutMarks(s: State, identity: Identity)
    requires Enabled(s, ScopeTimeout(identity))
    ensures var s' := Apply(s, ScopeTimeout(identity));
      PhaseOf(s') == Some(Failed) && s'.life.value.cleanupPending && s'.gate != Some(identity)
  {}

  /** A rollback of a start in progress, or of one whose epoch was not published, retires its identity: a fresh one is
      projected, disabled. */
  lemma RollbackRetires(s: State, id: CallId, op: Op)
    requires IdentityInv(s) && Enabled(s, BeginRollback(id, op))
    requires PhaseOf(s) == Some(Starting) || (s.life.value.identity.Some? && s.life.value.identity.value.epoch > s.projected)
    ensures var s' := Apply(s, BeginRollback(id, op));
      && s'.life.value.identity.Some? && s'.life.value.identity != s.life.value.identity
      && s'.projected == s'.life.value.identity.value.epoch > s.projected && !s'.enabled
      && (s.life.value.identity.Some? ==> s'.gate != s.life.value.identity)
  {}

  // ----- The gate -----

  predicate GateShuts(s: State, s': State) { s'.gate == s.gate || s'.gate.None? }

  lemma StartShuts(s: State, a: Step)
    requires Enabled(s, a) && StartStep(a)
    ensures GateShuts(s, ApplyStart(s, a))
  {}

  lemma StopShuts(s: State, a: Step)
    requires Enabled(s, a) && StopStep(a)
    ensures GateShuts(s, ApplyStop(s, a))
  {}

  lemma RollbackShuts(s: State, a: Step)
    requires Enabled(s, a) && RollbackStep(a)
    ensures GateShuts(s, ApplyRollback(s, a))
  {}

  lemma OthersShut(s: State, a: Step)
    requires Enabled(s, a) && !StartStep(a) && !StopStep(a) && !RollbackStep(a) && !a.PublishEnabled?
    ensures GateShuts(s, Apply(s, a))
  {
    hide ApplyStart, ApplyStop, ApplyRollback;
  }

  lemma GateStaysShut(s: State, a: Step)
    requires Enabled(s, a) && !a.PublishEnabled?
    ensures GateShuts(s, Apply(s, a))
  {
    hide Enabled, GateShuts, ApplyDirectory, ApplyTask, ApplyStart, ApplyStop, ApplyRollback, ApplyPublish, ApplyInvalidate;
    if StartStep(a) { StartShuts(s, a); }
    else if StopStep(a) { StopShuts(s, a); }
    else if RollbackStep(a) { RollbackShuts(s, a); }
    else { OthersShut(s, a); }
  }

  /** The gate is opened by publications only. */
  lemma {:induction false} ClosedUntilPublished(s: State, steps: seq<Step>, s': State)
    requires s.gate.None? && Steps(s, steps, s') && forall i :: 0 <= i < |steps| ==> !steps[i].PublishEnabled?
    ensures s'.gate.None? && forall l :: !CheckPasses(s', l)
    decreases |steps|
  {
    hide Enabled, Apply;
    if steps != [] {
      var a := steps[0];
      GateStaysShut(s, a);
      ClosedUntilPublished(Apply(s, a), steps[1..], s');
    }
  }

  /** A publication opens it exactly for a current run whose health report covers the module, with no cleanup pending and
      no other gate open. */
  lemma PublicationOpens(s: State, op: Op, identity: Identity, current: bool, covered: bool)
    requires Enabled(s, PublishEnabled(op, identity, current, covered))
    ensures var s' := Apply(s, PublishEnabled(op, identity, current, covered));
      Serving(s', identity) <==>
        current && covered && !s.life.value.cleanupPending && (s.gate == None || s.gate == Some(identity))
    ensures var s' := Apply(s, PublishEnabled(op, identity, current, covered));
      !Serving(s', identity) ==> PhaseOf(s') == Some(Failed) && s'.gate != Some(identity)
  {}

  /** Closing the current gate, quiescing and a scope timeout end service at once. */
  lemma ServiceEnds(s: State, a: Step, l: LeaseId)
    requires GateInv(s) && Enabled(s, a) && (a.CloseCurrent? || a.Quiesce? || a.ScopeTimeout?)
    ensures Apply(s, a).gate.None? && !CheckPasses(Apply(s, a), l)
  {}

  /** A start call whose identity has failed, been stopped or been replaced meanwhile never goes on. */
  lemma StartCutShort(s: State, later: seq<Step>, s': State, c: Call)
    requires IdentityInv(s) && c.StartCall? && Dead(s, c.identity) && Steps(s, later, s')
    ensures !Enabled(s', ResumeStart(c)) && forall op, current, covered :: !Enabled(s', PublishEnabled(op, c.identity, current, covered))
  {
    DeadForever(s, later, s', c.identity);
  }
}
