/**
 Start and stop without faults: a module at rest can be started, serves leases under a fresh run
 identity, and can be stopped so that it may be started again or detached.
 */
module Service {
  import opened Common
  import opened Lifecycle
  import opened Fencing
  import opened Leases

  ghost predicate Reaches(s: State, s': State) { exists steps :: Steps(s, steps, s') }

  lemma One(s: State, a: Step, s': State)
    requires Moves(s, a, s')
    ensures Reaches(s, s')
  {
    hide Enabled, Apply;
    assert [a][1..] == [];
    assert Steps(s, [a], s');
  }

  lemma Onwards(s: State, mid: State, a: Step, s': State)
    requires Reaches(s, mid) && Moves(mid, a, s')
    ensures Reaches(s, s')
  {
    One(mid, a, s');
    hide Steps, Moves;
    var first :| Steps(s, first, mid);
    var second :| Steps(mid, second, s');
    StepsAppend(s, first, mid, second, s');
  }

  // ----- Starting -----

  /** Installed, at rest, cleaned up, and owned by no other operation. */
  predicate AtRest(s: State, op: Op) {
    && s.registered && s.gate.None? && (s.op == None || s.op == Some(op))
    && s.rec.Some? && (s.rec.value.startAttempted ==> s.rec.value.stopCompleted)
    && (s.life.Some? ==> s.life.value.phase in {Discovered, Stopped, Failed} && !s.life.value.cleanupPending)
  }

  /** The identity the next start allocates: a new serial, and an epoch above every allocated or published one. */
  ghost predicate Fresh(s: State, i: Identity) {
    i.serial == |s.issued| && i.epoch > s.epochs && i.epoch > s.projected
  }

  /** `start_candidate` has begun: a task scope for a fresh identity, and the module's setup under way. */
  lemma StartBegins(s: State, op: Op, id: CallId) returns (i: Identity, s': State)
    requires AtRest(s, op) && forall c :: c in s.calls ==> c.id != id
    ensures Moves(s, BeginStart(id, op), s') && Fresh(s, i)
    ensures s' == s.(op := Some(op), calls := s.calls + {StartCall(id, op, i, s.rec.value.serial, AwaitStart)},
                     life := Some(Life(Starting, i.epoch, Some(i), Some(i), false, false)), epochs := i.epoch,
                     issued := s.issued + [i],
                     rec := Some(s.rec.value.(startAttempted := true, stopCompleted := false, setupRunning := true)))
  {
    s' := Apply(s, BeginStart(id, op));
    i := Newest(s');
  }

  lemma SetupReturns(s: State, c: Call) returns (s': State)
    requires c in s.calls && c.StartCall? && c.starting == AwaitStart && StillStarting(s, c) && SameRecord(s, c.rec)
    requires s.rec.value.setupRunning
    ensures Moves(s, ResumeStart(c), s') && s' == s.(calls := s.calls - {c} + {c.(starting := AwaitHealth)})
  {
    s' := Apply(s, ResumeStart(c));
  }

  lemma HealthReturns(s: State, c: Call) returns (s': State)
    requires c in s.calls && c.StartCall? && c.starting == AwaitHealth && StillStarting(s, c)
    ensures Moves(s, ResumeStart(c), s')
    ensures s' == s.(calls := s.calls - {c}, life := Some(s.life.value.(healthy := true)))
  {
    s' := Apply(s, ResumeStart(c));
  }

  lemma Published(s: State, op: Op, i: Identity) returns (s': State)
    requires s.registered && s.op == Some(op) && s.gate.None? && s.rec.Some?
    requires s.life == Some(Life(Starting, i.epoch, Some(i), Some(i), true, false))
    ensures Moves(s, PublishEnabled(op, i, true, true), s') && Serving(s', i)
    ensures s'.leases == s.leases && s'.calls == s.calls && s'.activated == s.activated + [i] && s'.op == None
    ensures s'.rec == Some(s.rec.value.(everActive := true)) && s'.issued == s.issued && s'.epochs == s.epochs
    ensures s'.life == Some(s.life.value.(phase := Active))
  {
    s' := Apply(s, PublishEnabled(op, i, true, true));
  }

  /** A module at rest can be started: it then serves a fresh identity. */
  lemma StartServes(s: State, op: Op, id: CallId) returns (i: Identity, s': State)
    requires AtRest(s, op) && forall c :: c in s.calls ==> c.id != id
    ensures Reaches(s, s') && Fresh(s, i) && Serving(s', i)
    ensures s'.leases == s.leases && s'.activated == s.activated + [i] && s'.op == None
    ensures s'.calls == s.calls && s'.rec.Some? && s'.rec.value.serial == s.rec.value.serial && !s'.rec.value.stopCompleted
  {
    var s1, s2, s3;
    i, s1 := StartBegins(s, op, id);
    var waiting := StartCall(id, op, i, s.rec.value.serial, AwaitStart);
    var checking := waiting.(starting := AwaitHealth);
    hide Moves, Steps, Reaches, Serving;
    s2 := SetupReturns(s1, waiting);
    s3 := HealthReturns(s2, checking);
    assert s3.calls == s.calls;
    s' := Published(s3, op, i);
    One(s, BeginStart(id, op), s1);
    Onwards(s, s1, ResumeStart(waiting), s2);
    Onwards(s, s2, ResumeStart(checking), s3);
    Onwards(s, s3, PublishEnabled(op, i, true, true), s');
  }

  /** A served module admits leases, and an admitted lease passes its check. */
  lemma AdmittedPasses(s: State, i: Identity, l: LeaseId) returns (s': State)
    requires Serving(s, i) && l !in s.leases
    ensures Moves(s, Admit(l), s') && s' == s.(leases := s.leases[l := i]) && CheckPasses(s', l)
  {
    ServingIsActive(s, i);
    s' := Apply(s, Admit(l));
  }

  // ----- Stopping -----

  lemma Quiesced(s: State, op: Op, i: Identity) returns (j: Identity, s': State)
    requires Serving(s, i) && (s.op == None || s.op == Some(op)) && s.rec.Some? && !s.rec.value.setupRunning
    ensures Moves(s, Quiesce(op), s') && Fresh(s, j)
    ensures s'.registered && s'.gate.None? && s'.op == Some(op) && s'.rec == s.rec && s'.calls == s.calls
    ensures s'.leases == s.leases && s'.projected == j.epoch
    ensures s'.life == Some(s.life.value.(phase := Stopping, epoch := j.epoch, identity := Some(j)))
  {
    s' := Apply(s, Quiesce(op));
    j := Newest(s');
  }

  lemma Disabled(s: State, op: Op, j: Identity) returns (s': State)
    requires s.registered && s.op == Some(op) && s.life.Some? && s.life.value.phase == Stopping
    requires s.life.value.identity == Some(j) && s.projected == j.epoch
    ensures Moves(s, PublishDisabled(op, j), s')
    ensures s' == s.(enabled := false, revision := s'.revision)
  {
    s' := Apply(s, PublishDisabled(op, j));
  }

  lemma StopBegins(s: State, op: Op, id: CallId) returns (s': State)
    requires s.registered && s.op == Some(op) && s.life.Some? && s.life.value.phase == Stopping
    requires forall c :: c in s.calls ==> c.id != id
    ensures Moves(s, BeginStop(id, op), s') && s' == s.(calls := s.calls + {StopCall(id, op, InScope)})
  {
    s' := Apply(s, BeginStop(id, op));
  }

  lemma ScopeEmpties(s: State, op: Op, id: CallId) returns (s': State)
    requires StopCall(id, op, InScope) in s.calls && s.op == Some(op)
    requires s.rec.Some? && !s.rec.value.stopCompleted && !s.rec.value.setupRunning
    ensures Moves(s, ContinueStop(StopCall(id, op, InScope)), s')
    ensures s' == s.(calls := s.calls - {StopCall(id, op, InScope)} + {StopCall(id, op, InStop(s.rec.value.serial))},
                     rec := Some(s.rec.value.(stopRunning := true)))
  {
    s' := Apply(s, ContinueStop(StopCall(id, op, InScope)));
  }

  lemma StopSucceeds(s: State) returns (s': State)
    requires s.rec.Some? && s.rec.value.stopRunning
    ensures Moves(s, StopDone(true), s') && s' == s.(rec := Some(s.rec.value.(stopRunning := false, stopCompleted := true)))
  {
    s' := Apply(s, StopDone(true));
  }

  lemma StopReturns(s: State, op: Op, id: CallId) returns (s': State)
    requires s.registered && s.op == Some(op) && s.life.Some? && s.rec.Some?
    requires StopCall(id, op, InStop(s.rec.value.serial)) in s.calls
    ensures Moves(s, ResumeStop(StopCall(id, op, InStop(s.rec.value.serial))), s')
    ensures s' == s.(calls := s.calls - {StopCall(id, op, InStop(s.rec.value.serial))}, op := None,
                     rec := Some(s.rec.value.(startAttempted := false, stopCompleted := true)),
                     life := Some(s.life.value.(phase := Stopped, epoch := s.projected, scope := None, cleanupPending := false)))
  {
    s' := Apply(s, ResumeStop(StopCall(id, op, InStop(s.rec.value.serial))));
  }

  /** Closed to new work: the gate is shut and the publication withdrawn. */
  predicate Withdrawn(s: State, op: Op) {
    && s.registered && !s.enabled && s.gate.None? && s.op == Some(op) && s.rec.Some?
    && !s.rec.value.setupRunning && !s.rec.value.stopCompleted
    && s.life.Some? && s.life.value.phase == Stopping
  }

  lemma ServiceWithdrawn(s: State, op: Op, i: Identity) returns (s': State)
    requires Serving(s, i) && (s.op == None || s.op == Some(op)) && s.rec.Some?
    requires !s.rec.value.setupRunning && !s.rec.value.stopCompleted
    ensures Reaches(s, s') && Withdrawn(s', op) && s'.calls == s.calls && s'.leases == s.leases
  {
    var j, s1 := Quiesced(s, op, i);
    s' := Disabled(s1, op, j);
    hide Moves, Reaches, Serving;
    One(s, Quiesce(op), s1);
    Onwards(s, s1, PublishDisabled(op, j), s');
  }

  lemma WithdrawnStops(s: State, op: Op, id: CallId) returns (s': State)
    requires Withdrawn(s, op) && forall c :: c in s.calls ==> c.id != id
    ensures Reaches(s, s') && AtRest(s', op) && s'.calls == s.calls && s'.leases == s.leases
    ensures Enabled(s', Detach) && !s'.enabled
  {
    var s1 := StopBegins(s, op, id);
    var s2 := ScopeEmpties(s1, op, id);
    var s3 := StopSucceeds(s2);
    s' := StopReturns(s3, op, id);
    assert AtRest(s', op) && Enabled(s', Detach);
    hide Moves, Reaches, AtRest, Withdrawn, Enabled;
    assert s'.calls == s.calls;
    One(s, BeginStop(id, op), s1);
    Onwards(s, s1, ContinueStop(StopCall(id, op, InScope)), s2);
    Onwards(s, s2, StopDone(true), s3);
    Onwards(s, s3, ResumeStop(StopCall(id, op, InStop(s.rec.value.serial))), s');
  }

  /** A served module can be stopped: its gate closes, no lease passes any more, and it can be started again or detached. */
  lemma StopReachesRest(s: State, op: Op, id: CallId, i: Identity) returns (s': State)
    requires Serving(s, i) && (s.op == None || s.op == Some(op)) && (forall c :: c in s.calls ==> c.id != id)
    requires s.rec.Some? && !s.rec.value.setupRunning && !s.rec.value.stopCompleted
    ensures Reaches(s, s') && AtRest(s', op) && s'.calls == s.calls && s'.leases == s.leases
    ensures Enabled(s', Detach) && !s'.enabled && forall l :: !CheckPasses(s', l)
  {
    var mid := ServiceWithdrawn(s, op, i);
    s' := WithdrawnStops(mid, op, id);
    hide Steps, Serving, Withdrawn, Enabled;
    var first :| Steps(s, first, mid);
    var second :| Steps(mid, second, s');
    StepsAppend(s, first, mid, second, s');
  }
}
