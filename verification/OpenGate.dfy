/**
 The run in which the admission gate is left open, and what follows from it: the gate then names
 a dead identity, no lease passes it, and the next quiesce bars the module from ever activating.
 */
module OpenGate {
  import opened Common
  import opened Lifecycle
  import opened Fencing

  const REUSED: Op := 7
  const RUN := Identity(0, 1)
  const HANGING_STOP := StopCall(1, REUSED, InStop(0))

  const STOP_PENDING := State(true, false, 0, 2, 0, Some(Life(Stopped, 0, None, None, false, false)),
                              Some(Record(0, false, false, false, false, true)), Some(REUSED), None, map[],
                              {HANGING_STOP}, 1, [], [])
  const OPENED := State(true, true, 1, 3, 1, Some(Life(Active, 1, Some(RUN), Some(RUN), true, false)),
                        Some(Record(0, true, false, true, true, true)), None, Some(RUN), map[],
                        {HANGING_STOP}, 1, [RUN], [RUN])

  const INSTALLED := State(true, false, 0, 2, 0, Some(Life(Stopped, 0, None, None, false, false)),
                           Some(Record(0, false, false, false, false, false)), None, None, map[], {}, 1, [], [])
  const STOP_ASKED := INSTALLED.(op := Some(REUSED), calls := {StopCall(1, REUSED, InScope)})
  const BEGUN := State(true, false, 0, 2, 1, Some(Life(Starting, 1, Some(RUN), Some(RUN), false, false)),
                       Some(Record(0, true, false, false, true, true)), Some(REUSED), None, map[],
                       {HANGING_STOP, StartCall(2, REUSED, RUN, 0, AwaitStart)}, 1, [RUN], [])
  const STARTED := BEGUN.(calls := {HANGING_STOP, StartCall(2, REUSED, RUN, 0, AwaitHealth)})
  const HEALTHY := BEGUN.(calls := {HANGING_STOP}, life := Some(Life(Starting, 1, Some(RUN), Some(RUN), true, false)))
  const CLAIMED := OPENED.(op := Some(REUSED))
  const LEFT_OPEN := OPENED.(life := Some(Life(Stopped, 1, Some(RUN), None, true, false)), calls := {},
                             rec := Some(Record(0, false, true, true, true, true)))

  lemma Installed()
    ensures Moves(INITIAL, RegisterModule, INITIAL.(registered := true, revision := 1))
    ensures Moves(INITIAL.(registered := true, revision := 1), InstallDormant, INSTALLED)
  {}

  lemma StopHangs()
    ensures Moves(INSTALLED, BeginStop(1, REUSED), STOP_ASKED)
    ensures Moves(STOP_ASKED, ContinueStop(StopCall(1, REUSED, InScope)), STOP_PENDING)
  {}

  lemma StartBegins()
    ensures Moves(STOP_PENDING, BeginStart(2, REUSED), BEGUN)
  {}

  lemma StartReturns()
    ensures Moves(BEGUN, ResumeStart(StartCall(2, REUSED, RUN, 0, AwaitStart)), STARTED)
  {
    assert BEGUN.calls - {StartCall(2, REUSED, RUN, 0, AwaitStart)} == {HANGING_STOP};
  }

  lemma HealthReturns()
    ensures Moves(STARTED, ResumeStart(StartCall(2, REUSED, RUN, 0, AwaitHealth)), HEALTHY)
  {
    assert STARTED.calls - {StartCall(2, REUSED, RUN, 0, AwaitHealth)} == {HANGING_STOP};
  }

  lemma GateOpens()
    ensures Moves(HEALTHY, PublishEnabled(REUSED, RUN, true, true), OPENED)
  {}

  lemma StopEnds()
    ensures Moves(OPENED, RefusedClaim(REUSED), CLAIMED)
    ensures Moves(CLAIMED, ResumeStop(HANGING_STOP), LEFT_OPEN)
  {
    assert CLAIMED.calls - {HANGING_STOP} == {};
  }

  ghost predicate Reached(s: State) { exists steps :: Steps(INITIAL, steps, s) }

  lemma Then(s: State, a: Step, s': State)
    requires Reached(s) && Moves(s, a, s')
    ensures Reached(s')
  {
    hide Enabled, Apply;
    var steps :| Steps(INITIAL, steps, s);
    assert [a][1..] == [];
    assert Steps(s, [a], s');
    StepsAppend(INITIAL, steps, s, [a], s');
  }

  lemma StartOvertakesStop()
    ensures Reached(OPENED)
  {
    hide Reached, Moves, Steps;
    NothingYet();
    Installed();
    StopHangs();
    StartBegins();
    StartReturns();
    HealthReturns();
    GateOpens();
    Then(INITIAL, RegisterModule, INITIAL.(registered := true, revision := 1));
    Then(INITIAL.(registered := true, revision := 1), InstallDormant, INSTALLED);
    Then(INSTALLED, BeginStop(1, REUSED), STOP_ASKED);
    Then(STOP_ASKED, ContinueStop(StopCall(1, REUSED, InScope)), STOP_PENDING);
    Then(STOP_PENDING, BeginStart(2, REUSED), BEGUN);
    Then(BEGUN, ResumeStart(StartCall(2, REUSED, RUN, 0, AwaitStart)), STARTED);
    Then(STARTED, ResumeStart(StartCall(2, REUSED, RUN, 0, AwaitHealth)), HEALTHY);
    Then(HEALTHY, PublishEnabled(REUSED, RUN, true, true), OPENED);
  }

  lemma NothingYet()
    ensures Reached(INITIAL)
  {
    assert Steps(INITIAL, [], INITIAL);
  }

  /** Reusing one operation id for a hanging stop and a start leaves a STOPPED module's gate open. */
  lemma GateCanBeLeftOpen() returns (steps: seq<Step>)
    ensures Steps(INITIAL, steps, LEFT_OPEN)
    ensures LEFT_OPEN.gate == Some(RUN) && LEFT_OPEN.life.value.phase == Stopped && !GateInv(LEFT_OPEN)
  {
    hide Moves, Steps;
    StartOvertakesStop();
    StopEnds();
    Then(OPENED, RefusedClaim(REUSED), CLAIMED);
    Then(CLAIMED, ResumeStop(HANGING_STOP), LEFT_OPEN);
    steps :| Steps(INITIAL, steps, LEFT_OPEN);
  }

  /** The gate names an identity that Lifecycle has replaced and that no start call still holds. */
  predicate Stuck(s: State, identity: Identity) {
    && s.gate == Some(identity) && identity in s.issued && !Current(s, identity)
    && (forall c :: c in s.calls && c.StartCall? ==> c.identity != identity)
    && !(s.life.Some? && s.life.value.phase == Active)
  }

  /** The gate keeps naming the identity, and no other identity gets past it. */
  predicate Barred(s: State, identity: Identity) {
    s.gate == Some(identity) && !(s.life.Some? && s.life.value.phase == Active)
  }

  lemma BarredRuns(s: State, a: Step, identity: Identity)
    requires Stuck(s, identity) && Enabled(s, a) && (StartStep(a) || StopStep(a))
    ensures Barred(Apply(s, a), identity)
  {}

  lemma BarredPublications(s: State, a: Step, identity: Identity)
    requires Stuck(s, identity) && Enabled(s, a) && (RollbackStep(a) || PublishStep(a))
    ensures Barred(Apply(s, a), identity)
  {}

  lemma BarredOthers(s: State, a: Step, identity: Identity)
    requires Stuck(s, identity) && Enabled(s, a) && (DirectoryStep(a) || TaskStep(a) || InvalidateStep(a))
    ensures Barred(Apply(s, a), identity)
  {}

  lemma StuckGate(s: State, a: Step, identity: Identity)
    requires Stuck(s, identity) && Enabled(s, a)
    ensures Barred(Apply(s, a), identity)
  {
    hide Enabled, Apply, Stuck, Barred;
    if StartStep(a) || StopStep(a) { BarredRuns(s, a, identity); }
    else if RollbackStep(a) || PublishStep(a) { BarredPublications(s, a, identity); }
    else { BarredOthers(s, a, identity); }
  }

  lemma StuckStep(s: State, a: Step, identity: Identity)
    requires IdentityInv(s) && Stuck(s, identity) && Enabled(s, a)
    ensures Stuck(Apply(s, a), identity)
  {
    hide Enabled, Apply;
    StuckGate(s, a, identity);
    StepTame(s, a);
    StepHolders(s, a);
    var s' := Apply(s, a);
    assert !JustIssued(s, s', identity);
  }

  /** Such a gate never closes again, and the module never becomes ACTIVE again. */
  lemma {:induction false} StuckForever(s: State, steps: seq<Step>, s': State, identity: Identity)
    requires IdentityInv(s) && Stuck(s, identity) && Steps(s, steps, s')
    ensures s'.gate == Some(identity) && forall other :: !IsActive(s', other)
    decreases |steps|
  {
    hide IdentityInv, Enabled, Apply;
    if steps != [] {
      IdentityStep(s, steps[0]);
      StuckStep(s, steps[0], identity);
      StuckForever(Apply(s, steps[0]), steps[1..], s', identity);
    }
  }

  /** After that run, one more quiesce bars the module for the rest of the process. */
  lemma QuiesceBarsModule(op: Op, later: seq<Step>, s: State)
    requires Enabled(LEFT_OPEN, Quiesce(op)) && Steps(Apply(LEFT_OPEN, Quiesce(op)), later, s)
    ensures s.gate == Some(RUN) && forall identity :: !IsActive(s, identity)
  {
    var steps := GateCanBeLeftOpen();
    InitialIdentities();
    IdentityHolds(INITIAL, steps, LEFT_OPEN);
    IdentityStep(LEFT_OPEN, Quiesce(op));
    assert Stuck(Apply(LEFT_OPEN, Quiesce(op)), RUN);
    hide Steps, Enabled, Apply;
    StuckForever(Apply(LEFT_OPEN, Quiesce(op)), later, s, RUN);
  }
}
