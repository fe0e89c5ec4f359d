/** What holds over every run of the lifecycle protocol, whatever stale calls resume and when. */
module Fencing {
  import opened Common
  import opened Lifecycle

  // ----- Runs -----

  ghost predicate Moves(s: State, a: Step, s': State) { Enabled(s, a) && Apply(s, a) == s' }

  lemma {:induction false} StepsAppend(s: State, first: seq<Step>, mid: State, second: seq<Step>, s': State)
    requires Steps(s, first, mid) && Steps(mid, second, s')
    ensures Steps(s, first + second, s')
    decreases |first|
  {
    hide Enabled, Apply;
    if first == [] {
      assert first + second == second;
    } else {
      StepsAppend(Apply(s, first[0]), first[1..], mid, second, s');
      assert (first + second)[0] == first[0];
      assert (first + second)[1..] == first[1..] + second;
    }
  }

  // ----- Run identities -----

  ghost predicate IdentityInv(s: State) {
    && (forall i :: 0 <= i < |s.issued| ==> s.issued[i].serial == i && s.issued[i].epoch <= s.epochs)
    && (forall i, j :: 0 <= i < j < |s.issued| ==> s.issued[i].epoch < s.issued[j].epoch)
    && (s.life.Some? && s.life.value.identity.Some? ==> s.life.value.identity.value in s.issued)
    && (forall l :: l in s.leases ==> s.leases[l] in s.issued)
    && (forall c :: c in s.calls && c.StartCall? ==> c.identity in s.issued)
  }

  /** Issued, and neither starting nor active any more. */
  predicate Dead(s: State, identity: Identity) {
    && identity in s.issued
    && !(s.life.Some? && s.life.value.identity == Some(identity) && s.life.value.phase in {Starting, Active})
  }

  /** A step issues nothing, or one identity with a new serial and a new, larger epoch. */
  predicate Issues(s: State, s': State) {
    || (s'.issued == s.issued && s'.epochs >= s.epochs)
    || (s'.epochs > s.epochs && s'.issued == s.issued + [Identity(|s.issued|, s'.epochs)])
  }

  predicate Current(s: State, identity: Identity) { s.life.Some? && s.life.value.identity == Some(identity) }

  predicate Running(s: State, identity: Identity) {
    Current(s, identity) && s.life.value.phase in {Starting, Active}
  }

  predicate JustIssued(s: State, s': State, identity: Identity) {
    s'.issued != [] && s'.issued != s.issued && identity == Newest(s')
  }

  /** No step brings back an old identity, and none makes a running identity start again. */
  ghost predicate Tame(s: State, s': State) {
    && Issues(s, s')
    && (forall i :: Current(s', i) ==> Current(s, i) || JustIssued(s, s', i))
    && (forall i :: Running(s', i) ==> Running(s, i) || JustIssued(s, s', i))
    && (forall i :: IsActive(s, i) && Running(s', i) ==> IsActive(s', i))
    && (s'.activated == s.activated ||
        (exists i :: Current(s, i) && Current(s', i) && s.life.value.phase == Starting
                     && s'.life.value.phase != Starting && s'.activated == s.activated + [i]))
  }

  /** The step changes no identity and leaves it in its phase or moves it out of STARTING and ACTIVE. */
  predicate Keeps(s: State, s': State) {
    && s'.issued == s.issued && s'.epochs >= s.epochs && s'.activated == s.activated
    && (s'.life.Some? && s'.life.value.identity.Some? ==>
          && s.life.Some? && s'.life.value.identity == s.life.value.identity
          && (s'.life.value.phase == s.life.value.phase || s'.life.value.phase !in {Starting, Active}))
  }

  /** The step installs a newly issued identity. */
  predicate Renews(s: State, s': State) {
    && s'.epochs > s.epochs && s'.issued == s.issued + [Identity(|s.issued|, s'.epochs)]
    && s'.activated == s.activated
    && s'.life.Some? && s'.life.value.identity == Some(Identity(|s.issued|, s'.epochs))
    && (s.life.Some? && s.life.value.phase == Active ==> s'.life.value.phase !in {Starting, Active})
  }

  lemma QuietlyTame(s: State, s': State)
    requires Keeps(s, s') || Renews(s, s')
    ensures Tame(s, s')
  {}

  lemma DirectoryTame(s: State, a: Step)
    requires Enabled(s, a) && DirectoryStep(a)
    ensures Tame(s, ApplyDirectory(s, a))
  {
    hide Tame;
    QuietlyTame(s, ApplyDirectory(s, a));
  }

  lemma TaskTame(s: State, a: Step)
    requires Enabled(s, a) && TaskStep(a)
    ensures Tame(s, ApplyTask(s, a))
  {
    hide Tame;
    QuietlyTame(s, ApplyTask(s, a));
  }

  lemma BeginStartTame(s: State, id: CallId, op: Op)
    requires Enabled(s, BeginStart(id, op))
    ensures Tame(s, ApplyStart(s, BeginStart(id, op)))
  {
    hide Tame;
    QuietlyTame(s, ApplyStart(s, BeginStart(id, op)));
  }

  lemma StartTame(s: State, a: Step)
    requires Enabled(s, a) && StartStep(a)
    ensures Tame(s, ApplyStart(s, a))
  {
    hide Tame;
    if a.BeginStart? { BeginStartTame(s, a.id, a.op); } else { QuietlyTame(s, ApplyStart(s, a)); }
  }

  lemma StopTame(s: State, a: Step)
    requires Enabled(s, a) && StopStep(a)
    ensures Tame(s, ApplyStop(s, a))
  {
    hide Tame;
    QuietlyTame(s, ApplyStop(s, a));
  }

  lemma BeginRollbackTame(s: State, id: CallId, op: Op)
    requires Enabled(s, BeginRollback(id, op))
    ensures Tame(s, ApplyRollback(s, BeginRollback(id, op)))
  {
    hide Tame;
    QuietlyTame(s, ApplyRollback(s, BeginRollback(id, op)));
  }

  lemma RollbackTame(s: State, a: Step)
    requires Enabled(s, a) && RollbackStep(a)
    ensures Tame(s, ApplyRollback(s, a))
  {
    hide Tame;
    if a.BeginRollback? { BeginRollbackTame(s, a.id, a.op); } else { QuietlyTame(s, ApplyRollback(s, a)); }
  }

  lemma PublishTame(s: State, a: Step)
    requires Enabled(s, a) && PublishStep(a)
    ensures Tame(s, ApplyPublish(s, a))
  {
    assert Current(s, a.identity);
  }

  lemma QuiesceTame(s: State, op: Op)
    requires Enabled(s, Quiesce(op))
    ensures Tame(s, ApplyInvalidate(s, Quiesce(op)))
  {
    hide Tame;
    QuietlyTame(s, ApplyInvalidate(s, Quiesce(op)));
  }

  lemma TimeoutTame(s: State, identity: Identity)
    requires Enabled(s, ScopeTimeout(identity))
    ensures Tame(s, ApplyInvalidate(s, ScopeTimeout(identity)))
  {
    hide Tame;
    QuietlyTame(s, ApplyInvalidate(s, ScopeTimeout(identity)));
  }

  lemma InvalidateTame(s: State, a: Step)
    requires Enabled(s, a) && InvalidateStep(a)
    ensures Tame(s, ApplyInvalidate(s, a))
  {
    hide Tame, Enabled, ApplyInvalidate;
    match a
    case Quiesce(op) => QuiesceTame(s, op);
    case ScopeTimeout(identity) => TimeoutTame(s, identity);
  }

  lemma StepTame(s: State, a: Step)
    requires Enabled(s, a)
    ensures Tame(s, Apply(s, a))
  {
    hide Enabled, Tame, ApplyDirectory, ApplyTask, ApplyStart, ApplyStop, ApplyRollback, ApplyPublish, ApplyInvalidate;
    if DirectoryStep(a) { DirectoryTame(s, a); }
    else if TaskStep(a) { TaskTame(s, a); }
    else if StartStep(a) { StartTame(s, a); }
    else if StopStep(a) { StopTame(s, a); }
    else if RollbackStep(a) { RollbackTame(s, a); }
    else if PublishStep(a) { PublishTame(s, a); }
    else { InvalidateTame(s, a); }
  }

  /** Leases change only in Admission, and start calls only carry identities already issued. */
  ghost predicate Holders(s: State, s': State) {
    && (forall l :: l in s'.leases ==> (l in s.leases && s'.leases[l] == s.leases[l]) || Current(s, s'.leases[l]))
    && (forall c :: c in s'.calls && c.StartCall? ==>
          || (exists d :: d in s.calls && d.StartCall? && d.identity == c.identity)
          || JustIssued(s, s', c.identity))
  }

  lemma DirectoryHolders(s: State, a: Step)
    requires Enabled(s, a) && DirectoryStep(a)
    ensures Holders(s, ApplyDirectory(s, a))
  {}

  lemma TaskHolders(s: State, a: Step)
    requires Enabled(s, a) && TaskStep(a)
    ensures Holders(s, ApplyTask(s, a))
  {}

  lemma StartHolders(s: State, a: Step)
    requires Enabled(s, a) && StartStep(a)
    ensures Holders(s, ApplyStart(s, a))
  {
    if !a.BeginStart? { assert a.c in s.calls && a.c.StartCall?; }
  }

  lemma StopHolders(s: State, a: Step)
    requires Enabled(s, a) && StopStep(a)
    ensures Holders(s, ApplyStop(s, a))
  {}

  lemma RollbackHolders(s: State, a: Step)
    requires Enabled(s, a) && RollbackStep(a)
    ensures Holders(s, ApplyRollback(s, a))
  {}

  lemma PublishHolders(s: State, a: Step)
    requires Enabled(s, a) && PublishStep(a)
    ensures Holders(s, ApplyPublish(s, a))
  {}

  lemma InvalidateHolders(s: State, a: Step)
    requires Enabled(s, a) && InvalidateStep(a)
    ensures Holders(s, ApplyInvalidate(s, a))
  {}

  lemma StepHolders(s: State, a: Step)
    requires Enabled(s, a)
    ensures Holders(s, Apply(s, a))
  {
    hide Enabled, Holders, ApplyDirectory, ApplyTask, ApplyStart, ApplyStop, ApplyRollback, ApplyPublish, ApplyInvalidate;
    if DirectoryStep(a) { DirectoryHolders(s, a); }
    else if TaskStep(a) { TaskHolders(s, a); }
    else if StartStep(a) { StartHolders(s, a); }
    else if StopStep(a) { StopHolders(s, a); }
    else if RollbackStep(a) { RollbackHolders(s, a); }
    else if PublishStep(a) { PublishHolders(s, a); }
    else { InvalidateHolders(s, a); }
  }

  lemma IdentityStep(s: State, a: Step)
    requires IdentityInv(s) && Enabled(s, a)
    ensures IdentityInv(Apply(s, a))
    ensures s.issued <= Apply(s, a).issued
  {
    hide Enabled, Apply;
    StepTame(s, a);
    StepHolders(s, a);
    var s' := Apply(s, a);
    assert forall i :: Current(s', i) ==> i in s'.issued;
  }

  /** A dead identity stays dead: no call, stale or not, brings it back. */
  lemma DeadStep(s: State, a: Step, identity: Identity)
    requires IdentityInv(s) && Enabled(s, a) && Dead(s, identity)
    ensures Dead(Apply(s, a), identity)
  {
    hide Enabled, Apply;
    StepTame(s, a);
    assert !Running(s, identity);
    assert Dead(Apply(s, a), identity) <==> identity in Apply(s, a).issued && !Running(Apply(s, a), identity);
  }

  /** Leaving ACTIVE kills the identity. */
  lemma LeaveStep(s: State, a: Step, identity: Identity)
    requires IdentityInv(s) && Enabled(s, a) && IsActive(s, identity)
    ensures IsActive(Apply(s, a), identity) || Dead(Apply(s, a), identity)
  {
    hide Enabled, Apply;
    StepTame(s, a);
    assert Dead(Apply(s, a), identity) <==> identity in Apply(s, a).issued && !Running(Apply(s, a), identity);
  }

  lemma InitialIdentities()
    ensures IdentityInv(INITIAL)
  {}

  lemma {:induction false} IdentityHolds(s: State, steps: seq<Step>, s': State)
    requires IdentityInv(s) && Steps(s, steps, s')
    ensures IdentityInv(s') && s.issued <= s'.issued
    decreases |steps|
  {
    hide IdentityInv, Enabled, Apply;
    if steps != [] {
      IdentityStep(s, steps[0]);
      IdentityHolds(Apply(s, steps[0]), steps[1..], s');
    }
  }

  lemma {:induction false} DeadForever(s: State, steps: seq<Step>, s': State, identity: Identity)
    requires IdentityInv(s) && Steps(s, steps, s') && Dead(s, identity)
    ensures Dead(s', identity)
    decreases |steps|
  {
    hide IdentityInv, Enabled, Apply, Dead;
    if steps != [] {
      IdentityStep(s, steps[0]);
      DeadStep(s, steps[0], identity);
      DeadForever(Apply(s, steps[0]), steps[1..], s', identity);
    }
  }

  lemma {:induction false} ActiveOrDead(s: State, steps: seq<Step>, s': State, identity: Identity)
    requires IdentityInv(s) && Steps(s, steps, s') && (IsActive(s, identity) || Dead(s, identity))
    ensures IsActive(s', identity) || Dead(s', identity)
    decreases |steps|
  {
    hide IdentityInv, Enabled, Apply, Dead, IsActive;
    if steps != [] {
      IdentityStep(s, steps[0]);
      if IsActive(s, identity) { LeaveStep(s, steps[0], identity); } else { DeadStep(s, steps[0], identity); }
      ActiveOrDead(Apply(s, steps[0]), steps[1..], s', identity);
    }
  }

  /** Epochs allocated for the module are pairwise distinct, across rollback, detach and restore. */
  lemma EpochsDistinct(steps: seq<Step>, s: State, i: int, j: int)
    requires Steps(INITIAL, steps, s) && 0 <= i < j < |s.issued|
    ensures s.issued[i].epoch < s.issued[j].epoch
  {
    hide Steps, Enabled, Apply;
    InitialIdentities();
    IdentityHolds(INITIAL, steps, s);
  }

  /** Main fencing result: once an identity has left ACTIVE, no lease under it ever passes again. */
  lemma FencedForever(before: seq<Step>, s1: State, leaving: seq<Step>, s2: State, later: seq<Step>, s3: State,
                      identity: Identity, l: LeaseId)
    requires Steps(INITIAL, before, s1) && Steps(s1, leaving, s2) && Steps(s2, later, s3)
    requires IsActive(s1, identity) && !IsActive(s2, identity)
    requires l in s3.leases && s3.leases[l] == identity
    ensures !CheckPasses(s3, l) && !IsActive(s3, identity)
  {
    hide Steps, Enabled, Apply;
    InitialIdentities();
    IdentityHolds(INITIAL, before, s1);
    ActiveOrDead(s1, leaving, s2, identity);
    IdentityHolds(s1, leaving, s2);
    DeadForever(s2, later, s3, identity);
  }

  /** An activation is recorded once, and afterwards the identity is active or dead. */
  ghost predicate ActivationInv(s: State) {
    && (forall i :: 0 <= i < |s.activated| ==> IsActive(s, s.activated[i]) || Dead(s, s.activated[i]))
    && (forall i, j :: 0 <= i < j < |s.activated| ==> s.activated[i] != s.activated[j])
  }

  lemma ActivationStep(s: State, a: Step)
    requires IdentityInv(s) && ActivationInv(s) && Enabled(s, a)
    ensures ActivationInv(Apply(s, a))
  {
    hide Enabled, Apply;
    var s' := Apply(s, a);
    StepTame(s, a);
    IdentityStep(s, a);
    forall i | 0 <= i < |s.activated| ensures IsActive(s', s.activated[i]) || Dead(s', s.activated[i]) {
      if IsActive(s, s.activated[i]) { LeaveStep(s, a, s.activated[i]); } else { DeadStep(s, a, s.activated[i]); }
    }
    if s'.activated != s.activated {
      var i :| Current(s, i) && Current(s', i) && s.life.value.phase == Starting
               && s'.life.value.phase != Starting && s'.activated == s.activated + [i];
      assert IsActive(s', i) || Dead(s', i);
      assert forall k :: 0 <= k < |s.activated| ==> s.activated[k] != i;
    }
  }

  lemma {:induction false} ActivationHolds(s: State, steps: seq<Step>, s': State)
    requires IdentityInv(s) && ActivationInv(s) && Steps(s, steps, s')
    ensures ActivationInv(s')
    decreases |steps|
  {
    hide IdentityInv, ActivationInv, Enabled, Apply;
    if steps != [] {
      IdentityStep(s, steps[0]);
      ActivationStep(s, steps[0]);
      ActivationHolds(Apply(s, steps[0]), steps[1..], s');
    }
  }

  /** Each identity is activated at most once. */
  lemma ActivatedAtMostOnce(steps: seq<Step>, s: State, i: int, j: int)
    requires Steps(INITIAL, steps, s) && 0 <= i < j < |s.activated|
    ensures s.activated[i] != s.activated[j]
  {
    hide Steps, Enabled, Apply;
    InitialIdentities();
    ActivationHolds(INITIAL, steps, s);
  }

  // ----- The admission gate -----

  /** An open gate names the ACTIVE identity, enabled in the registry at that identity's epoch. */
  predicate GateInv(s: State) {
    s.gate.Some? ==> ActiveIdentity(s) == s.gate
  }

  ghost predicate CallInv(s: State) {
    forall c :: c in s.calls && c.StartCall? && c.starting.AwaitFailedStop? ==> Dead(s, c.identity)
  }

  lemma CallStep(s: State, a: Step)
    requires IdentityInv(s) && CallInv(s) && Enabled(s, a)
    ensures CallInv(Apply(s, a))
  {
    hide Enabled, Apply, IdentityInv, Dead;
    var s' := Apply(s, a);
    forall c | c in s'.calls && c.StartCall? && c.starting.AwaitFailedStop? ensures Dead(s', c.identity) {
      WaitingForStop(s, a, c);
      if c in s.calls { DeadStep(s, a, c.identity); } else { FailedStartIsDead(s, a); }
    }
  }

  lemma StartWaits(s: State, a: Step, c: Call)
    requires Enabled(s, a) && StartStep(a)
    requires c in ApplyStart(s, a).calls && c.StartCall? && c.starting.AwaitFailedStop?
    ensures c in s.calls || (a.FailStart? && a.c.identity == c.identity)
  {}

  lemma StopWaits(s: State, a: Step, c: Call)
    requires Enabled(s, a) && (StopStep(a) || RollbackStep(a)) && c in Apply(s, a).calls && c.StartCall?
    ensures c in s.calls
  {}

  lemma DirectoryWaits(s: State, a: Step)
    requires Enabled(s, a) && (DirectoryStep(a) || TaskStep(a))
    ensures Apply(s, a).calls == s.calls
  {}

  lemma PublishWaits(s: State, a: Step)
    requires Enabled(s, a) && (PublishStep(a) || InvalidateStep(a))
    ensures Apply(s, a).calls == s.calls
  {}

  lemma OthersWait(s: State, a: Step)
    requires Enabled(s, a) && (DirectoryStep(a) || TaskStep(a) || PublishStep(a) || InvalidateStep(a))
    ensures Apply(s, a).calls == s.calls
  {
    hide Enabled, Apply;
    if DirectoryStep(a) || TaskStep(a) { DirectoryWaits(s, a); } else { PublishWaits(s, a); }
  }

  lemma WaitingForStop(s: State, a: Step, c: Call)
    requires Enabled(s, a) && c in Apply(s, a).calls && c.StartCall? && c.starting.AwaitFailedStop?
    ensures c in s.calls || (a.FailStart? && a.c.identity == c.identity)
  {
    hide Enabled, ApplyDirectory, ApplyTask, ApplyStart, ApplyStop, ApplyRollback, ApplyPublish, ApplyInvalidate;
    if StartStep(a) { StartWaits(s, a, c); }
    else if StopStep(a) || RollbackStep(a) { StopWaits(s, a, c); }
    else { OthersWait(s, a); }
  }

  lemma FailedStartIsDead(s: State, a: Step)
    requires IdentityInv(s) && Enabled(s, a) && a.FailStart?
    ensures Dead(Apply(s, a), a.c.identity)
  {}

  /** The one step that can leave a gate open: the tail of `stop_candidate` run on an active module. */
  predicate StopsUnderOpenGate(s: State, a: Step) {
    && s.gate.Some?
    && (a.ResumeStop? || (a.ContinueStop? && (s.rec.None? || s.rec.value.stopCompleted)))
  }

  lemma DirectoryGate(s: State, a: Step)
    requires GateInv(s) && Enabled(s, a) && DirectoryStep(a)
    ensures GateInv(ApplyDirectory(s, a))
  {}

  lemma TaskGate(s: State, a: Step)
    requires GateInv(s) && Enabled(s, a) && TaskStep(a)
    ensures GateInv(ApplyTask(s, a))
  {}

  lemma StartGate(s: State, a: Step)
    requires CallInv(s) && GateInv(s) && Enabled(s, a) && StartStep(a)
    ensures GateInv(ApplyStart(s, a))
  {}

  lemma StopGate(s: State, a: Step)
    requires GateInv(s) && Enabled(s, a) && StopStep(a)
    ensures GateInv(ApplyStop(s, a)) <==> !StopsUnderOpenGate(s, a)
  {}

  lemma RollbackGate(s: State, a: Step)
    requires GateInv(s) && Enabled(s, a) && RollbackStep(a)
    ensures GateInv(ApplyRollback(s, a))
  {}

  lemma PublishGate(s: State, a: Step)
    requires GateInv(s) && Enabled(s, a) && PublishStep(a)
    ensures GateInv(ApplyPublish(s, a))
  {}

  lemma InvalidateGate(s: State, a: Step)
    requires GateInv(s) && Enabled(s, a) && InvalidateStep(a)
    ensures GateInv(ApplyInvalidate(s, a))
  {}

  lemma GateStep(s: State, a: Step)
    requires CallInv(s) && GateInv(s) && Enabled(s, a)
    ensures GateInv(Apply(s, a)) <==> !StopsUnderOpenGate(s, a)
  {
    hide Enabled, GateInv, CallInv, ApplyDirectory, ApplyTask, ApplyStart, ApplyStop, ApplyRollback, ApplyPublish, ApplyInvalidate;
    if DirectoryStep(a) { DirectoryGate(s, a); }
    else if TaskStep(a) { TaskGate(s, a); }
    else if StartStep(a) { StartGate(s, a); }
    else if StopStep(a) { StopGate(s, a); }
    else if RollbackStep(a) { RollbackGate(s, a); }
    else if PublishStep(a) { PublishGate(s, a); }
    else { InvalidateGate(s, a); }
  }

  ghost predicate GateAlways(s: State, steps: seq<Step>, s': State)
    requires Steps(s, steps, s')
    decreases |steps|
  {
    GateInv(s) && (steps != [] ==> GateAlways(Apply(s, steps[0]), steps[1..], s'))
  }

  ghost predicate NeverStopsOpen(s: State, steps: seq<Step>, s': State)
    requires Steps(s, steps, s')
    decreases |steps|
  {
    steps != [] ==> !StopsUnderOpenGate(s, steps[0]) && NeverStopsOpen(Apply(s, steps[0]), steps[1..], s')
  }

  lemma {:induction false} GateExactlyWhen(s: State, steps: seq<Step>, s': State)
    requires IdentityInv(s) && CallInv(s) && GateInv(s) && Steps(s, steps, s')
    ensures GateAlways(s, steps, s') <==> NeverStopsOpen(s, steps, s')
    decreases |steps|
  {
    hide IdentityInv, CallInv, GateInv, StopsUnderOpenGate, Enabled, Apply;
    if steps != [] {
      IdentityStep(s, steps[0]);
      CallStep(s, steps[0]);
      GateStep(s, steps[0]);
      var next := Apply(s, steps[0]);
      if GateInv(next) { GateExactlyWhen(next, steps[1..], s'); }
    }
  }

  /** In every run: the gate agrees with Lifecycle and Registry throughout iff no stop ends under it. */
  lemma GateInvariantExact(steps: seq<Step>, s: State)
    requires Steps(INITIAL, steps, s)
    ensures GateAlways(INITIAL, steps, s) <==> NeverStopsOpen(INITIAL, steps, s)
  {
    hide Steps, GateAlways, NeverStopsOpen;
    InitialIdentities();
    GateExactlyWhen(INITIAL, steps, s);
  }

  // ----- Callers that do not overlap a start with a stop -----

  predicate StopInFlight(s: State) { exists c :: c in s.calls && c.StopCall? }

  ghost predicate NoOverlap(s: State, steps: seq<Step>, s': State)
    requires Steps(s, steps, s')
    decreases |steps|
  {
    steps != [] ==>
      && !(steps[0].BeginStart? && StopInFlight(s))
      && NoOverlap(Apply(s, steps[0]), steps[1..], s')
  }

  predicate Busy(s: State) { s.life.Some? && s.life.value.phase in {Starting, Active} }

  predicate Quiet(s: State) { Busy(s) ==> !StopInFlight(s) }

  /** A stop call appears only in BeginStop, from a phase that is neither STARTING nor ACTIVE. */
  lemma StopCallsFrom(s: State, a: Step)
    requires Enabled(s, a) && !a.BeginStop? && StopInFlight(Apply(s, a))
    ensures StopInFlight(s)
  {
    hide ApplyDirectory, ApplyTask, ApplyPublish, ApplyInvalidate;
    var c :| c in Apply(s, a).calls && c.StopCall?;
    if StopStep(a) {
      assert a.c in s.calls && a.c.StopCall?;
    } else if StartStep(a) || RollbackStep(a) {
      assert c in s.calls;
    } else {
      OthersWait(s, a);
    }
  }

  /** Only BeginStart makes a module that was at rest STARTING or ACTIVE. */
  lemma BusyFrom(s: State, a: Step)
    requires Enabled(s, a) && !a.BeginStart? && Busy(Apply(s, a))
    ensures Busy(s) && !a.BeginStop?
  {}

  lemma QuietStep(s: State, a: Step)
    requires Quiet(s) && Enabled(s, a) && !(a.BeginStart? && StopInFlight(s))
    ensures Quiet(Apply(s, a))
  {
    hide Enabled, Apply, Busy, StopInFlight;
    if Busy(Apply(s, a)) && StopInFlight(Apply(s, a)) {
      if !a.BeginStart? { BusyFrom(s, a); }
      StopCallsFrom(s, a);
      assert false;
    }
  }

  lemma {:induction false} QuietNeverStopsOpen(s: State, steps: seq<Step>, s': State)
    requires IdentityInv(s) && CallInv(s) && GateInv(s) && Quiet(s) && Steps(s, steps, s') && NoOverlap(s, steps, s')
    ensures NeverStopsOpen(s, steps, s')
    decreases |steps|
  {
    hide IdentityInv, CallInv, Apply;
    if steps != [] {
      assert !StopsUnderOpenGate(s, steps[0]) by {
        if steps[0].ResumeStop? || steps[0].ContinueStop? { assert steps[0].c.StopCall? && StopInFlight(s); }
      }
      QuietStep(s, steps[0]);
      IdentityStep(s, steps[0]);
      CallStep(s, steps[0]);
      GateStep(s, steps[0]);
      QuietNeverStopsOpen(Apply(s, steps[0]), steps[1..], s');
    }
  }

  /** With starts and stops of a module kept apart, an open gate is right in every state of every run. */
  lemma GateHoldsWithoutOverlap(steps: seq<Step>, s: State)
    requires Steps(INITIAL, steps, s) && NoOverlap(INITIAL, steps, s)
    ensures GateAlways(INITIAL, steps, s)
  {
    hide Steps, GateAlways, NeverStopsOpen, NoOverlap;
    InitialIdentities();
    QuietNeverStopsOpen(INITIAL, steps, s);
    GateInvariantExact(steps, s);
  }
}
