/**
 What a lease is good for. A call acts only under the current lease, for the plan that lease is bound to and on the
 source its snapshot showed; once the lease has ended, or the source has been fenced since, it can only withdraw.
 */
module MigrationLeases {
  import opened Common
  import opened Migration
  import opened MigrationFrame
  import opened MigrationLog
  import opened MigrationAuthority

  /** The steps for which the supervisor's lease is asked: fencing, locking, each listed file, publication. */
  ghost predicate ActsFor(s: State, a: Step, serial: int, plan: Plan) {
    || ((a.FenceSource? || a.OpenAttempt?) && a.w.serial == serial && a.w.plan == plan)
    || ((a.Publish? || (a.WantFile? && s.run.Some? && s.run.value.todo != [] && s.run.value.todo[0].FileItem?
                        && Lists(s.run.value.plan.facts.files, s.run.value.todo[0].path)))
        && s.run.Some? && s.run.value.serial == serial && s.run.value.plan == plan)
  }

  lemma ActorIsLeased(s: State, a: Step, serial: int, plan: Plan)
    requires Enabled(s, a) && ActsFor(s, a, serial, plan)
    ensures s.lease == Some(Lease(serial, plan))
    ensures a.FenceSource? ==> plan.facts == s.facts && plan.seen == s.fence
    ensures a.FenceSource? || a.OpenAttempt? ==> s.run.None?
  {
    hide Loads, AttemptsPass, Recorded, Lists;
  }

  /** The serial has been handed out and is not the current lease's. */
  predicate Lapsed(s: State, serial: int) { serial in s.served && !UnderLease(s, serial) }

  lemma GateLapsed(s: State, a: Step, serial: int)
    requires Lapsed(s, serial) && GateStep(a) && GateEnabled(s, a)
    ensures Lapsed(GateApply(s, a), serial)
  {
    hide Loads, AttemptsPass, Recorded, Abandon, Script, Walked;
  }

  lemma LapsedStep(s: State, a: Step, serial: int)
    requires Lapsed(s, serial) && Enabled(s, a)
    ensures Lapsed(Apply(s, a), serial)
  {
    hide HostEnabled, HostApply, GateEnabled, GateApply, RecordEnabled, RecordApply, ContentEnabled, ContentApply;
    if HostStep(a) { HostFrame(s, a); }
    else if GateStep(a) { GateLapsed(s, a, serial); }
    else if RecordStep(a) { RecordOutside(s, a); }
    else if a.Publish? { PublishKeepsLease(s); }
    else { ContentOutside(s, a); }
  }

  lemma PublishKeepsLease(s: State)
    requires ContentEnabled(s, Publish)
    ensures ContentApply(s, Publish).lease == s.lease && ContentApply(s, Publish).served == s.served
  {
    hide TargetFiles, FileSet, Lists;
  }

  lemma {:induction false} LapsedForever(s: State, steps: seq<Step>, s': State, serial: int)
    requires Lapsed(s, serial) && Steps(s, steps, s')
    ensures Lapsed(s', serial)
    decreases |steps|
  {
    hide Lapsed, Enabled, Apply;
    if steps != [] {
      LapsedStep(s, steps[0], serial);
      LapsedForever(Apply(s, steps[0]), steps[1..], s', serial);
    }
  }

  /** Once a lease has ended, no call under it ever fences, locks, copies a listed file or publishes. */
  lemma EndedLeaseIsDead(s: State, serial: int, steps: seq<Step>, s': State, a: Step, plan: Plan)
    requires UnderLease(s, serial) && serial in s.served && Steps(Apply(s, EndLease), steps, s') && Enabled(s', a)
    ensures !ActsFor(s', a, serial, plan)
  {
    assert Lapsed(Apply(s, EndLease), serial);
    hide Enabled, Apply, Steps, ActsFor;
    LapsedForever(Apply(s, EndLease), steps, s', serial);
    if ActsFor(s', a, serial, plan) { ActorIsLeased(s', a, serial, plan); assert false; }
  }

  /** A plan made before the source was fenced is refused ever after: only the first call fences. */
  lemma LatePlanIsRefused(s: State, w: Waiting, steps: seq<Step>, s': State, late: Waiting)
    requires s.fence.None? && Enabled(s, FenceSource(w)) && Steps(Apply(s, FenceSource(w)), steps, s')
    requires late.plan.seen.None?
    ensures !Enabled(s', FenceSource(late))
  {
    assert Apply(s, FenceSource(w)).fence.Some?;
    FrozenForever(Apply(s, FenceSource(w)), steps, s');
    hide Apply, Steps;
    if Enabled(s', FenceSource(late)) { ActorIsLeased(s', FenceSource(late), late.serial, late.plan); assert false; }
  }

  /** Between its opening and its end an attempt keeps the lock: no other call takes over. */
  lemma GateHolder(s: State, a: Step)
    requires s.run.Some? && GateStep(a) && GateEnabled(s, a) && !a.Crash?
    ensures GateApply(s, a).run == s.run
  {
    hide Loads, AttemptsPass, Recorded, Abandon, Script, Walked;
  }

  predicate SameHolder(s: State, s': State) {
    && s.run.Some? && s'.run.Some? && s'.run.value.plan == s.run.value.plan
    && s'.run.value.serial == s.run.value.serial && s'.run.value.storage == s.run.value.storage
  }

  lemma PublishHolder(s: State)
    requires ContentEnabled(s, Publish)
    ensures SameHolder(s, ContentApply(s, Publish))
  {
    hide TargetFiles, FileSet, Lists;
  }

  lemma HolderStep(s: State, a: Step)
    requires s.run.Some? && Enabled(s, a) && !a.Crash?
    ensures SameHolder(s, Apply(s, a))
  {
    hide HostEnabled, HostApply, GateEnabled, GateApply, RecordEnabled, RecordApply, ContentEnabled, ContentApply;
    if HostStep(a) { HostFrame(s, a); }
    else if GateStep(a) { GateHolder(s, a); }
    else if RecordStep(a) { RecordOutside(s, a); }
    else if a.Publish? { PublishHolder(s); }
    else { ContentOutside(s, a); }
  }

  lemma {:induction false} LockIsHeld(s: State, steps: seq<Step>, s': State)
    requires s.run.Some? && Steps(s, steps, s') && Crash !in steps
    ensures SameHolder(s, s')
    decreases |steps|
  {
    hide Enabled, Apply;
    if steps != [] {
      HolderStep(s, steps[0]);
      LockIsHeld(Apply(s, steps[0]), steps[1..], s');
    }
  }
}
