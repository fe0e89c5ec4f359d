/**
 Why one lease must not carry two calls: a second call of the same plan, entered while the first
 holds the lock, publishes over it. The source was fenced by an earlier run that crashed, so the plan's
 snapshot already shows the fence and stays current for both.
 */
module MigrationOverlap {
  import opened Common
  import opened Migration
  import opened MigrationScript
  import opened MigrationLog
  import opened MigrationProgress
  import opened MigrationCompletion
  import opened MigrationAuthority

  lemma OneHost(s: State, a: Step)
    requires HostStep(a) && HostEnabled(s, a)
    ensures Reaches(s, HostApply(s, a))
  {
    hide HostEnabled, HostApply, Reaches;
    OneStep(s, a);
  }

  lemma AuthorityReached(s: State, s': State)
    requires AuthorityInv(s) && Reaches(s, s')
    ensures AuthorityInv(s')
  {
    hide AuthorityInv, Steps;
    var steps :| Steps(s, steps, s');
    AuthorityOnly(s, steps, s');
  }

  lemma SelectorVerifies(s: State)
    requires AuthorityInv(s) && s.selector.Some?
    ensures Verifies(s, s.selector.value)
  {
    hide Verifies;
  }

  /** A fenced source, one lease for its plan, one call of it behind the fence, nothing else. */
  ghost predicate AfterCrash(s: State, op: Op, id: int) {
    && LogInv(s) && s.run.None? && s.selector.None? && s.saved == map[] && s.storages == map[] && s.copies == map[]
    && s.manifests == map[] && s.handed == {} && s.fence == Some(op)
    && var plan := Plan(op, s.facts, Some(op));
       s.lease == Some(Lease(1, plan)) && s.waiting == {Waiting(id, 1, plan, true)}
  }

  /** A first run fences the source and dies; a new lease is taken and a call enters under it. */
  lemma CrashThenPlanAgain(s0: State, op: Op) returns (s: State)
    requires Init(s0) && Walked(s0.facts.files)
    ensures Reaches(s0, s) && AfterCrash(s, op, 1) && s.facts == s0.facts && s.entered == multiset{0, 1}
  {
    hide Reaches, LogInv, Walked;
    InitialLog(s0);
    var first := Plan(op, s0.facts, None);
    var s1 := TakeLease(s0, 0, first);
    var s2 := EnterAndFence(s1, 0);
    var w := Waiting(0, 0, first, true);
    var s3 := GateApply(s2, Withdraw(w));
    GateKeeps(s2, Withdraw(w));
    OneGate(s2, Withdraw(w));
    var s4 := TakeLease(s3, 1, Plan(op, s0.facts, Some(op)));
    s := EnterAndFence(s4, 1);
    ReachesTrans(s0, s1, s2);
    ReachesTrans(s0, s2, s3);
    ReachesTrans(s0, s3, s4);
    ReachesTrans(s0, s4, s);
  }

  /** The first call takes the lock; the second call of the same plan still reads "no selector". */
  lemma SecondCallEnters(s: State, op: Op, storage: Storage) returns (s': State)
    requires AfterCrash(s, op, 1)
    ensures Reaches(s, s') && JustOpened(s', op, storage) && s'.run.value.plan == Plan(op, s.facts, Some(op))
    ensures s'.waiting == {Waiting(2, 1, Plan(op, s.facts, Some(op)), false)} && s'.lease == s.lease && s'.fence == s.fence
    ensures s'.entered == s.entered + multiset{1}
    ensures s'.facts == s.facts && s'.copies == map[] && s'.manifests == map[] && s'.handed == {} && s'.storages == map[]
    ensures op in s'.saved && |s'.saved[op].attempts| == 1
  {
    hide Reaches, LogInv, Ready, Walked, Script;
    var plan := Plan(op, s.facts, Some(op));
    var w := Waiting(1, 1, plan, true);
    var locked := GateApply(s, OpenAttempt(w, storage));
    OpenLocked(s, w, storage);
    OneGate(s, OpenAttempt(w, storage));
    s' := GateApply(locked, ReadSelector(2));
    GateKeeps(locked, ReadSelector(2));
    OneGate(locked, ReadSelector(2));
    RunReady(s');
    ReachesTrans(s, locked, s');
  }

  /** The attempt is carried to its publication, the lock released and the selector resolved. */
  lemma PublishAndResolve(s: State, inodes: Supply) returns (s': State)
    requires s.run.Some? && JustOpened(s, s.run.value.plan.op, s.run.value.storage) && AuthorityInv(s)
    requires var storage := s.run.value.storage;
      storage !in s.copies && storage !in s.manifests && Migratable(s.run.value.plan.facts.files)
    ensures Reaches(s, s') && s'.run.None? && s'.handed == s.handed + {Private(s.run.value.storage)}
    ensures s'.entered == s.entered
    ensures s'.copies == s.copies[s.run.value.storage := Activated(s.run.value.plan.op)]
    ensures s'.manifests.Keys == s.manifests.Keys + {s.run.value.storage}
    ensures s'.waiting == s.waiting && s'.facts == s.facts && s'.fence == s.fence && s'.lease == s.lease
    ensures forall st :: st != s.run.value.storage ==> TreeOf(s', st) == TreeOf(s, st)
    ensures var op := s.run.value.plan.op;
      && op in s'.saved && |s'.saved[op].attempts| == |s.saved[op].attempts| >= 1
      && var last := s'.saved[op].attempts[|s'.saved[op].attempts| - 1];
         last.storage == s.run.value.storage && CheckAttempt(TreeOf(s', last.storage), last.entries)
  {
    hide Reaches, LogInv, Migratable, CheckAttempt, AuthorityInv, Verifies, Script, Work;
    var done := FinishAttempt(s, inodes);
    var free := GateApply(done, Crash);
    OneGate(done, Crash);
    ReachesTrans(s, done, free);
    AuthorityReached(s, free);
    SelectorVerifies(free);
    s' := HostApply(free, Resolve);
    OneHost(free, Resolve);
    ReachesTrans(s, free, s');
    forall st | st != s.run.value.storage ensures TreeOf(s', st) == TreeOf(s, st) { assert TreeOf(done, st) == TreeOf(s, st); }
  }

  /** The second call gets past the fence and the check of the first one's attempt. */
  lemma SecondCallLocks(s: State, op: Op, first: Storage, storage: Storage) returns (s': State)
    requires LogInv(s) && s.run.None? && s.lease == Some(Lease(1, Plan(op, s.facts, Some(op)))) && s.fence == Some(op)
    requires s.waiting == {Waiting(2, 1, Plan(op, s.facts, Some(op)), false)} && TreeOf(s, storage).None? && storage != first
    requires op in s.saved && |s.saved[op].attempts| == 1 && s.saved[op].attempts[0].storage == first
    requires CheckAttempt(TreeOf(s, first), s.saved[op].attempts[0].entries)
    ensures Reaches(s, s') && JustOpened(s', op, storage) && s'.run.value.plan == Plan(op, s.facts, Some(op))
    ensures s'.copies == s.copies && s'.manifests == s.manifests && s'.handed == s.handed && s'.facts == s.facts
    ensures s'.entered == s.entered
  {
    hide Reaches, LogInv, CheckAttempt, Ready, Walked, Script, Loads;
    var plan := Plan(op, s.facts, Some(op));
    var w := Waiting(2, 1, plan, false);
    var past := GateApply(s, FenceSource(w));
    GateKeeps(s, FenceSource(w));
    OneGate(s, FenceSource(w));
    LogInvAccepts(past);
    LoadsAt(past, op);
    assert AttemptsPass(past, past.saved[op]);
    s' := GateApply(past, OpenAttempt(w.(fenced := true), storage));
    OpenLocked(past, w.(fenced := true), storage);
    OneGate(past, OpenAttempt(w.(fenced := true), storage));
    ReachesTrans(s, past, s');
  }

  lemma LoadsAt(s: State, op: Op)
    requires RerunAccepts(s) && op in s.saved
    ensures Loads(s.saved[op], Plan(op, s.facts, s.fence))
  {
    hide Loads, AttemptsPass;
  }

  /** Both calls publish: two processes hold different roots, and both roots take writes. */
  lemma OverlapBreaksAuthority(s0: State, op: Op, st1: Storage, st2: Storage, inodes: Supply) returns (s: State)
    requires Init(s0) && Walked(s0.facts.files) && Migratable(s0.facts.files) && st1 != st2
    ensures Reaches(s0, s) && !SingleAuthority(s)
    ensures s.handed == {Private(st1), Private(st2)} && Unfenced(s, Private(st1)) && Unfenced(s, Private(st2))
    ensures CallsPerLease(s, 2)
  {
    hide Reaches, LogInv, Migratable, CheckAttempt, AuthorityInv, Verifies, Walked, Harmless, Init, Ready, Script;
    InitialAuthority(s0);
    MigratableParts(s0.facts.files);
    var s1 := CrashThenPlanAgain(s0, op);
    var s2 := SecondCallEnters(s1, op, st1);
    ReachesTrans(s0, s1, s2);
    AuthorityReached(s0, s2);
    var s3 := PublishAndResolve(s2, inodes);
    ReachesTrans(s0, s2, s3);
    LogReached(s0, s3);
    var s4 := SecondCallLocks(s3, op, st1, st2);
    ReachesTrans(s0, s3, s4);
    AuthorityReached(s0, s4);
    s := PublishAndResolve(s4, inodes);
    ReachesTrans(s0, s4, s);
    assert st1 in s.copies && st2 in s.copies;
    assert Unfenced(s, Private(st1)) && Unfenced(s, Private(st2)) && Private(st1) != Private(st2);
  }

  lemma LogReached(s0: State, s: State)
    requires Init(s0) && Reaches(s0, s) && Harmless(s.facts.files)
    ensures LogInv(s)
  {
    hide Init, LogInv, Harmless, Steps;
    var steps :| Steps(s0, steps, s);
    InitialLog(s0);
    LogHolds(s0, steps, s);
  }

  /** Allowing up to `n` calls per lease is safe in every run iff `n` is at most one. */
  lemma OneCallExactly(s0: State, n: nat)
    requires Init(s0) && Walked(s0.facts.files) && Migratable(s0.facts.files)
    ensures (forall s :: Reaches(s0, s) && CallsPerLease(s, n) ==> SingleAuthority(s)) <==> n <= 1
  {
    hide Steps, Init, Walked, Migratable, SingleAuthority;
    if n <= 1 {
      forall s | Reaches(s0, s) && CallsPerLease(s, n) ensures SingleAuthority(s) {
        var steps :| Steps(s0, steps, s);
        OneAuthority(s0, steps, s);
      }
    } else {
      var s := OverlapBreaksAuthority(s0, 0, 0, 1, path => |path|);
      assert Reaches(s0, s) && CallsPerLease(s, n);
    }
  }
}
