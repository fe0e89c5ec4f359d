/**
 The life of one admission lease: it passes `check` exactly from its admission until its release, and
 only while the run it was admitted under is the one being served.
 */
module Leases {
  import opened Common
  import opened Lifecycle

  /** `i` is the ACTIVE run of a registered module, enabled at its epoch, behind an open gate, with nothing left to clean up. */
  predicate Serving(s: State, i: Identity) {
    && s.registered && s.enabled && s.projected == i.epoch && s.gate == Some(i)
    && s.life.Some? && s.life.value.phase == Active && s.life.value.identity == Some(i) && !s.life.value.cleanupPending
  }

  lemma ServingIsActive(s: State, i: Identity)
    ensures ActiveIdentity(s) == Some(i) <==> Serving(s, i)
  {}

  /** A lease is recorded by its own admission only and dropped by its own release only. */
  ghost predicate LeasesAfter(s: State, a: Step, s': State) {
    && (forall l :: l in s'.leases <==> a == Admit(l) || (l in s.leases && a != Release(l)))
    && (forall l :: l in s'.leases && l in s.leases ==> s'.leases[l] == s.leases[l])
    && (a.Admit? ==> a.l !in s.leases && a.l in s'.leases && Serving(s, s'.leases[a.l]))
  }

  lemma TaskLeases(s: State, a: Step)
    requires Enabled(s, a) && TaskStep(a)
    ensures LeasesAfter(s, a, ApplyTask(s, a))
  {
    if a.Admit? { ServingIsActive(s, ActiveIdentity(s).value); }
  }

  lemma StartLeases(s: State, a: Step)
    requires Enabled(s, a) && StartStep(a)
    ensures ApplyStart(s, a).leases == s.leases
  {}

  lemma StopLeases(s: State, a: Step)
    requires Enabled(s, a) && StopStep(a)
    ensures ApplyStop(s, a).leases == s.leases
  {}

  lemma RollbackLeases(s: State, a: Step)
    requires Enabled(s, a) && RollbackStep(a)
    ensures ApplyRollback(s, a).leases == s.leases
  {}

  lemma DirectoryLeases(s: State, a: Step)
    requires Enabled(s, a) && DirectoryStep(a)
    ensures ApplyDirectory(s, a).leases == s.leases
  {}

  lemma PublishLeases(s: State, a: Step)
    requires Enabled(s, a) && PublishStep(a)
    ensures ApplyPublish(s, a).leases == s.leases
  {}

  lemma InvalidateLeases(s: State, a: Step)
    requires Enabled(s, a) && InvalidateStep(a)
    ensures ApplyInvalidate(s, a).leases == s.leases
  {}

  lemma LeaseStep(s: State, a: Step)
    requires Enabled(s, a)
    ensures LeasesAfter(s, a, Apply(s, a))
  {
    hide Enabled, ApplyDirectory, ApplyTask, ApplyStart, ApplyStop, ApplyRollback, ApplyPublish, ApplyInvalidate;
    if TaskStep(a) { TaskLeases(s, a); }
    else if StartStep(a) { StartLeases(s, a); }
    else if StopStep(a) { StopLeases(s, a); }
    else if RollbackStep(a) { RollbackLeases(s, a); }
    else if DirectoryStep(a) { DirectoryLeases(s, a); }
    else if PublishStep(a) { PublishLeases(s, a); }
    else { InvalidateLeases(s, a); }
  }

  /** The state before step `k` of a run. */
  ghost function StateAt(s: State, steps: seq<Step>, s': State, k: nat): State
    requires Steps(s, steps, s') && k <= |steps|
    decreases k
  {
    if k == 0 then s else StateAt(Apply(s, steps[0]), steps[1..], s', k - 1)
  }

  ghost predicate AdmittedBy(s: State, steps: seq<Step>, s': State, l: LeaseId, i: Identity, k: nat)
    requires Steps(s, steps, s') && k < |steps|
  {
    && steps[k] == Admit(l) && Serving(StateAt(s, steps, s', k), i)
    && forall j :: k < j < |steps| ==> steps[j] != Release(l)
  }

  /** In this run the lease was admitted while `i` was served, and has not been released since. */
  ghost predicate Admitted(s: State, steps: seq<Step>, s': State, l: LeaseId, i: Identity)
    requires Steps(s, steps, s')
  {
    exists k :: 0 <= k < |steps| && AdmittedBy(s, steps, s', l, i, k)
  }

  lemma AdmittedCons(s: State, steps: seq<Step>, s': State, l: LeaseId, i: Identity)
    requires steps != [] && Steps(s, steps, s')
    ensures Admitted(s, steps, s', l, i) <==>
      || (steps[0] == Admit(l) && Serving(s, i) && Release(l) !in steps[1..])
      || Admitted(Apply(s, steps[0]), steps[1..], s', l, i)
  {
    hide Enabled, Apply, Serving;
    var next, rest := Apply(s, steps[0]), steps[1..];
    if Admitted(s, steps, s', l, i) {
      var k :| 0 <= k < |steps| && AdmittedBy(s, steps, s', l, i, k);
      if k > 0 { assert AdmittedBy(next, rest, s', l, i, k - 1); }
    }
    if steps[0] == Admit(l) && Serving(s, i) && Release(l) !in rest {
      assert forall j :: 0 < j < |steps| ==> steps[j] == rest[j - 1];
      assert AdmittedBy(s, steps, s', l, i, 0);
    }
    if Admitted(next, rest, s', l, i) {
      var k :| 0 <= k < |rest| && AdmittedBy(next, rest, s', l, i, k);
      assert forall j :: 0 < j < |steps| ==> steps[j] == rest[j - 1];
      assert AdmittedBy(s, steps, s', l, i, k + 1);
    }
  }

  /** A lease is recorded under `i` at the end of a run iff it was at the start, or was admitted then, and not released since. */
  lemma {:induction false} RecordedExactly(s: State, steps: seq<Step>, s': State, l: LeaseId, i: Identity)
    requires Steps(s, steps, s')
    ensures l in s'.leases && s'.leases[l] == i <==>
      || (l in s.leases && s.leases[l] == i && Release(l) !in steps)
      || Admitted(s, steps, s', l, i)
    decreases |steps|
  {
    hide Enabled, Apply, Serving, Admitted;
    if steps != [] {
      var a, next, rest := steps[0], Apply(s, steps[0]), steps[1..];
      LeaseStep(s, a);
      RecordedExactly(next, rest, s', l, i);
      AdmittedCons(s, steps, s', l, i);
      assert steps == [a] + rest;
      if a == Admit(l) { OneServed(s, i, next.leases[l]); }
    } else {
      NothingAdmitted(s, s', l, i);
    }
  }

  lemma NothingAdmitted(s: State, s': State, l: LeaseId, i: Identity)
    requires Steps(s, [], s')
    ensures !Admitted(s, [], s', l, i)
  {}

  lemma OneServed(s: State, i: Identity, j: Identity)
    ensures Serving(s, i) && Serving(s, j) ==> i == j
  {}

  /** In every run a lease passes `check` iff it was admitted under a run identity, has not been released since,
      and that identity is being served still, or again. */
  lemma CheckExactly(steps: seq<Step>, s: State, l: LeaseId)
    requires Steps(INITIAL, steps, s)
    ensures CheckPasses(s, l) <==> exists i :: Admitted(INITIAL, steps, s, l, i) && Serving(s, i)
  {
    hide Steps, Admitted, Serving;
    forall i ensures (l in s.leases && s.leases[l] == i <==> Admitted(INITIAL, steps, s, l, i)) {
      RecordedExactly(INITIAL, steps, s, l, i);
    }
    forall i ensures ActiveIdentity(s) == Some(i) <==> Serving(s, i) { ServingIsActive(s, i); }
    if CheckPasses(s, l) { assert Serving(s, s.leases[l]); }
  }

  /** A released lease never passes again unless its id is admitted anew. */
  lemma ReleasedForGood(s: State, l: LeaseId, later: seq<Step>, s': State)
    requires Steps(Apply(s, Release(l)), later, s') && Admit(l) !in later
    ensures l !in s'.leases && !CheckPasses(s', l)
  {
    LeaseStep(s, Release(l));
    StaysReleased(Apply(s, Release(l)), l, later, s');
  }

  lemma {:induction false} StaysReleased(s: State, l: LeaseId, later: seq<Step>, s': State)
    requires l !in s.leases && Steps(s, later, s') && Admit(l) !in later
    ensures l !in s'.leases
    decreases |later|
  {
    hide Enabled, Apply;
    if later != [] {
      LeaseStep(s, later[0]);
      StaysReleased(Apply(s, later[0]), l, later[1..], s');
    }
  }
}
