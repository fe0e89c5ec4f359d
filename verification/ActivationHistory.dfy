/** What every activation has been through: its own start call returned, then its health check, then its publication. */
module ActivationHistory {
  import opened Common
  import opened Lifecycle

  predicate Returns(a: Step, i: Identity, from: StartStage) {
    a.ResumeStart? && a.c.StartCall? && a.c.identity == i && a.c.starting == from
  }

  /** Before step `upTo` of the run the start call of `i` returned. */
  ghost predicate StartReturned(steps: seq<Step>, upTo: nat, i: Identity)
    requires upTo <= |steps|
  {
    exists k :: 0 <= k < upTo && Returns(steps[k], i, AwaitStart)
  }

  /** Before step `upTo` its health check succeeded, after its start call had returned. */
  ghost predicate HealthChecked(steps: seq<Step>, upTo: nat, i: Identity)
    requires upTo <= |steps|
  {
    exists k :: 0 <= k < upTo && Returns(steps[k], i, AwaitHealth) && StartReturned(steps, k, i)
  }

  /** Before step `upTo` it was published, after its health check. */
  ghost predicate Published(steps: seq<Step>, upTo: nat, i: Identity)
    requires upTo <= |steps|
  {
    exists k :: 0 <= k < upTo && steps[k].PublishEnabled? && steps[k].identity == i && steps[k].current && HealthChecked(steps, k, i)
  }

  predicate WaitsForHealth(s: State, c: Call) { c in s.calls && c.StartCall? && c.starting == AwaitHealth }

  predicate HealthyStart(s: State, i: Identity) {
    s.life.Some? && s.life.value.phase == Starting && s.life.value.healthy && s.life.value.identity == Some(i)
  }

  ghost predicate History(steps: seq<Step>, s: State) {
    && (forall c :: WaitsForHealth(s, c) ==> StartReturned(steps, |steps|, c.identity))
    && (forall i :: HealthyStart(s, i) ==> HealthChecked(steps, |steps|, i))
    && (forall i :: i in s.activated ==> Published(steps, |steps|, i))
  }

  /** How one step can add to each of these. */
  ghost predicate News(s: State, a: Step, s': State) {
    && (forall c :: WaitsForHealth(s', c) ==> WaitsForHealth(s, c) || Returns(a, c.identity, AwaitStart))
    && (forall i :: HealthyStart(s', i) ==>
          HealthyStart(s, i) || (Returns(a, i, AwaitHealth) && WaitsForHealth(s, a.c)))
    && (forall i :: i in s'.activated ==>
          i in s.activated || (a.PublishEnabled? && a.identity == i && a.current && HealthyStart(s, i)))
  }

  lemma StartNews(s: State, a: Step)
    requires Enabled(s, a) && StartStep(a)
    ensures News(s, a, ApplyStart(s, a))
  {}

  lemma StopNews(s: State, a: Step)
    requires Enabled(s, a) && StopStep(a)
    ensures News(s, a, ApplyStop(s, a))
  {}

  lemma RollbackNews(s: State, a: Step)
    requires Enabled(s, a) && RollbackStep(a)
    ensures News(s, a, ApplyRollback(s, a))
  {}

  lemma PublishNews(s: State, a: Step)
    requires Enabled(s, a) && PublishStep(a)
    ensures News(s, a, ApplyPublish(s, a))
  {}

  lemma InvalidateNews(s: State, a: Step)
    requires Enabled(s, a) && InvalidateStep(a)
    ensures News(s, a, ApplyInvalidate(s, a))
  {}

  lemma QuietNews(s: State, a: Step)
    requires Enabled(s, a) && (DirectoryStep(a) || TaskStep(a))
    ensures News(s, a, Apply(s, a))
  {
    hide ApplyStart, ApplyStop, ApplyRollback, ApplyPublish, ApplyInvalidate;
  }

  lemma StepNews(s: State, a: Step)
    requires Enabled(s, a)
    ensures News(s, a, Apply(s, a))
  {
    hide Enabled, News, ApplyDirectory, ApplyTask, ApplyStart, ApplyStop, ApplyRollback, ApplyPublish, ApplyInvalidate;
    if StartStep(a) { StartNews(s, a); }
    else if StopStep(a) { StopNews(s, a); }
    else if RollbackStep(a) { RollbackNews(s, a); }
    else if PublishStep(a) { PublishNews(s, a); }
    else if InvalidateStep(a) { InvalidateNews(s, a); }
    else { QuietNews(s, a); }
  }

  lemma ReturnedExtends(steps: seq<Step>, a: Step, upTo: nat, i: Identity)
    requires upTo <= |steps|
    ensures StartReturned(steps, upTo, i) ==> StartReturned(steps + [a], upTo, i)
    ensures StartReturned(steps, upTo, i) ==> StartReturned(steps + [a], |steps| + 1, i)
    ensures Returns(a, i, AwaitStart) ==> StartReturned(steps + [a], |steps| + 1, i)
  {
    if StartReturned(steps, upTo, i) {
      var k :| 0 <= k < upTo && Returns(steps[k], i, AwaitStart);
      assert (steps + [a])[k] == steps[k];
    }
    if Returns(a, i, AwaitStart) { assert (steps + [a])[|steps|] == a; }
  }

  lemma CheckedExtends(steps: seq<Step>, a: Step, upTo: nat, i: Identity)
    requires upTo <= |steps|
    ensures HealthChecked(steps, upTo, i) ==> HealthChecked(steps + [a], upTo, i) && HealthChecked(steps + [a], |steps| + 1, i)
    ensures Returns(a, i, AwaitHealth) && StartReturned(steps, |steps|, i) ==> HealthChecked(steps + [a], |steps| + 1, i)
  {
    hide StartReturned, Returns;
    if HealthChecked(steps, upTo, i) {
      var k :| 0 <= k < upTo && Returns(steps[k], i, AwaitHealth) && StartReturned(steps, k, i);
      assert (steps + [a])[k] == steps[k];
      ReturnedExtends(steps, a, k, i);
    }
    if Returns(a, i, AwaitHealth) && StartReturned(steps, |steps|, i) {
      assert (steps + [a])[|steps|] == a;
      ReturnedExtends(steps, a, |steps|, i);
    }
  }

  lemma PublishedExtends(steps: seq<Step>, a: Step, i: Identity)
    ensures Published(steps, |steps|, i) ==> Published(steps + [a], |steps| + 1, i)
    ensures a.PublishEnabled? && a.identity == i && a.current && HealthChecked(steps, |steps|, i) ==>
      Published(steps + [a], |steps| + 1, i)
  {
    hide HealthChecked;
    if Published(steps, |steps|, i) {
      var k :| 0 <= k < |steps| && steps[k].PublishEnabled? && steps[k].identity == i && steps[k].current && HealthChecked(steps, k, i);
      assert (steps + [a])[k] == steps[k];
      CheckedExtends(steps, a, k, i);
    }
    if a.PublishEnabled? && HealthChecked(steps, |steps|, i) {
      assert (steps + [a])[|steps|] == a;
      CheckedExtends(steps, a, |steps|, i);
    }
  }

  lemma HistoryStep(steps: seq<Step>, s: State, a: Step)
    requires History(steps, s) && Enabled(s, a)
    ensures History(steps + [a], Apply(s, a))
  {
    StepNews(s, a);
    hide Enabled, Apply, Returns, StartReturned, HealthChecked, Published, WaitsForHealth, HealthyStart;
    var s' := Apply(s, a);
    forall c | WaitsForHealth(s', c) ensures StartReturned(steps + [a], |steps| + 1, c.identity) {
      ReturnedExtends(steps, a, |steps|, c.identity);
    }
    forall i | HealthyStart(s', i) ensures HealthChecked(steps + [a], |steps| + 1, i) {
      CheckedExtends(steps, a, |steps|, i);
      if !HealthyStart(s, i) { CallerIs(a, i); }
    }
    forall i | i in s'.activated ensures Published(steps + [a], |steps| + 1, i) { PublishedExtends(steps, a, i); }
  }

  lemma CallerIs(a: Step, i: Identity)
    requires Returns(a, i, AwaitHealth)
    ensures a.c.StartCall? && a.c.identity == i
  {}

  lemma {:induction false} HistoryHolds(before: seq<Step>, s: State, steps: seq<Step>, s': State)
    requires History(before, s) && Steps(s, steps, s')
    ensures History(before + steps, s')
    decreases |steps|
  {
    hide History, Enabled, Apply;
    if steps == [] {
      assert before + steps == before;
    } else {
      HistoryStep(before, s, steps[0]);
      HistoryHolds(before + [steps[0]], Apply(s, steps[0]), steps[1..], s');
      assert before + [steps[0]] + steps[1..] == before + steps;
    }
  }

  /** In every run each activated identity was published after its health check, and that came after its start returned. */
  lemma ActivatedInOrder(steps: seq<Step>, s: State, i: Identity)
    requires Steps(INITIAL, steps, s) && i in s.activated
    ensures Published(steps, |steps|, i)
  {
    assert History([], INITIAL);
    hide Steps, History;
    HistoryHolds([], INITIAL, steps, s);
    assert [] + steps == steps;
    assert Published(steps, |steps|, i) by { HistoryOf(steps, s, i); }
  }

  lemma HistoryOf(steps: seq<Step>, s: State, i: Identity)
    requires History(steps, s) && i in s.activated
    ensures Published(steps, |steps|, i)
  {}
}
