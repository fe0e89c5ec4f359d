/** What the steps of the locked part of a pipeline leave alone. */
module MigrationFrame {
  import opened Migration

  /** Everything outside the running attempt, its tree and its run record. */
  predicate Outside(s: State, s': State) {
    && s'.facts == s.facts && s'.fence == s.fence && s'.waiting == s.waiting && s'.handed == s.handed
    && s'.selector == s.selector && s'.published == s.published
    && s'.lease == s.lease && s'.served == s.served && s'.entered == s.entered
    && s.run.Some? && s'.run.Some?
    && s'.run.value.plan == s.run.value.plan && s'.run.value.serial == s.run.value.serial
    && s'.run.value.storage == s.run.value.storage
  }

  /** Nodes other than SQLite's auxiliary files stay and keep their identity. */
  ghost predicate NodesStay(s: State, s': State) {
    forall st, p :: st in s.storages && p in s.storages[st] && !Auxiliary(p) ==>
      st in s'.storages && p in s'.storages[st] && s'.storages[st][p].id == s.storages[st][p].id
  }

  lemma RecordOutside(s: State, a: Step)
    requires RecordStep(a) && RecordEnabled(s, a)
    ensures var s' := RecordApply(s, a);
      Outside(s, s') && s'.copies == s.copies && s'.manifests == s.manifests
      && s.run.value.at != Finished && s'.run.value.at != Finished
  {
    hide IsDirectory, TreeOf;
  }

  lemma RecordNodes(s: State, a: Step)
    requires RecordStep(a) && RecordEnabled(s, a)
    ensures NodesStay(s, RecordApply(s, a))
  {
    hide IsDirectory, Auxiliary;
  }

  lemma ContentOutside(s: State, a: Step)
    requires ContentStep(a) && ContentEnabled(s, a) && !a.Publish?
    ensures var s' := ContentApply(s, a); Outside(s, s') && s.run.value.at == Idle && s'.run.value.at == Idle
  {
    hide TargetFiles, FileSet, Lists;
  }

  lemma ContentNodes(s: State, a: Step)
    requires ContentStep(a) && ContentEnabled(s, a)
    ensures NodesStay(s, ContentApply(s, a))
  {
    hide TargetFiles, FileSet, Lists;
  }
}
