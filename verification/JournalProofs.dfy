/** Safety of the token journal over every interleaving of its two threads and over crashes. */
module JournalProofs {
  import opened Wrappers
  import opened Journal

  // ---- Retention -----------------------------------------------------------------------

  /** A step file as it should be: exactly `batchSize` entries, all finished. */
  ghost predicate Complete(batchSize: nat, f: Snapshot) {
    |f.tokens| == batchSize && AllFinished(f.tokens)
  }

  /** A disk on which every step file is complete; an empty directory is one. */
  ghost predicate GoodDisk(batchSize: nat, s: State) {
    forall i :: i in s.stepFiles ==> Complete(batchSize, s.stepFiles[i])
  }

  /** Inside the locked section memory is what was snapshotted, unless a clear that had already
      passed its check has emptied it. */
  ghost predicate SaverSound(s: State) {
    !LockFree(s) ==>
      && s.snapshot.Some?
      && (s.tokens == s.snapshot.value.tokens
          || (s.tokens == map[] && AllFinished(s.snapshot.value.tokens)))
      && (s.saver.Counted? ==>
          s.saver.count == NumFinished(s.snapshot.value.tokens) || (s.tokens == map[] && s.saver.count == 0))
  }

  ghost predicate ActorSound(s: State) {
    s.actor.Clearing? ==> CanClear(s)
  }

  /** Steps cleared with tokens in them that no later checkpoint covers. */
  ghost predicate Owed(h: History, i: int) {
    i in h.cleared && forall c :: c in h.checkpoints ==> c < i
  }

  ghost predicate Retains(batchSize: nat, s: State, h: History) {
    && GoodDisk(batchSize, s) && SaverSound(s) && ActorSound(s)
    && forall i :: Owed(h, i) ==> i in s.stepFiles
  }

  lemma FinishedCount(tokens: Tokens)
    ensures AllFinished(tokens) ==> NumFinished(tokens) == |tokens|
  {
    if AllFinished(tokens) {
      assert (set g | g in tokens && tokens[g].finished) == tokens.Keys;
      assert |tokens.Keys| == |tokens|;
    }
  }

  lemma EndSaveRetains(batchSize: nat, s: State, h: History)
    requires batchSize > 0 && Retains(batchSize, s, h) && s.saver.Counted?
    ensures Retains(batchSize, EndSave(batchSize, s), h)
  {
    if AllFinished(s.tokens) && s.saver.count == batchSize {
      FinishedCount(s.snapshot.value.tokens);
      assert Complete(batchSize, s.snapshot.value);
    }
  }

  lemma ClearFilesRetains(batchSize: nat, s: State, h: History)
    requires Retains(batchSize, s, h) && s.actor.Emptied?
    ensures Retains(batchSize, ExpireFiles(s, s.actor.latest), Observe(h, s, ClearFiles))
  {
  }

  lemma NothingFinished()
    ensures NumFinished(map[]) == 0
  {
  }

  lemma StepRetains(batchSize: nat, s: State, h: History, op: Op)
    requires batchSize > 0 && Retains(batchSize, s, h)
    ensures Retains(batchSize, Apply(batchSize, s, op), Observe(h, s, op))
  {
    match op
    case SaveEnd => if s.saver.Counted? { EndSaveRetains(batchSize, s, h); }
    case SaveCount => NothingFinished();
    case ClearFiles => if s.actor.Emptied? { ClearFilesRetains(batchSize, s, h); }
    case _ =>
  }

  /** Over every interleaving, crashes and loads included: each non-empty step that was cleared
      and is newer than every checkpoint announced so far still has its file, and every step
      file holds exactly `batchSize` entries, all finished. */
  lemma {:induction false} ClearedStepsAreKept(batchSize: nat, s: State, ops: seq<Op>)
    requires batchSize > 0 && GoodDisk(batchSize, s) && s.saver.Resting? && s.actor.Idle?
    ensures var (t, h) := Run(batchSize, s, NOTHING, ops);
      Retains(batchSize, t, h)
  {
    if ops != [] {
      var pre := ops[..|ops| - 1];
      ClearedStepsAreKept(batchSize, s, pre);
      var (t, h) := Run(batchSize, s, NOTHING, pre);
      StepRetains(batchSize, t, h, ops[|ops| - 1]);
    }
  }

  // ---- Labels -----------------------------------------------------------------------------

  /** Every file is filed under the step whose tokens it holds. */
  ghost predicate Labelled(s: State) {
    forall i :: i in s.stepFiles ==> s.stepFiles[i].step == i
  }

  /** The step number when the last save of the run took its snapshot. */
  function BegunAt(batchSize: nat, s: State, ops: seq<Op>): int {
    if ops == [] then s.iteration
    else
      var pre := ops[..|ops| - 1];
      var t := Run(batchSize, s, NOTHING, pre).0;
      if ops[|ops| - 1].SaveBegin? && t.saver.Ready? then t.iteration else BegunAt(batchSize, s, pre)
  }

  /** In this state the operation copies the snapshot to a step file. */
  predicate Files(batchSize: nat, s: State, op: Op) {
    op.SaveEnd? && s.saver.Counted? && s.snapshot.Some? && AllFinished(s.tokens) && s.saver.count == batchSize
  }

  /** The i-th operation files a snapshot under a step number other than the one that was current
      when the save took it. */
  predicate Misfiles(batchSize: nat, s: State, ops: seq<Op>, i: nat)
    requires i < |ops|
  {
    var t := Run(batchSize, s, NOTHING, ops[..i]).0;
    Files(batchSize, t, ops[i]) && t.iteration != BegunAt(batchSize, s, ops[..i])
  }

  /** Every state of the run has its files labelled. */
  ghost predicate StaysLabelled(batchSize: nat, s: State, ops: seq<Op>) {
    forall i :: 0 <= i <= |ops| ==> Labelled(Run(batchSize, s, NOTHING, ops[..i]).0)
  }

  /** No operation of the run misfiles. */
  ghost predicate FilesRight(batchSize: nat, s: State, ops: seq<Op>) {
    forall i :: 0 <= i < |ops| ==> !Misfiles(batchSize, s, ops, i)
  }

  lemma RunLast(batchSize: nat, s: State, ops: seq<Op>)
    requires ops != []
    ensures Run(batchSize, s, NOTHING, ops).0
      == Apply(batchSize, Run(batchSize, s, NOTHING, ops[..|ops| - 1]).0, ops[|ops| - 1])
  {
  }

  /** Inside the locked section the snapshot carries the number it was taken under. */
  lemma {:induction false} SnapshotIsBegun(batchSize: nat, s: State, ops: seq<Op>)
    requires LockFree(s)
    ensures var t := Run(batchSize, s, NOTHING, ops).0;
      !LockFree(t) ==> t.snapshot.Some? && t.snapshot.value.step == BegunAt(batchSize, s, ops)
  {
    hide Apply, LockFree;
    if ops != [] {
      var pre := ops[..|ops| - 1];
      SnapshotIsBegun(batchSize, s, pre);
      SectionStep(batchSize, Run(batchSize, s, NOTHING, pre).0, ops[|ops| - 1], BegunAt(batchSize, s, pre));
    }
  }

  /** One step inside the locked section keeps the snapshot, and the step number too unless it is
      an update of the number. */
  lemma SectionStep(batchSize: nat, t: State, op: Op, begun: int)
    requires !LockFree(t) ==> t.snapshot.Some? && t.snapshot.value.step == begun
    ensures var t1, begun1 := Apply(batchSize, t, op), if op.SaveBegin? && t.saver.Ready? then t.iteration else begun;
      && (!LockFree(t1) ==> t1.snapshot.Some? && t1.snapshot.value.step == begun1)
      && (!LockFree(t1) && t1.iteration != begun1 ==> !LockFree(t) && (op.UpdateIter? || t.iteration != begun))
  {
  }

  /** One step keeps the labels unless it files a snapshot under another number. */
  lemma StepLabels(batchSize: nat, s: State, op: Op)
    requires Labelled(s)
    ensures Labelled(Apply(batchSize, s, op)) <==>
      !(Files(batchSize, s, op) && s.iteration != s.snapshot.value.step)
  {
    if Files(batchSize, s, op) {
      assert Apply(batchSize, s, op).stepFiles[s.iteration] == s.snapshot.value;
    }
  }

  /** Over every run, crashes included: all files of all states are labelled with their own step
      exactly when no save files under a step number other than the one it began with. */
  lemma {:induction false} LabelsExactly(batchSize: nat, s: State, ops: seq<Op>)
    requires Labelled(s) && LockFree(s)
    ensures StaysLabelled(batchSize, s, ops) <==> FilesRight(batchSize, s, ops)
  {
    if ops == [] {
      assert ops[..0] == [];
    } else {
      var n := |ops| - 1;
      var pre := ops[..n];
      LabelsExactly(batchSize, s, pre);
      PrefixesAgree(batchSize, s, ops);
      var t := Run(batchSize, s, NOTHING, pre).0;
      SnapshotIsBegun(batchSize, s, pre);
      RunLast(batchSize, s, ops);
      assert ops[..|ops|] == ops && pre[..n] == pre;
      if Labelled(t) {
        StepLabels(batchSize, t, ops[n]);
      }
      hide Run, BegunAt, Apply, Labelled;
      assert Misfiles(batchSize, s, ops, n)
        <==> Files(batchSize, t, ops[n]) && t.iteration != BegunAt(batchSize, s, pre);
    }
  }

  /** Both sides of the equivalence look at a run through its prefixes. */
  lemma PrefixesAgree(batchSize: nat, s: State, ops: seq<Op>)
    requires ops != []
    ensures var pre := ops[..|ops| - 1];
      && (StaysLabelled(batchSize, s, ops)
          <==> StaysLabelled(batchSize, s, pre) && Labelled(Run(batchSize, s, NOTHING, ops).0))
      && (FilesRight(batchSize, s, ops)
          <==> FilesRight(batchSize, s, pre) && !Misfiles(batchSize, s, ops, |ops| - 1))
  {
    hide Run, BegunAt, Labelled, Files;
    var n := |ops| - 1;
    var pre := ops[..n];
    assert ops[..|ops|] == ops;
    forall i | 0 <= i <= n ensures pre[..i] == ops[..i] {
    }
    forall i | 0 <= i < n ensures Misfiles(batchSize, s, pre, i) <==> Misfiles(batchSize, s, ops, i) {
      assert pre[..i] == ops[..i] && pre[i] == ops[i];
    }
  }

  /** A misfiling needs a change of the step number inside the locked section. */
  lemma {:induction false} NumberChanged(batchSize: nat, s: State, ops: seq<Op>) returns (j: nat)
    requires LockFree(s)
    requires var t := Run(batchSize, s, NOTHING, ops).0;
      !LockFree(t) && t.iteration != BegunAt(batchSize, s, ops)
    ensures j < |ops| && ops[j].UpdateIter? && !LockFree(Run(batchSize, s, NOTHING, ops[..j]).0)
  {
    var n := |ops| - 1;
    var pre := ops[..n];
    var t := Run(batchSize, s, NOTHING, pre).0;
    SnapshotIsBegun(batchSize, s, pre);
    SectionStep(batchSize, t, ops[n], BegunAt(batchSize, s, pre));
    hide Apply, LockFree;
    if ops[n].UpdateIter? && !LockFree(t) {
      j := n;
    } else {
      j := NumberChanged(batchSize, s, pre);
      assert pre[..j] == ops[..j];
    }
  }

  /** So a run that never changes the step number inside the locked section files everything
      under its own step. */
  lemma CalmRunsLabel(batchSize: nat, s: State, ops: seq<Op>)
    requires Labelled(s) && LockFree(s)
    requires forall j :: 0 <= j < |ops| && ops[j].UpdateIter? ==> LockFree(Run(batchSize, s, NOTHING, ops[..j]).0)
    ensures StaysLabelled(batchSize, s, ops)
  {
    LabelsExactly(batchSize, s, ops);
    forall i | 0 <= i < |ops| ensures !Misfiles(batchSize, s, ops, i) {
      var pre := ops[..i];
      assert forall j :: 0 <= j < i ==> pre[..j] == ops[..j];
      if Misfiles(batchSize, s, ops, i) {
        var j := NumberChanged(batchSize, s, pre);
        assert false;
      }
    }
  }

  /** What is owed, in full: on a run without misfilings each non-empty step that was cleared and
      is newer than every checkpoint announced has its own file, with exactly `batchSize` finished
      entries that were in memory under that step number. */
  lemma OwedFilesAreTheirOwn(batchSize: nat, s: State, ops: seq<Op>)
    requires batchSize > 0 && GoodDisk(batchSize, s) && Labelled(s) && s.saver.Resting? && s.actor.Idle?
    requires FilesRight(batchSize, s, ops)
    ensures var (t, h) := Run(batchSize, s, NOTHING, ops);
      forall i :: Owed(h, i) ==>
        i in t.stepFiles && Complete(batchSize, t.stepFiles[i]) && t.stepFiles[i].step == i
  {
    ClearedStepsAreKept(batchSize, s, ops);
    LabelsExactly(batchSize, s, ops);
    assert ops[..|ops|] == ops;
    hide Run, Complete, Owed;
  }

  /** The race that mislabels: a save that starts after `clear` has passed its check, and ends
      after the step number has moved on, files the old step's tokens under the new step, and
      the load that follows takes them for the new step's finished rollout. */
  lemma RaceMislabels(batchSize: nat, s: State, latest: int, step: int)
    requires s.actor.Idle? && s.saver.Resting? && !s.rolloutFinished
    requires s.tokens != map[] && AllFinished(s.tokens) && |s.tokens| == batchSize
    requires s.iteration in s.stepFiles && step != s.iteration
    ensures var t := Run(batchSize, s, NOTHING,
        [ClearCheck(latest), SaveCheck, SaveBegin, SaveCount, ClearMemory, ClearFiles,
         UpdateIter(step), SaveEnd, TryLoad]).0;
      && t.iteration == step && step in t.stepFiles && t.stepFiles[step].step == s.iteration
      && t.tokens == s.tokens && t.rolloutFinished
  {
    hide *;
    var ops := [ClearCheck(latest), SaveCheck, SaveBegin, SaveCount, ClearMemory, ClearFiles,
         UpdateIter(step), SaveEnd, TryLoad];
    var s1, s2, s3, s4, s5, s6, s7, s8 := RaceStates(batchSize, s, latest, step);
    RunNothing(batchSize, s, ops);
    RunStep(batchSize, s, ops, 0, s);
    RunStep(batchSize, s, ops, 1, s1);
    RunStep(batchSize, s, ops, 2, s2);
    RunStep(batchSize, s, ops, 3, s3);
    RunStep(batchSize, s, ops, 4, s4);
    RunStep(batchSize, s, ops, 5, s5);
    RunStep(batchSize, s, ops, 6, s6);
    RunStep(batchSize, s, ops, 7, s7);
    RunStep(batchSize, s, ops, 8, s8);
    assert ops[..9] == ops;
  }

  /** The states the race goes through. */
  lemma RaceStates(batchSize: nat, s: State, latest: int, step: int)
    returns (s1: State, s2: State, s3: State, s4: State, s5: State, s6: State, s7: State, s8: State)
    requires s.actor.Idle? && s.saver.Resting? && !s.rolloutFinished
    requires s.tokens != map[] && AllFinished(s.tokens) && |s.tokens| == batchSize
    requires s.iteration in s.stepFiles && step != s.iteration
    ensures s1 == Apply(batchSize, s, ClearCheck(latest)) && s2 == Apply(batchSize, s1, SaveCheck)
    ensures s3 == Apply(batchSize, s2, SaveBegin) && s4 == Apply(batchSize, s3, SaveCount)
    ensures s5 == Apply(batchSize, s4, ClearMemory) && s6 == Apply(batchSize, s5, ClearFiles)
    ensures s7 == Apply(batchSize, s6, UpdateIter(step)) && s8 == Apply(batchSize, s7, SaveEnd)
    ensures var t := Apply(batchSize, s8, TryLoad);
      && t.iteration == step && step in t.stepFiles && t.stepFiles[step].step == s.iteration
      && t.tokens == s.tokens && t.rolloutFinished
  {
    FinishedCount(s.tokens);
    s1 := s.(actor := Clearing(latest));
    s2 := s1.(saver := Ready);
    s3 := BeginSave(s2);
    s4 := s3.(saver := Counted(NumFinished(s.tokens)));
    s5 := s4.(tokens := map[], actor := Emptied(latest));
    s6 := ExpireFiles(s5, latest);
    s7 := s6.(iteration := step);
    s8 := EndSave(batchSize, s7);
  }

  lemma RunNothing(batchSize: nat, s: State, ops: seq<Op>)
    ensures Run(batchSize, s, NOTHING, ops[..0]).0 == s
  {
  }

  lemma RunStep(batchSize: nat, s: State, ops: seq<Op>, i: nat, si: State)
    requires i < |ops| && Run(batchSize, s, NOTHING, ops[..i]).0 == si
    ensures Run(batchSize, s, NOTHING, ops[..i + 1]).0 == Apply(batchSize, si, ops[i])
  {
    assert ops[..i + 1][..i] == ops[..i];
  }

  // ---- Prefix safety -----------------------------------------------------------------------

  /** Every request's tokens in `a` are a prefix of its tokens in `b`. */
  ghost predicate Prefix(a: Tokens, b: Tokens) {
    forall g :: g in a ==> g in b && a[g].ids <= b[g].ids
  }

  /** A load now would recover no more than what memory holds. */
  ghost predicate Safe(s: State) {
    Recoverable(s).Some? ==> Prefix(Recoverable(s).value, s.tokens)
  }

  /** Inside a save, the snapshot is of the current step and is what memory holds. */
  ghost predicate Steady(s: State) {
    !LockFree(s) ==> s.snapshot == Some(Snapshot(s.iteration, s.tokens))
  }

  predicate Appends(op: Op) {
    op.Update? || op.SaveCheck? || op.SaveBegin? || op.SaveCount? || op.SaveEnd?
  }

  /** Loading always leaves memory and disk in step. */
  lemma LoadIsSafe(batchSize: nat, s: State)
    requires s.actor.Idle? && LockFree(s)
    ensures Safe(Apply(batchSize, s, TryLoad)) && Steady(Apply(batchSize, s, TryLoad))
  {
  }

  lemma AppendKeepsSafe(batchSize: nat, s: State, op: Op)
    requires Safe(s) && Steady(s) && Appends(op)
    ensures var t := Apply(batchSize, s, op);
      Safe(t) && Steady(t) && t.iteration == s.iteration && Prefix(s.tokens, t.tokens)
  {
  }

  lemma {:induction false} AppendsKeepSafe(batchSize: nat, s: State, h: History, ops: seq<Op>)
    requires Safe(s) && Steady(s) && forall op :: op in ops ==> Appends(op)
    ensures var t := Run(batchSize, s, h, ops).0;
      Safe(t) && Steady(t) && t.iteration == s.iteration && Prefix(s.tokens, t.tokens)
  {
    if ops != [] {
      var pre := ops[..|ops| - 1];
      AppendsKeepSafe(batchSize, s, h, pre);
      AppendKeepsSafe(batchSize, Run(batchSize, s, h, pre).0, ops[|ops| - 1]);
    }
  }

  /** What a new process finds when it starts, sets the same step and loads. */
  function Recovered(batchSize: nat, s: State): State {
    Apply(batchSize, Apply(batchSize, Restart(s), UpdateIter(s.iteration)), TryLoad)
  }

  /** From any load on, with only updates and saves, a crash at any moment (also inside a save)
      followed by a load for the same step recovers, for each request, a prefix of what memory
      held before the crash. */
  lemma CrashRecoversPrefix(batchSize: nat, s: State, ops: seq<Op>)
    requires s.actor.Idle? && LockFree(s)
    requires forall op :: op in ops ==> Appends(op)
    ensures var t := Run(batchSize, Apply(batchSize, s, TryLoad), NOTHING, ops).0;
      && Prefix(Recovered(batchSize, t).tokens, t.tokens)
      && Recovered(batchSize, t).tokens == (if Recoverable(t).Some? then Recoverable(t).value else map[])
  {
    LoadIsSafe(batchSize, s);
    AppendsKeepSafe(batchSize, Apply(batchSize, s, TryLoad), NOTHING, ops);
  }

  /** A save now would file the step. */
  predicate Completes(batchSize: nat, s: State) {
    AllFinished(s.tokens) && NumFinished(s.tokens) == batchSize
  }

  /** A save that completes just before the crash loses nothing, unless the step already had a
      finished file, which takes precedence. */
  lemma SaveThenCrash(batchSize: nat, s: State)
    requires s.saver.Ready?
    ensures var t := Apply(batchSize, Apply(batchSize, Apply(batchSize, s, SaveBegin), SaveCount), SaveEnd);
      Recovered(batchSize, t).tokens == s.tokens <==>
        (Completes(batchSize, s) || s.iteration !in s.stepFiles || s.stepFiles[s.iteration].tokens == s.tokens)
  {
  }
}
