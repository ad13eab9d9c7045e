/** What the token journal holds: everything that was said of a request and nothing else, and what
    becomes of a step from its last token to the next step. */
module JournalContents {
  import opened Wrappers
  import opened Journal
  import opened JournalProofs
  import opened TokensDicts

  // ---- What was said of a request -----------------------------------------------------------------

  /** The updates of request `g`, in order, that did not come while the lock was held or the actor
      was busy: those are made again later. */
  function Heard(batchSize: nat, s: State, ops: seq<Op>, g: Gid): seq<Increment> {
    if ops == [] then []
    else
      var pre, op := ops[..|ops| - 1], ops[|ops| - 1];
      var t := Run(batchSize, s, NOTHING, pre).0;
      Heard(batchSize, s, pre, g)
      + if op.Update? && op.gid == g && t.actor.Idle? && LockFree(t) then [op.inc] else []
  }

  function Ids(incs: seq<Increment>): seq<int> {
    if incs == [] then [] else Ids(incs[..|incs| - 1]) + incs[|incs| - 1].ids
  }

  /** The i-th increment is the last to say whether the request is finished. */
  ghost predicate SaysFinished(incs: seq<Increment>, i: nat)
    requires i < |incs|
  {
    incs[i].finished.Some? && forall j :: i < j < |incs| ==> incs[j].finished.None?
  }

  /** The i-th increment is the last to set this field. */
  ghost predicate SetsField(incs: seq<Increment>, i: nat, k: string)
    requires i < |incs|
  {
    k in incs[i].other && forall j :: i < j < |incs| ==> k !in incs[j].other
  }

  /** `e` is what the increments make of `old`: all ids appended in order, and for everything else
      the last increment that sets it, or the old value. */
  ghost predicate Holds(e: Entry, was: Entry, incs: seq<Increment>) {
    && e.ids == was.ids + Ids(incs)
    && (forall i :: 0 <= i < |incs| && SaysFinished(incs, i) ==> e.finished == incs[i].finished.value)
    && ((forall i :: 0 <= i < |incs| ==> incs[i].finished.None?) ==> e.finished == was.finished)
    && (forall i, k :: 0 <= i < |incs| && SetsField(incs, i, k) ==> k in e.other && e.other[k] == incs[i].other[k])
    && (forall k :: (forall i :: 0 <= i < |incs| ==> k !in incs[i].other) ==>
          (k in e.other <==> k in was.other) && (k in e.other ==> e.other[k] == was.other[k]))
  }

  function EntryOf(tokens: Tokens, g: Gid): Entry {
    if g in tokens then tokens[g] else EMPTY
  }

  lemma NothingHeard(e: Entry)
    ensures Holds(e, e, [])
  {
    assert e.ids + Ids([]) == e.ids;
  }

  /** One more increment. */
  lemma OneMoreHeard(e: Entry, was: Entry, incs: seq<Increment>, inc: Increment)
    requires Holds(e, was, incs)
    ensures Holds(AddTo(e, inc), was, incs + [inc])
  {
    var all, n, e1 := incs + [inc], |incs|, AddTo(e, inc);
    assert all[..n] == incs && forall i :: 0 <= i < n ==> all[i] == incs[i];
    assert e1.ids == was.ids + Ids(all);
    forall i | 0 <= i < |all| && SaysFinished(all, i) ensures e1.finished == all[i].finished.value {
      if i < n {
        assert SaysFinished(incs, i);
      }
    }
    forall i, k | 0 <= i < |all| && SetsField(all, i, k) ensures k in e1.other && e1.other[k] == all[i].other[k] {
      if i < n {
        assert SetsField(incs, i, k);
      }
    }
    forall k | forall i :: 0 <= i < |all| ==> k !in all[i].other
      ensures (k in e1.other <==> k in was.other) && (k in e1.other ==> e1.other[k] == was.other[k])
    {
      assert k !in all[n].other;
    }
    assert (forall i :: 0 <= i < |all| ==> all[i].finished.None?) ==> all[n].finished.None?;
  }

  /** Steps that leave the memory alone but for updates. */
  predicate Speaks(op: Op) {
    Appends(op) || op.UpdateIter?
  }

  /** Over every run of updates, saves and changes of the step number, each request holds what it
      held before and what was said of it since, and there is no other request. */
  lemma {:induction false} MemoryHoldsWhatWasSaid(batchSize: nat, s: State, ops: seq<Op>, g: Gid)
    requires forall op :: op in ops ==> Speaks(op)
    ensures var t, incs := Run(batchSize, s, NOTHING, ops).0, Heard(batchSize, s, ops, g);
      && t.actor == s.actor
      && (g in t.tokens <==> g in s.tokens || incs != [])
      && Holds(EntryOf(t.tokens, g), EntryOf(s.tokens, g), incs)
  {
    hide Holds;
    if ops == [] {
      NothingHeard(EntryOf(s.tokens, g));
    } else {
      var pre, op := ops[..|ops| - 1], ops[|ops| - 1];
      MemoryHoldsWhatWasSaid(batchSize, s, pre, g);
      var t, before := Run(batchSize, s, NOTHING, pre).0, Heard(batchSize, s, pre, g);
      assert op in ops;
      StepSays(batchSize, t, op, g);
      hide Apply, EntryOf, LockFree, Speaks;
      if op.Update? && op.gid == g && t.actor.Idle? && LockFree(t) {
        OneMoreHeard(EntryOf(t.tokens, g), EntryOf(s.tokens, g), before, op.inc);
      } else {
        assert before + [] == before;
      }
    }
  }

  lemma StepSays(batchSize: nat, t: State, op: Op, g: Gid)
    requires Speaks(op)
    ensures var t1 := Apply(batchSize, t, op);
      && t1.actor == t.actor
      && if op.Update? && op.gid == g && t.actor.Idle? && LockFree(t) then
           g in t1.tokens && EntryOf(t1.tokens, g) == AddTo(EntryOf(t.tokens, g), op.inc)
         else
           (g in t1.tokens <==> g in t.tokens) && EntryOf(t1.tokens, g) == EntryOf(t.tokens, g)
  {
  }

  /** Setting an entry replaces that of one request and touches nothing else; while the lock is
      held or the actor is busy it waits. */
  lemma SetsExactly(batchSize: nat, s: State, g: Gid, entry: Entry)
    ensures var t := Apply(batchSize, s, SetEntry(g, entry));
      if s.actor.Idle? && LockFree(s) then t == s.(tokens := t.tokens) && t.tokens == s.tokens[g := entry] else t == s
  {
  }

  /** The increments for `g` among the operations, whether they met a held lock or not. */
  function Said(ops: seq<Op>, g: Gid): seq<Increment> {
    if ops == [] then []
    else
      var op := ops[|ops| - 1];
      Said(ops[..|ops| - 1], g) + if op.Update? && op.gid == g then [op.inc] else []
  }

  /** While nothing is being saved or cleared, everything that is said is heard. */
  lemma {:induction false} AllIsHeard(batchSize: nat, s: State, ops: seq<Op>, g: Gid)
    requires s.actor.Idle? && LockFree(s) && forall op :: op in ops ==> op.Update?
    ensures Heard(batchSize, s, ops, g) == Said(ops, g)
    ensures var t := Run(batchSize, s, NOTHING, ops).0; t == s.(tokens := t.tokens)
  {
    if ops != [] {
      AllIsHeard(batchSize, s, ops[..|ops| - 1], g);
    }
  }

  /** The increments of a batch whose requests are mapped to `g`. */
  function SaidInBatch(globalIds: map<string, Gid>, infos: seq<(string, Increment)>, g: Gid): seq<Increment> {
    if infos == [] then []
    else
      var (reqId, inc) := infos[|infos| - 1];
      SaidInBatch(globalIds, infos[..|infos| - 1], g)
      + if reqId in globalIds && globalIds[reqId] == g then [inc] else []
  }

  /** A batch of request increments says of a global id what it says of the requests mapped to it,
      in order; requests that are not mapped say nothing. */
  lemma {:induction false} BatchSays(globalIds: map<string, Gid>, infos: seq<(string, Increment)>, g: Gid)
    ensures Said(UpdatesOf(globalIds, infos), g) == SaidInBatch(globalIds, infos, g)
    ensures forall op :: op in UpdatesOf(globalIds, infos) ==> op.Update?
  {
    if infos != [] {
      var n := |infos| - 1;
      BatchSays(globalIds, infos[..n], g);
      var before := UpdatesOf(globalIds, infos[..n]);
      var (reqId, inc) := infos[n];
      if reqId in globalIds {
        assert (before + [Update(globalIds[reqId], inc)])[..|before|] == before;
      } else {
        assert UpdatesOf(globalIds, infos) == before;
      }
    }
  }

  /** What a new process loads after a completed save is exactly what was said up to it: for every
      request the old entry and all increments since, unless the step has a finished file already. */
  lemma LoadRecoversWhatWasSaid(batchSize: nat, s: State, ops: seq<Op>, g: Gid)
    requires s.actor.Idle? && s.saver.Ready? && s.iteration !in s.stepFiles
    requires forall op :: op in ops ==> op.Update?
    ensures var t := Run(batchSize, s, NOTHING, ops).0;
      var saved := Apply(batchSize, Apply(batchSize, Apply(batchSize, t, SaveBegin), SaveCount), SaveEnd);
      var back := Recovered(batchSize, saved).tokens;
      && (g in back <==> g in s.tokens || Said(ops, g) != [])
      && Holds(EntryOf(back, g), EntryOf(s.tokens, g), Said(ops, g))
  {
    hide Holds, Recovered, Apply;
    AllIsHeard(batchSize, s, ops, g);
    MemoryHoldsWhatWasSaid(batchSize, s, ops, g);
    SaveThenCrash(batchSize, Run(batchSize, s, NOTHING, ops).0);
  }

  // ---- From one step to the next ---------------------------------------------------------------------

  /** A clear goes through exactly when there is nothing in memory, or everything is finished and
      the step's file is there; otherwise nothing changes. */
  lemma ClearsExactly(batchSize: nat, s: State, latest: int)
    requires s.actor.Idle? && LockFree(s)
    ensures var t := Apply(batchSize, s, ClearCheck(latest));
      if s.tokens == map[] || ((forall g :: g in s.tokens ==> s.tokens[g].finished) && s.iteration in s.stepFiles)
      then t == s.(actor := Clearing(latest)) else t == s
  {
  }

  /** A step whose requests are all there and finished is filed by the next save, and the clear
      after it goes through: memory is empty, the file is kept unless a checkpoint covers the
      step, and of the older files those a checkpoint covers are gone. */
  lemma StepTurnsOver(batchSize: nat, s: State, latest: int)
    requires s.actor.Idle? && s.saver.Resting? && !s.rolloutFinished && s.tokens != map[]
    requires (forall g :: g in s.tokens ==> s.tokens[g].finished) && |s.tokens| == batchSize
    ensures var t := Apply(batchSize, Apply(batchSize, Apply(batchSize, Apply(batchSize, s,
        SaveCheck), SaveBegin), SaveCount), SaveEnd);
      var u := Apply(batchSize, Apply(batchSize, Apply(batchSize, t, ClearCheck(latest)), ClearMemory), ClearFiles);
      && u.tokens == map[] && u.actor.Idle? && u.saver.Resting?
      && (s.iteration > latest ==>
            s.iteration in u.stepFiles && u.stepFiles[s.iteration] == Snapshot(s.iteration, s.tokens))
      && (forall i :: i in s.savedSteps + {s.iteration} && i <= latest ==> i !in u.stepFiles)
      && (forall i :: i in s.stepFiles && (i > latest || i !in s.savedSteps) && i != s.iteration ==>
            i in u.stepFiles && u.stepFiles[i] == s.stepFiles[i])
  {
    FinishedCount(s.tokens);
    var t := Apply(batchSize, Apply(batchSize, Apply(batchSize, s, SaveCheck), SaveBegin), SaveCount);
    assert t == s.(snapshot := Some(Snapshot(s.iteration, s.tokens)), saver := Counted(batchSize));
    hide NumFinished;
  }

  /** After a load has found the step's finished file no save takes place, whatever else happens,
      until the next load or a new process. */
  lemma {:induction false} FinishedStepIsNotSaved(batchSize: nat, s: State, ops: seq<Op>)
    requires s.rolloutFinished && s.saver.Resting?
    requires forall op :: op in ops ==> !op.TryLoad? && !op.Crash?
    ensures var t := Run(batchSize, s, NOTHING, ops).0;
      t.rolloutFinished && t.saver.Resting? && t.snapshot == s.snapshot && t.stepFiles.Keys <= s.stepFiles.Keys
  {
    if ops != [] {
      FinishedStepIsNotSaved(batchSize, s, ops[..|ops| - 1]);
    }
  }

  /** And a load sets the flag exactly when it has found that file. */
  lemma LoadFinds(batchSize: nat, s: State)
    requires s.actor.Idle? && LockFree(s)
    ensures var t := Apply(batchSize, s, TryLoad);
      && (t.rolloutFinished <==> s.iteration in s.stepFiles)
      && t.tokens == (if s.iteration in s.stepFiles then s.stepFiles[s.iteration].tokens
                      else if s.snapshot.Some? && s.snapshot.value.step == s.iteration then s.snapshot.value.tokens
                      else s.tokens)
  {
  }
}
