/** The journal object: methods that update its fields and the disk in place, each proved
    against one transition of module `Journal`. A method that would have to wait for the lock,
    or for the actor's own `clear`, returns with the state as it was. */
module TokensDicts {
  import opened Wrappers
  import opened Journal

  /** The updates that a batch of request increments amounts to. */
  function UpdatesOf(globalIds: map<string, Gid>, infos: seq<(string, Increment)>): seq<Op> {
    if infos == [] then []
    else
      var last := infos[|infos| - 1];
      UpdatesOf(globalIds, infos[..|infos| - 1])
      + (if last.0 in globalIds then [Update(globalIds[last.0], last.1)] else [])
  }

  lemma CountOne(tokens: Tokens, seen: set<Gid>, g: Gid)
    requires g in tokens && g !in seen
    ensures |set x | x in seen + {g} && x in tokens && tokens[x].finished|
         == |set x | x in seen && x in tokens && tokens[x].finished| + (if tokens[g].finished then 1 else 0)
  {
    var before := set x | x in seen && x in tokens && tokens[x].finished;
    var after := set x | x in seen + {g} && x in tokens && tokens[x].finished;
    assert after == if tokens[g].finished then before + {g} else before;
  }

  method CountFinished(tokens: Tokens) returns (finished: nat)
    ensures finished == NumFinished(tokens)
  {
    finished := 0;
    var left := tokens.Keys;
    while left != {}
      invariant left <= tokens.Keys
      invariant finished == |set x | x in tokens.Keys - left && x in tokens && tokens[x].finished|
    {
      var g :| g in left;
      CountOne(tokens, tokens.Keys - left, g);
      assert tokens.Keys - left + {g} == tokens.Keys - (left - {g});
      left := left - {g};
      if tokens[g].finished {
        finished := finished + 1;
      }
    }
    assert (set x | x in tokens.Keys - left && x in tokens && tokens[x].finished)
        == (set x | x in tokens && tokens[x].finished);
  }

  lemma SomeStep(steps: set<int>)
    ensures steps == {} || exists i :: i in steps
  {
    if forall i :: i !in steps {
      assert steps == {};
    }
  }

  class TokensDict {
    const batchSize: nat

    var iteration: int
    var indexPromptTokens: Tokens
    var savedStepCkpt: set<int>
    var isRolloutFinishedStep: bool

    // Where each thread is
    var actor: Actor
    var saver: Saver

    // The files
    var snapshot: Option<Snapshot>
    var stepFiles: map<int, Snapshot>

    function View(): State
      reads this
    {
      State(iteration, indexPromptTokens, savedStepCkpt, isRolloutFinishedStep, actor, saver, snapshot, stepFiles)
    }

    /** A new process over the disk an earlier one left. */
    constructor (batchSize: nat, ghost before: State, snapshot: Option<Snapshot>, stepFiles: map<int, Snapshot>)
      requires before.snapshot == snapshot && before.stepFiles == stepFiles
      ensures this.batchSize == batchSize && View() == Apply(batchSize, before, Crash)
    {
      this.batchSize := batchSize;
      iteration, indexPromptTokens, savedStepCkpt, isRolloutFinishedStep := 0, map[], {}, false;
      actor, saver := Idle, Resting;
      this.snapshot, this.stepFiles := snapshot, stepFiles;
    }

    predicate Free()
      reads this
    {
      actor.Idle? && (saver.Resting? || saver.Ready?)
    }

    method UpdateData(gid: Gid, inc: Increment)
      modifies this
      ensures View() == Apply(batchSize, old(View()), Update(gid, inc))
    {
      if !Free() {
        return;
      }
      if gid !in indexPromptTokens {
        indexPromptTokens := indexPromptTokens[gid := EMPTY];
      }
      var e := indexPromptTokens[gid];
      e := e.(ids := e.ids + inc.ids, other := e.other + inc.other);
      if inc.finished.Some? {
        e := e.(finished := inc.finished.value);
      }
      indexPromptTokens := indexPromptTokens[gid := e];
    }

    /** One batch of increments, under one acquisition of the lock: requests without a global
        id are skipped, and the others are updated in order. */
    method UpdateDatas(globalIds: map<string, Gid>, infos: seq<(string, Increment)>)
      modifies this
      ensures View() == Run(batchSize, old(View()), NOTHING, UpdatesOf(globalIds, infos)).0
    {
      for i := 0 to |infos|
        invariant View() == Run(batchSize, old(View()), NOTHING, UpdatesOf(globalIds, infos[..i])).0
      {
        assert infos[..i + 1][..i] == infos[..i];
        var (reqId, inc) := infos[i];
        if reqId in globalIds {
          ghost var ops := UpdatesOf(globalIds, infos[..i]);
          assert (ops + [Update(globalIds[reqId], inc)])[..|ops|] == ops;
          UpdateData(globalIds[reqId], inc);
        } else {
          assert UpdatesOf(globalIds, infos[..i + 1]) == UpdatesOf(globalIds, infos[..i]);
        }
      }
      assert infos[..|infos|] == infos;
    }

    method SetData(gid: Gid, entry: Entry)
      modifies this
      ensures View() == Apply(batchSize, old(View()), SetEntry(gid, entry))
    {
      if Free() {
        indexPromptTokens := indexPromptTokens[gid := entry];
      }
    }

    /** One pass of the waiting loop of `clear`. */
    method ClearCheck(latest: int)
      modifies this
      ensures View() == Apply(batchSize, old(View()), Op.ClearCheck(latest))
    {
      if !Free() {
        return;
      }
      if |indexPromptTokens| == 0 || (AllFinished(indexPromptTokens) && iteration in stepFiles) {
        actor := Clearing(latest);
      }
    }

    /** Past the loop of `clear`, without the lock: empty the memory. */
    method ClearMemory()
      modifies this
      ensures View() == Apply(batchSize, old(View()), Op.ClearMemory)
    {
      if actor.Clearing? {
        indexPromptTokens := map[];
        actor := Emptied(actor.latest);
      }
    }

    /** The rest of `clear`: remove the files that a checkpoint has made unnecessary. */
    method ClearFiles()
      modifies this
      ensures View() == Apply(batchSize, old(View()), Op.ClearFiles)
    {
      if !actor.Emptied? {
        return;
      }
      var latest := actor.latest;
      ghost var files := stepFiles;
      var steps := savedStepCkpt;
      while steps != {}
        invariant steps <= old(savedStepCkpt)
        invariant savedStepCkpt == old(savedStepCkpt) - (set i | i in old(savedStepCkpt) - steps && i <= latest)
        invariant stepFiles == files - (set i | i in old(savedStepCkpt) - steps && i <= latest)
        invariant unchanged(`iteration, `indexPromptTokens, `isRolloutFinishedStep, `actor, `saver, `snapshot)
      {
        SomeStep(steps);
        var i :| i in steps;
        ghost var done := old(savedStepCkpt) - steps;
        assert (set x | x in old(savedStepCkpt) - (steps - {i}) && x <= latest)
            == (set x | x in done && x <= latest) + (if i <= latest then {i} else {});
        steps := steps - {i};
        if i <= latest {
          if i in stepFiles {
            stepFiles := stepFiles - {i};
          }
          savedStepCkpt := savedStepCkpt - {i};
        }
      }
      assert old(savedStepCkpt) - steps == old(savedStepCkpt);
      actor := Idle;
    }

    method TryLoad() returns (loaded: bool)
      modifies this
      ensures View() == Apply(batchSize, old(View()), Op.TryLoad)
      ensures loaded == (old(Free()) && Recoverable(old(View())).Some?)
    {
      if !Free() {
        return false;
      }
      if iteration in stepFiles {
        indexPromptTokens := stepFiles[iteration].tokens;
        isRolloutFinishedStep := true;
        return true;
      }
      isRolloutFinishedStep := false;
      if snapshot.Some? && snapshot.value.step == iteration {
        indexPromptTokens := snapshot.value.tokens;
        return true;
      }
      return false;
    }

    /** Takes no lock: it can run inside a save. */
    method UpdateIter(step: int)
      modifies this
      ensures View() == Apply(batchSize, old(View()), Op.UpdateIter(step))
    {
      if actor.Idle? {
        iteration := step;
      }
    }

    /** One turn of the saving loop looks at the flag before it takes the lock. */
    method SaveCheck()
      modifies this
      ensures View() == Apply(batchSize, old(View()), Op.SaveCheck)
    {
      if saver.Resting? && !isRolloutFinishedStep {
        saver := Ready;
      }
    }

    /** The locked section, up to replacing the snapshot. */
    method SaveBegin()
      modifies this
      ensures View() == Apply(batchSize, old(View()), Op.SaveBegin)
    {
      if saver.Ready? {
        snapshot := Some(Snapshot(iteration, indexPromptTokens));
        saver := Snapped;
      }
    }

    method SaveCount()
      modifies this
      ensures View() == Apply(batchSize, old(View()), Op.SaveCount)
    {
      if saver.Snapped? {
        var finished := CountFinished(indexPromptTokens);
        saver := Counted(finished);
      }
    }

    /** The rest of a save: file the snapshot if every request is there and finished. */
    method SaveEnd()
      modifies this
      ensures View() == Apply(batchSize, old(View()), Op.SaveEnd)
    {
      if !saver.Counted? || snapshot.None? {
        return;
      }
      if AllFinished(indexPromptTokens) && saver.count == batchSize {
        stepFiles := stepFiles[iteration := snapshot.value];
        savedStepCkpt := savedStepCkpt + {iteration};
      }
      saver := Resting;
    }
  }
}
