/** The token journal as a state machine: tokens in memory, a periodic snapshot, one file per
    finished step, and the two threads that touch them. A step that has to wait leaves the
    state as it is, so every sequence of steps is an interleaving. */
module Journal {
  import opened Wrappers

  type Gid = string

  /** What is known of one request. */
  datatype Entry = Entry(ids: seq<int>, finished: bool, other: map<string, int>)

  /** An increment for one request: `new_token_ids` is appended, everything else overwrites. */
  datatype Increment = Increment(ids: seq<int>, finished: Option<bool>, other: map<string, int>)

  type Tokens = map<Gid, Entry>

  datatype Snapshot = Snapshot(step: int, tokens: Tokens)

  /** Where the actor's method is: between calls, in `clear` past its check, or past emptying the
      memory. */
  datatype Actor = Idle | Clearing(latest: int) | Emptied(latest: int)

  /** Where the saving thread is: sleeping, about to take the lock, or in the locked section past
      the snapshot, and then past the count. */
  datatype Saver = Resting | Ready | Snapped | Counted(count: nat)

  datatype State = State(
    // memory
    iteration: int,
    tokens: Tokens,
    savedSteps: set<int>,
    rolloutFinished: bool,
    actor: Actor,
    saver: Saver,
    // disk
    snapshot: Option<Snapshot>,
    stepFiles: map<int, Snapshot>)

  datatype Op =
    | Update(gid: Gid, inc: Increment)
    | SetEntry(gid: Gid, entry: Entry)
    | ClearCheck(latest: int)
    | ClearMemory
    | ClearFiles
    | UpdateIter(step: int)
    | TryLoad
    | SaveCheck
    | SaveBegin
    | SaveCount
    | SaveEnd
    | Crash

  const EMPTY := Entry([], false, map[])

  function AddTo(e: Entry, inc: Increment): Entry {
    Entry(e.ids + inc.ids, if inc.finished.Some? then inc.finished.value else e.finished, e.other + inc.other)
  }

  function UpdateOne(tokens: Tokens, gid: Gid, inc: Increment): Tokens {
    tokens[gid := AddTo(if gid in tokens then tokens[gid] else EMPTY, inc)]
  }

  predicate AllFinished(tokens: Tokens) {
    forall g :: g in tokens ==> tokens[g].finished
  }

  function NumFinished(tokens: Tokens): nat {
    |set g | g in tokens && tokens[g].finished|
  }

  /** The lock is held only inside the saving section. */
  predicate LockFree(s: State) {
    s.saver.Resting? || s.saver.Ready?
  }

  predicate CanClear(s: State) {
    s.tokens == map[] || (AllFinished(s.tokens) && s.iteration in s.stepFiles)
  }

  /** What `try_load` would install for the current step. */
  function Recoverable(s: State): Option<Tokens> {
    if s.iteration in s.stepFiles then Some(s.stepFiles[s.iteration].tokens)
    else if s.snapshot.Some? && s.snapshot.value.step == s.iteration then Some(s.snapshot.value.tokens)
    else None
  }

  function Load(s: State): State {
    s.(rolloutFinished := s.iteration in s.stepFiles,
       tokens := if Recoverable(s).Some? then Recoverable(s).value else s.tokens)
  }

  function ExpireFiles(s: State, latest: int): State {
    var expired := set i | i in s.savedSteps && i <= latest;
    s.(actor := Idle, savedSteps := s.savedSteps - expired, stepFiles := s.stepFiles - expired)
  }

  function BeginSave(s: State): State {
    s.(snapshot := Some(Snapshot(s.iteration, s.tokens)), saver := Snapped)
  }

  function EndSave(batchSize: nat, s: State): State
    requires s.saver.Counted? && s.snapshot.Some?
  {
    var s1 := s.(saver := Resting);
    if AllFinished(s.tokens) && s.saver.count == batchSize then
      s1.(stepFiles := s.stepFiles[s.iteration := s.snapshot.value], savedSteps := s.savedSteps + {s.iteration})
    else s1
  }

  /** A fresh process over the same disk. */
  function Restart(s: State): State {
    State(0, map[], {}, false, Idle, Resting, s.snapshot, s.stepFiles)
  }

  function Apply(batchSize: nat, s: State, op: Op): State {
    match op
    case Update(gid, inc) =>
      if s.actor.Idle? && LockFree(s) then s.(tokens := UpdateOne(s.tokens, gid, inc)) else s
    case SetEntry(gid, entry) =>
      if s.actor.Idle? && LockFree(s) then s.(tokens := s.tokens[gid := entry]) else s
    case ClearCheck(latest) =>
      if s.actor.Idle? && LockFree(s) && CanClear(s) then s.(actor := Clearing(latest)) else s
    case ClearMemory => if s.actor.Clearing? then s.(tokens := map[], actor := Emptied(s.actor.latest)) else s
    case ClearFiles => if s.actor.Emptied? then ExpireFiles(s, s.actor.latest) else s
    case UpdateIter(step) => if s.actor.Idle? then s.(iteration := step) else s
    case TryLoad => if s.actor.Idle? && LockFree(s) then Load(s) else s
    case SaveCheck => if s.saver.Resting? && !s.rolloutFinished then s.(saver := Ready) else s
    case SaveBegin => if s.saver.Ready? then BeginSave(s) else s
    case SaveCount => if s.saver.Snapped? then s.(saver := Counted(NumFinished(s.tokens))) else s
    case SaveEnd => if s.saver.Counted? && s.snapshot.Some? then EndSave(batchSize, s) else s
    case Crash => Restart(s)
  }

  /** What an outside observer remembers: steps cleared while they held tokens, and the
      checkpoint steps the clears were told about. */
  datatype History = History(cleared: set<int>, checkpoints: set<int>)

  function Observe(h: History, s: State, op: Op): History {
    if op.ClearMemory? && s.actor.Clearing? && s.tokens != map[] then h.(cleared := h.cleared + {s.iteration})
    else if op.ClearFiles? && s.actor.Emptied? then h.(checkpoints := h.checkpoints + {s.actor.latest})
    else h
  }

  function Run(batchSize: nat, s: State, h: History, ops: seq<Op>): (State, History) {
    if ops == [] then (s, h)
    else
      var (s1, h1) := Run(batchSize, s, h, ops[..|ops| - 1]);
      (Apply(batchSize, s1, ops[|ops| - 1]), Observe(h1, s1, ops[|ops| - 1]))
  }

  const NOTHING := History({}, {})
}
