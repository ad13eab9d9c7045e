/** A reference account of a rollout: for every number of whole turns, which operations the session
    has seen, where the trajectory was reset, and whether the loop goes on. */
module RolloutCourse {
  import opened Wrappers
  import opened Session
  import opened SearchAgentSessions
  import opened Trajectory
  import Ctx = Context
  import Slices
  import Text

  const FINALIZE := "finalize_ranking"

  datatype Limits = Limits(
    responseLength: nat,
    maxAssistantTurns: nat,
    maxUserTurns: nat,
    maxParallelCalls: nat,
    maxCompressions: nat)

  /** Everything a rollout is given. */
  datatype Setup = Setup(env: Env, cfg: Config, lim: Limits, prompt: seq<Ctx.Message>, promptIds: seq<int>)

  // ---- The calls of a turn as operations ----------------------------------------------------------

  function OpsOf(calls: seq<ToolCall>): seq<Op> {
    if calls == [] then []
    else
      var rest := OpsOf(calls[..|calls| - 1]);
      match OpOf(calls[|calls| - 1])
      case Some(op) => rest + [op]
      case None => rest
  }

  lemma {:induction false} OpsOfFacts(calls: seq<ToolCall>)
    ensures |OpsOf(calls)| <= |calls|
    ensures forall op :: op in OpsOf(calls) ==> !op.OpenRound?
    ensures (exists op :: op in OpsOf(calls) && op.Finalize?) ==> exists c :: c in calls && NameOf(c) == FINALIZE
  {
    if calls != [] {
      OpsOfFacts(calls[..|calls| - 1]);
      if exists op :: op in OpsOf(calls) && op.Finalize? {
        var op :| op in OpsOf(calls) && op.Finalize?;
        if op in OpsOf(calls[..|calls| - 1]) {
          var c :| c in calls[..|calls| - 1] && NameOf(c) == FINALIZE;
        } else {
          assert NameOf(calls[|calls| - 1]) == FINALIZE;
        }
      }
    }
  }

  /** The operation that a call asks the session for: its own arguments, the query without the
      whitespace around it. */
  ghost predicate Asks(call: ToolCall, op: Op) {
    match call
    case Malformed(_) => false
    case SearchCorpus(query, raw) => op.Search? && op.raw == raw && Text.Trimmed(query, op.query)
    case SaveAndAdvance(p) => op == Save(p)
    case FinalizeRanking(ranking) => op == Finalize(ranking)
  }

  /** A call that never reaches the session: malformed, or a search for nothing but whitespace. */
  predicate Idle(call: ToolCall) {
    call.Malformed? || (call.SearchCorpus? && Text.Blank(call.query))
  }

  lemma OpOfCall(call: ToolCall)
    ensures OpOf(call).None? <==> Idle(call)
    ensures OpOf(call).Some? ==> Asks(call, OpOf(call).value)
  {
    if call.SearchCorpus? {
      Text.StripTrims(call.query);
    }
  }

  /** `ops` are, in order, what the calls at the places `at` ask for; the others ask for nothing. */
  ghost predicate Matches(calls: seq<ToolCall>, ops: seq<Op>, at: seq<nat>) {
    && |at| == |ops|
    && (forall k :: 0 <= k < |at| ==> at[k] < |calls| && Asks(calls[at[k]], ops[k]))
    && (forall k, l :: 0 <= k < l < |at| ==> at[k] < at[l])
    && (forall i: nat :: i < |calls| ==> (i in at <==> !Idle(calls[i])))
  }

  lemma OneMoreCall(calls: seq<ToolCall>, ops: seq<Op>, at: seq<nat>, call: ToolCall)
    requires Matches(calls, ops, at)
    ensures Idle(call) ==> Matches(calls + [call], ops, at)
    ensures forall op :: Asks(call, op) && !Idle(call) ==> Matches(calls + [call], ops + [op], at + [|calls|])
  {
    hide Asks, Idle;
  }

  /** Calls become operations one for one and in order, those that never reach the session aside. */
  lemma {:induction false} OpsAreCalls(calls: seq<ToolCall>) returns (at: seq<nat>)
    ensures Matches(calls, OpsOf(calls), at)
  {
    at := [];
    if calls != [] {
      var n := |calls| - 1;
      at := OpsAreCalls(calls[..n]);
      OpOfCall(calls[n]);
      OneMoreCall(calls[..n], OpsOf(calls[..n]), at, calls[n]);
      assert calls[..n] + [calls[n]] == calls;
      hide Asks, Idle, OpOf, Matches;
      if OpOf(calls[n]).Some? {
        at := at + [n];
      }
    }
  }

  // ---- Turn by turn ------------------------------------------------------------------------------

  /** A reset of the trajectory after `at` whole turns, with the handoff text it produced. */
  datatype Reset = Reset(handoff: string, at: nat)

  datatype Course = Course(ops: seq<Op>, resets: seq<Reset>)

  function SessionOf(w: Setup, c: Course): State {
    Run(w.cfg, INITIAL, c.ops).0
  }

  /** Of the calls of a turn only the first `maxParallelCalls` are executed. */
  function WithTools(w: Setup, c: Course, n: nat): Course {
    c.(ops := c.ops + OpsOf(Slices.Take(w.env.turns(n).calls, w.lim.maxParallelCalls)))
  }

  /** After the tools of a turn the trajectory is reset for a pending save, within the limit. */
  predicate Resets(w: Setup, c: Course) {
    |c.resets| < w.lim.maxCompressions && SessionOf(w, c).pending
  }

  /** The handoff is rendered from the session as the tools left it; then a round is asked for. */
  function WithReset(w: Setup, c: Course, n: nat): Course {
    Course(c.ops + [OpenRound], c.resets + [Reset(w.env.render(SessionOf(w, c)), n)])
  }

  /** Where a rollout stands after `n` whole turns, if it has not ended before. */
  function After(w: Setup, n: nat): Course {
    if n == 0 then Course([OpenRound], [])
    else
      var c := WithTools(w, After(w, n - 1), n - 1);
      if Resets(w, c) then WithReset(w, c, n) else c
  }

  /** One turn of the course: its operations are what its first calls ask for, and a reset follows
      exactly when they leave a save pending within the limit, handing over the session as they
      left it. */
  lemma CourseStep(w: Setup, n: nat) returns (at: seq<nat>, done: seq<Op>)
    ensures Matches(Slices.Take(w.env.turns(n).calls, w.lim.maxParallelCalls), done, at)
    ensures WithTools(w, After(w, n), n) == After(w, n).(ops := After(w, n).ops + done)
    ensures var s := Run(w.cfg, INITIAL, After(w, n).ops + done).0;
      After(w, n + 1) ==
        if s.pending && |After(w, n).resets| < w.lim.maxCompressions then
          Course(After(w, n).ops + done + [OpenRound], After(w, n).resets + [Reset(w.env.render(s), n + 1)])
        else After(w, n).(ops := After(w, n).ops + done)
  {
    at := OpsAreCalls(Slices.Take(w.env.turns(n).calls, w.lim.maxParallelCalls));
    done := OpsOf(Slices.Take(w.env.turns(n).calls, w.lim.maxParallelCalls));
    hide Matches, Run, OpsOf, Slices.Take;
  }

  // ---- The segments ------------------------------------------------------------------------------

  function HandoffMessages(resets: seq<Reset>): (r: seq<Ctx.Message>)
    ensures |r| == |resets|
  {
    seq(|resets|, i requires 0 <= i < |resets| => Ctx.Message(Ctx.User, resets[i].handoff))
  }

  /** The k-th segment: the first begins with the prompt's own messages, every other with the
      encoding of the handoff before it, the messages kept from the prompt and all handoffs. */
  function SegmentAt(w: Setup, resets: seq<Reset>, k: nat, to: nat, mid: bool): Segment
    requires k <= |resets|
  {
    if k == 0 then Segment([], w.prompt, 0, to, mid)
    else
      Segment(w.env.encode(resets[k - 1].handoff), Ctx.Preserved(w.prompt) + HandoffMessages(resets[..k]),
              resets[k - 1].at, to, mid)
  }

  /** The segment that is still growing, after `n` whole turns and, if `mid`, one more generation. */
  function Current(w: Setup, c: Course, n: nat, mid: bool): Segment {
    SegmentAt(w, c.resets, |c.resets|, n, mid)
  }

  /** What the k-th output is made of: each segment up to its reset, the last one up to the end. */
  function OutputSegment(w: Setup, c: Course, k: nat, n: nat, mid: bool): Segment
    requires k <= |c.resets|
  {
    if k < |c.resets| then SegmentAt(w, c.resets, k, c.resets[k].at, false) else Current(w, c, n, mid)
  }

  /** The length of the trajectory after the initial prompt. */
  function Length(w: Setup, c: Course, n: nat, mid: bool): nat {
    |Tokens(w.env, Current(w, c, n, mid))|
  }

  // ---- When it ends ------------------------------------------------------------------------------

  /** The loop ends with the generation of turn `n`: no room is left, one of the limits on turns is
      reached, or the generation calls no tool. */
  predicate StopsSpeaking(w: Setup, c: Course, n: nat) {
    || Length(w, c, n, true) >= w.lim.responseLength
    || (w.lim.maxAssistantTurns > 0 && n + 1 >= w.lim.maxAssistantTurns)
    || (w.lim.maxUserTurns > 0 && n >= w.lim.maxUserTurns)
    || w.env.turns(n).calls == []
  }

  /** Some call of the turn, executed or not, names the final tool. */
  predicate Finalizes(turn: Turn) {
    exists call :: call in turn.calls && NameOf(call) == FINALIZE
  }

  /** It ends with the tool replies of turn `n`: the turn asked for the final ranking, or no room
      is left. */
  predicate StopsAfterTools(w: Setup, c: Course, n: nat) {
    Finalizes(w.env.turns(n)) || Length(w, c, n + 1, false) >= w.lim.responseLength
  }

  /** It ends with a reset after turn `n` that no round can follow. */
  predicate StopsRefused(w: Setup, c: Course, n: nat) {
    Resets(w, WithTools(w, c, n)) && !CanStartRound(w.cfg, SessionOf(w, WithTools(w, c, n)))
  }

  predicate GoesOn(w: Setup, n: nat) {
    var c := After(w, n);
    !StopsSpeaking(w, c, n) && !StopsAfterTools(w, c, n) && !StopsRefused(w, c, n)
  }

  /** The rollout ended in turn `n`, the first that gives a reason, and this is its course. */
  ghost predicate EndsAt(w: Setup, n: nat, c: Course, mid: bool, refused: bool) {
    && (forall m: nat :: m < n ==> GoesOn(w, m))
    && (if mid then StopsSpeaking(w, After(w, n), n) && c == After(w, n) && !refused
        else
          && !StopsSpeaking(w, After(w, n), n)
          && (refused <==> !StopsAfterTools(w, After(w, n), n))
          && (if refused then StopsRefused(w, After(w, n), n) && c == After(w, n + 1)
              else c == WithTools(w, After(w, n), n)))
  }
}
