/** The rollout loop: generate, run tools, compress on a committed save, until a
    final answer, an exhausted budget, or a round that cannot open. */
module SearchAgentLoop {
  import opened Wrappers
  import opened Session
  import opened SessionProofs
  import opened SearchAgentSessions
  import opened SessionTheorems
  import opened Trajectory
  import opened RolloutCourse
  import Ctx = Context
  import Slices

  // ---- Tool calls of one turn ---------------------------------------------------------

  method ExecuteCalls(session: SearchAgentSession, calls: seq<ToolCall>) returns (ops: seq<Op>)
    modifies session
    ensures ops == OpsOf(calls)
    ensures session.View() == Run(session.cfg, old(session.View()), ops).0
  {
    ops := [];
    for k := 0 to |calls|
      invariant ops == OpsOf(calls[..k])
      invariant session.View() == Run(session.cfg, old(session.View()), ops).0
    {
      assert calls[..k + 1][..k] == calls[..k];
      var reply := Execute(session, calls[k]);
      if reply.Some? {
        ghost var before := ops;
        ops := ops + [OpOf(calls[k]).value];
        assert ops[..|ops| - 1] == before;
      }
    }
    assert calls[..|calls|] == calls;
  }

  lemma {:induction false} RunConcat(cfg: Config, s: State, a: seq<Op>, b: seq<Op>)
    ensures Run(cfg, s, a + b).0 == Run(cfg, Run(cfg, s, a).0, b).0
  {
    if b == [] {
      assert a + b == a;
    } else {
      assert (a + b)[..|a + b| - 1] == a + b[..|b| - 1];
      RunConcat(cfg, s, a, b[..|b| - 1]);
    }
  }

  /** Within a turn the round never changes, and only an accepted ranking finalizes. */
  lemma {:induction false} TurnKeepsRound(cfg: Config, s: State, ops: seq<Op>)
    requires forall op :: op in ops ==> !op.OpenRound?
    ensures var s1 := Run(cfg, s, ops).0;
      && s1.round == s.round
      && (s.pending ==> s1.pending)
      && ((forall op :: op in ops ==> !op.Finalize?) ==> s1.finalized == s.finalized)
  {
    if ops != [] {
      var pre, op := ops[..|ops| - 1], ops[|ops| - 1];
      TurnKeepsRound(cfg, s, pre);
      if op.Search? {
        SurfaceFacts(ChargeQuery(Run(cfg, s, pre).0, op.query), op.raw);
      }
    }
  }

  /** With at most one operation in the turn, a new pending save leaves no locked turn. */
  lemma OneCallPending(cfg: Config, s: State, ops: seq<Op>)
    requires |ops| <= 1 && !s.pending && Run(cfg, s, ops).0.pending
    ensures Run(cfg, s, ops).0.lockedTurns == 0
  {
    if |ops| == 1 {
      assert ops[..0] == [];
      if ops[0].Search? {
        SurfaceFacts(ChargeQuery(s, ops[0].query), ops[0].raw);
      }
    }
  }

  // ---- The loop -------------------------------------------------------------------------

  predicate ShouldTerminate(lim: Limits, c: Ctx.Context, assistantTurns: nat, toolTurns: nat) {
    || |c.mask| >= lim.responseLength
    || (lim.maxAssistantTurns != 0 && assistantTurns >= lim.maxAssistantTurns)
    || (lim.maxUserTurns != 0 && toolTurns >= lim.maxUserTurns)
  }

  /** 1 when the first `start_round` succeeds, 0 when the configuration rules every round out. */
  function FirstRound(cfg: Config): nat {
    if CanStartRound(cfg, INITIAL) then 1 else 0
  }

  /** The relation of session and loop counters at every loop head. */
  ghost predicate InStep(cfg: Config, lim: Limits, s: State, compressions: nat) {
    && s.round == compressions + FirstRound(cfg)
    && (compressions > 0 ==> s.round <= cfg.maxRounds && FirstRound(cfg) == 1)
    && compressions <= lim.maxCompressions
    && !s.finalized
    && (s.pending ==> compressions == lim.maxCompressions)
  }

  /** The tool half of a turn: run the calls on the session, then append their replies. */
  method ToolTurn(session: SearchAgentSession, lim: Limits, turn: Turn, c: Ctx.Context)
    returns (done: seq<Op>, c1: Ctx.Context)
    modifies session
    ensures done == OpsOf(Slices.Take(turn.calls, lim.maxParallelCalls))
    ensures |done| <= lim.maxParallelCalls && forall op :: op in done ==> !op.OpenRound?
    ensures session.View() == Run(session.cfg, old(session.View()), done).0
    ensures session.View().round == old(session.View()).round
    ensures old(session.View()).pending ==> session.View().pending
    ensures session.View().finalized && !old(session.View()).finalized ==> Finalizes(turn)
    ensures c1 == Ctx.AppendReplies(c, turn.replyTexts, turn.replyTokens, session.View())
  {
    var executed := Slices.Take(turn.calls, lim.maxParallelCalls);
    ghost var before := session.View();
    done := ExecuteCalls(session, executed);
    OpsOfFacts(executed);
    TurnKeepsRound(session.cfg, before, done);
    c1 := Ctx.AppendReplies(c, turn.replyTexts, turn.replyTokens, session.View());
  }

  lemma RunOneMore(cfg: Config, ops: seq<Op>, op: Op)
    ensures Run(cfg, INITIAL, ops + [op]).0 == Apply(cfg, Run(cfg, INITIAL, ops).0, op).0
  {
  }

  /** A save can only be pending before the last round. */
  lemma PendingNotLast(cfg: Config, ops: seq<Op>)
    ensures var s := Run(cfg, INITIAL, ops).0;
      s.pending ==> s.round < cfg.maxRounds
  {
    RunKeeps(cfg, ops);
  }

  /** After a reset the next round opens unless too many locked turns followed the save. */
  lemma NextRound(cfg: Config, lim: Limits, before: State, s: State, compressions: nat)
    requires InStep(cfg, lim, before, compressions) && compressions < lim.maxCompressions
    requires s.round == before.round < cfg.maxRounds && !s.finalized
    ensures !CanStartRound(cfg, s) ==> Terminated(cfg, s)
    ensures CanStartRound(cfg, s) ==> InStep(cfg, lim, StartRound(cfg, s), compressions + 1)
    ensures s.lockedTurns == 0 && FirstRound(cfg) == 1 ==> CanStartRound(cfg, s)
  {
  }

  /** A turn that leaves a save pending ends before the last round, and a turn of one executed
      call leaves no locked turn behind. */
  lemma PendingTurn(cfg: Config, ops: seq<Op>, done: seq<Op>, before: State, s: State)
    requires before == Run(cfg, INITIAL, ops).0 && s == Run(cfg, before, done).0
    requires s.pending
    ensures s.round < cfg.maxRounds
    ensures |done| <= 1 && !before.pending ==> s.lockedTurns == 0
  {
    RunConcat(cfg, INITIAL, ops, done);
    PendingNotLast(cfg, ops + done);
    if |done| <= 1 && !before.pending {
      OneCallPending(cfg, before, done);
    }
  }

  // ---- The loop's own variables -----------------------------------------------------------

  /** The outputs so far, the context, and the course of the rollout after `turns` whole turns;
      `mid` says that one more generation has been made. */
  datatype Progress = Progress(
    outputs: seq<Ctx.Output>, context: Ctx.Context, course: Course, turns: nat, mid: bool)

  ghost predicate GoodOutputs(w: Setup, p: Progress) {
    && |p.outputs| <= |p.course.resets| + 1
    && forall k :: 0 <= k < |p.outputs| ==>
         GoodOutput(p.outputs[k], w.env, w.promptIds, w.lim.responseLength,
                    OutputSegment(w, p.course, k, p.turns, p.mid))
  }

  /** What the variables say about the run so far; `s` is the session's state. */
  ghost predicate Recorded(w: Setup, s: State, p: Progress) {
    && s == SessionOf(w, p.course)
    && Placed(p.context, w.env, w.promptIds, Current(w, p.course, p.turns, p.mid))
    && GoodOutputs(w, p) && |p.outputs| == |p.course.resets|
  }

  /** The same with the last segment put out as well. */
  ghost predicate Finished(w: Setup, s: State, p: Progress) {
    && s == SessionOf(w, p.course)
    && GoodOutputs(w, p) && |p.outputs| == |p.course.resets| + 1
  }

  function Emit(w: Setup, p: Progress): Progress {
    p.(outputs := p.outputs + [Ctx.BuildOutput(p.context, w.lim.responseLength)])
  }

  /** The model's part of a turn. */
  function Speak(w: Setup, p: Progress): Progress {
    p.(context := Ctx.Generate(p.context, w.env.turns(p.turns).gen), mid := true)
  }

  /** The tools' part. */
  function Answer(w: Setup, p: Progress, s1: State, done: seq<Op>): Progress {
    var turn := w.env.turns(p.turns);
    p.(context := Ctx.AppendReplies(p.context, turn.replyTexts, turn.replyTokens, s1),
       course := p.course.(ops := p.course.ops + done), turns := p.turns + 1, mid := false)
  }

  /** Emit the segment, reset the context, and record that a round is to be opened. */
  function Renew(w: Setup, p: Progress): Progress {
    var text := w.env.render(p.context.snapshot);
    Emit(w, p).(
      context := Ctx.Compress(p.context, text, w.env.encode(text)),
      course := Course(p.course.ops + [OpenRound], p.course.resets + [Reset(text, p.turns)]))
  }

  lemma SameSegments(w: Setup, c: Course, c1: Course, k: nat, n: nat, mid: bool, n1: nat, mid1: bool)
    requires k < |c.resets| && c.resets <= c1.resets
    ensures OutputSegment(w, c, k, n, mid) == OutputSegment(w, c1, k, n1, mid1)
  {
    assert c.resets[..k] == c1.resets[..k];
  }

  lemma OutputsStay(w: Setup, p: Progress, p1: Progress)
    requires GoodOutputs(w, p) && p1.outputs == p.outputs && |p.outputs| == |p.course.resets|
    requires p1.course.resets == p.course.resets
    ensures GoodOutputs(w, p1)
  {
    hide GoodOutput, OutputSegment;
    forall k | 0 <= k < |p.outputs|
      ensures OutputSegment(w, p1.course, k, p1.turns, p1.mid) == OutputSegment(w, p.course, k, p.turns, p.mid)
    {
      SameSegments(w, p.course, p1.course, k, p.turns, p.mid, p1.turns, p1.mid);
    }
  }

  lemma RecordedSpeak(w: Setup, s: State, p: Progress)
    requires Recorded(w, s, p) && !p.mid && WellFormedEnv(w.env)
    ensures Recorded(w, s, Speak(w, p))
    ensures Ctx.Message(Ctx.Assistant, w.env.turns(p.turns).gen.text) in Speak(w, p).context.messages
    ensures |Speak(w, p).context.mask| > |p.context.mask|
  {
    PlacedGenerate(p.context, w.env, w.promptIds, Current(w, p.course, p.turns, false));
    OutputsStay(w, p, Speak(w, p));
    hide Placed, GoodOutputs, SessionOf;
  }

  lemma RecordedAnswer(w: Setup, s: State, p: Progress, s1: State, done: seq<Op>)
    requires Recorded(w, s, p) && p.mid && s1 == Run(w.cfg, s, done).0
    ensures Recorded(w, s1, Answer(w, p, s1, done))
  {
    PlacedReplies(p.context, w.env, w.promptIds, Current(w, p.course, p.turns, true), s1);
    RunConcat(w.cfg, INITIAL, p.course.ops, done);
    OutputsStay(w, p, Answer(w, p, s1, done));
    hide Placed, GoodOutputs, Run;
  }

  lemma RecordedEmit(w: Setup, s: State, p: Progress)
    requires Recorded(w, s, p) && (p.mid || Current(w, p.course, p.turns, false).from < p.turns)
    ensures Finished(w, s, Emit(w, p))
  {
    PlacedOutput(p.context, w.env, w.promptIds, Current(w, p.course, p.turns, p.mid), w.lim.responseLength);
    hide Placed, GoodOutput, SessionOf, Current;
  }

  lemma RecordedRenew(w: Setup, s: State, p: Progress)
    requires Recorded(w, s, p) && !p.mid && Current(w, p.course, p.turns, false).from < p.turns
    requires p.context.mask != []
    ensures Recorded(w, StartRound(w.cfg, s), Renew(w, p))
  {
    RecordedEmit(w, s, p);
    RenewPlaced(w, p);
    RenewOutputs(w, p);
    RunOneMore(w.cfg, p.course.ops, OpenRound);
    hide Placed, GoodOutputs, Run, Current, Ctx.Compress, StartRound, Ctx.BuildOutput;
  }

  lemma RenewPlaced(w: Setup, p: Progress)
    requires Placed(p.context, w.env, w.promptIds, Current(w, p.course, p.turns, false)) && p.context.mask != []
    ensures Placed(Renew(w, p).context, w.env, w.promptIds, Current(w, Renew(w, p).course, p.turns, false))
  {
    var text := w.env.render(p.context.snapshot);
    PlacedCompress(p.context, w.env, w.promptIds, Current(w, p.course, p.turns, false), text, w.env.encode(text));
    NextBase(w, p.course.resets, p.turns, Reset(text, p.turns));
    hide Placed, SegmentAt, Ctx.Compress, Ctx.Preserved;
  }

  /** The messages kept by a reset are those kept from the prompt and all handoffs. */
  lemma NextBase(w: Setup, resets: seq<Reset>, n: nat, reset: Reset)
    ensures SegmentAt(w, resets + [reset], |resets| + 1, n, false)
      == Segment(w.env.encode(reset.handoff),
                 Ctx.Preserved(SegmentAt(w, resets, |resets|, n, false).base) + [Ctx.Message(Ctx.User, reset.handoff)],
                 reset.at, n, false)
  {
    var all := resets + [reset];
    assert all[..|all|] == all && resets[..|resets|] == resets;
    assert HandoffMessages(all) == HandoffMessages(resets) + [Ctx.Message(Ctx.User, reset.handoff)];
    if resets != [] {
      var base := Ctx.Preserved(w.prompt) + HandoffMessages(resets);
      Ctx.PreservedIsPrefix(w.prompt);
      Ctx.PreservedWhole(base);
      assert Ctx.Preserved(w.prompt) + HandoffMessages(all) == base + [Ctx.Message(Ctx.User, reset.handoff)];
    } else {
      assert HandoffMessages(all) == [Ctx.Message(Ctx.User, reset.handoff)];
    }
  }

  /** The segment just put out is the last one before the reset. */
  lemma RenewOutputs(w: Setup, p: Progress)
    requires GoodOutputs(w, Emit(w, p)) && |p.outputs| == |p.course.resets| && !p.mid
    ensures GoodOutputs(w, Renew(w, p))
  {
    var e, r := Emit(w, p), Renew(w, p);
    forall k | 0 <= k < |e.outputs|
      ensures OutputSegment(w, r.course, k, r.turns, r.mid) == OutputSegment(w, e.course, k, e.turns, e.mid)
    {
      assert r.course.resets[..k] == e.course.resets[..k];
    }
    hide GoodOutput, OutputSegment, Ctx.BuildOutput, Ctx.Compress;
  }

  // ---- Refused rounds -----------------------------------------------------------------------

  /** The run ends asking for a round after a reset, with too many searches refused for the
      lock since the last search that went through or the last save. */
  ghost predicate RefusedAtEnd(cfg: Config, c: Course) {
    && c.resets != [] && c.ops != [] && c.ops[|c.ops| - 1].OpenRound?
    && LockedSince(0, Run(cfg, INITIAL, c.ops[..|c.ops| - 1]).1) >= cfg.maxConsecutiveLocked
  }

  /** Operations of a turn never end a run by asking for a round. */
  lemma TurnNotRefused(cfg: Config, c: Course, done: seq<Op>)
    requires !RefusedAtEnd(cfg, c) && forall op :: op in done ==> !op.OpenRound?
    ensures !RefusedAtEnd(cfg, c.(ops := c.ops + done))
  {
    hide Run, LockedSince;
    var ops := c.ops + done;
    if done != [] {
      assert ops[|ops| - 1] == done[|done| - 1];
    } else {
      assert ops == c.ops;
    }
  }

  /** A round asked for after a reset is refused exactly to a session with too many locked
      turns, when nothing else stands in the way. */
  lemma RefusedExactly(w: Setup, c: Course, n: nat)
    requires !SessionOf(w, c).finalized && SessionOf(w, c).round < w.cfg.maxRounds
    ensures RefusedAtEnd(w.cfg, WithReset(w, c, n)) <==> !CanStartRound(w.cfg, SessionOf(w, c))
  {
    LockedTurnsAre(w.cfg, INITIAL, c.ops);
    hide Run, LockedSince;
    assert WithReset(w, c, n).ops[..|c.ops|] == c.ops;
  }

  // ---- One turn --------------------------------------------------------------------------------

  /** The context has room for a reset: the model has spoken in the current segment. */
  ghost predicate HasSpoken(w: Setup, p: Progress) {
    && Current(w, p.course, p.turns, p.mid).from < p.turns + (if p.mid then 1 else 0)
    && p.context.mask != [] && exists m :: m in p.context.messages && m.role.Assistant?
  }

  /** The last step of a turn: on a pending save, emit the segment, reset, open the next round. */
  method MaybeReset(live: SearchAgentSession, w: Setup, p: Progress) returns (p1: Progress, refused: bool)
    requires live.cfg == w.cfg && Recorded(w, live.View(), p) && !p.mid && HasSpoken(w, p)
    requires p.context.snapshot == live.View()
    modifies live
    ensures Recorded(w, live.View(), p1) && p1.turns == p.turns && !p1.mid
    ensures if old(live.View()).pending then
        && live.View() == StartRound(live.cfg, old(live.View()))
        && refused == !CanStartRound(live.cfg, old(live.View()))
        && p1.course == WithReset(w, p.course, p.turns)
      else
        live.View() == old(live.View()) && !refused && p1 == p
  {
    hide GoodOutputs, Run, Placed, Ctx.Compress;
    p1, refused := p, false;
    var text := w.env.render(p.context.snapshot);
    Ctx.PendingCompresses(p.context, text, w.env.encode(text));
    if Ctx.CheckAndCompress(p.context, text, w.env.encode(text)).1 {
      RecordedRenew(w, live.View(), p);
      p1 := Renew(w, p);
      var started := live.StartRound();
      if started {
        NewSnapshot(w, live.View(), p1, live.View());
        p1 := p1.(context := p1.context.(snapshot := live.View()));
      }
      refused := !started;
    }
  }

  lemma NewSnapshot(w: Setup, s: State, p: Progress, snapshot: State)
    requires Recorded(w, s, p)
    ensures Recorded(w, s, p.(context := p.context.(snapshot := snapshot)))
  {
    hide GoodOutput, OutputSegment, Run, Tokens, Messages, HasLogprobs;
  }

  datatype Status = Continue | Ended | Refused

  /** The bookkeeping between resets and rounds, for each way a turn can end. */
  ghost predicate Counted(w: Setup, s: State, c: Course, status: Status) {
    var k := |c.resets|;
    && k <= w.lim.maxCompressions
    && match status
       case Continue => InStep(w.cfg, w.lim, s, k) && !RefusedAtEnd(w.cfg, c)
       case Ended =>
         && s.round == k + FirstRound(w.cfg) && (k > 0 ==> s.round <= w.cfg.maxRounds && FirstRound(w.cfg) == 1)
         && !RefusedAtEnd(w.cfg, c)
       case Refused =>
         && s.round + 1 == k + FirstRound(w.cfg) && s.round < w.cfg.maxRounds
         && Terminated(w.cfg, s) && !s.finalized && RefusedAtEnd(w.cfg, c)
  }

  /** What a turn comes to: the loop goes on, or ends as the course of the rollout says. */
  ghost predicate TurnResult(w: Setup, s: State, n: nat, p: Progress, status: Status) {
    && !p.mid && p.turns == n + 1
    && match status
       case Continue => Recorded(w, s, p) && GoesOn(w, n) && p.course == After(w, n + 1)
       case Ended =>
         Finished(w, s, p) && StopsAfterTools(w, After(w, n), n) && p.course == WithTools(w, After(w, n), n)
       case Refused =>
         && Recorded(w, s, p) && !StopsAfterTools(w, After(w, n), n) && StopsRefused(w, After(w, n), n)
         && p.course == After(w, n + 1)
  }

  lemma LengthIsMask(w: Setup, s: State, p: Progress)
    requires Recorded(w, s, p)
    ensures Length(w, p.course, p.turns, p.mid) == |p.context.mask|
  {
    hide Tokens, Messages, HasLogprobs, GoodOutputs;
  }

  /** The tools of a turn leave a session that is still in step. */
  lemma ToolsInStep(w: Setup, before: State, c: Course, s: State, done: seq<Op>)
    requires before == SessionOf(w, c) && s == Run(w.cfg, before, done).0
    requires Counted(w, before, c, Continue) && s.round == before.round
    requires forall op :: op in done ==> !op.OpenRound?
    ensures Counted(w, s, c.(ops := c.ops + done), Ended)
  {
    TurnNotRefused(w.cfg, c, done);
    hide Run, RefusedAtEnd;
  }

  lemma ResetCounted(w: Setup, before: State, c0: Course, s: State, c: Course, n: nat)
    requires Counted(w, before, c0, Continue) && s == SessionOf(w, c) && c.resets == c0.resets
    requires s.round == before.round < w.cfg.maxRounds && !s.finalized && |c.resets| < w.lim.maxCompressions
    ensures CanStartRound(w.cfg, s) ==> Counted(w, StartRound(w.cfg, s), WithReset(w, c, n), Continue)
    ensures !CanStartRound(w.cfg, s) ==> Counted(w, s, WithReset(w, c, n), Refused)
    ensures s.lockedTurns == 0 && FirstRound(w.cfg) == 1 ==> CanStartRound(w.cfg, s)
  {
    RefusedExactly(w, c, n);
    NextRound(w.cfg, w.lim, before, s, |c.resets|);
    hide Run, RefusedAtEnd;
  }

  /** Before the tools of a turn run. */
  ghost predicate BeforeTools(w: Setup, s: State, p: Progress) {
    && Recorded(w, s, p) && p.mid && HasSpoken(w, p) && Counted(w, s, p.course, Continue)
    && p.course == After(w, p.turns) && !StopsSpeaking(w, p.course, p.turns)
  }

  /** After the tools of turn `n` have run. */
  ghost predicate AfterTools(w: Setup, s: State, n: nat, p: Progress) {
    && Recorded(w, s, p) && !p.mid && p.turns == n + 1 && HasSpoken(w, p)
    && p.course == WithTools(w, After(w, n), n) && Counted(w, s, p.course, Ended)
    && !StopsSpeaking(w, After(w, n), n)
    && |p.context.mask| == Length(w, After(w, n), n + 1, false) && p.context.snapshot == s
  }

  lemma ToolsDone(w: Setup, before: State, p: Progress, s: State, done: seq<Op>)
    requires BeforeTools(w, before, p) && s == Run(w.cfg, before, done).0 && s.round == before.round
    requires done == OpsOf(Slices.Take(w.env.turns(p.turns).calls, w.lim.maxParallelCalls))
    ensures AfterTools(w, s, p.turns, Answer(w, p, s, done))
    ensures |Answer(w, p, s, done).context.mask| >= |p.context.mask|
  {
    hide *;
    BeforeToolsAre(w, before, p);
    OpsOfFacts(Slices.Take(w.env.turns(p.turns).calls, w.lim.maxParallelCalls));
    RecordedAnswer(w, before, p, s, done);
    LastState(w, before, p);
    ToolsInStep(w, before, p.course, s, done);
    RepliesSpoken(w, p, s, done);
    AnswerIs(w, p, s, done);
    AnswerLength(w, s, p, Answer(w, p, s, done), done);
    AfterToolsAre(w, s, p.turns, Answer(w, p, s, done));
  }

  lemma BeforeToolsAre(w: Setup, s: State, p: Progress)
    requires BeforeTools(w, s, p)
    ensures Recorded(w, s, p) && p.mid && HasSpoken(w, p) && Counted(w, s, p.course, Continue)
    ensures p.course == After(w, p.turns) && !StopsSpeaking(w, p.course, p.turns)
  {
    hide Recorded, HasSpoken, Counted, After, StopsSpeaking;
  }

  lemma AfterToolsAre(w: Setup, s: State, n: nat, p: Progress)
    requires Recorded(w, s, p) && !p.mid && p.turns == n + 1 && HasSpoken(w, p)
    requires p.course == WithTools(w, After(w, n), n) && Counted(w, s, p.course, Ended)
    requires !StopsSpeaking(w, After(w, n), n)
    requires |p.context.mask| == Length(w, After(w, n), n + 1, false) && p.context.snapshot == s
    ensures AfterTools(w, s, n, p)
  {
    hide Recorded, HasSpoken, Counted, After, StopsSpeaking, Length, WithTools;
  }

  lemma AnswerIs(w: Setup, p: Progress, s: State, done: seq<Op>)
    requires done == OpsOf(Slices.Take(w.env.turns(p.turns).calls, w.lim.maxParallelCalls))
    ensures var p1 := Answer(w, p, s, done);
      && !p1.mid && p1.turns == p.turns + 1 && p1.context.snapshot == s
      && p1.course == WithTools(w, p.course, p.turns) == p.course.(ops := p.course.ops + done)
      && |p1.context.mask| >= |p.context.mask|
  {
    hide OpsOf, Slices.Take;
  }

  lemma AnswerLength(w: Setup, s: State, p: Progress, p1: Progress, done: seq<Op>)
    requires Recorded(w, s, p1) && p1.course == p.course.(ops := p.course.ops + done)
    requires p1.turns == p.turns + 1 && !p1.mid
    ensures |p1.context.mask| == Length(w, p.course, p.turns + 1, false)
  {
    LengthIsMask(w, s, p1);
    hide Recorded, Tokens, SegmentAt;
  }

  lemma RepliesSpoken(w: Setup, p: Progress, s: State, done: seq<Op>)
    requires p.mid && HasSpoken(w, p)
    ensures HasSpoken(w, Answer(w, p, s, done))
  {
    var turn := w.env.turns(p.turns);
    var c := Ctx.AppendReplies(p.context, turn.replyTexts, turn.replyTokens, s);
    assert c.messages[..|p.context.messages|] == p.context.messages;
    hide SegmentAt, OpsOf;
  }

  lemma EndedTurn(w: Setup, s: State, n: nat, p: Progress)
    requires AfterTools(w, s, n, p) && StopsAfterTools(w, After(w, n), n)
    ensures TurnResult(w, s, n, Emit(w, p), Ended) && Counted(w, s, Emit(w, p).course, Ended)
  {
    RecordedEmit(w, s, p);
    hide Recorded, Finished, Counted, Run, StopsAfterTools, StopsSpeaking, Length, After, Current;
  }

  lemma LastState(w: Setup, s: State, p: Progress)
    requires Recorded(w, s, p)
    ensures s == SessionOf(w, p.course)
  {
  }

  lemma QuietCourse(w: Setup, n: nat)
    requires !Resets(w, WithTools(w, After(w, n), n))
    ensures After(w, n + 1) == WithTools(w, After(w, n), n) && !StopsRefused(w, After(w, n), n)
  {
    hide WithTools, SessionOf;
  }

  lemma ResetCourse(w: Setup, n: nat)
    requires Resets(w, WithTools(w, After(w, n), n))
    ensures After(w, n + 1) == WithReset(w, WithTools(w, After(w, n), n), n + 1)
    ensures StopsRefused(w, After(w, n), n) <==> !CanStartRound(w.cfg, SessionOf(w, WithTools(w, After(w, n), n)))
  {
    hide WithTools, SessionOf, WithReset;
  }

  lemma QuietTurn(w: Setup, s: State, n: nat, p: Progress)
    requires AfterTools(w, s, n, p) && !StopsAfterTools(w, After(w, n), n) && !Resets(w, p.course)
    requires !s.finalized
    ensures TurnResult(w, s, n, p, Continue) && Counted(w, s, p.course, Continue)
  {
    LastState(w, s, p);
    QuietCourse(w, n);
    hide Recorded, StopsAfterTools, StopsSpeaking, Length, HasSpoken, RefusedAtEnd, After, WithTools, SessionOf,
      CanStartRound, FirstRound;
  }

  lemma ResetTurn(w: Setup, before: State, p0: Progress, s: State, p: Progress, p1: Progress)
    requires BeforeTools(w, before, p0) && AfterTools(w, s, p0.turns, p) && Resets(w, p.course)
    requires s.round == before.round && !s.finalized && !StopsAfterTools(w, After(w, p0.turns), p0.turns)
    requires s.pending ==> s.round < w.cfg.maxRounds
    requires p1.turns == p.turns && !p1.mid && p1.course == WithReset(w, p.course, p.turns)
    requires Recorded(w, StartRound(w.cfg, s), p1)
    ensures var status := if CanStartRound(w.cfg, s) then Continue else Refused;
      && TurnResult(w, StartRound(w.cfg, s), p0.turns, p1, status)
      && Counted(w, StartRound(w.cfg, s), p1.course, status)
    ensures s.lockedTurns == 0 && FirstRound(w.cfg) == 1 ==> CanStartRound(w.cfg, s)
  {
    hide *;
    BeforeToolsAre(w, before, p0);
    AfterToolsHold(w, s, p0.turns, p);
    LastState(w, s, p);
    ResetCourse(w, p0.turns);
    ResetsWithin(w, p.course);
    ResetCounted(w, before, p0.course, s, p.course, p.turns);
    ResetResult(w, StartRound(w.cfg, s), p0.turns, p1);
    Refusal(w.cfg, s);
  }

  lemma AfterToolsHold(w: Setup, s: State, n: nat, p: Progress)
    requires AfterTools(w, s, n, p)
    ensures Recorded(w, s, p) && !p.mid && p.turns == n + 1 && HasSpoken(w, p)
    ensures p.course == WithTools(w, After(w, n), n) && p.course.resets == After(w, n).resets
    ensures Counted(w, s, p.course, Ended) && !StopsSpeaking(w, After(w, n), n)
    ensures |p.context.mask| == Length(w, After(w, n), n + 1, false) && p.context.snapshot == s
  {
    hide Recorded, HasSpoken, Counted, After, StopsSpeaking, Length, OpsOf;
  }

  lemma ResetsWithin(w: Setup, c: Course)
    ensures Resets(w, c) <==> |c.resets| < w.lim.maxCompressions && SessionOf(w, c).pending
  {
  }

  /** A refused round leaves the session as it is. */
  lemma Refusal(cfg: Config, s: State)
    ensures !CanStartRound(cfg, s) ==> StartRound(cfg, s) == s
  {
  }

  lemma ResetResult(w: Setup, s: State, n: nat, p: Progress)
    requires Recorded(w, s, p) && !p.mid && p.turns == n + 1 && p.course == After(w, n + 1)
    requires !StopsSpeaking(w, After(w, n), n) && !StopsAfterTools(w, After(w, n), n)
    ensures TurnResult(w, s, n, p, if StopsRefused(w, After(w, n), n) then Refused else Continue)
  {
    hide Recorded, After, StopsSpeaking, StopsAfterTools, StopsRefused;
  }

  /** A save that one executed call left pending leaves no locked turn behind. */
  lemma PendingTools(w: Setup, before: State, c: Course, s: State, done: seq<Op>)
    requires before == SessionOf(w, c) && s == Run(w.cfg, before, done).0 && s.pending
    requires Counted(w, before, c, Continue)
    ensures s.round < w.cfg.maxRounds
    ensures |done| <= 1 && |c.resets| < w.lim.maxCompressions ==> s.lockedTurns == 0
  {
    PendingTurn(w.cfg, c.ops, done, before, s);
    hide Run, RefusedAtEnd;
  }

  lemma Unfinalized(w: Setup, s: State, p: Progress)
    requires BeforeTools(w, s, p)
    ensures !s.finalized && s == SessionOf(w, p.course)
  {
    hide Run, RefusedAtEnd, HasSpoken, StopsSpeaking;
  }

  /** The body of the loop after the generation. */
  method FinishTurn(live: SearchAgentSession, w: Setup, p: Progress) returns (p1: Progress, status: Status)
    requires live.cfg == w.cfg && BeforeTools(w, live.View(), p)
    modifies live
    ensures TurnResult(w, live.View(), p.turns, p1, status)
    ensures Counted(w, live.View(), p1.course, status)
    ensures w.lim.maxParallelCalls <= 1 && FirstRound(w.cfg) == 1 ==> !status.Refused?
    ensures status.Continue? ==>
      || |p1.course.resets| == |p.course.resets| + 1
      || (|p1.course.resets| == |p.course.resets| && |p.context.mask| <= |p1.context.mask| < w.lim.responseLength)
  {
    hide *;
    ghost var before, n := live.View(), p.turns;
    var turn := w.env.turns(p.turns);
    BeforeToolsAre(w, before, p);
    Unfinalized(w, before, p);
    var done, replied := ToolTurn(live, w.lim, turn, p.context);
    ToolsDone(w, before, p, live.View(), done);
    AnswerIs(w, p, live.View(), done);
    ghost var s, tools := live.View(), Answer(w, p, live.View(), done);
    p1 := Answer(w, p, live.View(), done);
    AfterToolsHold(w, s, n, tools);
    LastState(w, s, tools);
    StopsAfter(w, After(w, n), n);

    if Finalizes(turn) || |p1.context.mask| >= w.lim.responseLength {
      EndedTurn(w, s, n, p1);
      return Emit(w, p1), Ended;
    }
    status := Continue;
    if |p1.course.resets| < w.lim.maxCompressions {
      var refused;
      p1, refused := MaybeReset(live, w, p1);
      status := if refused then Refused else Continue;
    }
    ResetsWithin(w, tools.course);
    if Resets(w, tools.course) {
      PendingTools(w, before, p.course, s, done);
      ResetTurn(w, before, p, s, tools, p1);
      WithResetLonger(w, tools.course, tools.turns);
    } else {
      QuietTurn(w, s, n, tools);
    }
  }

  lemma StopsAfter(w: Setup, c: Course, n: nat)
    ensures StopsAfterTools(w, c, n)
      <==> Finalizes(w.env.turns(n)) || Length(w, c, n + 1, false) >= w.lim.responseLength
  {
  }

  lemma WithResetLonger(w: Setup, c: Course, n: nat)
    ensures |WithReset(w, c, n).resets| == |c.resets| + 1
  {
  }

  // ---- The whole rollout -------------------------------------------------------------------------

  lemma StartRecorded(w: Setup, s: State, p: Progress)
    requires s == StartRound(w.cfg, INITIAL)
    requires p == Progress([], Ctx.Context(w.prompt, w.promptIds, [], [], Ctx.NonSystem(w.prompt), s),
                           After(w, 0), 0, false)
    ensures AtHead(w, s, p) && p.course.resets == []
  {
    RunOneMore(w.cfg, [], OpenRound);
    assert [] + [OpenRound] == [OpenRound];
    hide Run;
  }

  /** At the head of the loop. */
  ghost predicate AtHead(w: Setup, s: State, p: Progress) {
    && Recorded(w, s, p) && Counted(w, s, p.course, Continue) && !p.mid && |p.course.resets| <= w.lim.maxCompressions
    && p.course == After(w, p.turns) && forall m: nat :: m < p.turns ==> GoesOn(w, m)
  }

  /** At the end. */
  ghost predicate AtEnd(w: Setup, s: State, p: Progress, status: Status) {
    && (if status.Refused? then Recorded(w, s, p) else Finished(w, s, p))
    && Counted(w, s, p.course, status) && !status.Continue? && (p.mid || p.turns > 0)
    && EndsAt(w, if p.mid then p.turns else p.turns - 1, p.course, p.mid, status.Refused?)
  }

  lemma SpeakFromHead(w: Setup, s: State, p: Progress)
    requires AtHead(w, s, p) && WellFormedEnv(w.env)
    ensures var p1 := Speak(w, p);
      && Recorded(w, s, p1) && p1.mid && HasSpoken(w, p1) && Counted(w, s, p1.course, Continue)
      && p1.course == After(w, p1.turns) && p1.turns == p.turns && p1.course == p.course
      && |p1.context.mask| > |p.context.mask|
  {
    RecordedSpeak(w, s, p);
    SegmentStart(w, s, p);
    hide Recorded, Counted, GoesOn, After, Ctx.Generate;
  }

  lemma SegmentStart(w: Setup, s: State, p: Progress)
    requires Recorded(w, s, p)
    ensures Current(w, p.course, p.turns, p.mid).from <= p.turns
    ensures Current(w, p.course, p.turns, true).from == Current(w, p.course, p.turns, p.mid).from
  {
    hide Tokens, Messages, HasLogprobs, GoodOutputs, Run;
  }

  lemma TerminatesWhen(w: Setup, s: State, p: Progress)
    requires Recorded(w, s, p) && p.mid && HasSpoken(w, p) && Counted(w, s, p.course, Continue)
    requires p.course == After(w, p.turns)
    ensures StopsSpeaking(w, p.course, p.turns)
      <==> ShouldTerminate(w.lim, p.context, p.turns + 1, p.turns) || w.env.turns(p.turns).calls == []
    ensures !StopsSpeaking(w, p.course, p.turns) ==> BeforeTools(w, s, p)
  {
    LengthIsMask(w, s, p);
    hide Recorded, HasSpoken, Counted, After, Length;
  }

  lemma EndedSpeaking(w: Setup, s: State, p: Progress)
    requires AtHead(w, s, p) && Recorded(w, s, Speak(w, p)) && StopsSpeaking(w, p.course, p.turns)
    ensures AtEnd(w, s, Emit(w, Speak(w, p)), Ended)
    ensures |Emit(w, Speak(w, p)).course.resets| <= w.lim.maxCompressions
  {
    RecordedEmit(w, s, Speak(w, p));
    CountedEnded(w, s, p.course);
    hide Recorded, Finished, Counted, GoesOn, After, StopsSpeaking, Ctx.Generate, Ctx.BuildOutput;
  }

  lemma CountedEnded(w: Setup, s: State, c: Course)
    requires Counted(w, s, c, Continue)
    ensures Counted(w, s, c, Ended)
  {
    hide RefusedAtEnd, FirstRound;
  }

  lemma CountedWithin(w: Setup, s: State, c: Course, status: Status)
    requires Counted(w, s, c, status)
    ensures |c.resets| <= w.lim.maxCompressions
  {
    hide RefusedAtEnd, FirstRound, Terminated, InStep;
  }

  lemma TurnDone(w: Setup, before: State, head: Progress, s: State, p: Progress, status: Status)
    requires AtHead(w, before, head) && !StopsSpeaking(w, head.course, head.turns)
    requires TurnResult(w, s, head.turns, p, status) && Counted(w, s, p.course, status)
    ensures if status.Continue? then AtHead(w, s, p) && p.turns == head.turns + 1 else AtEnd(w, s, p, status)
    ensures |p.course.resets| <= w.lim.maxCompressions
  {
    hide *;
    HeadIs(w, before, head);
    CountedWithin(w, s, p.course, status);
    TurnCourse(w, s, head.turns, p, status);
    if status.Continue? {
      NextHead(w, s, head.turns, p);
    } else {
      TheEnd(w, s, head.turns, p, status);
    }
  }

  lemma HeadIs(w: Setup, s: State, p: Progress)
    requires AtHead(w, s, p)
    ensures p.course == After(w, p.turns) && forall m: nat :: m < p.turns ==> GoesOn(w, m)
  {
    hide Recorded, Counted, GoesOn, After;
  }

  lemma NextHead(w: Setup, s: State, n: nat, p: Progress)
    requires Recorded(w, s, p) && Counted(w, s, p.course, Continue) && !p.mid && p.turns == n + 1
    requires |p.course.resets| <= w.lim.maxCompressions && p.course == After(w, n + 1)
    requires GoesOn(w, n) && forall m: nat :: m < n ==> GoesOn(w, m)
    ensures AtHead(w, s, p)
  {
    hide Recorded, Counted, GoesOn, After;
  }

  lemma TheEnd(w: Setup, s: State, n: nat, p: Progress, status: Status)
    requires if status.Ended? then Finished(w, s, p) else Recorded(w, s, p)
    requires Counted(w, s, p.course, status) && !status.Continue? && !p.mid && p.turns == n + 1
    requires EndsAt(w, n, p.course, false, status.Refused?)
    ensures AtEnd(w, s, p, status)
  {
    hide Recorded, Finished, Counted, EndsAt;
  }

  lemma TurnCourse(w: Setup, s: State, n: nat, p: Progress, status: Status)
    requires TurnResult(w, s, n, p, status) && !StopsSpeaking(w, After(w, n), n)
    requires forall m: nat :: m < n ==> GoesOn(w, m)
    ensures !p.mid && p.turns == n + 1
    ensures if status.Ended? then Finished(w, s, p) else Recorded(w, s, p)
    ensures if status.Continue? then p.course == After(w, n + 1) && GoesOn(w, n)
            else EndsAt(w, n, p.course, false, status.Refused?)
  {
    hide Recorded, Finished, GoesOn, After, StopsSpeaking, StopsAfterTools, StopsRefused, WithTools;
  }

  lemma OutcomeOf(w: Setup, s: State, p: Progress, status: Status)
    requires AtEnd(w, s, p, status)
    ensures (p.mid || p.turns > 0)
      && EndsAt(w, if p.mid then p.turns else p.turns - 1, p.course, p.mid, status.Refused?)
    ensures s == SessionOf(w, p.course)
    ensures GoodOutputs(w, p) && |p.outputs| == |p.course.resets| + if status.Refused? then 0 else 1
    ensures |p.course.resets| <= w.lim.maxCompressions
    ensures p.course.resets != [] ==> |p.course.resets| <= w.cfg.maxRounds - FirstRound(w.cfg)
    ensures s.round + (if status.Refused? then 1 else 0) == |p.course.resets| + FirstRound(w.cfg)
    ensures status.Refused? <==> RefusedAtEnd(w.cfg, p.course)
    ensures status.Refused? ==> Terminated(w.cfg, s) && !s.finalized
  {
    hide EndsAt, GoodOutputs, RefusedAtEnd, SessionOf, Terminated, Placed;
  }

  /** One turn of the loop; `assistantTurns` counts its generation already. */
  method TakeTurn(live: SearchAgentSession, w: Setup, head: Progress, assistantTurns: nat, toolTurns: nat)
    returns (p: Progress, status: Status)
    requires live.cfg == w.cfg && AtHead(w, live.View(), head) && WellFormedEnv(w.env)
    requires assistantTurns == head.turns + 1 && toolTurns == head.turns
    modifies live
    ensures if status.Continue? then AtHead(w, live.View(), p) && p.turns == head.turns + 1
            else AtEnd(w, live.View(), p, status)
    ensures |p.course.resets| <= w.lim.maxCompressions
    ensures w.lim.maxParallelCalls <= 1 && FirstRound(w.cfg) == 1 ==> !status.Refused?
    ensures status.Continue? ==>
      || |p.course.resets| == |head.course.resets| + 1
      || (|p.course.resets| == |head.course.resets| && |head.context.mask| < |p.context.mask| < w.lim.responseLength)
  {
    hide *;
    ghost var before := live.View();
    SpeakFromHead(w, before, head);
    p := Speak(w, head);
    TerminatesWhen(w, before, p);
    if ShouldTerminate(w.lim, p.context, assistantTurns, toolTurns) || w.env.turns(p.turns).calls == [] {
      EndedSpeaking(w, before, head);
      return Emit(w, p), Ended;
    }
    p, status := FinishTurn(live, w, p);
    TurnDone(w, before, head, live.View(), p, status);
  }

  /** Before the loop. */
  method Begin(w: Setup) returns (live: SearchAgentSession, p: Progress)
    ensures fresh(live) && live.cfg == w.cfg && AtHead(w, live.View(), p)
    ensures p.turns == 0 && p.course.resets == []
  {
    live := new SearchAgentSession(w.cfg);
    var _ := live.StartRound();
    var start := Ctx.Context(w.prompt, w.promptIds, [], [], Ctx.NonSystem(w.prompt), live.View());
    p := Progress([], start, After(w, 0), 0, false);
    StartRecorded(w, live.View(), p);
    hide *;
  }

  /** `run`: the whole rollout. */
  method Rollout(w: Setup) returns (p: Progress, roundRefused: bool, session: State)
    requires WellFormedEnv(w.env)
    // It ends in the first turn that gives a reason, and its operations, resets and handoffs are
    // those of the turns up to there.
    ensures (p.mid || p.turns > 0)
      && EndsAt(w, if p.mid then p.turns else p.turns - 1, p.course, p.mid, roundRefused)
    ensures session == SessionOf(w, p.course)
    // One output per segment, token by token; none for a segment whose round was refused.
    ensures GoodOutputs(w, p) && |p.outputs| == |p.course.resets| + if roundRefused then 0 else 1
    ensures |p.course.resets| <= w.lim.maxCompressions
    ensures p.course.resets != [] ==> |p.course.resets| <= w.cfg.maxRounds - FirstRound(w.cfg)
    ensures session.round + (if roundRefused then 1 else 0) == |p.course.resets| + FirstRound(w.cfg)
    // A round is refused exactly to too many locked searches; never without parallel calls.
    ensures roundRefused <==> RefusedAtEnd(w.cfg, p.course)
    ensures roundRefused ==> Terminated(w.cfg, session) && !session.finalized
    ensures w.lim.maxParallelCalls <= 1 && FirstRound(w.cfg) == 1 ==> !roundRefused
  {
    hide *;
    var live;
    live, p := Begin(w);
    var assistantTurns, toolTurns := 0, 0;
    var status := Continue;

    while true
      invariant live.cfg == w.cfg && fresh(live)
      invariant AtHead(w, live.View(), p) && p.turns == assistantTurns == toolTurns
      invariant |p.course.resets| <= w.lim.maxCompressions
      decreases w.lim.maxCompressions - |p.course.resets|,
                if |p.context.mask| < w.lim.responseLength then w.lim.responseLength - |p.context.mask| else 0
    {
      assistantTurns := assistantTurns + 1;
      p, status := TakeTurn(live, w, p, assistantTurns, toolTurns);
      if status != Continue {
        break;
      }
      toolTurns := toolTurns + 1;
    }
    roundRefused := status.Refused?;
    session := live.View();
    OutcomeOf(w, session, p, status);
  }
}
