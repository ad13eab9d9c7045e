/** The generation proxy as interleaved cooperative steps: what each handler does between two
    awaits is one step, and a pause drains the requests that are inside. */
module DrainProxy {
  import opened Wrappers

  type Id = nat

  /** Where a request is: held at the event, woken but not yet run, forwarding, or over. */
  datatype Phase = Waiting | Released | Inside | Over

  datatype Reply = Drained | TimedOut

  datatype State = State(
    paused: bool,
    eventSet: bool,
    inFlight: int,
    requests: map<Id, Phase>,
    polling: set<Id>)

  datatype Op =
    | Arrive(r: Id)
    | Enter(r: Id)
    | Finish(r: Id)
    | Abandon(r: Id)
    | Pause(p: Id, late: bool)
    | Poll(p: Id, late: bool)
    | Resume

  const INITIAL := State(false, true, 0, map[], {})

  function In(s: State, phase: Phase): set<Id> {
    set r | r in s.requests && s.requests[r] == phase
  }

  /** Setting the event wakes every request that waits for it. */
  function Release(s: State): State {
    s.(paused := false, eventSet := true,
       requests := map r | r in s.requests :: if s.requests[r].Waiting? then Released else s.requests[r])
  }

  /** The head of the drain loop: done, out of time, or another sleep. */
  function Drain(s: State, p: Id, late: bool): (State, Option<Reply>) {
    if s.inFlight <= 0 then (s.(polling := s.polling - {p}), Some(Drained))
    else if late then (Release(s).(polling := s.polling - {p}), Some(TimedOut))
    else (s.(polling := s.polling + {p}), None)
  }

  function Apply(s: State, op: Op): (State, Option<Reply>) {
    match op
    case Arrive(r) =>
      if r in s.requests then (s, None)
      else if s.paused && !s.eventSet then (s.(requests := s.requests[r := Waiting]), None)
      else (s.(requests := s.requests[r := Inside], inFlight := s.inFlight + 1), None)
    case Enter(r) =>
      if r in s.requests && s.requests[r].Released? then
        (s.(requests := s.requests[r := Inside], inFlight := s.inFlight + 1), None)
      else (s, None)
    case Finish(r) =>
      if r in s.requests && s.requests[r].Inside? then
        (s.(requests := s.requests[r := Over], inFlight := s.inFlight - 1), None)
      else (s, None)
    case Abandon(r) =>
      if r in s.requests && (s.requests[r].Waiting? || s.requests[r].Released?) then
        (s.(requests := s.requests[r := Over]), None)
      else (s, None)
    case Pause(p, late) => Drain(s.(paused := true, eventSet := false), p, late)
    case Poll(p, late) => if p in s.polling then Drain(s, p, late) else (s, None)
    case Resume => (Release(s), None)
  }

  function Run(s: State, ops: seq<Op>): State {
    if ops == [] then s else Apply(Run(s, ops[..|ops| - 1]), ops[|ops| - 1]).0
  }

  // ---- The handlers --------------------------------------------------------------------------

  class GenerateProxy {
    var paused: bool
    var eventSet: bool
    var inFlight: int
    var requests: map<Id, Phase>
    var polling: set<Id>

    function View(): State
      reads this
    {
      State(paused, eventSet, inFlight, requests, polling)
    }

    constructor ()
      ensures View() == INITIAL
    {
      paused, eventSet, inFlight, requests, polling := false, true, 0, map[], {};
    }

    /** A request up to its first await: it enters at once unless it has to wait. */
    method Arrive(r: Id)
      modifies this
      ensures View() == Apply(old(View()), Op.Arrive(r)).0
    {
      if r in requests {
        return;
      }
      if paused {
        if !eventSet {
          requests := requests[r := Waiting];
          return;
        }
      }
      inFlight := inFlight + 1;
      requests := requests[r := Inside];
    }

    /** A woken request goes on without looking at the flag again. */
    method Enter(r: Id)
      modifies this
      ensures View() == Apply(old(View()), Op.Enter(r)).0
    {
      if r in requests && requests[r].Released? {
        inFlight := inFlight + 1;
        requests := requests[r := Inside];
      }
    }

    method Finish(r: Id)
      modifies this
      ensures View() == Apply(old(View()), Op.Finish(r)).0
    {
      if r in requests && requests[r].Inside? {
        inFlight := inFlight - 1;
        requests := requests[r := Over];
      }
    }

    method SetEvent()
      modifies this
      ensures View() == Release(old(View())).(paused := old(paused))
    {
      eventSet := true;
      requests := map r | r in requests :: if requests[r].Waiting? then Released else requests[r];
    }

    method DrainHead(p: Id, late: bool) returns (reply: Option<Reply>)
      modifies this
      ensures (View(), reply) == Drain(old(View()), p, late)
    {
      if inFlight > 0 {
        if late {
          paused := false;
          SetEvent();
          polling := polling - {p};
          return Some(TimedOut);
        }
        polling := polling + {p};
        return None;
      }
      polling := polling - {p};
      return Some(Drained);
    }

    method Pause(p: Id, late: bool) returns (reply: Option<Reply>)
      modifies this
      ensures (View(), reply) == Apply(old(View()), Op.Pause(p, late))
    {
      paused := true;
      eventSet := false;
      reply := DrainHead(p, late);
    }

    method Poll(p: Id, late: bool) returns (reply: Option<Reply>)
      modifies this
      ensures (View(), reply) == Apply(old(View()), Op.Poll(p, late))
    {
      if p in polling {
        reply := DrainHead(p, late);
      } else {
        reply := None;
      }
    }

    method Resume()
      modifies this
      ensures View() == Apply(old(View()), Op.Resume).0
    {
      paused := false;
      SetEvent();
    }
  }

  // ---- Invariants ------------------------------------------------------------------------------

  /** The counter counts the requests inside, the event mirrors the flag, and nobody waits while
      the proxy is open. */
  ghost predicate Inv(s: State) {
    && s.inFlight == |In(s, Inside)|
    && (s.eventSet <==> !s.paused)
    && (!s.paused ==> In(s, Waiting) == {})
  }

  lemma PhaseChange(s: State, t: State, r: Id, to: Phase, phase: Phase)
    requires t.requests == s.requests[r := to]
    ensures In(t, phase) == if to == phase then In(s, phase) + {r} else In(s, phase) - {r}
  {
  }

  lemma ReleasePhases(s: State)
    ensures In(Release(s), Inside) == In(s, Inside)
    ensures In(Release(s), Waiting) == {}
    ensures In(Release(s), Released) == In(s, Released) + In(s, Waiting)
  {
  }

  /** A request that moves, with the counter following it. */
  lemma MoveKeeps(s: State, r: Id, to: Phase)
    requires Inv(s) && (to.Waiting? ==> s.paused)
    ensures var was := r in s.requests && s.requests[r].Inside?;
      Inv(s.(requests := s.requests[r := to],
             inFlight := s.inFlight + (if to.Inside? then 1 else 0) - (if was then 1 else 0)))
  {
    var t := s.(requests := s.requests[r := to]);
    PhaseChange(s, t, r, to, Inside);
    PhaseChange(s, t, r, to, Waiting);
    assert r in In(s, Inside) <==> r in s.requests && s.requests[r].Inside?;
    var t1 := s.(requests := s.requests[r := to],
                 inFlight := s.inFlight + (if to.Inside? then 1 else 0) - (if r in In(s, Inside) then 1 else 0));
    assert In(t1, Inside) == In(t, Inside) && In(t1, Waiting) == In(t, Waiting);
  }

  lemma ReleaseKeeps(s: State)
    requires s.inFlight == |In(s, Inside)|
    ensures Inv(Release(s))
  {
    ReleasePhases(s);
  }

  lemma SameRequests(s: State, t: State, phase: Phase)
    requires s.requests == t.requests
    ensures In(s, phase) == In(t, phase)
  {
  }

  lemma DrainKeeps(s: State, p: Id, late: bool)
    requires Inv(s)
    ensures Inv(Drain(s, p, late).0)
  {
    ReleaseKeeps(s);
    var t := Drain(s, p, late).0;
    SameRequests(t, if s.inFlight > 0 && late then Release(s) else s, Inside);
    SameRequests(t, if s.inFlight > 0 && late then Release(s) else s, Waiting);
    hide In;
  }

  lemma StepKeeps(s: State, op: Op)
    requires Inv(s)
    ensures Inv(Apply(s, op).0)
  {
    match op
    case Arrive(r) => if r !in s.requests { MoveKeeps(s, r, if s.paused then Waiting else Inside); hide Inv; }
    case Enter(r) => MoveKeeps(s, r, Inside); hide In;
    case Finish(r) => MoveKeeps(s, r, Over); hide In;
    case Abandon(r) => MoveKeeps(s, r, Over); hide In;
    case Pause(p, late) => PausedKeeps(s); DrainKeeps(s.(paused := true, eventSet := false), p, late); hide In, Drain;
    case Poll(p, late) => DrainKeeps(s, p, late); hide In, Drain;
    case Resume => ReleaseKeeps(s); hide In, Release;
  }

  lemma PausedKeeps(s: State)
    requires Inv(s)
    ensures Inv(s.(paused := true, eventSet := false))
  {
  }

  lemma {:induction false} RunKeeps(ops: seq<Op>)
    ensures Inv(Run(INITIAL, ops))
  {
    if ops != [] {
      RunKeeps(ops[..|ops| - 1]);
      StepKeeps(Run(INITIAL, ops[..|ops| - 1]), ops[|ops| - 1]);
    }
  }

  // ---- What a drained reply is worth ----------------------------------------------------------

  /** The step opens the proxy: a resume, or a pause that runs out of time. */
  predicate Opens(s: State, op: Op) {
    match op
    case Resume => true
    case Pause(_, late) => s.inFlight > 0 && late
    case Poll(p, late) => p in s.polling && s.inFlight > 0 && late
    case _ => false
  }

  /** No step of the run opens the proxy. */
  ghost predicate Closed(s: State, ops: seq<Op>) {
    ops == [] || (Closed(s, ops[..|ops| - 1]) && !Opens(Run(s, ops[..|ops| - 1]), ops[|ops| - 1]))
  }

  /** Requests that are inside, or will go inside without asking. */
  function Committed(s: State): set<Id> {
    In(s, Inside) + In(s, Released)
  }

  lemma ClosedStep(s: State, op: Op)
    requires s.paused && !s.eventSet && !Opens(s, op)
    ensures var t := Apply(s, op).0;
      t.paused && !t.eventSet && Committed(t) <= Committed(s) && In(t, Released) <= In(s, Released)
  {
  }

  /** Until something opens the proxy it stays closed, and only requests that were committed when
      it closed can be inside. */
  lemma {:induction false} ClosedRun(s: State, ops: seq<Op>)
    requires s.paused && !s.eventSet && Closed(s, ops)
    ensures var t := Run(s, ops);
      t.paused && !t.eventSet && Committed(t) <= Committed(s) && In(t, Released) <= In(s, Released)
  {
    hide Apply, Committed, In, Opens;
    if ops != [] {
      ClosedRun(s, ops[..|ops| - 1]);
      ClosedStep(Run(s, ops[..|ops| - 1]), ops[|ops| - 1]);
    }
  }

  lemma CommittedWhenDrained(s: State)
    requires Inv(s) && s.inFlight == 0
    ensures Committed(s) == In(s, Released)
  {
  }

  lemma RunOne(s: State, op: Op)
    ensures Run(s, [op]) == Apply(s, op).0
    ensures Closed(s, [op]) <==> !Opens(s, op)
  {
  }

  lemma SomeId(taken: set<Id>) returns (r: Id)
    ensures r !in taken
  {
    r := 0;
    var rest := taken;
    while rest != {}
      invariant rest <= taken && forall x :: x in taken && x !in rest ==> x < r
    {
      var x :| x in rest;
      rest := rest - {x};
      r := if x < r then r else x + 1;
    }
  }

  /** From a drained state on, until something opens the proxy, the only requests to get inside
      are ones released before: this holds exactly when the proxy is still paused. A resume, or
      another pause running out of time, while this pause was polling makes its reply worthless. */
  lemma DrainHoldsExactly(s: State)
    requires Inv(s) && s.inFlight == 0
    ensures s.paused <==>
      forall ops: seq<Op>, r: Id :: Closed(s, ops) && r in In(Run(s, ops), Inside) ==> r in In(s, Released)
  {
    if s.paused {
      forall ops: seq<Op>, r: Id | Closed(s, ops) && r in In(Run(s, ops), Inside)
        ensures r in In(s, Released)
      {
        ClosedRun(s, ops);
        CommittedWhenDrained(s);
        assert r in Committed(Run(s, ops));
      }
    } else {
      var r := SomeId(s.requests.Keys);
      var ops := [Op.Arrive(r)];
      RunOne(s, Op.Arrive(r));
      assert Closed(s, ops) && r in In(Run(s, ops), Inside);
      assert r !in In(s, Released);
    }
  }

  /** A drained reply comes only with nothing inside, and leaves the requests alone. */
  lemma DrainedReply(s: State, op: Op)
    requires Inv(s) && Apply(s, op).1 == Some(Drained)
    ensures op.Pause? || op.Poll?
    ensures var t := Apply(s, op).0;
      && Inv(t) && t.inFlight == 0 && t.requests == s.requests
      && (t.paused <==> op.Pause? || s.paused)
  {
  }

  /** With every released request already run when the pause is called, and nothing opening the
      proxy, the drained reply is followed by an empty section until something opens it. */
  lemma QuietDrain(s: State, p: Id, late: bool, before: seq<Op>, last: bool, after: seq<Op>)
    requires Inv(s) && In(s, Released) == {} && Answered(s, p, late, before, last).1 == Some(Drained)
    requires Closed(Answered(s, p, late, before, last).0, after)
    requires Apply(s, Pause(p, late)).1 == None ==> Closed(Apply(s, Pause(p, late)).0, before)
    ensures var end := Run(Answered(s, p, late, before, last).0, after);
      end.inFlight == 0 && end.paused
  {
    var (s1, reply) := Apply(s, Pause(p, late));
    if reply == Some(Drained) {
      DrainedReply(s, Pause(p, late));
      assert In(s1, Released) == In(s, Released);
      StillEmpty(s1, after);
    } else {
      StepKeeps(s, Pause(p, late));
      assert In(s1, Released) == In(s, Released);
      ClosedRun(s1, before);
      RunKeepsFrom(s1, before);
      var s2 := Run(s1, before);
      DrainedReply(s2, Poll(p, last));
      var s3 := Apply(s2, Poll(p, last)).0;
      assert In(s3, Released) == In(s2, Released);
      StillEmpty(s3, after);
    }
  }

  /** The pause call as a whole: its own first look, or, when that finds requests inside and there
      is time left, the look that follows the steps `before`. */
  function Answered(s: State, p: Id, late: bool, before: seq<Op>, last: bool): (State, Option<Reply>) {
    var (s1, reply) := Apply(s, Pause(p, late));
    if reply == None then Apply(Run(s1, before), Poll(p, last)) else (s1, reply)
  }

  lemma StillEmpty(s: State, ops: seq<Op>)
    requires Inv(s) && s.inFlight == 0 && s.paused && In(s, Released) == {} && Closed(s, ops)
    ensures Run(s, ops).inFlight == 0 && Run(s, ops).paused
  {
    ClosedRun(s, ops);
    RunKeepsFrom(s, ops);
    CommittedWhenDrained(s);
    hide Run;
    assert In(Run(s, ops), Inside) <= {};
  }

  lemma {:induction false} RunKeepsFrom(s: State, ops: seq<Op>)
    requires Inv(s)
    ensures Inv(Run(s, ops))
  {
    hide Apply, Inv;
    if ops != [] {
      RunKeepsFrom(s, ops[..|ops| - 1]);
      StepKeeps(Run(s, ops[..|ops| - 1]), ops[|ops| - 1]);
    }
  }

  /** The failure, concretely: a resume while a pause is polling. The pause still replies that it
      has drained, and the next request walks straight in. */
  lemma ResumeDuringDrain()
    ensures var s := Run(INITIAL, [Op.Arrive(0), Pause(1, false), Resume, Op.Finish(0)]);
      var (t, reply) := Apply(s, Poll(1, false));
      reply == Some(Drained) && !t.paused && Apply(t, Op.Arrive(2)).0.inFlight == 1
  {
    var ops := [Op.Arrive(0), Pause(1, false), Resume, Op.Finish(0)];
    assert ops[..4] == ops && ops[..4][..3] == ops[..3] && ops[..3][..2] == ops[..2] && ops[..2][..1] == ops[..1];
    assert ops[..1][..0] == [];
    assert Run(INITIAL, ops[..1]) == State(false, true, 1, map[0 := Inside], {});
    assert Run(INITIAL, ops[..2]) == State(true, false, 1, map[0 := Inside], {1});
    assert Run(INITIAL, ops[..3]) == State(false, true, 1, map[0 := Inside], {1});
    assert Run(INITIAL, ops) == State(false, true, 0, map[0 := Over], {1});
  }

  /** While the proxy is closed the requests still to be drained only get fewer, and each one that
      finishes counts. */
  lemma DrainProgress(s: State, op: Op)
    requires s.paused && !s.eventSet && !Opens(s, op)
    ensures |Committed(Apply(s, op).0)| <= |Committed(s)|
    ensures op.Finish? && op.r in In(s, Inside) ==> |Committed(Apply(s, op).0)| < |Committed(s)|
  {
    ClosedStep(s, op);
    var t := Apply(s, op).0;
    Smaller(Committed(t), Committed(s));
    if op.Finish? && op.r in In(s, Inside) {
      assert op.r in Committed(s) && op.r !in Committed(t);
      Smaller(Committed(t), Committed(s) - {op.r});
    }
  }

  lemma Smaller(a: set<Id>, b: set<Id>)
    requires a <= b
    ensures |a| <= |b|
  {
    assert b == a + (b - a);
  }

  // ---- Replies and what they leave behind ----------------------------------------------------------

  /** A look of the drain loop: a pause that is called, or one that is still polling. */
  predicate Looks(s: State, op: Op) {
    op.Pause? || (op.Poll? && op.p in s.polling)
  }

  predicate Late(op: Op) {
    (op.Pause? && op.late) || (op.Poll? && op.late)
  }

  /** Each look ends in one of three ways: drained exactly when nobody is inside, timed out exactly
      when somebody is and time is up, and otherwise the pause goes on polling. Nothing else replies. */
  lemma RepliesExactly(s: State, op: Op)
    requires Inv(s)
    ensures var (t, reply) := Apply(s, op);
      && (reply == Some(Drained) <==> Looks(s, op) && In(s, Inside) == {})
      && (reply == Some(TimedOut) <==> Looks(s, op) && In(s, Inside) != {} && Late(op))
      && (Looks(s, op) && reply == None ==> op.p in t.polling)
      && (Looks(s, op) && reply != None ==> op.p !in t.polling)
  {
    NobodyInside(s);
    hide In, Release;
  }

  lemma NobodyInside(s: State)
    requires Inv(s)
    ensures s.inFlight <= 0 <==> In(s, Inside) == {}
  {
    hide In;
  }

  /** A timed-out reply leaves the proxy open: whoever waited is released, and nobody else moves. */
  lemma TimedOutReply(s: State, op: Op)
    requires Inv(s) && Apply(s, op).1 == Some(TimedOut)
    ensures var t := Apply(s, op).0;
      && !t.paused && t.eventSet && In(t, Waiting) == {}
      && In(t, Released) == In(s, Released) + In(s, Waiting)
      && In(t, Inside) == In(s, Inside) && In(t, Over) == In(s, Over)
  {
  }

  /** Whoever comes while the proxy is open goes inside at once; while it is closed it waits. */
  lemma ArrivesExactly(s: State, r: Id)
    requires Inv(s) && r !in s.requests
    ensures var t := Apply(s, Op.Arrive(r)).0;
      r in t.requests && t.requests[r] == if s.paused then Waiting else Inside
  {
  }

  /** No request is stuck, whatever the run so far: once the proxy opens, it can go inside and
      finish. */
  lemma EveryRequestCanFinish(ops: seq<Op>, r: Id)
    requires r in Run(INITIAL, ops).requests
    ensures var s := Run(INITIAL, ops);
      r in Run(s, [Resume, Op.Enter(r), Op.Finish(r)]).requests
      && Run(s, [Resume, Op.Enter(r), Op.Finish(r)]).requests[r] == Over
  {
    var s := Run(INITIAL, ops);
    ThreeSteps(s, Resume, Op.Enter(r), Op.Finish(r));
    hide Run;
  }

  /** And one that is not inside yet can be given up at any time without being counted. */
  lemma AbandonedExactly(s: State, r: Id)
    requires Inv(s) && r in s.requests && (s.requests[r].Waiting? || s.requests[r].Released?)
    ensures var t := Apply(s, Op.Abandon(r)).0;
      t.requests == s.requests[r := Over] && t.inFlight == s.inFlight == |In(t, Inside)|
  {
    StepKeeps(s, Op.Abandon(r));
  }

  lemma ThreeSteps(s: State, a: Op, b: Op, c: Op)
    ensures Run(s, [a, b, c]) == Apply(Apply(Apply(s, a).0, b).0, c).0
  {
    assert [a, b, c][..2] == [a, b] && [a, b][..1] == [a] && [a][..0] == [];
    hide Apply;
    assert Run(s, [a]) == Apply(s, a).0;
    assert Run(s, [a, b]) == Apply(Run(s, [a]), b).0;
  }
}
