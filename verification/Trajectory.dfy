/** What a rollout's trajectory holds: every token with its mask and log-probability, and every
    message, stretch by stretch between two resets. */
module Trajectory {
  import opened Session
  import opened SearchAgentSessions
  import Ctx = Context
  import Slices

  /** Everything one turn receives from outside: the generation, the calls parsed from it,
      and the texts and tokens of the tool replies. */
  datatype Turn = Turn(
    gen: Ctx.Generation, calls: seq<ToolCall>, replyTexts: seq<string>, replyTokens: seq<int>)

  /** The model and tokenizer as functions: any behaviour, turn by turn. */
  datatype Env = Env(turns: nat -> Turn, render: State -> string, encode: string -> seq<int>)

  ghost predicate WellFormedEnv(env: Env) {
    forall i: nat :: Ctx.WellFormed(env.turns(i).gen)
  }

  // ---- Tokens and messages of turns -----------------------------------------------------------

  datatype Token = Token(id: int, mask: int, logprob: real)

  function Ids(ts: seq<Token>): (r: seq<int>)
    ensures |r| == |ts|
  {
    seq(|ts|, i requires 0 <= i < |ts| => ts[i].id)
  }

  function Masks(ts: seq<Token>): (r: seq<int>)
    ensures |r| == |ts|
  {
    seq(|ts|, i requires 0 <= i < |ts| => ts[i].mask)
  }

  function Logprobs(ts: seq<Token>): (r: seq<real>)
    ensures |r| == |ts|
  {
    seq(|ts|, i requires 0 <= i < |ts| => ts[i].logprob)
  }

  /** What the model generated: mask 1, with the log-probabilities it returned, if any. */
  function Generated(g: Ctx.Generation): (r: seq<Token>)
    ensures |r| == |g.tokens|
  {
    seq(|g.tokens|, i requires 0 <= i < |g.tokens| =>
      Token(g.tokens[i], 1, if g.logprobs.Some? && i < |g.logprobs.value| then g.logprobs.value[i] else 0.0))
  }

  /** What was put into the context from outside: mask 0 and log-probability 0. */
  function Inserted(tokens: seq<int>): (r: seq<Token>)
    ensures |r| == |tokens|
  {
    seq(|tokens|, i requires 0 <= i < |tokens| => Token(tokens[i], 0, 0.0))
  }

  /** The tokens of the turns `from..to`: each generation, then the replies of its tools. */
  function Spoken(env: Env, from: nat, to: nat): seq<Token> {
    if to <= from then []
    else
      var turn := env.turns(to - 1);
      Spoken(env, from, to - 1) + Generated(turn.gen) + Inserted(turn.replyTokens)
  }

  /** The messages of these turns. */
  function Talk(env: Env, from: nat, to: nat): seq<Ctx.Message> {
    if to <= from then []
    else
      var turn := env.turns(to - 1);
      Talk(env, from, to - 1) + [Ctx.Message(Ctx.Assistant, turn.gen.text)] + Ctx.ToolMessages(turn.replyTexts)
  }

  /** One stretch between resets: the handoff and the messages it began with, then the whole
      turns `from..to`, and when `mid` also the generation of turn `to`, whose tools are to run. */
  datatype Segment = Segment(handoff: seq<int>, base: seq<Ctx.Message>, from: nat, to: nat, mid: bool)

  function Tokens(env: Env, seg: Segment): seq<Token> {
    Inserted(seg.handoff) + Spoken(env, seg.from, seg.to) + if seg.mid then Generated(env.turns(seg.to).gen) else []
  }

  function Messages(env: Env, seg: Segment): seq<Ctx.Message> {
    seg.base + Talk(env, seg.from, seg.to)
    + if seg.mid then [Ctx.Message(Ctx.Assistant, env.turns(seg.to).gen.text)] else []
  }

  /** Some generation of the stretch came with log-probabilities. */
  ghost predicate HasLogprobs(env: Env, seg: Segment) {
    exists t: nat :: seg.from <= t < seg.to + (if seg.mid then 1 else 0) && env.turns(t).gen.logprobs.Some?
  }

  /** The context holds the initial prompt and exactly this segment, message by message and token
      by token. Log-probabilities are there once a generation has brought some, and wherever
      there are any they are those of the tokens. */
  ghost predicate Placed(c: Ctx.Context, env: Env, promptIds: seq<int>, seg: Segment) {
    var ts := Tokens(env, seg);
    && seg.from <= seg.to
    && c.ids == promptIds + Ids(ts) && c.mask == Masks(ts)
    && c.messages == Messages(env, seg)
    && (c.logprobs != [] ==> c.logprobs == Logprobs(ts))
    && (HasLogprobs(env, seg) ==> c.logprobs != [])
    && (seg.from < seg.to || seg.mid ==> c.numTurns == Ctx.NonSystem(c.messages))
  }

  /** The output of a segment: its tokens after the initial prompt, cut to the limit. */
  ghost predicate GoodOutput(o: Ctx.Output, env: Env, promptIds: seq<int>, responseLength: nat, seg: Segment) {
    var ts := Tokens(env, seg);
    && o.promptIds == promptIds
    && o.responseIds == Slices.Take(Ids(ts), responseLength)
    && o.mask == Slices.Take(Masks(ts), responseLength)
    && (o.logprobs.Some? ==> o.logprobs.value == Slices.Take(Logprobs(ts), responseLength))
    && (HasLogprobs(env, seg) ==> o.logprobs.Some?)
    && o.numTurns == Ctx.NonSystem(Messages(env, seg))
  }

  // ---- Concatenation -----------------------------------------------------------------------------

  lemma Columns(a: seq<Token>, b: seq<Token>)
    ensures Ids(a + b) == Ids(a) + Ids(b)
    ensures Masks(a + b) == Masks(a) + Masks(b)
    ensures Logprobs(a + b) == Logprobs(a) + Logprobs(b)
  {
  }

  lemma InsertedColumns(tokens: seq<int>)
    ensures Ids(Inserted(tokens)) == tokens
    ensures Masks(Inserted(tokens)) == Slices.Fill(|tokens|, 0)
    ensures Logprobs(Inserted(tokens)) == Slices.Fill(|tokens|, 0.0)
  {
  }

  lemma GeneratedColumns(g: Ctx.Generation)
    requires Ctx.WellFormed(g)
    ensures Ids(Generated(g)) == g.tokens
    ensures Masks(Generated(g)) == Slices.Fill(|g.tokens|, 1)
    ensures Logprobs(Generated(g)) == if g.logprobs.Some? then g.logprobs.value else Slices.Fill(|g.tokens|, 0.0)
  {
  }

  /** Consecutive stretches of turns add up, so each turn is in exactly one segment. */
  lemma {:induction false} SpokenOnce(env: Env, i: nat, j: nat, k: nat)
    requires i <= j <= k
    ensures Spoken(env, i, j) + Spoken(env, j, k) == Spoken(env, i, k)
    ensures Talk(env, i, j) + Talk(env, j, k) == Talk(env, i, k)
    decreases k
  {
    if j < k {
      SpokenOnce(env, i, j, k - 1);
      var turn := env.turns(k - 1);
      var gen, rep := Generated(turn.gen), Inserted(turn.replyTokens);
      assert Spoken(env, i, j) + (Spoken(env, j, k - 1) + gen + rep)
        == Spoken(env, i, j) + Spoken(env, j, k - 1) + gen + rep;
      var own, tools := [Ctx.Message(Ctx.Assistant, turn.gen.text)], Ctx.ToolMessages(turn.replyTexts);
      assert Talk(env, i, j) + (Talk(env, j, k - 1) + own + tools)
        == Talk(env, i, j) + Talk(env, j, k - 1) + own + tools;
    }
  }

  // ---- Without log-probabilities ------------------------------------------------------------------

  ghost predicate AllZero(xs: seq<real>) {
    forall i :: 0 <= i < |xs| ==> xs[i] == 0.0
  }

  lemma {:induction false} SpokenZero(env: Env, from: nat, to: nat)
    requires forall t: nat :: from <= t < to ==> env.turns(t).gen.logprobs.None?
    ensures AllZero(Logprobs(Spoken(env, from, to)))
  {
    if from < to {
      SpokenZero(env, from, to - 1);
      var turn, before := env.turns(to - 1), Spoken(env, from, to - 1);
      Columns(before, Generated(turn.gen));
      Columns(before + Generated(turn.gen), Inserted(turn.replyTokens));
      InsertedColumns(turn.replyTokens);
    }
  }

  lemma NoLogprobs(env: Env, seg: Segment)
    requires !HasLogprobs(env, seg) && seg.from <= seg.to
    ensures Logprobs(Tokens(env, seg)) == Slices.Fill(|Tokens(env, seg)|, 0.0)
  {
    SpokenZero(env, seg.from, seg.to);
    var head, spoken := Inserted(seg.handoff), Spoken(env, seg.from, seg.to);
    Columns(head, spoken);
    InsertedColumns(seg.handoff);
    if seg.mid {
      var g := env.turns(seg.to).gen;
      Columns(head + spoken, Generated(g));
      assert g.logprobs.None?;
    } else {
      assert Tokens(env, seg) == head + spoken;
    }
    assert AllZero(Logprobs(Tokens(env, seg)));
  }

  // ---- The four things that happen to a context -------------------------------------------------------

  lemma PlacedGenerate(c: Ctx.Context, env: Env, promptIds: seq<int>, seg: Segment)
    requires Placed(c, env, promptIds, seg) && !seg.mid && Ctx.WellFormed(env.turns(seg.to).gen)
    ensures Placed(Ctx.Generate(c, env.turns(seg.to).gen), env, promptIds, seg.(mid := true))
  {
    var g, said := env.turns(seg.to).gen, seg.(mid := true);
    var ts := Tokens(env, seg);
    assert Tokens(env, said) == ts + Generated(g);
    assert Messages(env, said) == Messages(env, seg) + [Ctx.Message(Ctx.Assistant, g.text)];
    Columns(ts, Generated(g));
    GeneratedColumns(g);
    assert promptIds + Ids(ts) + g.tokens == promptIds + (Ids(ts) + g.tokens);
    assert HasLogprobs(env, said) ==> HasLogprobs(env, seg) || g.logprobs.Some?;
    if !HasLogprobs(env, seg) {
      NoLogprobs(env, seg);
    }
    hide Tokens, Messages, HasLogprobs, Ids, Masks, Logprobs, Generated, Ctx.NonSystem;
  }

  lemma PlacedReplies(c: Ctx.Context, env: Env, promptIds: seq<int>, seg: Segment, snapshot: State)
    requires Placed(c, env, promptIds, seg) && seg.mid
    ensures var turn := env.turns(seg.to);
      Placed(Ctx.AppendReplies(c, turn.replyTexts, turn.replyTokens, snapshot), env, promptIds,
             seg.(to := seg.to + 1, mid := false))
  {
    var turn, done := env.turns(seg.to), seg.(to := seg.to + 1, mid := false);
    var ts := Tokens(env, seg);
    assert Tokens(env, done) == ts + Inserted(turn.replyTokens);
    assert Messages(env, done) == Messages(env, seg) + Ctx.ToolMessages(turn.replyTexts);
    Columns(ts, Inserted(turn.replyTokens));
    InsertedColumns(turn.replyTokens);
    assert promptIds + Ids(ts) + turn.replyTokens == promptIds + (Ids(ts) + turn.replyTokens);
    assert HasLogprobs(env, done) ==> HasLogprobs(env, seg);
    NonSystemConcat(Messages(env, seg), Ctx.ToolMessages(turn.replyTexts));
    NonSystemTools(turn.replyTexts);
    hide Tokens, Messages, HasLogprobs, Ids, Masks, Logprobs, Inserted, Ctx.NonSystem;
  }

  lemma {:induction false} NonSystemConcat(a: seq<Ctx.Message>, b: seq<Ctx.Message>)
    ensures Ctx.NonSystem(a + b) == Ctx.NonSystem(a) + Ctx.NonSystem(b)
  {
    if a == [] {
      assert a + b == b;
    } else {
      NonSystemConcat(a[1..], b);
      assert (a + b)[1..] == a[1..] + b;
    }
  }

  lemma {:induction false} NonSystemTools(texts: seq<string>)
    ensures Ctx.NonSystem(Ctx.ToolMessages(texts)) == |texts|
  {
    if texts != [] {
      NonSystemTools(texts[1..]);
      assert Ctx.ToolMessages(texts)[1..] == Ctx.ToolMessages(texts[1..]);
    }
  }

  /** A reset begins a new segment with the handoff; of the messages it keeps what the segment
      before began with. */
  lemma PlacedCompress(c: Ctx.Context, env: Env, promptIds: seq<int>, seg: Segment, text: string, tokens: seq<int>)
    requires Placed(c, env, promptIds, seg) && c.mask != []
    ensures Placed(Ctx.Compress(c, text, tokens), env, promptIds,
                   Segment(tokens, Ctx.Preserved(seg.base) + [Ctx.Message(Ctx.User, text)], seg.to, seg.to, false))
  {
    var next := Segment(tokens, Ctx.Preserved(seg.base) + [Ctx.Message(Ctx.User, text)], seg.to, seg.to, false);
    var turns := Talk(env, seg.from, seg.to)
      + if seg.mid then [Ctx.Message(Ctx.Assistant, env.turns(seg.to).gen.text)] else [];
    assert c.messages == seg.base + turns;
    TalkBegins(env, seg.from, seg.to);
    Ctx.PreservedIgnoresTurns(seg.base, turns);
    assert Ctx.Aligned(c, promptIds);
    Ctx.CompressAligned(c, text, tokens, promptIds);
    InsertedColumns(tokens);
    assert Spoken(env, seg.to, seg.to) == [] && Talk(env, seg.to, seg.to) == [];
    assert Tokens(env, next) == Inserted(tokens);
    assert Messages(env, next) == next.base;
    hide Talk, Spoken, Tokens, Messages, Ids, Masks, Logprobs, Ctx.Preserved;
  }

  lemma {:induction false} TalkBegins(env: Env, from: nat, to: nat)
    ensures Talk(env, from, to) == [] || Talk(env, from, to)[0].role.Assistant?
  {
    if from < to {
      TalkBegins(env, from, to - 1);
    }
  }

  lemma PlacedOutput(c: Ctx.Context, env: Env, promptIds: seq<int>, seg: Segment, responseLength: nat)
    requires Placed(c, env, promptIds, seg) && (seg.from < seg.to || seg.mid)
    ensures GoodOutput(Ctx.BuildOutput(c, responseLength), env, promptIds, responseLength, seg)
  {
    assert c.ids[|promptIds|..] == Ids(Tokens(env, seg));
    hide Tokens, Messages, HasLogprobs, Ids, Masks, Logprobs, Ctx.NonSystem;
  }
}
