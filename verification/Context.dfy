/** The token trajectory of a rollout and the three ways it changes: a generation,
    the tool replies, and the reset that a committed save triggers. */
module Context {
  import opened Wrappers
  import opened Slices
  import Session

  datatype Role = System | User | Assistant | Tool

  datatype Message = Message(role: Role, content: string)

  /** `snapshot` is the session state carried in `extra_fields`. */
  datatype Context = Context(
    messages: seq<Message>,
    ids: seq<int>,
    mask: seq<int>,
    logprobs: seq<real>,
    numTurns: nat,
    snapshot: Session.State)

  datatype Output = Output(
    promptIds: seq<int>, responseIds: seq<int>, mask: seq<int>, logprobs: Option<seq<real>>, numTurns: nat)

  /** What the model returns for one generation. */
  datatype Generation = Generation(tokens: seq<int>, logprobs: Option<seq<real>>, text: string)

  function NonSystem(ms: seq<Message>): nat {
    if ms == [] then 0 else (if ms[0].role.System? then 0 else 1) + NonSystem(ms[1..])
  }

  /** `_generate_next_state`: append the assistant tokens with mask 1. */
  function Generate(c: Context, g: Generation): Context {
    var messages := c.messages + [Message(Assistant, g.text)];
    var n := |g.tokens|;
    c.(messages := messages,
       ids := c.ids + g.tokens,
       mask := c.mask + Fill(n, 1),
       logprobs :=
         if c.logprobs != [] || (g.logprobs.Some? && g.logprobs.value != []) then
           (if c.logprobs != [] then c.logprobs else Fill(|c.mask|, 0.0))
           + (if g.logprobs.Some? then g.logprobs.value else Fill(n, 0.0))
         else [],
       numTurns := NonSystem(messages))
  }

  function ToolMessages(texts: seq<string>): seq<Message> {
    seq(|texts|, i requires 0 <= i < |texts| => Message(Tool, texts[i]))
  }

  /** `_append_tool_responses`: append the observations with mask 0, refresh the snapshot. */
  function AppendReplies(c: Context, texts: seq<string>, tokens: seq<int>, snapshot: Session.State): Context {
    Context(
      c.messages + ToolMessages(texts),
      c.ids + tokens,
      c.mask + Fill(|tokens|, 0),
      if c.logprobs != [] then c.logprobs + Fill(|tokens|, 0.0) else [],
      c.numTurns + |texts|,
      snapshot)
  }

  /** The messages before the first assistant or tool message. */
  function Preserved(ms: seq<Message>): seq<Message> {
    if ms == [] || ms[0].role in {Assistant, Tool} then []
    else [ms[0]] + Preserved(ms[1..])
  }

  /** `_compress_impl`: keep the prompt, replace the turns by one handoff message. */
  function Compress(c: Context, handoff: string, tokens: seq<int>): Context {
    if c.mask == [] then c
    else
      var messages := Preserved(c.messages) + [Message(User, handoff)];
      Context(
        messages,
        (if |c.mask| <= |c.ids| then c.ids[..|c.ids| - |c.mask|] else []) + tokens,
        Fill(|tokens|, 0),
        if c.logprobs != [] then Fill(|tokens|, 0.0) else [],
        |messages|,
        c.snapshot)
  }

  /** `check_and_compress`: the flag says whether the state really changed. */
  function CheckAndCompress(c: Context, handoff: string, tokens: seq<int>): (Context, bool) {
    if !c.snapshot.pending then (c, false)
    else
      var c1 := Compress(c, handoff, tokens);
      (c1, c1 != c)
  }

  function BuildOutput(c: Context, responseLength: nat): Output {
    var cut := if |c.mask| <= |c.ids| then |c.ids| - |c.mask| else 0;
    Output(
      c.ids[..cut],
      Take(c.ids[cut..], responseLength),
      Take(c.mask, responseLength),
      if c.logprobs == [] then None else Some(Take(c.logprobs, responseLength)),
      c.numTurns)
  }

  // ---- Alignment -------------------------------------------------------------------

  /** The response is the last |mask| tokens and everything before it is `prompt`. */
  ghost predicate Aligned(c: Context, prompt: seq<int>) {
    && |c.ids| == |prompt| + |c.mask|
    && c.ids[..|prompt|] == prompt
    && (c.logprobs == [] || |c.logprobs| == |c.mask|)
  }

  /** The model returns at least one token, and one log-probability per token if any. */
  ghost predicate WellFormed(g: Generation) {
    g.tokens != [] && (g.logprobs.Some? ==> |g.logprobs.value| == |g.tokens|)
  }

  lemma GenerateAligned(c: Context, g: Generation, prompt: seq<int>)
    requires Aligned(c, prompt) && WellFormed(g)
    ensures Aligned(Generate(c, g), prompt)
    ensures |Generate(c, g).mask| == |c.mask| + |g.tokens|
  {
  }

  lemma RepliesAligned(c: Context, texts: seq<string>, tokens: seq<int>, snapshot: Session.State, prompt: seq<int>)
    requires Aligned(c, prompt)
    ensures Aligned(AppendReplies(c, texts, tokens, snapshot), prompt)
  {
  }

  lemma CompressAligned(c: Context, handoff: string, tokens: seq<int>, prompt: seq<int>)
    requires Aligned(c, prompt)
    ensures Aligned(Compress(c, handoff, tokens), prompt)
    ensures c.mask != [] ==>
      Compress(c, handoff, tokens).ids == prompt + tokens && Compress(c, handoff, tokens).mask == Fill(|tokens|, 0)
  {
  }

  /** An aligned state yields an output whose prompt is the initial prompt and whose
      response, mask and log-probabilities have one common length within the budget. */
  lemma OutputOfAligned(c: Context, prompt: seq<int>, responseLength: nat)
    requires Aligned(c, prompt)
    ensures var o := BuildOutput(c, responseLength);
      && o.promptIds == prompt
      && |o.responseIds| == |o.mask| <= responseLength
      && (o.logprobs.Some? ==> |o.logprobs.value| == |o.mask|)
      && prompt + o.responseIds <= c.ids
  {
  }

  // ---- Messages --------------------------------------------------------------------

  lemma {:induction false} PreservedIsPrefix(ms: seq<Message>)
    ensures Preserved(ms) <= ms
    ensures forall m :: m in Preserved(ms) ==> m.role !in {Assistant, Tool}
  {
    if ms != [] && ms[0].role !in {Assistant, Tool} {
      PreservedIsPrefix(ms[1..]);
      assert ms == [ms[0]] + ms[1..];
    }
  }

  /** Messages appended after an assistant message, or starting with one, are not preserved. */
  lemma {:induction false} PreservedIgnoresTurns(ms: seq<Message>, more: seq<Message>)
    requires (exists m :: m in ms && m.role in {Assistant, Tool}) || more == [] || more[0].role in {Assistant, Tool}
    ensures Preserved(ms + more) == Preserved(ms)
  {
    if ms == [] {
      assert ms + more == more;
    } else if ms[0].role in {Assistant, Tool} {
      assert (ms + more)[0] == ms[0];
    } else {
      assert (ms + more)[0] == ms[0];
      assert (ms + more)[1..] == ms[1..] + more;
      assert (exists m :: m in ms && m.role in {Assistant, Tool}) ==>
        exists m :: m in ms[1..] && m.role in {Assistant, Tool};
      PreservedIgnoresTurns(ms[1..], more);
    }
  }

  /** A message list without turns is preserved whole. */
  lemma {:induction false} PreservedWhole(ms: seq<Message>)
    requires forall m :: m in ms ==> m.role !in {Assistant, Tool}
    ensures Preserved(ms) == ms
  {
    if ms != [] {
      PreservedWhole(ms[1..]);
    }
  }

  /** A reset keeps what earlier resets kept and adds one handoff message. */
  lemma CompressMessages(c: Context, handoff: string, tokens: seq<int>)
    requires c.mask != []
    ensures Compress(c, handoff, tokens).messages == Preserved(c.messages) + [Message(User, handoff)]
    ensures Preserved(Compress(c, handoff, tokens).messages) == Compress(c, handoff, tokens).messages
  {
    PreservedIsPrefix(c.messages);
    PreservedWhole(Compress(c, handoff, tokens).messages);
  }

  /** A pending save always leads to a reset when the model has spoken: the flag is never
      lost to the comparison of the new state with the old one. */
  lemma PendingCompresses(c: Context, handoff: string, tokens: seq<int>)
    requires c.mask != []
    requires exists m :: m in c.messages && m.role.Assistant?
    ensures CheckAndCompress(c, handoff, tokens) ==
      if c.snapshot.pending then (Compress(c, handoff, tokens), true) else (c, false)
  {
    CompressMessages(c, handoff, tokens);
    PreservedIsPrefix(Compress(c, handoff, tokens).messages);
    var m :| m in c.messages && m.role.Assistant?;
    assert m !in Compress(c, handoff, tokens).messages;
  }
}
