/** The search session as a pure state machine: the fields of a session, one
    transition function per operation, and the operations the tools expose.
    `SearchAgentSession` refines it with a mutable object. */
module Session {
  import opened Wrappers
  import Slices
  import Text

  type ChunkId = string

  /** A raw search result; `content` and `score` already carry the program's
      defaults for a missing key. */
  datatype Chunk = Chunk(id: Option<ChunkId>, content: string, score: real)

  datatype SavedChunk = SavedChunk(id: ChunkId, content: string, reason: string, score: real)

  datatype RoundSummary = RoundSummary(
    round: int, queries: seq<string>, savedIds: seq<ChunkId>, summary: string, nextGoal: string)

  datatype Config = Config(
    maxRounds: int,
    searchBudget: int,
    hardLockThreshold: real,
    maxConsecutiveLocked: int,
    minReasonLength: nat,
    maxRankingSize: nat)

  datatype State = State(
    saved: map<ChunkId, SavedChunk>,
    summaries: seq<RoundSummary>,
    covered: set<string>,
    unresolved: set<string>,
    globalSeen: set<ChunkId>,
    searchCount: nat,
    history: set<string>,
    storage: map<ChunkId, Chunk>,
    round: int,
    seen: set<ChunkId>,
    queries: seq<string>,
    lockedTurns: nat,
    advanced: bool,
    finalized: bool,
    pending: bool)

  /** One entry of `saved_chunks` or of `ranking`. */
  datatype Entry = Entry(id: ChunkId, reason: string)

  datatype SaveParams = SaveParams(
    chunks: seq<Entry>,
    drop: seq<ChunkId>,
    covered: seq<string>,
    unresolved: seq<string>,
    summary: string,
    nextGoal: string)

  datatype SearchError = SearchLocked | DuplicateQuery

  datatype SaveError =
    | AlreadyAdvanced
    | LastRound
    | NoChunks
    | UnknownChunks(ids: seq<ChunkId>)
    | SavedAndDropped
    | CoveredAndUnresolved

  datatype FinalizeError = AlreadyFinalized | NoRanking | NothingKept

  const INITIAL := State(map[], [], {}, {}, {}, 0, {}, map[], 0, {}, [], 0, false, false, false)

  // ---- Queries ---------------------------------------------------------------

  predicate Locked(cfg: Config, s: State) {
    s.searchCount as real >= cfg.hardLockThreshold * cfg.searchBudget as real
  }

  predicate Terminated(cfg: Config, s: State) {
    s.finalized || s.lockedTurns >= cfg.maxConsecutiveLocked
  }

  predicate InLastRound(cfg: Config, s: State) {
    s.round >= cfg.maxRounds
  }

  function Rankable(s: State): set<ChunkId> {
    s.seen + s.saved.Keys
  }

  // ---- start_round -----------------------------------------------------------

  predicate CanStartRound(cfg: Config, s: State) {
    !Terminated(cfg, s) && s.round < cfg.maxRounds
  }

  function StartRound(cfg: Config, s: State): State {
    if CanStartRound(cfg, s) then
      s.(round := s.round + 1, seen := {}, queries := [], advanced := false, pending := false)
    else
      s
  }

  // ---- handle_search ---------------------------------------------------------

  /** What one raw result does to the session, and whether it is surfaced. */
  function SurfaceOne(s: State, c: Chunk): (State, seq<Chunk>) {
    if c.id.None? then (s, [])
    else
      var s1 := s.(storage := s.storage[c.id.value := c]);
      if c.id.value in s.saved || c.id.value in s.seen then (s1, [])
      else (s1.(seen := s.seen + {c.id.value}, globalSeen := s.globalSeen + {c.id.value}), [c])
  }

  /** All raw results, first to last. */
  function Surface(s: State, raw: seq<Chunk>): (State, seq<Chunk>) {
    if raw == [] then (s, [])
    else
      var (s1, out) := Surface(s, raw[..|raw| - 1]);
      var (s2, one) := SurfaceOne(s1, raw[|raw| - 1]);
      (s2, out + one)
  }

  function ChargeQuery(s: State, query: string): State {
    s.(history := s.history + {Text.Normalize(query)},
       searchCount := s.searchCount + 1,
       queries := s.queries + [query],
       lockedTurns := 0)
  }

  function HandleSearch(cfg: Config, s: State, query: string, raw: seq<Chunk>)
    : (State, Result<seq<Chunk>, SearchError>)
  {
    if Locked(cfg, s) then (s.(lockedTurns := s.lockedTurns + 1), Err(SearchLocked))
    else if Text.Normalize(query) in s.history then (s, Err(DuplicateQuery))
    else
      var (s1, out) := Surface(ChargeQuery(s, query), raw);
      (s1, Ok(out))
  }

  // ---- save_and_advance ------------------------------------------------------

  function EntryIds(es: seq<Entry>): seq<ChunkId> {
    seq(|es|, i requires 0 <= i < |es| => es[i].id)
  }

  /** Non-empty ids of `es` outside `allowed`, in order. */
  function UnknownIds(es: seq<Entry>, allowed: set<ChunkId>): seq<ChunkId> {
    if es == [] then []
    else
      var rest := UnknownIds(es[..|es| - 1], allowed);
      var id := es[|es| - 1].id;
      if id != "" && id !in allowed then rest + [id] else rest
  }

  predicate SavesAndDrops(p: SaveParams) {
    exists i :: 0 <= i < |p.chunks| && p.chunks[i].id != "" && p.chunks[i].id in p.drop
  }

  predicate ConceptsOverlap(p: SaveParams) {
    exists i :: 0 <= i < |p.covered| && p.covered[i] in p.unresolved
  }

  function When(b: bool, e: SaveError): seq<SaveError> {
    if b then [e] else []
  }

  function ValidateSave(cfg: Config, s: State, p: SaveParams): seq<SaveError> {
    var unknown := UnknownIds(p.chunks, Rankable(s));
    When(s.advanced, AlreadyAdvanced)
    + When(InLastRound(cfg, s), LastRound)
    + When(p.chunks == [], NoChunks)
    + When(unknown != [], UnknownChunks(unknown))
    + When(SavesAndDrops(p), SavedAndDropped)
    + When(ConceptsOverlap(p), CoveredAndUnresolved)
  }

  function SaveOne(storage: map<ChunkId, Chunk>, e: Entry): SavedChunk {
    if e.id in storage then SavedChunk(e.id, storage[e.id].content, e.reason, storage[e.id].score)
    else SavedChunk(e.id, "", e.reason, 0.0)
  }

  /** `saved` after writing the entries first to last. */
  function SaveAll(saved: map<ChunkId, SavedChunk>, storage: map<ChunkId, Chunk>, es: seq<Entry>)
    : map<ChunkId, SavedChunk>
  {
    if es == [] then saved
    else
      var e := es[|es| - 1];
      SaveAll(saved, storage, es[..|es| - 1])[e.id := SaveOne(storage, e)]
  }

  function Elements<T>(xs: seq<T>): set<T> {
    set x | x in xs
  }

  function CommitSave(s: State, p: SaveParams): State {
    var saved := SaveAll(s.saved - Elements(p.drop), s.storage, p.chunks);
    var covered := s.covered + Elements(p.covered);
    s.(saved := saved,
       covered := covered,
       unresolved := s.unresolved + Elements(p.unresolved) - covered,
       summaries := s.summaries
         + [RoundSummary(s.round, s.queries, EntryIds(p.chunks), p.summary, p.nextGoal)],
       storage := map id | id in s.storage && id in saved :: s.storage[id],
       advanced := true,
       lockedTurns := 0,
       pending := true)
  }

  // ---- finalize_ranking ------------------------------------------------------

  predicate Kept(cfg: Config, s: State, e: Entry) {
    e.id != "" && e.id in Rankable(s) && |e.reason| >= cfg.minReasonLength
  }

  function FilterRanking(cfg: Config, s: State, es: seq<Entry>): seq<Entry> {
    if es == [] then []
    else
      var rest := FilterRanking(cfg, s, es[..|es| - 1]);
      if Kept(cfg, s, es[|es| - 1]) then rest + [es[|es| - 1]] else rest
  }

  function ValidateFinalize(cfg: Config, s: State, ranking: seq<Entry>): seq<FinalizeError> {
    (if s.finalized then [AlreadyFinalized] else [])
    + (if ranking == [] then [NoRanking]
       else if FilterRanking(cfg, s, ranking) == [] then [NothingKept]
       else [])
  }

  /** The ranked chunk for a kept entry: saved content first, then this round's storage. */
  function RankOne(s: State, e: Entry): SavedChunk {
    if e.id in s.saved then s.saved[e.id].(reason := e.reason)
    else SaveOne(s.storage, e)
  }

  function Rank(s: State, es: seq<Entry>): seq<SavedChunk> {
    seq(|es|, i requires 0 <= i < |es| => RankOne(s, es[i]))
  }

  function CommitFinalize(cfg: Config, s: State, ranking: seq<Entry>): (State, seq<SavedChunk>) {
    (s.(finalized := true), Rank(s, Slices.Take(FilterRanking(cfg, s, ranking), cfg.maxRankingSize)))
  }

  // ---- The operations a rollout performs on a session -------------------------

  /** What the loop and the three tools ask of a session. */
  datatype Op =
    | OpenRound
    | Search(query: string, raw: seq<Chunk>)
    | Save(params: SaveParams)
    | Finalize(ranking: seq<Entry>)

  /** What one operation reports. */
  datatype Event =
    | RoundOpened(started: bool)
    | Searched(query: string, returned: seq<Chunk>)
    | SearchRefused(why: SearchError)
    | SaveCommitted
    | SaveRejected(errors: seq<SaveError>)
    | RankingFinal(result: seq<SavedChunk>)
    | RankingRejected(reasons: seq<FinalizeError>)

  /** Validate-then-commit, as the tools do it. */
  function Apply(cfg: Config, s: State, op: Op): (State, Event) {
    match op
    case OpenRound => (StartRound(cfg, s), RoundOpened(CanStartRound(cfg, s)))
    case Search(query, raw) =>
      var (s1, r) := HandleSearch(cfg, s, query, raw);
      (s1, match r case Ok(out) => Searched(query, out) case Err(e) => SearchRefused(e))
    case Save(p) =>
      var errors := ValidateSave(cfg, s, p);
      if errors != [] then (s, SaveRejected(errors)) else (CommitSave(s, p), SaveCommitted)
    case Finalize(ranking) =>
      var errors := ValidateFinalize(cfg, s, ranking);
      if errors != [] then (s, RankingRejected(errors))
      else
        var (s1, result) := CommitFinalize(cfg, s, ranking);
        (s1, RankingFinal(result))
  }

  /** The state and the log after a sequence of operations. */
  function Run(cfg: Config, s: State, ops: seq<Op>): (State, seq<Event>) {
    if ops == [] then (s, [])
    else
      var (s1, log) := Run(cfg, s, ops[..|ops| - 1]);
      var (s2, ev) := Apply(cfg, s1, ops[|ops| - 1]);
      (s2, log + [ev])
  }
}
