/** What every run of a search session guarantees, whatever the operations and
    whatever the corpus returns: accounting, lock permanence, surfacing,
    provenance of ids, and fidelity of ranked content. */
module SessionProofs {
  import opened Wrappers
  import opened Session
  import Text

  // ---- Reading a log ---------------------------------------------------------

  function IdOf(c: Chunk): ChunkId {
    if c.id.Some? then c.id.value else ""
  }

  function Ids(cs: seq<Chunk>): seq<ChunkId> {
    seq(|cs|, i requires 0 <= i < |cs| => IdOf(cs[i]))
  }

  /** Ids returned by any successful search of the log. */
  function ReturnedIds(log: seq<Event>): set<ChunkId> {
    if log == [] then {}
    else
      var rest := ReturnedIds(log[..|log| - 1]);
      match log[|log| - 1]
      case Searched(_, out) => rest + Elements(Ids(out))
      case _ => rest
  }

  /** Ids returned since the last round was opened, in order. */
  function RoundIds(log: seq<Event>): seq<ChunkId> {
    if log == [] then []
    else
      match log[|log| - 1]
      case RoundOpened(true) => []
      case Searched(_, out) => RoundIds(log[..|log| - 1]) + Ids(out)
      case _ => RoundIds(log[..|log| - 1])
  }

  /** Normalized queries of the successful searches, in order. */
  function Queries(log: seq<Event>): seq<string> {
    if log == [] then []
    else
      var rest := Queries(log[..|log| - 1]);
      match log[|log| - 1]
      case Searched(query, _) => rest + [Text.Normalize(query)]
      case _ => rest
  }

  ghost predicate Distinct<T>(xs: seq<T>) {
    forall i, j :: 0 <= i < j < |xs| ==> xs[i] != xs[j]
  }

  // ---- The invariants ----------------------------------------------------------

  /** The least integer not below `x`. */
  function Ceil(x: real): int {
    if x.Floor as real == x then x.Floor else x.Floor + 1
  }

  /** The most searches a configuration ever charges. */
  function MaxSearches(cfg: Config): int {
    var c := Ceil(cfg.hardLockThreshold * cfg.searchBudget as real);
    if c < 0 then 0 else c
  }

  ghost predicate Accounted(cfg: Config, s: State, log: seq<Event>) {
    && s.searchCount == |s.history| == |Queries(log)|
    && Distinct(Queries(log))
    && s.history == Elements(Queries(log))
    && s.searchCount <= MaxSearches(cfg)
    && s.covered !! s.unresolved
  }

  ghost predicate Summarized(cfg: Config, s: State) {
    && (forall i, j :: 0 <= i < j < |s.summaries| ==> s.summaries[i].round < s.summaries[j].round)
    && (forall i :: 0 <= i < |s.summaries| ==>
          && s.summaries[i].round < cfg.maxRounds
          && (if s.advanced then s.summaries[i].round <= s.round else s.summaries[i].round < s.round))
    && s.pending == s.advanced
    && (s.advanced ==> s.round < cfg.maxRounds)
  }

  ghost predicate Surfaced(s: State, log: seq<Event>) {
    && s.globalSeen == ReturnedIds(log)
    && Distinct(RoundIds(log))
    && s.seen == Elements(RoundIds(log))
    && s.seen <= s.globalSeen
    && s.saved.Keys - {""} <= s.globalSeen
  }

  /** Every id that can be ranked has stored content, unless a compression is pending. */
  ghost predicate Stored(s: State) {
    && (forall id :: id in s.saved ==> s.saved[id].id == id)
    && (forall id :: id in s.storage ==> s.storage[id].id == Some(id))
    && s.saved.Keys - {""} <= s.storage.Keys
    && (!s.pending ==> s.seen <= s.storage.Keys)
  }

  ghost predicate Inv(cfg: Config, s: State, log: seq<Event>) {
    Accounted(cfg, s, log) && Summarized(cfg, s) && Surfaced(s, log) && Stored(s)
  }

  // ---- Surfacing ----------------------------------------------------------------

  /** What one search surfaces: known ids only, none twice, none saved or seen before. */
  lemma {:induction false} SurfaceFacts(s: State, raw: seq<Chunk>)
    ensures var (s1, out) := Surface(s, raw);
      && s1 == s.(storage := s1.storage, seen := s1.seen, globalSeen := s1.globalSeen)
      && s1.seen == s.seen + Elements(Ids(out))
      && s1.globalSeen == s.globalSeen + Elements(Ids(out))
      && Distinct(Ids(out))
      && Elements(Ids(out)) !! s.seen
      && Elements(Ids(out)) !! s.saved.Keys
      && (forall c :: c in out ==> c.id.Some? && c in raw)
  {
    if raw != [] {
      var pre := raw[..|raw| - 1];
      SurfaceFacts(s, pre);
      var (s1, out) := Surface(s, pre);
      var (s2, one) := SurfaceOne(s1, raw[|raw| - 1]);
      assert Ids(out + one) == Ids(out) + Ids(one);
      if one != [] {
        assert IdOf(one[0]) !in s1.seen;
        assert Ids(out + one) == Ids(out) + [IdOf(one[0])];
        assert Elements(Ids(out + one)) == Elements(Ids(out)) + {IdOf(one[0])};
      } else {
        assert out + one == out;
      }
    }
  }

  /** The store keeps what it had, gains every raw id, and each entry is keyed by its own id. */
  lemma {:induction false} SurfaceStorage(s: State, raw: seq<Chunk>)
    requires forall id :: id in s.storage ==> s.storage[id].id == Some(id)
    ensures var st := Surface(s, raw).0.storage;
      && s.storage.Keys <= st.Keys
      && (forall id :: id in st ==> st[id].id == Some(id))
      && (forall id :: id in st ==> st[id] in raw || (id in s.storage && st[id] == s.storage[id]))
      && (forall i :: 0 <= i < |raw| && raw[i].id.Some? ==> raw[i].id.value in st)
  {
    if raw != [] {
      SurfaceStorage(s, raw[..|raw| - 1]);
    }
  }

  lemma {:induction false} ElementsConcat<T>(xs: seq<T>, ys: seq<T>)
    ensures Elements(xs + ys) == Elements(xs) + Elements(ys)
  {
    forall x | x in Elements(xs) + Elements(ys) ensures x in xs + ys {
    }
  }

  // ---- Each operation keeps the invariants ----------------------------------------

  lemma SearchAccounted(cfg: Config, s: State, log: seq<Event>, query: string, raw: seq<Chunk>)
    requires Accounted(cfg, s, log)
    requires !Locked(cfg, s) && Text.Normalize(query) !in s.history
    ensures var (s1, out) := Surface(ChargeQuery(s, query), raw);
      Accounted(cfg, s1, log + [Searched(query, out)])
  {
    var c := ChargeQuery(s, query);
    var (s1, out) := Surface(c, raw);
    var log1 := log + [Searched(query, out)];
    SurfaceFacts(c, raw);
    assert log1[..|log1| - 1] == log;
    assert Queries(log1) == Queries(log) + [Text.Normalize(query)];
    SearchCharged(s, log, Text.Normalize(query));
    ChargeWithinCap(cfg, s);
  }

  lemma SearchSurfaced(s: State, log: seq<Event>, query: string, raw: seq<Chunk>)
    requires Surfaced(s, log)
    ensures var (s1, out) := Surface(s, raw);
      Surfaced(s1, log + [Searched(query, out)])
  {
    var (s1, out) := Surface(s, raw);
    var log1 := log + [Searched(query, out)];
    SurfaceFacts(s, raw);
    assert log1[..|log1| - 1] == log;
    var before, added := RoundIds(log), Ids(out);
    assert RoundIds(log1) == before + added;
    ElementsConcat(before, added);
    forall i, j | 0 <= i < j < |before + added| ensures (before + added)[i] != (before + added)[j] {
      if i < |before| <= j {
        assert before[i] in Elements(before);
        assert added[j - |before|] in Elements(added);
      }
    }
  }

  lemma SearchStored(s: State, raw: seq<Chunk>)
    requires Stored(s)
    ensures Stored(Surface(s, raw).0)
  {
    SurfaceFacts(s, raw);
    SurfaceStorage(s, raw);
    SurfaceCovers(s, raw);
  }

  lemma SearchKeeps(cfg: Config, s: State, log: seq<Event>, query: string, raw: seq<Chunk>)
    requires Inv(cfg, s, log)
    ensures var (s1, ev) := Apply(cfg, s, Search(query, raw));
      Inv(cfg, s1, log + [ev])
  {
    var (s1, ev) := Apply(cfg, s, Search(query, raw));
    if ev.Searched? {
      var c := ChargeQuery(s, query);
      SearchAccounted(cfg, s, log, query, raw);
      SearchSurfaced(c, log, query, raw);
      SearchStored(c, raw);
      SurfaceFacts(c, raw);
      assert Summarized(cfg, s1);
    } else {
      QuietKeeps(cfg, s, log, s1, ev);
    }
  }

  /** An event that is neither a search nor a new round leaves every reading of the log alone. */
  lemma QuietKeeps(cfg: Config, s: State, log: seq<Event>, s1: State, ev: Event)
    requires Inv(cfg, s, log)
    requires !ev.Searched? && ev != RoundOpened(true)
    requires s1 == s.(lockedTurns := s1.lockedTurns, finalized := s1.finalized)
    ensures Inv(cfg, s1, log + [ev])
  {
    var log1 := log + [ev];
    assert log1[..|log1| - 1] == log;
    assert Accounted(cfg, s1, log1);
    assert Surfaced(s1, log1);
  }

  lemma BelowCeil(n: int, x: real)
    requires n as real < x
    ensures n + 1 <= Ceil(x)
  {
    assert x.Floor as real <= x;
  }

  /** A search that is charged was not locked, so it stays within the cap. */
  lemma ChargeWithinCap(cfg: Config, s: State)
    requires !Locked(cfg, s)
    ensures s.searchCount + 1 <= MaxSearches(cfg)
  {
    BelowCeil(s.searchCount, cfg.hardLockThreshold * cfg.searchBudget as real);
  }

  /** A charged search adds a new query to the history. */
  lemma SearchCharged(s: State, log: seq<Event>, q: string)
    requires Distinct(Queries(log)) && s.history == Elements(Queries(log))
    requires q !in s.history
    ensures Distinct(Queries(log) + [q])
    ensures s.history + {q} == Elements(Queries(log) + [q])
  {
    ElementsConcat(Queries(log), [q]);
    assert Elements([q]) == {q};
    forall i | 0 <= i < |Queries(log)| ensures Queries(log)[i] != q {
      assert Queries(log)[i] in Elements(Queries(log));
    }
  }

  /** Every surfaced id ends up in the store. */
  lemma SurfaceCovers(s: State, raw: seq<Chunk>)
    requires forall id :: id in s.storage ==> s.storage[id].id == Some(id)
    ensures Elements(Ids(Surface(s, raw).1)) <= Surface(s, raw).0.storage.Keys
  {
    SurfaceFacts(s, raw);
    SurfaceStorage(s, raw);
    var out := Surface(s, raw).1;
    forall id | id in Elements(Ids(out)) ensures id in Surface(s, raw).0.storage {
      var i :| 0 <= i < |Ids(out)| && Ids(out)[i] == id;
      assert out[i] in out;
      var j :| 0 <= j < |raw| && raw[j] == out[i];
    }
  }

  lemma {:induction false} SaveAllFacts(
    saved: map<ChunkId, SavedChunk>, storage: map<ChunkId, Chunk>, es: seq<Entry>)
    ensures var m := SaveAll(saved, storage, es);
      && m.Keys == saved.Keys + Elements(EntryIds(es))
      && (forall id :: id in m && id !in Elements(EntryIds(es)) ==> m[id] == saved[id])
      && (forall id :: id in Elements(EntryIds(es)) ==>
            exists i :: 0 <= i < |es| && es[i].id == id && m[id] == SaveOne(storage, es[i]))
  {
    if es != [] {
      var pre, e := es[..|es| - 1], es[|es| - 1];
      SaveAllFacts(saved, storage, pre);
      assert EntryIds(es) == EntryIds(pre) + [e.id];
      ElementsConcat(EntryIds(pre), [e.id]);
      assert Elements([e.id]) == {e.id};
      var m := SaveAll(saved, storage, es);
      forall id | id in Elements(EntryIds(es))
        ensures exists i :: 0 <= i < |es| && es[i].id == id && m[id] == SaveOne(storage, es[i])
      {
        if id == e.id {
          assert es[|es| - 1].id == id;
        } else {
          var i :| 0 <= i < |pre| && pre[i].id == id && SaveAll(saved, storage, pre)[id] == SaveOne(storage, pre[i]);
          assert es[i] == pre[i];
        }
      }
    }
  }

  lemma {:induction false} UnknownIdsEmpty(es: seq<Entry>, allowed: set<ChunkId>)
    requires UnknownIds(es, allowed) == []
    ensures forall i :: 0 <= i < |es| ==> es[i].id == "" || es[i].id in allowed
  {
    if es != [] {
      UnknownIdsEmpty(es[..|es| - 1], allowed);
    }
  }

  /** Exactly when a save is accepted. */
  lemma SaveAccepted(cfg: Config, s: State, p: SaveParams)
    ensures ValidateSave(cfg, s, p) == [] <==>
      && !s.advanced && s.round < cfg.maxRounds && p.chunks != []
      && (forall i :: 0 <= i < |p.chunks| ==> p.chunks[i].id == "" || p.chunks[i].id in Rankable(s))
      && !SavesAndDrops(p) && !ConceptsOverlap(p)
  {
    if UnknownIds(p.chunks, Rankable(s)) == [] {
      UnknownIdsEmpty(p.chunks, Rankable(s));
    }
    if forall i :: 0 <= i < |p.chunks| ==> p.chunks[i].id == "" || p.chunks[i].id in Rankable(s) {
      AllKnown(p.chunks, Rankable(s));
    }
  }

  lemma {:induction false} AllKnown(es: seq<Entry>, allowed: set<ChunkId>)
    requires forall i :: 0 <= i < |es| ==> es[i].id == "" || es[i].id in allowed
    ensures UnknownIds(es, allowed) == []
  {
    if es != [] {
      AllKnown(es[..|es| - 1], allowed);
    }
  }

  lemma SaveSurfaced(cfg: Config, s: State, log: seq<Event>, p: SaveParams)
    requires Surfaced(s, log) && ValidateSave(cfg, s, p) == []
    ensures Surfaced(CommitSave(s, p), log + [SaveCommitted])
  {
    var log1 := log + [SaveCommitted];
    assert log1[..|log1| - 1] == log;
    SavedWereRankable(cfg, s, p);
  }

  lemma SaveStored(cfg: Config, s: State, p: SaveParams)
    requires Stored(s) && s.pending == s.advanced && ValidateSave(cfg, s, p) == []
    ensures Stored(CommitSave(s, p))
  {
    SaveAccepted(cfg, s, p);
    SavedWereRankable(cfg, s, p);
    SaveAllFacts(s.saved - Elements(p.drop), s.storage, p.chunks);
  }

  /** An accepted save adds only rankable ids, the empty one aside. */
  lemma SavedWereRankable(cfg: Config, s: State, p: SaveParams)
    requires ValidateSave(cfg, s, p) == []
    ensures CommitSave(s, p).saved.Keys - {""} <= Rankable(s)
  {
    SaveAccepted(cfg, s, p);
    SaveAllFacts(s.saved - Elements(p.drop), s.storage, p.chunks);
    var s1 := CommitSave(s, p);
    forall id | id in s1.saved.Keys - {""} ensures id in Rankable(s) {
      if id in Elements(EntryIds(p.chunks)) {
        var i :| 0 <= i < |p.chunks| && EntryIds(p.chunks)[i] == id;
        assert p.chunks[i].id == id;
      }
    }
  }

  lemma SaveSummarized(cfg: Config, s: State, p: SaveParams)
    requires Summarized(cfg, s) && ValidateSave(cfg, s, p) == []
    ensures Summarized(cfg, CommitSave(s, p))
  {
    SaveAccepted(cfg, s, p);
  }

  lemma SaveKeeps(cfg: Config, s: State, log: seq<Event>, p: SaveParams)
    requires Inv(cfg, s, log)
    ensures var (s1, ev) := Apply(cfg, s, Save(p));
      Inv(cfg, s1, log + [ev])
  {
    var (s1, ev) := Apply(cfg, s, Save(p));
    if ev.SaveCommitted? {
      var log1 := log + [ev];
      assert log1[..|log1| - 1] == log;
      SaveSurfaced(cfg, s, log, p);
      SaveStored(cfg, s, p);
      SaveSummarized(cfg, s, p);
      assert Accounted(cfg, s1, log1);
    } else {
      QuietKeeps(cfg, s, log, s1, ev);
    }
  }

  lemma OpenKeeps(cfg: Config, s: State, log: seq<Event>)
    requires Inv(cfg, s, log)
    ensures Inv(cfg, StartRound(cfg, s), log + [RoundOpened(CanStartRound(cfg, s))])
  {
    var log1 := log + [RoundOpened(CanStartRound(cfg, s))];
    assert log1[..|log1| - 1] == log;
    assert Accounted(cfg, StartRound(cfg, s), log1);
    assert Surfaced(StartRound(cfg, s), log1);
  }

  lemma StepKeeps(cfg: Config, s: State, log: seq<Event>, op: Op)
    requires Inv(cfg, s, log)
    ensures var (s1, ev) := Apply(cfg, s, op);
      Inv(cfg, s1, log + [ev])
  {
    match op
    case Search(query, raw) => SearchKeeps(cfg, s, log, query, raw);
    case Save(p) => SaveKeeps(cfg, s, log, p);
    case OpenRound => OpenKeeps(cfg, s, log);
    case Finalize(ranking) => QuietKeeps(cfg, s, log, Apply(cfg, s, op).0, Apply(cfg, s, op).1);
  }

  /** Every run from a new session satisfies every invariant. */
  lemma {:induction false} RunKeeps(cfg: Config, ops: seq<Op>)
    ensures var (s, log) := Run(cfg, INITIAL, ops);
      Inv(cfg, s, log) && |log| == |ops|
  {
    if ops != [] {
      RunKeeps(cfg, ops[..|ops| - 1]);
      var (s, log) := Run(cfg, INITIAL, ops[..|ops| - 1]);
      StepKeeps(cfg, s, log, ops[|ops| - 1]);
    }
  }
}
