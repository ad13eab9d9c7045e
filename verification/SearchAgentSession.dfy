/** The session object and the three tools: methods that update fields in place,
    each proved against the transition function of module `Session`. */
module SearchAgentSessions {
  import opened Wrappers
  import opened Session
  import opened SessionProofs
  import Text

  lemma OverlapOfSaved(p: SaveParams, savedIds: set<ChunkId>)
    requires savedIds == set e | e in p.chunks && e.id != "" :: e.id
    ensures savedIds * Elements(p.drop) != {} <==> SavesAndDrops(p)
  {
    if SavesAndDrops(p) {
      var i :| 0 <= i < |p.chunks| && p.chunks[i].id != "" && p.chunks[i].id in p.drop;
      assert p.chunks[i] in p.chunks;
      assert p.chunks[i].id in savedIds * Elements(p.drop);
    }
  }

  lemma OverlapOfConcepts(p: SaveParams)
    ensures Elements(p.covered) * Elements(p.unresolved) != {} <==> ConceptsOverlap(p)
  {
    if ConceptsOverlap(p) {
      var i :| 0 <= i < |p.covered| && p.covered[i] in p.unresolved;
      assert p.covered[i] in Elements(p.covered) * Elements(p.unresolved);
    }
  }

  class SearchAgentSession {
    const cfg: Config

    // Survives context resets
    var persistentSaved: map<ChunkId, SavedChunk>
    var roundSummaries: seq<RoundSummary>
    var coveredConcepts: set<string>
    var unresolvedConcepts: set<string>
    var globalSeenChunkIds: set<ChunkId>
    var searchCount: nat
    var queryHistory: set<string>
    var chunksSeenStorage: map<ChunkId, Chunk>

    // Reset when a round opens
    var currentRound: int
    var seenThisRound: set<ChunkId>
    var queriesThisRound: seq<string>
    var consecutiveLockedTurns: nat
    var advancedThisRound: bool

    var finalizeCalled: bool
    var pendingCompression: bool

    /** The abstract state, which is also the snapshot handed to the context manager. */
    function View(): State
      reads this
    {
      State(persistentSaved, roundSummaries, coveredConcepts, unresolvedConcepts, globalSeenChunkIds,
            searchCount, queryHistory, chunksSeenStorage, currentRound, seenThisRound, queriesThisRound,
            consecutiveLockedTurns, advancedThisRound, finalizeCalled, pendingCompression)
    }

    constructor (cfg: Config)
      ensures View() == INITIAL && this.cfg == cfg
    {
      this.cfg := cfg;
      persistentSaved, roundSummaries := map[], [];
      coveredConcepts, unresolvedConcepts, globalSeenChunkIds := {}, {}, {};
      searchCount, queryHistory, chunksSeenStorage := 0, {}, map[];
      currentRound, seenThisRound, queriesThisRound := 0, {}, [];
      consecutiveLockedTurns, advancedThisRound := 0, false;
      finalizeCalled, pendingCompression := false, false;
    }

    predicate IsLastRound()
      reads this
    {
      currentRound >= cfg.maxRounds
    }

    predicate IsSearchLocked()
      reads this
    {
      searchCount as real >= cfg.hardLockThreshold * cfg.searchBudget as real
    }

    predicate IsTerminated()
      reads this
    {
      finalizeCalled || consecutiveLockedTurns >= cfg.maxConsecutiveLocked
    }

    method StartRound() returns (started: bool)
      modifies this
      ensures View() == Session.StartRound(cfg, old(View()))
      ensures started == CanStartRound(cfg, old(View()))
    {
      if IsTerminated() || currentRound >= cfg.maxRounds {
        return false;
      }
      currentRound := currentRound + 1;
      seenThisRound := {};
      queriesThisRound := [];
      advancedThisRound := false;
      pendingCompression := false;
      return true;
    }

    method HandleSearch(query: string, raw: seq<Chunk>) returns (r: Result<seq<Chunk>, SearchError>)
      modifies this
      ensures (View(), r) == Session.HandleSearch(cfg, old(View()), query, raw)
    {
      hide Surface, Text.Normalize;
      if IsSearchLocked() {
        consecutiveLockedTurns := consecutiveLockedTurns + 1;
        return Err(SearchLocked);
      }
      var normalized := Text.Normalize(query);
      if normalized in queryHistory {
        return Err(DuplicateQuery);
      }
      queryHistory := queryHistory + {normalized};
      searchCount := searchCount + 1;
      queriesThisRound := queriesThisRound + [query];
      consecutiveLockedTurns := 0;
      var filtered := SurfaceResults(raw);
      r := Ok(filtered);
    }

    /** The result loop of `HandleSearch`: store every chunk, surface the fresh ones. */
    method SurfaceResults(raw: seq<Chunk>) returns (filtered: seq<Chunk>)
      modifies this
      ensures (View(), filtered) == Surface(old(View()), raw)
    {
      filtered := [];
      for k := 0 to |raw|
        invariant (View(), filtered) == Surface(old(View()), raw[..k])
      {
        assert raw[..k + 1][..k] == raw[..k];
        ghost var before, shown := View(), filtered;
        var result := raw[k];
        if result.id.Some? {
          var id := result.id.value;
          chunksSeenStorage := chunksSeenStorage[id := result];
          if id !in persistentSaved && id !in seenThisRound {
            filtered := filtered + [result];
            seenThisRound := seenThisRound + {id};
            globalSeenChunkIds := globalSeenChunkIds + {id};
          }
        }
        assert View() == SurfaceOne(before, raw[k]).0;
        assert filtered == shown + SurfaceOne(before, raw[k]).1;
      }
      assert raw[..|raw|] == raw;
    }

    /** Rule (1) of the save check: the ids that are neither seen this round nor saved. */
    method CollectUnknown(chunks: seq<Entry>) returns (unknown: seq<ChunkId>)
      ensures unknown == UnknownIds(chunks, Rankable(View()))
    {
      var allowed := seenThisRound + persistentSaved.Keys;
      unknown := [];
      for k := 0 to |chunks|
        invariant unknown == UnknownIds(chunks[..k], allowed)
      {
        assert chunks[..k + 1][..k] == chunks[..k];
        if chunks[k].id != "" && chunks[k].id !in allowed {
          unknown := unknown + [chunks[k].id];
        }
      }
      assert chunks[..|chunks|] == chunks;
    }

    method ValidateSaveAndAdvance(p: SaveParams) returns (errors: seq<SaveError>)
      ensures errors == ValidateSave(cfg, View(), p)
    {
      errors := When(advancedThisRound, AlreadyAdvanced) + When(IsLastRound(), LastRound)
        + When(p.chunks == [], NoChunks);
      var unknown := CollectUnknown(p.chunks);
      errors := errors + When(unknown != [], UnknownChunks(unknown));
      var savedIds := set e | e in p.chunks && e.id != "" :: e.id;
      OverlapOfSaved(p, savedIds);
      errors := errors + When(savedIds * Elements(p.drop) != {}, SavedAndDropped);
      OverlapOfConcepts(p);
      errors := errors + When(Elements(p.covered) * Elements(p.unresolved) != {}, CoveredAndUnresolved);
    }

    /** The first two loops of `CommitSaveAndAdvance`: pop the drops, then write the entries. */
    method DropAndSave(drop: seq<ChunkId>, chunks: seq<Entry>)
      modifies this`persistentSaved
      ensures persistentSaved == SaveAll(old(persistentSaved) - Elements(drop), chunksSeenStorage, chunks)
    {
      for k := 0 to |drop|
        invariant persistentSaved == old(persistentSaved) - Elements(drop[..k])
      {
        persistentSaved := persistentSaved - {drop[k]};
        assert drop[..k + 1] == drop[..k] + [drop[k]];
        ElementsConcat(drop[..k], [drop[k]]);
        assert Elements([drop[k]]) == {drop[k]};
      }
      assert drop[..|drop|] == drop;
      ghost var kept := persistentSaved;
      for k := 0 to |chunks|
        invariant persistentSaved == SaveAll(kept, chunksSeenStorage, chunks[..k])
      {
        assert chunks[..k + 1][..k] == chunks[..k];
        var entry := chunks[k];
        persistentSaved := persistentSaved[entry.id := SaveOne(chunksSeenStorage, entry)];
      }
      assert chunks[..|chunks|] == chunks;
    }

    /** The middle of `CommitSaveAndAdvance`: concepts, the round's summary, and the store. */
    method CloseRound(p: SaveParams)
      modifies this`coveredConcepts, this`unresolvedConcepts, this`roundSummaries, this`chunksSeenStorage
      ensures coveredConcepts == old(coveredConcepts) + Elements(p.covered)
      ensures unresolvedConcepts == old(unresolvedConcepts) + Elements(p.unresolved) - coveredConcepts
      ensures roundSummaries == old(roundSummaries)
        + [RoundSummary(currentRound, queriesThisRound, EntryIds(p.chunks), p.summary, p.nextGoal)]
      ensures chunksSeenStorage ==
        map id | id in old(chunksSeenStorage) && id in persistentSaved :: old(chunksSeenStorage)[id]
    {
      coveredConcepts := coveredConcepts + Elements(p.covered);
      unresolvedConcepts := unresolvedConcepts + Elements(p.unresolved);
      unresolvedConcepts := unresolvedConcepts - coveredConcepts;
      roundSummaries := roundSummaries
        + [RoundSummary(currentRound, queriesThisRound, EntryIds(p.chunks), p.summary, p.nextGoal)];
      chunksSeenStorage := map id | id in chunksSeenStorage && id in persistentSaved :: chunksSeenStorage[id];
    }

    method CommitSaveAndAdvance(p: SaveParams)
      modifies this
      ensures View() == CommitSave(old(View()), p)
    {
      hide SaveAll, EntryIds, Elements;
      ghost var after := CommitSave(View(), p);
      DropAndSave(p.drop, p.chunks);
      CloseRound(p);
      assert persistentSaved == after.saved && chunksSeenStorage == after.storage;
      advancedThisRound := true;
      consecutiveLockedTurns := 0;
      pendingCompression := true;
    }

    method FilterRanking(ranking: seq<Entry>) returns (kept: seq<Entry>)
      ensures kept == Session.FilterRanking(cfg, View(), ranking)
    {
      var allowed := seenThisRound + persistentSaved.Keys;
      kept := [];
      for k := 0 to |ranking|
        invariant kept == Session.FilterRanking(cfg, View(), ranking[..k])
      {
        assert ranking[..k + 1][..k] == ranking[..k];
        var entry := ranking[k];
        if entry.id != "" && entry.id in allowed && |entry.reason| >= cfg.minReasonLength {
          kept := kept + [entry];
        }
      }
      assert ranking[..|ranking|] == ranking;
    }

    method ValidateFinalizeRanking(ranking: seq<Entry>) returns (errors: seq<FinalizeError>)
      ensures errors == ValidateFinalize(cfg, View(), ranking)
    {
      errors := [];
      if finalizeCalled {
        errors := [AlreadyFinalized];
      }
      if ranking == [] {
        errors := errors + [NoRanking];
      } else {
        var kept := FilterRanking(ranking);
        if kept == [] {
          errors := errors + [NothingKept];
        }
      }
    }

    method CommitFinalizeRanking(ranking: seq<Entry>) returns (result: seq<SavedChunk>)
      modifies this
      ensures (View(), result) == CommitFinalize(cfg, old(View()), ranking)
    {
      var kept := FilterRanking(ranking);
      if |kept| > cfg.maxRankingSize {
        kept := kept[..cfg.maxRankingSize];
      }
      result := [];
      for k := 0 to |kept|
        invariant result == Rank(View(), kept[..k])
      {
        var entry := kept[k];
        var base := if entry.id in persistentSaved then persistentSaved[entry.id]
                    else SaveOne(chunksSeenStorage, Entry(entry.id, ""));
        result := result + [base.(reason := entry.reason)];
        assert kept[..k + 1] == kept[..k] + [kept[k]];
      }
      assert kept[..|kept|] == kept;
      finalizeCalled := true;
    }
  }

  // ---- The tools -------------------------------------------------------------------

  /** A parsed tool call. `Malformed` stands for an unknown tool, arguments that are not
      JSON, or arguments that break the tool's schema. */
  datatype ToolCall =
    | Malformed(toolName: string)
    | SearchCorpus(query: string, raw: seq<Chunk>)
    | SaveAndAdvance(params: SaveParams)
    | FinalizeRanking(ranking: seq<Entry>)

  /** The tool a call names, which the loop looks at even when the call is malformed. */
  function NameOf(call: ToolCall): string {
    match call
    case Malformed(name) => name
    case SearchCorpus(_, _) => "search_corpus"
    case SaveAndAdvance(_) => "save_and_advance"
    case FinalizeRanking(_) => "finalize_ranking"
  }

  /** The session operation a call amounts to, if it gets that far. */
  function OpOf(call: ToolCall): Option<Op> {
    match call
    case Malformed(_) => None
    case SearchCorpus(query, raw) =>
      if Text.Strip(query) == "" then None else Some(Search(Text.Strip(query), raw))
    case SaveAndAdvance(p) => Some(Save(p))
    case FinalizeRanking(ranking) => Some(Finalize(ranking))
  }

  /** The `execute` methods: refuse early, or validate and then commit. */
  method Execute(session: SearchAgentSession, call: ToolCall) returns (reply: Option<Event>)
    modifies session
    ensures OpOf(call).None? ==> session.View() == old(session.View())
    ensures OpOf(call).Some? <==> reply.Some?
    ensures reply.Some? ==>
      (session.View(), reply.value) == Apply(session.cfg, old(session.View()), OpOf(call).value)
  {
    match call
    case Malformed(_) =>
      reply := None;
    case SearchCorpus(rawQuery, raw) =>
      var query := Text.Strip(rawQuery);
      if query == "" {
        return None;
      }
      var r := session.HandleSearch(query, raw);
      reply := Some(match r case Ok(filtered) => Searched(query, filtered) case Err(e) => SearchRefused(e));
    case SaveAndAdvance(p) =>
      var errors := session.ValidateSaveAndAdvance(p);
      if errors != [] {
        return Some(SaveRejected(errors));
      }
      session.CommitSaveAndAdvance(p);
      reply := Some(SaveCommitted);
    case FinalizeRanking(ranking) =>
      var errors := session.ValidateFinalizeRanking(ranking);
      if errors != [] {
        return Some(RankingRejected(errors));
      }
      var result := session.CommitFinalizeRanking(ranking);
      reply := Some(RankingFinal(result));
  }
}
