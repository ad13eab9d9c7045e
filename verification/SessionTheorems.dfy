/** Run-level theorems about a search session, built on the invariants. */
module SessionTheorems {
  import opened Wrappers
  import opened Session
  import opened SessionProofs
  import Slices

  // ---- Runs compose ---------------------------------------------------------------

  /** The log of a run begins with the log of any shorter run. */
  lemma {:induction false} RunPrefix(cfg: Config, s: State, ops: seq<Op>, i: nat)
    requires i <= |ops|
    ensures |Run(cfg, s, ops).1| == |ops|
    ensures Run(cfg, s, ops[..i]).1 == Run(cfg, s, ops).1[..i]
    ensures i < |ops| ==>
      var before := Run(cfg, s, ops[..i]).0;
      Run(cfg, s, ops).1[i] == Apply(cfg, before, ops[i]).1
  {
    if ops != [] {
      var pre := ops[..|ops| - 1];
      if i < |ops| {
        RunPrefix(cfg, s, pre, i);
        assert pre[..i] == ops[..i];
      } else {
        RunPrefix(cfg, s, pre, |pre|);
        assert ops[..i] == ops;
      }
      if i == |ops| - 1 {
        RunPrefix(cfg, s, pre, |pre|);
        assert pre[..i] == pre;
      }
    }
  }

  // ---- The search lock ------------------------------------------------------------

  lemma {:induction false} CountNeverFalls(cfg: Config, s: State, op: Op)
    ensures Apply(cfg, s, op).0.searchCount >= s.searchCount
  {
    match op
    case Search(query, raw) => SurfaceFacts(ChargeQuery(s, query), raw);
    case _ =>
  }

  /** Once locked, a session stays locked and no later search returns anything. */
  lemma {:induction false} LockIsPermanent(cfg: Config, s: State, ops: seq<Op>)
    requires Locked(cfg, s)
    ensures Locked(cfg, Run(cfg, s, ops).0)
    ensures Run(cfg, s, ops).0.searchCount == s.searchCount
    ensures forall i :: 0 <= i < |ops| && ops[i].Search? ==>
      i < |Run(cfg, s, ops).1| && Run(cfg, s, ops).1[i] == SearchRefused(SearchLocked)
  {
    RunPrefix(cfg, s, ops, |ops|);
    if ops != [] {
      var pre := ops[..|ops| - 1];
      LockIsPermanent(cfg, s, pre);
      RunPrefix(cfg, s, pre, |pre|);
      CountNeverFalls(cfg, Run(cfg, s, pre).0, ops[|ops| - 1]);
    }
  }

  // ---- Finalization ---------------------------------------------------------------

  /** After a final ranking, no round opens and no second ranking is produced. */
  lemma {:induction false} FinalIsFinal(cfg: Config, s: State, ops: seq<Op>)
    requires s.finalized
    ensures Run(cfg, s, ops).0.finalized
    ensures forall ev :: ev in Run(cfg, s, ops).1 ==> !ev.RankingFinal? && ev != RoundOpened(true)
  {
    if ops != [] {
      var pre, op := ops[..|ops| - 1], ops[|ops| - 1];
      FinalIsFinal(cfg, s, pre);
      var s1 := Run(cfg, s, pre).0;
      if op.Search? {
        SurfaceFacts(ChargeQuery(s1, op.query), op.raw);
      }
    }
  }

  /** The filter keeps exactly the acceptable entries, in their order. */
  lemma {:induction false} FilterKeepsOrder(cfg: Config, s: State, es: seq<Entry>)
    returns (at: seq<nat>)
    ensures |at| == |FilterRanking(cfg, s, es)|
    ensures forall k :: 0 <= k < |at| ==> at[k] < |es| && FilterRanking(cfg, s, es)[k] == es[at[k]]
    ensures forall k, l :: 0 <= k < l < |at| ==> at[k] < at[l]
    ensures forall i :: 0 <= i < |es| ==> (i in at <==> Kept(cfg, s, es[i]))
  {
    at := [];
    if es != [] {
      at := FilterKeepsOrder(cfg, s, es[..|es| - 1]);
      if Kept(cfg, s, es[|es| - 1]) {
        at := at + [|es| - 1];
      }
    }
  }

  lemma {:induction false} FilterOnlyKept(cfg: Config, s: State, es: seq<Entry>)
    ensures forall e :: e in FilterRanking(cfg, s, es) ==> e in es && Kept(cfg, s, e)
  {
    if es != [] {
      FilterOnlyKept(cfg, s, es[..|es| - 1]);
    }
  }

  // ---- Provenance -----------------------------------------------------------------

  /** What a committed ranking consists of: kept entries of the request, in order, capped. */
  lemma FinalResult(cfg: Config, s: State, ranking: seq<Entry>)
    ensures var result := CommitFinalize(cfg, s, ranking).1;
      && |result| <= cfg.maxRankingSize
      && (FilterRanking(cfg, s, ranking) != [] && cfg.maxRankingSize > 0 ==> result != [])
      && forall c :: c in result ==> exists e :: e in ranking && Kept(cfg, s, e) && c == RankOne(s, e)
  {
    FilterOnlyKept(cfg, s, ranking);
    var kept := FilterRanking(cfg, s, ranking);
    var top := Slices.Take(kept, cfg.maxRankingSize);
    forall c | c in Rank(s, top)
      ensures exists e :: e in ranking && Kept(cfg, s, e) && c == RankOne(s, e)
    {
      var k :| 0 <= k < |top| && c == RankOne(s, top[k]);
      assert top[k] in kept;
    }
  }

  ghost predicate GoodRanking(cfg: Config, earlier: seq<Event>, result: seq<SavedChunk>) {
    && |result| <= cfg.maxRankingSize
    && (cfg.maxRankingSize > 0 ==> result != [])
    && forall c :: c in result ==>
         c.id != "" && c.id in ReturnedIds(earlier) && |c.reason| >= cfg.minReasonLength
  }

  lemma RankingIsGood(cfg: Config, s: State, log: seq<Event>, ranking: seq<Entry>)
    requires Surfaced(s, log) && Stored(s)
    requires ValidateFinalize(cfg, s, ranking) == []
    ensures GoodRanking(cfg, log, CommitFinalize(cfg, s, ranking).1)
  {
    FinalResult(cfg, s, ranking);
    assert Rankable(s) - {""} <= ReturnedIds(log);
  }

  /** Every ranked id was returned by a successful search earlier in the run; rankings
      are non-empty, capped, and only carry reasons of the required length. */
  lemma RankedIdsWereReturned(cfg: Config, ops: seq<Op>, i: nat)
    requires i < |ops|
    ensures |Run(cfg, INITIAL, ops).1| == |ops|
    ensures var log := Run(cfg, INITIAL, ops).1;
      log[i].RankingFinal? ==> GoodRanking(cfg, log[..i], log[i].result)
  {
    RunPrefix(cfg, INITIAL, ops, i);
    RunKeeps(cfg, ops[..i]);
    var (s, earlier) := Run(cfg, INITIAL, ops[..i]);
    if ops[i].Finalize? && ValidateFinalize(cfg, s, ops[i].ranking) == [] {
      RankingIsGood(cfg, s, earlier, ops[i].ranking);
    }
  }

  /** Every saved id, the empty one aside, was returned by a successful search of the run. */
  lemma SavedIdsWereReturned(cfg: Config, ops: seq<Op>, id: ChunkId)
    requires id in Run(cfg, INITIAL, ops).0.saved && id != ""
    ensures id in ReturnedIds(Run(cfg, INITIAL, ops).1)
  {
    RunKeeps(cfg, ops);
  }

  /** Validation lets an invented chunk through when its id is empty: it is then saved although no
      search returned it. The texts are as long as the tool asks for. */
  lemma EmptyIdIsSavedUnseen()
    ensures var cfg := Config(3, 20, 0.75, 2, 20, 10);
      var p := SaveParams([Entry("", "on topic and concrete")], [], [], [],
                          "One chunk looked relevant to the question asked.....", "find a second independent source");
      var s := Run(cfg, INITIAL, [OpenRound, Save(p)]).0;
      && |p.chunks[0].reason| >= 20 && |p.summary| >= 50 && |p.nextGoal| >= 30
      && "" in s.saved && "" !in s.globalSeen
  {
    var cfg := Config(3, 20, 0.75, 2, 20, 10);
    var p := SaveParams([Entry("", "on topic and concrete")], [], [], [],
                        "One chunk looked relevant to the question asked.....", "find a second independent source");
    assert [OpenRound, Save(p)][..1] == [OpenRound] && [OpenRound][..0] == [];
    var s := Run(cfg, INITIAL, [OpenRound]).0;
    assert s == StartRound(cfg, INITIAL);
    SaveAccepted(cfg, s, p);
    SaveAllFacts(s.saved - Elements(p.drop), s.storage, p.chunks);
    assert EntryIds(p.chunks)[0] == "";
  }

  /** Every saved id was returned by a search. */
  ghost predicate AllReturned(s: State) {
    s.saved.Keys <= s.globalSeen
  }

  /** In this state the operation saves an entry without an id, and no search has returned such a
      chunk. */
  predicate SavesUnseen(cfg: Config, s: State, op: Op) {
    op.Save? && ValidateSave(cfg, s, op.params) == [] && "" in EntryIds(op.params.chunks) && "" !in s.globalSeen
  }

  lemma StepReturned(cfg: Config, s: State, op: Op)
    requires AllReturned(s) && s.seen <= s.globalSeen
    ensures AllReturned(Apply(cfg, s, op).0) <==> !SavesUnseen(cfg, s, op)
  {
    match op
    case Search(query, raw) => SurfaceFacts(ChargeQuery(s, query), raw);
    case Save(p) =>
      if ValidateSave(cfg, s, p) == [] {
        SavedWereRankable(cfg, s, p);
        SaveAllFacts(s.saved - Elements(p.drop), s.storage, p.chunks);
        assert CommitSave(s, p).saved.Keys == (s.saved - Elements(p.drop)).Keys + Elements(EntryIds(p.chunks));
        assert "" in EntryIds(p.chunks) <==> "" in Elements(EntryIds(p.chunks));
        assert Rankable(s) <= s.globalSeen;
        hide ValidateSave, SaveAll, EntryIds, Elements, Rankable;
      }
    case _ =>
  }

  ghost predicate AllReturnedAt(cfg: Config, ops: seq<Op>, i: nat)
    requires i <= |ops|
  {
    AllReturned(Run(cfg, INITIAL, ops[..i]).0)
  }

  predicate SavesUnseenAt(cfg: Config, ops: seq<Op>, i: nat)
    requires i < |ops|
  {
    SavesUnseen(cfg, Run(cfg, INITIAL, ops[..i]).0, ops[i])
  }

  lemma SamePrefix(cfg: Config, ops: seq<Op>, i: nat)
    requires i < |ops|
    ensures var pre := ops[..|ops| - 1];
      && AllReturnedAt(cfg, pre, i) == AllReturnedAt(cfg, ops, i)
      && (i < |pre| ==> SavesUnseenAt(cfg, pre, i) == SavesUnseenAt(cfg, ops, i))
  {
    hide AllReturned, SavesUnseen;
    assert ops[..|ops| - 1][..i] == ops[..i];
  }

  lemma LastReturned(cfg: Config, ops: seq<Op>)
    requires ops != []
    ensures var n := |ops| - 1;
      AllReturnedAt(cfg, ops, n) ==> (AllReturnedAt(cfg, ops, n + 1) <==> !SavesUnseenAt(cfg, ops, n))
  {
    hide Apply, AllReturned, SavesUnseen;
    var n := |ops| - 1;
    var s := Run(cfg, INITIAL, ops[..n]).0;
    RunKeeps(cfg, ops[..n]);
    assert ops[..n + 1] == ops;
    if AllReturned(s) {
      StepReturned(cfg, s, ops[n]);
    }
  }

  lemma NothingSaved(cfg: Config, ops: seq<Op>)
    ensures AllReturnedAt(cfg, ops, 0)
  {
  }

  /** Over every run: all ids that are ever saved had been returned by a search exactly when no
      accepted save carries an entry without an id before a search has returned one. */
  lemma {:induction false} SavedAreReturnedExactly(cfg: Config, ops: seq<Op>)
    ensures (forall i :: 0 <= i <= |ops| ==> AllReturnedAt(cfg, ops, i))
      <==> (forall i :: 0 <= i < |ops| ==> !SavesUnseenAt(cfg, ops, i))
  {
    hide AllReturnedAt, SavesUnseenAt;
    if ops == [] {
      NothingSaved(cfg, ops);
    } else {
      var n := |ops| - 1;
      var pre := ops[..n];
      SavedAreReturnedExactly(cfg, pre);
      forall i | 0 <= i <= n
        ensures AllReturnedAt(cfg, pre, i) == AllReturnedAt(cfg, ops, i)
        ensures i < n ==> SavesUnseenAt(cfg, pre, i) == SavesUnseenAt(cfg, ops, i)
      {
        SamePrefix(cfg, ops, i);
      }
      LastReturned(cfg, ops);
    }
  }

  // ---- Fidelity of content ---------------------------------------------------------

  /** Every search of the run reads one fixed corpus. */
  ghost predicate FromCorpus(corpus: ChunkId -> string, raw: seq<Chunk>) {
    forall c :: c in raw && c.id.Some? ==> c.content == corpus(c.id.value)
  }

  ghost predicate RunFromCorpus(corpus: ChunkId -> string, ops: seq<Op>) {
    forall op :: op in ops && op.Search? ==> FromCorpus(corpus, op.raw)
  }

  ghost predicate Faithful(corpus: ChunkId -> string, s: State) {
    && (forall id :: id in s.storage ==> s.storage[id].content == corpus(id))
    && (forall id :: id in s.saved && id != "" ==> s.saved[id].content == corpus(id))
  }

  lemma SearchFaithful(cfg: Config, corpus: ChunkId -> string, s: State, query: string, raw: seq<Chunk>)
    requires Stored(s) && Faithful(corpus, s) && FromCorpus(corpus, raw)
    ensures Faithful(corpus, HandleSearch(cfg, s, query, raw).0)
  {
    var c := ChargeQuery(s, query);
    SurfaceFacts(c, raw);
    SurfaceStorage(c, raw);
    var st := Surface(c, raw).0.storage;
    forall id | id in st ensures st[id].content == corpus(id) {
      if st[id] in raw {
        assert st[id].id == Some(id);
      }
    }
  }

  lemma SaveFaithful(cfg: Config, corpus: ChunkId -> string, s: State, p: SaveParams)
    requires Stored(s) && s.pending == s.advanced && Faithful(corpus, s)
    requires ValidateSave(cfg, s, p) == []
    ensures Faithful(corpus, CommitSave(s, p))
  {
    SaveAccepted(cfg, s, p);
    SaveAllFacts(s.saved - Elements(p.drop), s.storage, p.chunks);
    var m := SaveAll(s.saved - Elements(p.drop), s.storage, p.chunks);
    forall id | id in m && id != "" ensures m[id].content == corpus(id) {
      if id in Elements(EntryIds(p.chunks)) {
        var i :| 0 <= i < |p.chunks| && p.chunks[i].id == id && m[id] == SaveOne(s.storage, p.chunks[i]);
        assert id in s.storage;
      }
    }
  }

  lemma StepFaithful(cfg: Config, corpus: ChunkId -> string, s: State, op: Op)
    requires Stored(s) && s.pending == s.advanced && Faithful(corpus, s)
    requires op.Search? ==> FromCorpus(corpus, op.raw)
    ensures Faithful(corpus, Apply(cfg, s, op).0)
  {
    match op
    case Search(query, raw) => SearchFaithful(cfg, corpus, s, query, raw);
    case Save(p) => if ValidateSave(cfg, s, p) == [] { SaveFaithful(cfg, corpus, s, p); }
    case _ =>
  }

  lemma {:induction false} RunFaithful(cfg: Config, corpus: ChunkId -> string, ops: seq<Op>)
    requires RunFromCorpus(corpus, ops)
    ensures Faithful(corpus, Run(cfg, INITIAL, ops).0)
  {
    if ops != [] {
      var pre := ops[..|ops| - 1];
      RunFaithful(cfg, corpus, pre);
      RunKeeps(cfg, pre);
      StepFaithful(cfg, corpus, Run(cfg, INITIAL, pre).0, ops[|ops| - 1]);
    }
  }

  /** Exactly when a rankable id is ranked with its corpus content: it is saved, or still
      in the store, or has no content to lose. */
  lemma RankedContentExactly(cfg: Config, corpus: ChunkId -> string, ops: seq<Op>, e: Entry)
    requires RunFromCorpus(corpus, ops)
    requires e.id in Rankable(Run(cfg, INITIAL, ops).0) && e.id != ""
    ensures var s := Run(cfg, INITIAL, ops).0;
      && (RankOne(s, e).content == corpus(e.id) <==>
            e.id in s.saved || e.id in s.storage || corpus(e.id) == "")
      && (!s.pending ==> RankOne(s, e).content == corpus(e.id))
  {
    RunFaithful(cfg, corpus, ops);
    RunKeeps(cfg, ops);
  }

  /** A ranking produced while no compression is pending carries corpus content throughout. */
  lemma FinalRankingIsFaithful(cfg: Config, corpus: ChunkId -> string, ops: seq<Op>, i: nat)
    requires RunFromCorpus(corpus, ops)
    requires i < |ops| && !Run(cfg, INITIAL, ops[..i]).0.pending
    ensures |Run(cfg, INITIAL, ops).1| == |ops|
    ensures var ev := Run(cfg, INITIAL, ops).1[i];
      ev.RankingFinal? ==> forall c :: c in ev.result ==> c.content == corpus(c.id)
  {
    RunPrefix(cfg, INITIAL, ops, i);
    var s := Run(cfg, INITIAL, ops[..i]).0;
    if ops[i].Finalize? {
      RunKeeps(cfg, ops[..i]);
      FinalResult(cfg, s, ops[i].ranking);
      forall c | c in CommitFinalize(cfg, s, ops[i].ranking).1 ensures c.content == corpus(c.id) {
        var e :| e in ops[i].ranking && Kept(cfg, s, e) && c == RankOne(s, e);
        RankedContentExactly(cfg, corpus, ops[..i], e);
      }
    }
  }

  /** In the same round as a save, an id that was seen but not saved and not searched again
      is still accepted by the ranking filter, and is ranked without its content. */
  lemma SavedRoundLosesContent(
    cfg: Config, corpus: ChunkId -> string, ops: seq<Op>, p: SaveParams, e: Entry)
    requires RunFromCorpus(corpus, ops)
    requires var s := Run(cfg, INITIAL, ops).0;
      && ValidateSave(cfg, s, p) == []
      && e.id in s.seen && e.id !in s.saved && e.id !in EntryIds(p.chunks)
      && e.id != "" && |e.reason| >= cfg.minReasonLength && corpus(e.id) != ""
    ensures var s1 := CommitSave(Run(cfg, INITIAL, ops).0, p);
      && Kept(cfg, s1, e)
      && RankOne(s1, e).content == "" != corpus(e.id)
  {
    var s := Run(cfg, INITIAL, ops).0;
    SaveAllFacts(s.saved - Elements(p.drop), s.storage, p.chunks);
  }

  // ---- Locked turns --------------------------------------------------------------------

  /** Searches refused for the lock since the last search that went through or the last save. */
  function LockedSince(start: nat, log: seq<Event>): nat {
    if log == [] then start
    else
      var before := LockedSince(start, log[..|log| - 1]);
      LockedAfter(before, log[|log| - 1])
  }

  function LockedAfter(before: nat, ev: Event): nat {
    match ev
    case SearchRefused(SearchLocked) => before + 1
    case Searched(_, _) => 0
    case SaveCommitted => 0
    case _ => before
  }

  lemma LockedStep(cfg: Config, s: State, op: Op)
    ensures var (t, ev) := Apply(cfg, s, op); t.lockedTurns == LockedAfter(s.lockedTurns, ev)
  {
    if op.Search? {
      SurfaceFacts(ChargeQuery(s, op.query), op.raw);
    }
  }

  /** The session's counter of locked turns is what its replies say. */
  lemma {:induction false} LockedTurnsAre(cfg: Config, s: State, ops: seq<Op>)
    ensures Run(cfg, s, ops).0.lockedTurns == LockedSince(s.lockedTurns, Run(cfg, s, ops).1)
  {
    if ops != [] {
      var pre, op := ops[..|ops| - 1], ops[|ops| - 1];
      LockedTurnsAre(cfg, s, pre);
      var (t, log) := Run(cfg, s, pre);
      assert Run(cfg, s, ops).1[..|log|] == log;
      LockedStep(cfg, t, op);
      hide Apply, LockedAfter;
    }
  }

  /** Only a final ranking finalizes, and only opening a round changes the round. */
  lemma {:induction false} TurnEnds(cfg: Config, s: State, ops: seq<Op>)
    requires forall op :: op in ops ==> !op.OpenRound?
    ensures Run(cfg, s, ops).0.round == s.round
    ensures Run(cfg, s, ops).0.finalized <==> s.finalized || exists ev :: ev in Run(cfg, s, ops).1 && ev.RankingFinal?
  {
    if ops != [] {
      var pre, op := ops[..|ops| - 1], ops[|ops| - 1];
      TurnEnds(cfg, s, pre);
      var (t, log) := Run(cfg, s, pre);
      if op.Search? {
        SurfaceFacts(ChargeQuery(t, op.query), op.raw);
      }
      var (t1, ev) := Apply(cfg, t, op);
      assert Run(cfg, s, ops) == (t1, log + [ev]);
      assert t1.finalized <==> t.finalized || ev.RankingFinal?;
      FinalIn(log, ev);
    }
  }

  lemma FinalIn(log: seq<Event>, ev: Event)
    ensures (exists e :: e in log + [ev] && e.RankingFinal?)
      <==> ev.RankingFinal? || exists e :: e in log && e.RankingFinal?
  {
    if ev.RankingFinal? {
      assert ev in log + [ev];
    }
    if e :| e in log && e.RankingFinal? {
      assert e in log + [ev];
    }
  }

  /** Whatever calls a turn makes, in whatever order: before the last round the next round opens
      exactly when no ranking is final and the searches refused for the lock since the last
      search that went through or the last save stay below the limit. */
  lemma NextRoundOpensExactly(cfg: Config, s: State, ops: seq<Op>)
    requires s.round < cfg.maxRounds && forall op :: op in ops ==> !op.OpenRound?
    ensures var (t, log) := Run(cfg, s, ops);
      CanStartRound(cfg, t) <==>
        && !s.finalized && (forall ev :: ev in log ==> !ev.RankingFinal?)
        && LockedSince(s.lockedTurns, log) < cfg.maxConsecutiveLocked
  {
    LockedTurnsAre(cfg, s, ops);
    TurnEnds(cfg, s, ops);
  }

  lemma {:induction false} LockedTurnsAddUp(cfg: Config, s: State, search: Op, n: nat)
    requires search.Search? && Locked(cfg, s)
    ensures Run(cfg, s, Slices.Fill(n, search)).0 == s.(lockedTurns := s.lockedTurns + n)
  {
    if n > 0 {
      assert Slices.Fill(n, search)[..n - 1] == Slices.Fill(n - 1, search);
      LockedTurnsAddUp(cfg, s, search, n - 1);
    }
  }

  /** Turns that fail, for every limit: a save followed in the same turn, while the budget is locked,
      by n searches lets the next round open exactly when n is below the limit. */
  lemma LockedTurnsBlockTheNextRound(cfg: Config, s: State, p: SaveParams, search: Op, n: nat)
    requires search.Search? && Locked(cfg, s) && !s.finalized
    requires ValidateSave(cfg, s, p) == []
    ensures CanStartRound(cfg, Run(cfg, CommitSave(s, p), Slices.Fill(n, search)).0)
      <==> n < cfg.maxConsecutiveLocked
  {
    SaveAccepted(cfg, s, p);
    LockedTurnsAddUp(cfg, CommitSave(s, p), search, n);
  }
}
