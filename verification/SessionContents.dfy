/** What a session holds, entry by entry: which results a search surfaces and stores, what a save
    writes, and what a final ranking is made of. */
module SessionContents {
  import opened Wrappers
  import opened Session
  import opened SessionProofs
  import opened SessionTheorems
  import Slices
  import Text

  // ---- Searches --------------------------------------------------------------------------------

  /** The i-th result is the first with its id, and the id is neither seen this round nor saved. */
  ghost predicate Fresh(s: State, raw: seq<Chunk>, i: nat)
    requires i < |raw|
  {
    && raw[i].id.Some? && raw[i].id.value !in s.seen && raw[i].id.value !in s.saved
    && forall j :: 0 <= j < i ==> raw[j].id != raw[i].id
  }

  /** Ids of the results, whether surfaced or not. */
  ghost function RawIds(raw: seq<Chunk>): set<ChunkId> {
    set c | c in raw && c.id.Some? :: c.id.value
  }

  lemma RawIdsSnoc(pre: seq<Chunk>, c: Chunk)
    ensures RawIds(pre + [c]) == RawIds(pre) + if c.id.Some? then {c.id.value} else {}
  {
  }

  lemma IdsOfOne(out: seq<Chunk>, one: seq<Chunk>)
    requires |one| <= 1 && forall c :: c in one ==> c.id.Some?
    ensures Elements(Ids(out + one)) == Elements(Ids(out)) + if one == [] then {} else {one[0].id.value}
  {
    assert Ids(out + one) == Ids(out) + Ids(one);
    ElementsConcat(Ids(out), Ids(one));
    if one != [] {
      assert Ids(one) == [one[0].id.value];
    }
  }

  /** A search surfaces every id that is neither seen this round nor saved, whatever earlier rounds
      have seen. */
  lemma {:induction false} SurfacedIds(s: State, raw: seq<Chunk>)
    ensures Elements(Ids(Surface(s, raw).1)) == RawIds(raw) - s.seen - s.saved.Keys
  {
    if raw != [] {
      var pre, last := raw[..|raw| - 1], raw[|raw| - 1];
      SurfacedIds(s, pre);
      SurfaceFacts(s, pre);
      var (s1, out) := Surface(s, pre);
      IdsOfOne(out, SurfaceOne(s1, last).1);
      RawIdsSnoc(pre, last);
      assert raw == pre + [last];
      hide RawIds, Ids, Elements;
    }
  }

  /** It surfaces the fresh results and no others, in the order they came. */
  lemma {:induction false} SurfacedExactly(s: State, raw: seq<Chunk>) returns (at: seq<nat>)
    ensures var out := Surface(s, raw).1;
      && |at| == |out|
      && (forall k :: 0 <= k < |at| ==> at[k] < |raw| && out[k] == raw[at[k]])
      && (forall k, l :: 0 <= k < l < |at| ==> at[k] < at[l])
    ensures forall i: nat :: i < |raw| ==> (i in at <==> Fresh(s, raw, i))
  {
    at := [];
    if raw != [] {
      var n := |raw| - 1;
      at := SurfacedExactly(s, raw[..n]);
      SurfacedIds(s, raw[..n]);
      SurfaceFacts(s, raw[..n]);
      LastFresh(s, raw, Surface(s, raw[..n]).0);
      FreshBefore(s, raw);
      hide Fresh;
      if Fresh(s, raw, n) {
        at := at + [n];
      }
    }
  }

  lemma LastFresh(s: State, raw: seq<Chunk>, t: State)
    requires raw != [] && t.saved == s.saved
    requires t.seen == s.seen + (RawIds(raw[..|raw| - 1]) - s.seen - s.saved.Keys)
    ensures SurfaceOne(t, raw[|raw| - 1]).1 == if Fresh(s, raw, |raw| - 1) then [raw[|raw| - 1]] else []
  {
    var n := |raw| - 1;
    if raw[n].id.Some? {
      var id := raw[n].id.value;
      if id in RawIds(raw[..n]) {
        var c :| c in raw[..n] && c.id == Some(id);
        var j :| 0 <= j < n && raw[j] == c;
      } else {
        forall j | 0 <= j < n ensures raw[j].id != raw[n].id {
          assert raw[j] in raw[..n];
        }
      }
    }
  }

  lemma FreshBefore(s: State, raw: seq<Chunk>)
    requires raw != []
    ensures forall i: nat :: i < |raw| - 1 ==> (Fresh(s, raw[..|raw| - 1], i) <==> Fresh(s, raw, i))
  {
  }

  lemma StoreSnoc(s: State, raw: seq<Chunk>)
    requires raw != []
    ensures var c, st := raw[|raw| - 1], Surface(s, raw[..|raw| - 1]).0.storage;
      Surface(s, raw).0.storage == if c.id.Some? then st[c.id.value := c] else st
  {
  }

  /** The i-th result is the last with its id. */
  ghost predicate LastResult(raw: seq<Chunk>, i: nat)
    requires i < |raw|
  {
    raw[i].id.Some? && forall j :: i < j < |raw| ==> raw[j].id != raw[i].id
  }

  lemma {:induction false} StoredLast(s: State, raw: seq<Chunk>, i: nat)
    requires i < |raw| && LastResult(raw, i)
    ensures var st := Surface(s, raw).0.storage;
      raw[i].id.value in st && st[raw[i].id.value] == raw[i]
  {
    StoreSnoc(s, raw);
    if i < |raw| - 1 {
      StoredLast(s, raw[..|raw| - 1], i);
    }
    hide Surface;
  }

  lemma {:induction false} StoredBefore(s: State, raw: seq<Chunk>, id: ChunkId)
    requires forall c :: c in raw ==> c.id != Some(id)
    ensures var st := Surface(s, raw).0.storage;
      (id in st <==> id in s.storage) && (id in st ==> st[id] == s.storage[id])
  {
    if raw != [] {
      StoreSnoc(s, raw);
      StoredBefore(s, raw[..|raw| - 1], id);
    }
  }

  /** The store holds, under every id of the results, the last result with that id, and is
      otherwise as before. */
  lemma StoredExactly(s: State, raw: seq<Chunk>)
    ensures var st := Surface(s, raw).0.storage;
      && (forall i :: 0 <= i < |raw| && LastResult(raw, i) ==>
            raw[i].id.value in st && st[raw[i].id.value] == raw[i])
      && (forall id :: id !in RawIds(raw) ==>
            (id in st <==> id in s.storage) && (id in st ==> st[id] == s.storage[id]))
  {
    forall i | 0 <= i < |raw| && LastResult(raw, i)
      ensures raw[i].id.value in Surface(s, raw).0.storage
      ensures Surface(s, raw).0.storage[raw[i].id.value] == raw[i]
    {
      StoredLast(s, raw, i);
    }
    forall id | id !in RawIds(raw)
      ensures id in Surface(s, raw).0.storage <==> id in s.storage
      ensures id in s.storage ==> Surface(s, raw).0.storage[id] == s.storage[id]
    {
      StoredBefore(s, raw, id);
    }
    hide Surface, LastResult, RawIds;
  }

  /** A search goes through exactly when the distinct queries so far are below the threshold and
      this is not one of them; the lock is looked at first. */
  lemma SearchedExactly(cfg: Config, ops: seq<Op>, query: string, raw: seq<Chunk>)
    ensures var (s, log) := Run(cfg, INITIAL, ops);
      var ev := Apply(cfg, s, Search(query, raw)).1;
      var locked := |Queries(log)| as real >= cfg.hardLockThreshold * cfg.searchBudget as real;
      && (ev == SearchRefused(SearchLocked) <==> locked)
      && (ev == SearchRefused(DuplicateQuery) <==> !locked && Text.Normalize(query) in Queries(log))
      && (ev.Searched? <==> !locked && Text.Normalize(query) !in Queries(log))
      && (ev.Searched? ==> ev.query == query)
  {
    RunKeeps(cfg, ops);
    SearchOutcome(cfg, Run(cfg, INITIAL, ops).0, query, raw);
    hide Run, Apply, Surfaced, Summarized, Stored, Queries, Text.Normalize;
  }

  lemma SearchOutcome(cfg: Config, s: State, query: string, raw: seq<Chunk>)
    ensures var ev := Apply(cfg, s, Search(query, raw)).1;
      if s.searchCount as real >= cfg.hardLockThreshold * cfg.searchBudget as real then
        ev == SearchRefused(SearchLocked)
      else if Text.Normalize(query) in s.history then ev == SearchRefused(DuplicateQuery)
      else ev.Searched? && ev.query == query
  {
    hide Surface, Text.Normalize;
  }

  // ---- Saves -------------------------------------------------------------------------------------

  /** The i-th entry is the last one for its id. */
  ghost predicate LastEntry(es: seq<Entry>, i: nat)
    requires i < |es|
  {
    forall j :: i < j < |es| ==> es[j].id != es[i].id
  }

  /** A save removes the dropped ids, writes the last entry for every id with the reason given and
      the content and score of the store, and keeps the rest; the store keeps what is saved. */
  lemma SavedExactly(s: State, p: SaveParams)
    ensures var t := CommitSave(s, p);
      && (forall i :: 0 <= i < |p.chunks| && LastEntry(p.chunks, i) ==>
            SavedAs(t.saved, p.chunks[i], s.storage))
      && (forall id :: (forall e :: e in p.chunks ==> e.id != id) ==>
            && (id in t.saved <==> id in s.saved && id !in p.drop)
            && (id in t.saved ==> t.saved[id] == s.saved[id]))
      && (forall id :: id in t.storage <==> id in s.storage && id in t.saved)
      && (forall id :: id in t.storage ==> t.storage[id] == s.storage[id])
  {
    var kept := s.saved - Elements(p.drop);
    forall i | 0 <= i < |p.chunks| && LastEntry(p.chunks, i)
      ensures SavedAs(CommitSave(s, p).saved, p.chunks[i], s.storage)
    {
      SavedLast(kept, s.storage, p.chunks, i);
    }
    forall id | forall e :: e in p.chunks ==> e.id != id
      ensures id in CommitSave(s, p).saved <==> id in s.saved && id !in p.drop
      ensures id in CommitSave(s, p).saved ==> CommitSave(s, p).saved[id] == s.saved[id]
    {
      SavedBefore(kept, s.storage, p.chunks, id);
    }
    hide SaveAll, SavedAs, LastEntry;
  }

  /** The entry is saved, with its reason and what the store has for it. */
  ghost predicate SavedAs(saved: map<ChunkId, SavedChunk>, e: Entry, storage: map<ChunkId, Chunk>) {
    && e.id in saved && saved[e.id].id == e.id && saved[e.id].reason == e.reason
    && saved[e.id].content == (if e.id in storage then storage[e.id].content else "")
    && saved[e.id].score == (if e.id in storage then storage[e.id].score else 0.0)
  }

  lemma {:induction false} SavedLast(
    saved: map<ChunkId, SavedChunk>, storage: map<ChunkId, Chunk>, es: seq<Entry>, i: nat)
    requires i < |es| && LastEntry(es, i)
    ensures SavedAs(SaveAll(saved, storage, es), es[i], storage)
  {
    if i < |es| - 1 {
      SavedLast(saved, storage, es[..|es| - 1], i);
    }
  }

  lemma {:induction false} SavedBefore(
    saved: map<ChunkId, SavedChunk>, storage: map<ChunkId, Chunk>, es: seq<Entry>, id: ChunkId)
    requires forall e :: e in es ==> e.id != id
    ensures var m := SaveAll(saved, storage, es);
      (id in m <==> id in saved) && (id in m ==> m[id] == saved[id])
  {
    if es != [] {
      SavedBefore(saved, storage, es[..|es| - 1], id);
    }
  }

  /** Each rule of the save check is reported exactly when it is broken. */
  lemma SaveErrorsExactly(cfg: Config, s: State, p: SaveParams)
    ensures var errors := ValidateSave(cfg, s, p);
      && (AlreadyAdvanced in errors <==> s.advanced)
      && (LastRound in errors <==> s.round >= cfg.maxRounds)
      && (NoChunks in errors <==> p.chunks == [])
      && (SavedAndDropped in errors <==> exists e :: e in p.chunks && e.id != "" && e.id in p.drop)
      && (CoveredAndUnresolved in errors <==> exists x :: x in p.covered && x in p.unresolved)
  {
    OverlapsAre(p);
    hide UnknownIds, SavesAndDrops, ConceptsOverlap, Rankable;
    var unknown := UnknownIds(p.chunks, Rankable(s));
    ErrorsIn(s.advanced, InLastRound(cfg, s), p.chunks == [], unknown != [], UnknownChunks(unknown),
             SavesAndDrops(p), ConceptsOverlap(p));
    hide When;
  }

  lemma OverlapsAre(p: SaveParams)
    ensures SavesAndDrops(p) <==> exists e :: e in p.chunks && e.id != "" && e.id in p.drop
    ensures ConceptsOverlap(p) <==> exists x :: x in p.covered && x in p.unresolved
  {
  }

  lemma ErrorsIn(a: bool, b: bool, c: bool, d: bool, unknown: SaveError, e: bool, f: bool)
    requires unknown.UnknownChunks?
    ensures var errors := When(a, AlreadyAdvanced) + When(b, LastRound) + When(c, NoChunks) + When(d, unknown)
        + When(e, SavedAndDropped) + When(f, CoveredAndUnresolved);
      && (AlreadyAdvanced in errors <==> a) && (LastRound in errors <==> b) && (NoChunks in errors <==> c)
      && (SavedAndDropped in errors <==> e) && (CoveredAndUnresolved in errors <==> f)
  {
  }

  /** The ids of a save that are neither seen this round nor saved, the empty one aside. */
  ghost function UnknownTo(s: State, p: SaveParams): set<ChunkId> {
    set e | e in p.chunks && e.id != "" && e.id !in s.seen && e.id !in s.saved :: e.id
  }

  /** Unknown ids are reported together, all of them and no others, if there are any. */
  lemma UnknownExactly(cfg: Config, s: State, p: SaveParams)
    ensures forall ids :: UnknownChunks(ids) in ValidateSave(cfg, s, p) ==> Elements(ids) == UnknownTo(s, p)
    ensures UnknownTo(s, p) != {} <==> exists ids :: UnknownChunks(ids) in ValidateSave(cfg, s, p)
  {
    var unknown := UnknownIds(p.chunks, Rankable(s));
    UnknownAre(p.chunks, Rankable(s));
    assert Elements(unknown) == UnknownTo(s, p);
    assert unknown != [] ==> unknown[0] in Elements(unknown);
    hide UnknownTo, UnknownIds, SavesAndDrops, ConceptsOverlap, Rankable;
    assert forall ids :: UnknownChunks(ids) in ValidateSave(cfg, s, p) <==> unknown != [] && ids == unknown;
  }

  lemma {:induction false} UnknownAre(es: seq<Entry>, allowed: set<ChunkId>)
    ensures Elements(UnknownIds(es, allowed)) == set e | e in es && e.id != "" && e.id !in allowed :: e.id
  {
    if es != [] {
      var pre, e := es[..|es| - 1], es[|es| - 1];
      UnknownAre(pre, allowed);
      assert es == pre + [e];
      ElementsConcat(UnknownIds(pre, allowed), [e.id]);
      assert Elements([e.id]) == {e.id};
    }
  }

  // ---- The ledger of a run ----------------------------------------------------------------------------

  /** Rounds opened. */
  function Rounds(log: seq<Event>): nat {
    if log == [] then 0 else Rounds(log[..|log| - 1]) + if log[|log| - 1] == RoundOpened(true) then 1 else 0
  }

  /** The searches that went through since the last round was opened. */
  function RoundQueries(log: seq<Event>): seq<string> {
    if log == [] then []
    else
      match log[|log| - 1]
      case RoundOpened(true) => []
      case Searched(query, _) => RoundQueries(log[..|log| - 1]) + [query]
      case _ => RoundQueries(log[..|log| - 1])
  }

  /** The accepted saves of a run, each with what the log says about its round. */
  function Ledger(log: seq<Event>, ops: seq<Op>): seq<(RoundSummary, SaveParams)>
    requires |log| == |ops|
  {
    if ops == [] then []
    else
      var n := |ops| - 1;
      var before := Ledger(log[..n], ops[..n]);
      if ops[n].Save? && log[n].SaveCommitted? then
        var p := ops[n].params;
        var queries := RoundQueries(log[..n]);
        before + [(RoundSummary(Rounds(log[..n]), queries, EntryIds(p.chunks), p.summary, p.nextGoal), p)]
      else before
  }

  /** Concepts that some of the saves call covered, or unresolved. */
  ghost function EverCovered(saves: seq<(RoundSummary, SaveParams)>): set<string> {
    set k, x | 0 <= k < |saves| && x in saves[k].1.covered :: x
  }

  ghost function EverUnresolved(saves: seq<(RoundSummary, SaveParams)>): set<string> {
    set k, x | 0 <= k < |saves| && x in saves[k].1.unresolved :: x
  }

  /** The session's round, its queries and its record of saves are those of the log, and a concept
      is unresolved exactly when some save called it so and none called it covered. */
  ghost predicate Recorded(s: State, log: seq<Event>, ops: seq<Op>)
    requires |log| == |ops|
  {
    var saves := Ledger(log, ops);
    && s.round == Rounds(log) && s.queries == RoundQueries(log)
    && |s.summaries| == |saves| && (forall k :: 0 <= k < |saves| ==> s.summaries[k] == saves[k].0)
    && s.covered == EverCovered(saves) && s.unresolved == EverUnresolved(saves) - EverCovered(saves)
  }

  lemma OneMoreSave(saves: seq<(RoundSummary, SaveParams)>, save: (RoundSummary, SaveParams))
    ensures EverCovered(saves + [save]) == EverCovered(saves) + Elements(save.1.covered)
    ensures EverUnresolved(saves + [save]) == EverUnresolved(saves) + Elements(save.1.unresolved)
  {
    var all := saves + [save];
    forall x | x in EverCovered(saves) + Elements(save.1.covered) ensures x in EverCovered(all) {
      if x in EverCovered(saves) {
        var k :| 0 <= k < |saves| && x in saves[k].1.covered;
        assert all[k] == saves[k];
      } else {
        assert all[|saves|] == save;
      }
    }
    forall x | x in EverUnresolved(saves) + Elements(save.1.unresolved) ensures x in EverUnresolved(all) {
      if x in EverUnresolved(saves) {
        var k :| 0 <= k < |saves| && x in saves[k].1.unresolved;
        assert all[k] == saves[k];
      } else {
        assert all[|saves|] == save;
      }
    }
  }

  lemma StepRecorded(cfg: Config, s: State, log: seq<Event>, ops: seq<Op>, op: Op)
    requires |log| == |ops| && Recorded(s, log, ops)
    ensures var (t, ev) := Apply(cfg, s, op);
      Recorded(t, log + [ev], ops + [op])
  {
    var (t, ev) := Apply(cfg, s, op);
    if op.Save? && ev.SaveCommitted? {
      SaveRecorded(s, log, ops, op.params);
    } else {
      OpEffect(cfg, s, op);
      QuietRecorded(s, log, ops, t, ev, op);
    }
    hide Recorded, ValidateSave, CommitSave;
  }

  /** Nothing but an accepted save changes the record of saves and concepts, and only an opened
      round or a search changes the round and its queries. */
  lemma OpEffect(cfg: Config, s: State, op: Op)
    ensures var (t, ev) := Apply(cfg, s, op);
      !ev.SaveCommitted? ==>
        && t.summaries == s.summaries && t.covered == s.covered && t.unresolved == s.unresolved
        && t.round == s.round + (if ev == RoundOpened(true) then 1 else 0)
        && t.queries == (if ev == RoundOpened(true) then []
                         else if ev.Searched? then s.queries + [ev.query] else s.queries)
  {
    hide ValidateSave, CommitSave, ValidateFinalize;
    if op.Search? {
      SurfaceFacts(ChargeQuery(s, op.query), op.raw);
    }
  }

  lemma QuietRecorded(s: State, log: seq<Event>, ops: seq<Op>, t: State, ev: Event, op: Op)
    requires |log| == |ops| && Recorded(s, log, ops) && !(op.Save? && ev.SaveCommitted?)
    requires t.summaries == s.summaries && t.covered == s.covered && t.unresolved == s.unresolved
    requires t.round == s.round + (if ev == RoundOpened(true) then 1 else 0)
    requires t.queries == (if ev == RoundOpened(true) then []
                           else if ev.Searched? then s.queries + [ev.query] else s.queries)
    ensures Recorded(t, log + [ev], ops + [op])
  {
    var log1, ops1 := log + [ev], ops + [op];
    assert log1[..|log|] == log && ops1[..|ops|] == ops;
    hide EverCovered, EverUnresolved;
  }

  lemma SaveRecorded(s: State, log: seq<Event>, ops: seq<Op>, p: SaveParams)
    requires |log| == |ops| && Recorded(s, log, ops)
    ensures Recorded(CommitSave(s, p), log + [SaveCommitted], ops + [Save(p)])
  {
    var log1, ops1 := log + [SaveCommitted], ops + [Save(p)];
    assert log1[..|log|] == log && ops1[..|ops|] == ops;
    var saves := Ledger(log, ops);
    var save := (RoundSummary(Rounds(log), RoundQueries(log), EntryIds(p.chunks), p.summary, p.nextGoal), p);
    assert Ledger(log1, ops1) == saves + [save];
    OneMoreSave(saves, save);
    hide EverCovered, EverUnresolved, SaveAll, Elements, EntryIds, Ledger;
    var covered := EverCovered(saves) + Elements(p.covered);
    assert EverUnresolved(saves) - EverCovered(saves) + Elements(p.unresolved) - covered
      == EverUnresolved(saves) + Elements(p.unresolved) - covered;
  }

  /** Over every run, the session's record is what its log says. */
  lemma {:induction false} RunRecorded(cfg: Config, ops: seq<Op>)
    ensures var (s, log) := Run(cfg, INITIAL, ops);
      |log| == |ops| && Recorded(s, log, ops)
  {
    if ops != [] {
      var n := |ops| - 1;
      RunRecorded(cfg, ops[..n]);
      var (s, log) := Run(cfg, INITIAL, ops[..n]);
      StepRecorded(cfg, s, log, ops[..n], ops[n]);
      assert ops[..n] + [ops[n]] == ops;
      hide Recorded, Apply;
    }
  }

  // ---- Final rankings ------------------------------------------------------------------------------------

  /** An entry that the final ranking accepts. */
  ghost predicate Acceptable(cfg: Config, s: State, e: Entry) {
    e.id != "" && (e.id in s.seen || e.id in s.saved) && |e.reason| >= cfg.minReasonLength
  }

  /** A ranking is accepted exactly when it is the first and holds an acceptable entry. */
  lemma FinalizedExactly(cfg: Config, s: State, ranking: seq<Entry>)
    ensures ValidateFinalize(cfg, s, ranking) == [] <==>
      !s.finalized && exists i :: 0 <= i < |ranking| && Acceptable(cfg, s, ranking[i])
  {
    var at := FilterKeepsOrder(cfg, s, ranking);
    if FilterRanking(cfg, s, ranking) != [] {
      assert at[0] in at;
      assert Acceptable(cfg, s, ranking[at[0]]);
    }
  }

  /** The final ranking is made of the first acceptable entries, in order and up to the cap, each
      with its own reason and with content and score as saved, or else as stored. */
  lemma RankedExactly(cfg: Config, s: State, ranking: seq<Entry>) returns (at: seq<nat>)
    requires forall id :: id in s.saved ==> s.saved[id].id == id
    ensures forall i: nat :: i < |ranking| ==> (i in at <==> Acceptable(cfg, s, ranking[i]))
    ensures forall k, l :: 0 <= k < l < |at| ==> at[k] < at[l]
    ensures var result := CommitFinalize(cfg, s, ranking).1;
      && |result| == (if |at| < cfg.maxRankingSize then |at| else cfg.maxRankingSize)
      && (forall k :: 0 <= k < |result| ==> at[k] < |ranking|)
      && (forall k :: 0 <= k < |result| ==>
           var e := ranking[at[k]];
           && result[k].id == e.id && result[k].reason == e.reason
           && result[k].content == (if e.id in s.saved then s.saved[e.id].content
                                    else if e.id in s.storage then s.storage[e.id].content else "")
           && result[k].score == (if e.id in s.saved then s.saved[e.id].score
                                  else if e.id in s.storage then s.storage[e.id].score else 0.0))
  {
    at := FilterKeepsOrder(cfg, s, ranking);
  }
}
