# Verified model of the search-agent patches and the verl parts they rest on

This Dafny 4.11 project models the search-agent code under `patches/` and the parts of verl that
a training run with it depends on, and proves what they are for. `dafny verify dfyconfig.toml`
checks everything. Code that works by expressions is a function; code that updates variables or
fields is a method or a class, proved against a specification function whose own properties are
the lemmas.

| part | files |
|---|---|
| Session and tools | `Session`, `SessionProofs`, `SessionTheorems`, `SessionContents`, `SearchAgentSession`, `Text` |
| Context and rollout loop | `Context`, `Trajectory`, `RolloutCourse`, `SearchAgentLoop` |
| Lenient JSON extraction | `Json`, `JsonParsers`, `JsonGrammar`, `JsonRoundTrip` |
| Batch balancer, its partitioner and the loss-time check | `SeqlenBalancing`, `GvpoBalance`, `GvpoLoss`, `Permutations` |
| Checkpoint conversion and merging | `QkvLayout`, `LayerMerge`, `PipelineShards`, `MoeConversion` |
| Token journal with crash recovery | `Journal`, `JournalProofs`, `JournalContents`, `TokensDict` |
| Advantage estimators over the reals | `Gae`, `Rloo` |
| Dynamic sampling | `DynamicSampling` |
| Pausing generation proxy | `DrainProxy` |
| Batch algebra | `DataProto`, `BatchOps`, `BatchShapes` |
| Shared | `Wrappers`, `Arith`, `Slices` |

The two concurrent parts (journal and proxy) are state machines whose steps are the pieces of code
between lock operations or awaits; a step that would have to wait leaves the state as it is, so
quantifying over every sequence of steps quantifies over every interleaving. The session and the
loop are driven by an arbitrary model, tokenizer and corpus, given as functions or parameters.

## What turned out differently than one might expect

Where a promised property does not hold of the code as it stands, the code was kept, the failing
case is a lemma, and the exact condition is proved.

- A session saves an entry with an empty chunk id that no search returned
  (`EmptyIdIsSavedUnseen`). Everything ever saved was returned by a search exactly when no accepted
  save of the run carries an entry without an id before a search has returned one
  (`SavedAreReturnedExactly`).
- Finalizing in the same round as a save ranks an id that was seen but not saved without its
  content (`SavedRoundLosesContent`); `RankedContentExactly` says when content is there.
- With parallel tool calls, searches refused for the lock in the turn of a save can keep the next
  round from opening; the rollout then ends with one output fewer. For a turn of any calls the
  next round opens exactly when no ranking is final and the refusals since the last search that
  went through or the last save stay below the limit (`NextRoundOpensExactly`), and a rollout has a
  round refused exactly so (`Rollout`). `LockedTurnsBlockTheNextRound` is a family of such turns.
  With one call per turn this cannot happen (`Rollout`).
- Outside its divisible case `_balance_batch` either fails (the slice bound in its second branch is
  a fraction) or leaves entries of the index unfilled; `BalanceBatch` states both directions.
- Splitting a rank's rows into mini-batches first changes the micro-batches unless the micro size
  divides the mini size or there is one mini-batch (`MicroBatchesExactly`). The worker itself
  refuses a micro size that does not divide (`verl/recipe/gvpo/gvpo_fsdp_workers.py:248`).
- The merger undoes the converter's interleaving exactly when the tensor-parallel size divides the
  key-value heads (`MergeExactly`); otherwise a merge that raises nothing puts key rows among the queries.
- The merger counts a chunk without layers as one layer, so the renumbering is onto `0..total-1`
  exactly when no such chunk comes before a chunk with layers and local numbers have no gaps
  (`RenumberingExactly`). It never overwrites a layer in any case (`LayersSurvive`).
- `get_dynamic_pipeline_shards` has no answer for some inputs that pass its checks, such as five
  layers on four stages (`FiveOnFour`): its list of strategies is empty and indexing it fails. When
  it has one, the search always ends at the rounded-up average, which is optimal (`ShardsAreBest`).
- The DeepSeek element check passes exactly when the expert-parallel size divides the experts
  (`CheckExactly`), but it reads a variable that is unset without grouped weights or with more ranks
  than experts (`ConvertsExactly`). The sum over all ranks equals the model's element count only
  with one expert-parallel rank (`TotalsAgreeExactly`): every expert-parallel rank counts its own copy
  of everything else, so the warning about a mismatch is printed on every run with more.
- The step number of the token journal is set without the lock. A save that has taken its snapshot
  when the number moves on files the old step's tokens under the new step (`RaceMislabels` is such
  an interleaving). Over a run every file is labelled with its own step exactly when no save files
  under a number other than the one it began with (`LabelsExactly`), and that takes a change of the
  number inside the locked section (`NumberChanged`).
- A drained reply of the proxy means what it says exactly when the proxy is still paused at that
  moment (`DrainHoldsExactly`); a resume, or another pause timing out, during the drain breaks it
  (`ResumeDuringDrain`).
- The index error that `parse_key` could raise at the end of the text is never reached: every
  failure of `extract_json` is a value error (`OnlyValueErrors`, `ExtractExactly`).
- The documentation of `unfold_column_chunks` allows leaving out the list of keys; the code then
  fails as soon as there is a non-tensor column, and repeats tensor columns row by row
  (`UnfoldsExactly`).

## Model

| member | source | states |
|---|---|---|
| SessionProofs.RunKeeps | patches/searchagent_session.py:109-361 | over every sequence of operations: the search count is the number of distinct normalized queries and never exceeds the rounded-up lock threshold; concepts covered and unresolved are disjoint; summaries have increasing round numbers below the last round; ids surfaced in a round are distinct and are exactly the ids seen in it; every rankable id has stored content while nothing is pending |
| SessionProofs.SurfaceFacts | patches/searchagent_session.py:156-174 | a search surfaces no id twice, none seen this round and none already saved, and changes nothing but the store and the seen sets |
| SessionProofs.SaveAccepted | patches/searchagent_session.py:178-229 | what an accepted save has shown: a first save, not in the last round, of a non-empty list of known or empty ids |
| SessionTheorems.RunPrefix | patches/searchagent_session.py:120-361 | the events of a run are those of its parts, so statements about a moment follow from statements about runs |
| SessionTheorems.LockIsPermanent | patches/searchagent_session.py:109-111 | once search is locked it stays locked and the search count stays put, through any further operations |
| SessionTheorems.FinalIsFinal | patches/searchagent_session.py:113-129 | after a finalized ranking no round opens |
| SessionTheorems.FilterKeepsOrder | patches/searchagent_session.py:295-323 | the ranking filter keeps the order and keeps exactly the entries that are rankable and sufficiently reasoned |
| SessionTheorems.RankedIdsWereReturned | patches/searchagent_session.py:295-361 | over every run, a final ranking is capped, not empty, sufficiently reasoned, and every id in it was returned by an earlier successful search |
| SessionTheorems.SavedIdsWereReturned | patches/searchagent_session.py:204-247 | over every run, every saved id other than the empty one was returned by a successful search |
| SessionTheorems.EmptyIdIsSavedUnseen | patches/searchagent_session.py:204-247 | the exception: a concrete run, with texts of the lengths the tool asks for, that saves an empty id which no search returned |
| SessionTheorems.StepReturned | patches/searchagent_session.py:204-247 | an operation on a session whose saved ids were all returned leaves one exactly unless it is an accepted save of an entry without an id that no search has returned |
| SessionTheorems.SavedAreReturnedExactly | patches/searchagent_session.py:204-247 | over every run, at every moment all saved ids had been returned by a search, exactly when no accepted save carries an entry without an id before a search has returned one |
| SessionTheorems.RunFaithful | patches/searchagent_session.py:131-267 | with a fixed corpus, stored and saved content is corpus content after every run |
| SessionTheorems.RankedContentExactly | patches/searchagent_session.py:231-361 | a rankable id is ranked with its corpus content exactly when it is saved, still stored, or has none; always while no compression is pending |
| SessionTheorems.FinalRankingIsFaithful | patches/searchagent_session.py:325-361 | a ranking produced while nothing is pending carries corpus content throughout |
| SessionTheorems.SavedRoundLosesContent | patches/searchagent_session.py:263-267 | after a save in the same round an id that was seen but not saved passes the filter and is ranked without content |
| SessionTheorems.LockedTurnsAre | patches/searchagent_session.py:113-148 | over every run from any state, the counter of locked turns is the number of refusals for the lock since the last search that went through or the last save |
| SessionTheorems.NextRoundOpensExactly | patches/searchagent_session.py:113-148 | after any calls of a turn, in any order, and before the last round: the next round can open exactly when no ranking is final and those refusals stay below the limit |
| SessionTheorems.LockedTurnsBlockTheNextRound | patches/searchagent_session.py:113-148 | turns that fail, for every limit: after a save on a locked budget, n more searches in the same turn let the next round open exactly when n is below the limit |
| SessionContents.SurfacedIds | patches/searchagent_session.py:156-174 | the ids a search surfaces are exactly those of its results that are neither seen this round nor saved, whatever earlier rounds have seen |
| SessionContents.SurfacedExactly | patches/searchagent_session.py:156-174 | it surfaces, in the order they came, exactly the first result of each such id |
| SessionContents.StoredExactly | patches/searchagent_session.py:162-166 | under every id of the results the store holds the last result with it, and is otherwise as before |
| SessionContents.SearchedExactly | patches/searchagent_session.py:131-156 | over every run, a search goes through exactly when the distinct queries that went through so far are below the threshold and this is not one of them; the lock is reported first |
| SessionContents.SavedExactly | patches/searchagent_session.py:231-267 | a save removes the dropped ids, writes the last entry of each id with its reason and with content and score of the store, keeps the rest, and leaves in the store what is saved |
| SessionContents.SaveErrorsExactly | patches/searchagent_session.py:178-229 | each rule is reported exactly when it is broken |
| SessionContents.UnknownExactly | patches/searchagent_session.py:196-204 | unknown ids are reported exactly if there are any, all of them and no others |
| SessionContents.RunRecorded | patches/searchagent_session.py:120-271 | over every run: the round number counts the rounds opened; every accepted save left its summary, with the round, the queries that went through in it, the saved ids and the texts; a concept is covered exactly when some save said so, and unresolved exactly when some save said that and none called it covered |
| SessionContents.FinalizedExactly | patches/searchagent_session.py:273-293 | a ranking is accepted exactly when it is the first and has an acceptable entry |
| SessionContents.RankedExactly | patches/searchagent_session.py:295-361 | the final ranking is made of the first acceptable entries, in order and up to the cap, each with its own reason and with content and score as saved, or else as stored |
| SearchAgentSessions.SearchAgentSession.constructor | patches/searchagent_session.py:55-100 | a new session is the initial state |
| SearchAgentSessions.SearchAgentSession.StartRound | patches/searchagent_session.py:120-129 | the update and the answer of opening a round |
| SearchAgentSessions.SearchAgentSession.HandleSearch | patches/searchagent_session.py:131-176 | a search updates the session and answers as the transition function does, errors included |
| SearchAgentSessions.SearchAgentSession.ValidateSaveAndAdvance | patches/searchagent_session.py:178-229 | the list of violated rules, in order |
| SearchAgentSessions.SearchAgentSession.CommitSaveAndAdvance | patches/searchagent_session.py:231-271 | the whole update of a save |
| SearchAgentSessions.SearchAgentSession.FilterRanking | patches/searchagent_session.py:295-323 | the loop computes the filter |
| SearchAgentSessions.SearchAgentSession.ValidateFinalizeRanking | patches/searchagent_session.py:273-293 | the list of violated rules of a ranking |
| SearchAgentSessions.SearchAgentSession.CommitFinalizeRanking | patches/searchagent_session.py:325-361 | the update and the ranking of a finalize |
| SearchAgentSessions.Execute | patches/searchagent_tools.py:115-158 | a tool call that is well formed is one operation of the session, committed only if it validates; a malformed call changes nothing |
| Text.SameNormalForm | patches/searchagent_session.py:149-153 | queries are duplicates exactly when they have the same words between whitespace, case aside |
| Text.WordsSeparate | patches/searchagent_session.py:149-153 | whitespace separates words wherever it stands: the words of a text are those before it followed by those after it |
| Text.StripTrims | patches/searchagent_tools.py:115-130 | stripping removes whitespace at both ends and nothing else, and everything exactly from a blank text |
| Context.GenerateAligned | verl/verl/experimental/agent_loop/agent_loop_with_context_management.py:69-154 | a generation keeps the token trajectory aligned with the prompt, the mask and the log-probabilities |
| Context.RepliesAligned | patches/searchagent_loop.py:165-213 | so do the tool replies |
| Context.CompressAligned | patches/searchagent_context_manager.py:54-92 | so does a compression, and what remains is the initial prompt followed by the new handoff only |
| Context.CompressMessages | patches/searchagent_context_manager.py:54-92 | while the messages keep everything preserved before plus the new handoff |
| Context.PreservedIgnoresTurns | patches/searchagent_context_manager.py:54-76 | what a compression preserves does not depend on the turns since the first answer |
| Context.OutputOfAligned | verl/verl/experimental/agent_loop/agent_loop_with_context_management.py:49-67 | an output built from an aligned state has the initial prompt, and ids, mask and log-probabilities of one length within the limit |
| Context.PendingCompresses | verl/verl/experimental/agent_loop/context_manager.py:44-49 | a check compresses exactly when a compression is pending |
| Trajectory.PlacedGenerate | verl/verl/experimental/agent_loop/agent_loop_with_context_management.py:69-154 | a generation adds its tokens with mask 1 and the log-probabilities it brought, with zeros for every token before the first of them; messages and turn count follow |
| Trajectory.PlacedReplies | patches/searchagent_loop.py:165-213 | tool replies add their tokens with mask 0 and log-probability 0, and their messages |
| Trajectory.PlacedCompress | patches/searchagent_context_manager.py:54-92 | a reset begins a segment with the handoff under mask 0, and of the messages keeps what the segment before began with |
| Trajectory.PlacedOutput | verl/verl/experimental/agent_loop/agent_loop_with_context_management.py:49-67 | an output is the prompt and the tokens of its segment, their masks and log-probabilities, cut to the limit; log-probabilities are there if any generation of the segment brought some |
| Trajectory.SpokenOnce | patches/searchagent_loop.py:77-163 | the turns of consecutive segments add up, so every token and message of a turn is in exactly one segment |
| RolloutCourse.OpsAreCalls | patches/searchagent_loop.py:165-185 | calls become operations one for one and in order, each with its own stripped query, parameters or ranking; malformed calls and blank queries become none |
| RolloutCourse.CourseStep | patches/searchagent_loop.py:101-156 | a turn of the reference course executes the first calls up to the limit; it is followed by a reset exactly when these leave a save pending within the limit, and the handoff is rendered from the session as they left it |
| SearchAgentLoop.ExecuteCalls | patches/searchagent_loop.py:165-242 | the calls of a turn run the session through their operations in order |
| SearchAgentLoop.Rollout | patches/searchagent_loop.py:77-163 | the whole rollout terminates, by (resets left, response tokens left), in the first turn that gives a reason: no room left, a limit on turns, no tool call, a call of the final tool, or a round that cannot open; the session's operations, the resets and the handoffs are those of the reference course up to there, so the first calls of every whole turn and nothing else were executed; output k is exactly segment k, token by token, with masks, log-probabilities and turn count; resets are bounded by both limits; the round number is the resets plus one; outputs are resets plus one unless a round was refused, which happens exactly when too many searches were refused for the lock since the last search or save that went through, and never with one call per turn |
| JsonParsers.SkipWhitespace | verl/recipe/collabllm/utils.py:81-84 | the loop skips exactly the whitespace |
| JsonParsers.ReadNumber | verl/recipe/collabllm/utils.py:67-79 | the loop reads what the parser function reads, errors included |
| JsonParsers.ReadString | verl/recipe/collabllm/utils.py:86-108 | the same for quoted strings with escapes |
| JsonParsers.ReadTripleQuoted | verl/recipe/collabllm/utils.py:167-185 | the same for triple-quoted strings |
| JsonParsers.ReadKey | verl/recipe/collabllm/utils.py:110-116 | the same for keys |
| JsonParsers.ReadObject | verl/recipe/collabllm/utils.py:118-144 | the same for objects |
| JsonParsers.ReadArray | verl/recipe/collabllm/utils.py:146-165 | the same for arrays |
| JsonParsers.ReadValue | verl/recipe/collabllm/utils.py:187-208 | the same for values of any kind, by mutual recursion that advances strictly within bounds |
| JsonParsers.ExtractJson | verl/recipe/collabllm/utils.py:210-219 | the same for the text between the first opening and the last closing brace |
| Json.ParseValue | verl/recipe/collabllm/utils.py:187-208 | every successful parse ends strictly further on and within the text |
| JsonGrammar.TreeReads | verl/recipe/collabllm/utils.py:67-208 | the text of any tree of the grammar, with any whitespace, escapes, casing, trailing commas and triple quotes, is read as what the tree means and ends where it ends |
| JsonGrammar.TreeSound | verl/recipe/collabllm/utils.py:67-208 | whatever is read as a value is, behind whitespace, the text of a tree and is read as its meaning |
| JsonGrammar.OnlyValueErrors | verl/recipe/collabllm/utils.py:67-208 | every failure to read a value is a value error: the index error of a missing key is never reached |
| JsonRoundTrip.ExtractExactly | verl/recipe/collabllm/utils.py:53-219 | extraction succeeds exactly on texts that hold the text of an object with no opening brace before and no closing brace after it, with what that object means, and fails with a value error on all others |
| JsonRoundTrip.QuotedExactly | verl/recipe/collabllm/utils.py:54-65 | a quoted text becomes the constant it spells in any case, else the float or integer it reads as, and otherwise stays the text it is |
| JsonRoundTrip.QuotingChangesNothing | verl/recipe/collabllm/utils.py:54-65 | so quoting a constant, or an integer that reads as itself, changes nothing |
| JsonRoundTrip.UnquotedExactly | verl/recipe/collabllm/utils.py:67-208 | an unquoted word in any case is its constant, and an unquoted number is a float with a point or an exponent letter and an integer without |
| JsonRoundTrip.SignsRead | verl/recipe/collabllm/utils.py:67-79 | leading plus signs and zeros change nothing and a minus negates |
| JsonRoundTrip.PutExactly | verl/recipe/collabllm/utils.py:118-144 | a repeated key replaces the value where it stands and keeps the key as first written |
| JsonRoundTrip.ValueReads | verl/recipe/collabllm/utils.py:67-208 | a printed document, wherever it stands in a text and whatever layout and quotes it was printed with, is read as its value with strings and keys converted, ending where it ends |
| JsonRoundTrip.ExtractReads | verl/recipe/collabllm/utils.py:53-219 | extraction finds a printed object between any prefix without an opening and any suffix without a closing brace |
| JsonRoundTrip.UnchangedExactly | verl/recipe/collabllm/utils.py:54-65 | the value read is the document itself exactly when conversion leaves its strings and keys alone and no object repeats a key |
| JsonRoundTrip.RoundTrip | verl/recipe/collabllm/utils.py:53-219 | so extraction gives the object back exactly when it is stable in that sense |
| SeqlenBalancing.PopIndex | verl/verl/utils/seqlen_balancing.py:118-160 | the row taken from the heap is one that no other row precedes, and none has a wider spread |
| SeqlenBalancing.MergeRowsClose | verl/verl/utils/seqlen_balancing.py:113-116 | the crosswise merge of two rows whose sums are true and at most d apart is such a row again |
| SeqlenBalancing.Combine | verl/verl/utils/seqlen_balancing.py:49-172 | the Karmarkar-Karp loop keeps every item and ends with one row of equal-sized sets, whose sums are the sums of their items and no further apart than the widest of the rows it started with |
| SeqlenBalancing.BalancedPartitions | verl/verl/utils/seqlen_balancing.py:213-254 | it succeeds exactly when there are enough items and they divide evenly, and then returns disjoint parts of one size that cover the indices, each in ascending order; the totals of two parts differ by no more than k neighbours of the sorted lengths do anywhere, so by no more than two lengths |
| GvpoBalance.FillStep | verl/recipe/gvpo/gvpo_ray_trainer.py:45-47 | the inner loops write exactly one block of each rank's segment, by the mixed-radix position |
| GvpoBalance.WriteStep | verl/recipe/gvpo/gvpo_ray_trainer.py:40-47 | one step writes its rows and leaves the other steps alone; the exact condition under which it can |
| GvpoBalance.WriteSteps | verl/recipe/gvpo/gvpo_ray_trainer.py:39-47 | all steps are written where they belong |
| GvpoBalance.BalanceBatch | verl/recipe/gvpo/gvpo_ray_trainer.py:9-57 | if n divides the rows of a step and those divide the batch, the order is a permutation, every micro-step holds whole groups, the tokens of two micro-steps differ by no more than those of two groups, and within a micro-step those of two ranks by no more than those of two of its rows; otherwise it fails, with the error stated, or is not a permutation |
| GvpoLoss.MicroBatchesExactly | verl/recipe/gvpo/gvpo_dp_actor.py:402-416 | when splitting by mini-batch first makes no difference |
| GvpoLoss.GroupsWhole | verl/recipe/gvpo/gvpo_core_algos.py:43-54 | the loop of the loss accepts exactly the gatherings in which every uid occurs n times |
| GvpoLoss.HeldIsGathered | verl/recipe/gvpo/gvpo_dp_actor.py:402-416 | when the micro size divides the mini size, or there is one mini-batch, what the ranks hold at micro-step k is the k-th slice of every rank's segment |
| GvpoLoss.LossAssertionHolds | verl/recipe/gvpo/gvpo_core_algos.py:43-54 | then, on a balanced batch, the assertion of the loss holds at every micro-step |
| QkvLayout.MergeQkv | verl/scripts/legacy_model_merger.py:529-557 | the nested loops over shards and chunks compute the merge, with each of its errors |
| QkvLayout.MergeRefusesExactly | verl/scripts/legacy_model_merger.py:533-541 | which of its first three errors a merge stops with, and when |
| QkvLayout.InterleavedGroup | verl/scripts/converter_hf_to_mcore.py:155-161 | group g of the interleaved weight is its query rows, then its key rows, then its value rows |
| QkvLayout.MergeUndoesInterleave | verl/scripts/converter_hf_to_mcore.py:155-161 | interleaving, cutting into row shards and merging gives back the query, key and value weights in order, for all sizes where heads are a multiple of groups and the shards divide the groups |
| QkvLayout.MergeExactly | verl/scripts/legacy_model_merger.py:529-557 | for weights whose first key row is not also a query row, exactly when the tensor-parallel size divides the groups |
| QkvLayout.InterleaveUndoesMerge | verl/scripts/legacy_model_merger.py:529-557 | whatever equal shards the merger takes apart, interleaving its result restores them |
| LayerMerge.MergeStateDicts | verl/scripts/legacy_model_merger.py:608-658 | the walk over virtual stages and stages puts every chunk at the running offset; it stops exactly when some key has no target name |
| LayerMerge.WalkAt | verl/scripts/legacy_model_merger.py:615-618 | the walk is virtual-stage major |
| LayerMerge.RenumberingIncreases | verl/scripts/legacy_model_merger.py:629-656 | new numbers keep the order of chunks and of layers in a chunk, so no two layers meet |
| LayerMerge.RenumberingExactly | verl/scripts/legacy_model_merger.py:612-656 | they are one to one onto 0..total-1 exactly when chunks number from 0 without gaps and none without layers comes before one with |
| LayerMerge.LayersSurvive | verl/scripts/legacy_model_merger.py:608-658 | every layer parameter of every chunk is in the result under its new number with its own value |
| LayerMerge.NothingInvented | verl/scripts/legacy_model_merger.py:608-658 | and every key of the result comes from some chunk |
| LayerMerge.EveryParameterIsFound | verl/scripts/legacy_model_merger.py:608-658 | the last parameter of a chunk for a layer key is found under its new number, and one outside the layers (embedding, final norm, untied output layer) under its own name unless a later chunk has that name too |
| LayerMerge.OnlyParametersAreFound | verl/scripts/legacy_model_merger.py:620-624 | and nothing else is: extra state and a tied output layer are left out |
| PipelineShards.GetDynamicPipelineShards | verl/verl/model_merger/megatron_model_merger.py:57-98 | the search over strategies returns the closed form: the rounded-up average on every inner stage, or an error, in the exact cases |
| PipelineShards.ShardsAreBest | verl/verl/model_merger/megatron_model_merger.py:57-98 | when there is an answer it has one positive part per stage, adds up to the layers, and has the smallest possible maximum; inner stages hold that maximum and the ends share the rest, the last one taking the odd layer |
| PipelineShards.ShardErrorsExactly | verl/verl/model_merger/megatron_model_merger.py:57-98 | which of the three failures happens, and when |
| PipelineShards.FiveOnFour | verl/verl/model_merger/megatron_model_merger.py:80-97 | a request the search cannot serve although a spread exists |
| MoeConversion.AllCopiedExactly | verl/scripts/converter_hf_to_mcore.py:179-192 | every expert of every layer is copied by some rank exactly when the expert-parallel size divides the experts |
| MoeConversion.AtMostOneRank | verl/scripts/converter_hf_to_mcore.py:547-564 | no expert is copied by two ranks |
| MoeConversion.CopyExperts | verl/scripts/converter_hf_to_mcore.py:392-406 | the loop copies the rank's own run of experts into consecutive slots and counts their elements |
| MoeConversion.SlotsExactly | verl/scripts/converter_hf_to_mcore.py:392-406 | the local slots of a rank hold exactly the experts it owns, each in one slot |
| MoeConversion.ConvertLayers | verl/scripts/converter_hf_to_mcore.py:353-423 | the loop over layers counts, checks and fails as specified |
| MoeConversion.CheckExactly | verl/scripts/converter_hf_to_mcore.py:420-423 | the element check passes exactly when the ranks divide the experts or the matrices are empty |
| MoeConversion.ConvertsExactly | verl/scripts/converter_hf_to_mcore.py:353-423 | when a share converts, and that it then counts exactly what it copied |
| MoeConversion.TotalsAgreeExactly | verl/scripts/converter_hf_to_mcore.py:547-567 | when the ranks divide the experts, the counts summed over all ranks equal the model's total exactly with one expert-parallel rank, or nothing but experts |
| JournalProofs.ClearedStepsAreKept | verl/recipe/fault_recover/fault_manager.py:89-152 | over every interleaving, with crashes and loads: for a positive batch size, each non-empty step that was cleared and is newer than every checkpoint announced still has its file, and every step file has exactly the batch size of finished entries |
| JournalProofs.LabelsExactly | verl/recipe/fault_recover/fault_manager.py:127-152 | over every run, crashes and loads included: every file of every state is labelled with the step whose tokens it holds, exactly when no save files under a step number other than the one current when it took its snapshot |
| JournalProofs.NumberChanged | verl/recipe/fault_recover/fault_manager.py:127-152 | a number that differs from the one the running save began with was set by an update inside the locked section of the run |
| JournalProofs.OwedFilesAreTheirOwn | verl/recipe/fault_recover/fault_manager.py:89-152 | on a run without misfilings each non-empty step that was cleared and is newer than every checkpoint announced has a file labelled with that step, with exactly the batch size of finished entries |
| JournalProofs.CalmRunsLabel | verl/recipe/fault_recover/fault_manager.py:127-152 | so a whole run that never changes the number inside the locked section keeps every file under its own step |
| JournalProofs.RaceMislabels | verl/recipe/fault_recover/fault_manager.py:89-152 | the interleaving that goes wrong, through to a load that takes old tokens for a finished new step |
| JournalProofs.CrashRecoversPrefix | verl/recipe/fault_recover/fault_manager.py:110-140 | from a load on, with updates and saves only, a crash at any moment followed by a load of the same step recovers for each request a prefix of its tokens |
| JournalProofs.SaveThenCrash | verl/recipe/fault_recover/fault_manager.py:110-152 | when a save that completes before the crash loses nothing |
| JournalContents.MemoryHoldsWhatWasSaid | verl/recipe/fault_recover/fault_manager.py:44-69 | over every run of updates, saves and changes of the step number: each request holds its old ids followed by those of all increments since, in order, and every other field as the last increment set it; updates that meet the held lock have no effect until they are made again |
| JournalContents.AllIsHeard | verl/recipe/fault_recover/fault_manager.py:44-54 | while nothing is saved or cleared no increment is missed, and nothing but memory changes |
| JournalContents.BatchSays | verl/recipe/fault_recover/fault_manager.py:56-69 | a batch says of a global id what it says of the requests mapped to it, in order |
| JournalContents.LoadRecoversWhatWasSaid | verl/recipe/fault_recover/fault_manager.py:110-152 | what a new process loads after a completed save is, for every request, exactly what was said up to the save |
| JournalContents.SetsExactly | verl/recipe/fault_recover/fault_manager.py:71-83 | setting an entry replaces that of one request and nothing else |
| JournalContents.ClearsExactly | verl/recipe/fault_recover/fault_manager.py:89-100 | when a clear goes through |
| JournalContents.StepTurnsOver | verl/recipe/fault_recover/fault_manager.py:89-152 | a complete step is filed by the next save and the clear after it goes through; which files are then there |
| JournalContents.FinishedStepIsNotSaved | verl/recipe/fault_recover/fault_manager.py:110-140 | after a load has found the finished file nothing is saved until the next load or a new process |
| JournalContents.LoadFinds | verl/recipe/fault_recover/fault_manager.py:110-125 | what a load installs, and when it sets the flag |
| TokensDicts.TokensDict.UpdateData | verl/recipe/fault_recover/fault_manager.py:44-54 | token ids are appended and other fields overwritten, under the lock |
| TokensDicts.TokensDict.UpdateDatas | verl/recipe/fault_recover/fault_manager.py:56-69 | a batch is the sequence of its updates, skipping requests without a global id |
| TokensDicts.TokensDict.SetData | verl/recipe/fault_recover/fault_manager.py:71-83 | setting an entry, under the lock |
| TokensDicts.TokensDict.ClearCheck | verl/recipe/fault_recover/fault_manager.py:89-100 | one pass of the waiting loop |
| TokensDicts.TokensDict.ClearMemory | verl/recipe/fault_recover/fault_manager.py:102 | memory is emptied without the lock |
| TokensDicts.TokensDict.ClearFiles | verl/recipe/fault_recover/fault_manager.py:103-108 | after that, and after whatever the saving thread did in between, exactly the saved steps up to the checkpoint lose their files |
| TokensDicts.TokensDict.TryLoad | verl/recipe/fault_recover/fault_manager.py:110-125 | a finished file takes precedence over a snapshot of the same step |
| TokensDicts.TokensDict.UpdateIter | verl/recipe/fault_recover/fault_manager.py:127-128 | the step number changes without the lock |
| TokensDicts.TokensDict.SaveCheck | verl/recipe/fault_recover/fault_manager.py:136-138 | the flag is looked at before the lock is taken |
| TokensDicts.TokensDict.SaveBegin | verl/recipe/fault_recover/fault_manager.py:138-140 | the snapshot is replaced by memory, tagged with the step |
| TokensDicts.TokensDict.SaveCount | verl/recipe/fault_recover/fault_manager.py:141-143 | the finished requests are counted |
| TokensDicts.TokensDict.SaveEnd | verl/recipe/fault_recover/fault_manager.py:145-151 | the finished file, if every request is there and finished |
| Gae.AdvantageReturn | verl/recipe/gvpo/gvpo_core_algos.py:266-283 | the backward loop yields at each position what it carries there |
| Gae.LoopIsEstimator | verl/recipe/gvpo/gvpo_core_algos.py:266-283 | which is the discounted sum of temporal-difference errors of the row with its masked positions removed |
| Gae.MaskedEntriesDoNotMatter | verl/recipe/gvpo/gvpo_core_algos.py:276-278 | rewards and values at masked positions change nothing |
| Gae.ReturnIsRewardsToGo | verl/recipe/gvpo/gvpo_core_algos.py:272-283 | with lambda 1 the return is the discounted sum of the remaining unmasked rewards |
| Rloo.LoopInPlace | verl/recipe/gvpo/gvpo_core_algos.py:524-546 | the loop over groups replaces each score by the score less the mean of the others in its group |
| Rloo.VectorizedIs | verl/recipe/gvpo/gvpo_core_algos.py:768-776 | the form over group codes gives the same on groups of two or more, and 0 on a single response |
| Rloo.FormsAgreeExactly | verl/recipe/gvpo/gvpo_core_algos.py:524-776 | both forms agree on a batch exactly when single responses score 0 |
| Rloo.AdvantagesCancel | verl/recipe/gvpo/gvpo_core_algos.py:524-546 | the advantages of a group of two or more sum to 0 |
| DynamicSampling.FilterGroups | verl/recipe/dapo/dapo_ray_trainer.py:255-278 | the three loops keep the rows of prompts whose metric varies, or that have one response, and count those prompts |
| DynamicSampling.FilteredExactly | verl/recipe/dapo/dapo_ray_trainer.py:255-278 | the rows kept are, in order, exactly those of prompts with two responses that differ in the metric, or with one response, wherever the responses stand |
| DynamicSampling.InterleavedIsWhole | verl/recipe/dapo/dapo_ray_trainer.py:157-205 | repeating prompts in place gives contiguous whole groups |
| DynamicSampling.FilterKeepsGroups | verl/recipe/dapo/dapo_ray_trainer.py:255-279 | filtering keeps exactly the informative groups, whole and in order, and one prompt each |
| DynamicSampling.Trainer.Consume | verl/recipe/dapo/dapo_ray_trainer.py:239-299 | one generated batch updates the accumulated batch and both counters, and trains, goes on or gives up |
| DynamicSampling.Trainer.FitLoop | verl/recipe/dapo/dapo_ray_trainer.py:139-422 | the loop over the data is the run of those steps |
| DynamicSampling.StepExactly | verl/recipe/dapo/dapo_ray_trainer.py:271-299 | it trains exactly when enough informative groups have come together, on the first of them, and gives up exactly at a positive generation limit |
| DynamicSampling.RunIsFaithful | verl/recipe/dapo/dapo_ray_trainer.py:139-422 | over any stream, every training step uses the first informative groups of its own stretch, no longer than needed and within the limit; a run that gave up had generated exactly the limit many batches since the last step, with too few informative groups |
| DynamicSampling.UnfilteredRun | verl/recipe/dapo/dapo_ray_trainer.py:239-299 | without the filter every generated batch is trained on as it is, at once |
| DynamicSampling.TrainedBatchIsWhole | verl/recipe/dapo/dapo_ray_trainer.py:296-299 | a training batch is exactly the batch size of whole groups of n rows with distinct uids, each with a varying metric when n is above 1 |
| DrainProxy.RunKeeps | verl/recipe/atropos/generate_proxy.py:83-224 | over every interleaving the counter equals the requests inside, the event is set exactly when not paused, and nobody waits while open |
| DrainProxy.ClosedRun | verl/recipe/atropos/generate_proxy.py:179-224 | until something opens a paused proxy it stays paused and only requests already committed get inside |
| DrainProxy.DrainHoldsExactly | verl/recipe/atropos/generate_proxy.py:193-224 | after a drain, only requests released before can get inside, exactly when the proxy is still paused |
| DrainProxy.DrainedReply | verl/recipe/atropos/generate_proxy.py:204-216 | whichever call gives the reply, the pause itself or a later look, it comes only with nothing inside and moves no request |
| DrainProxy.QuietDrain | verl/recipe/atropos/generate_proxy.py:193-224 | with no released request left over when the pause is called, whether it replies at once or after any closed run, the section stays empty from the reply until something opens the proxy |
| DrainProxy.ResumeDuringDrain | verl/recipe/atropos/generate_proxy.py:193-224 | a resume during the drain makes the reply worthless |
| DrainProxy.DrainProgress | verl/recipe/atropos/generate_proxy.py:203-216 | while closed, the requests still to be drained only get fewer |
| DrainProxy.RepliesExactly | verl/recipe/atropos/generate_proxy.py:203-216 | a look of the drain loop replies drained exactly when nobody is inside, timed out exactly when somebody is and time is up, and otherwise the pause goes on polling |
| DrainProxy.TimedOutReply | verl/recipe/atropos/generate_proxy.py:209-215 | a timed-out reply leaves the proxy open, its waiters released and everybody else where they were |
| DrainProxy.ArrivesExactly | verl/recipe/atropos/generate_proxy.py:83-90 | a request goes inside at once while the proxy is open and waits while it is paused |
| DrainProxy.EveryRequestCanFinish | verl/recipe/atropos/generate_proxy.py:83-146 | after every run, any request can still go inside and finish once the proxy opens |
| DrainProxy.AbandonedExactly | verl/recipe/atropos/generate_proxy.py:83-90 | a request that is not inside yet can be given up without being counted |
| DrainProxy.GenerateProxy.Arrive | verl/recipe/atropos/generate_proxy.py:83-90 | a request up to its first await |
| DrainProxy.GenerateProxy.Enter | verl/recipe/atropos/generate_proxy.py:87-90 | a woken request goes on without looking at the flag |
| DrainProxy.GenerateProxy.Finish | verl/recipe/atropos/generate_proxy.py:145-146 | leaving the section |
| DrainProxy.GenerateProxy.Pause | verl/recipe/atropos/generate_proxy.py:193-216 | closing, and the first look of the drain loop |
| DrainProxy.GenerateProxy.Poll | verl/recipe/atropos/generate_proxy.py:204-215 | a further look: drained, out of time or another sleep |
| DrainProxy.GenerateProxy.Resume | verl/recipe/atropos/generate_proxy.py:218-224 | opening wakes every waiting request |
| DataProtos.GatherThen | verl/verl/protocol.py:963-969 | two reads by index are one read, in tensor and non-tensor columns alike |
| DataProtos.ConcatGathers | verl/verl/protocol.py:916-961 | concatenating reads of a batch is one read by the concatenated indices |
| BatchOps.PadToDivisor | verl/verl/protocol.py:74-99 | the loop pads to the next multiple by repeating rows cyclically |
| BatchOps.PaddedRows | verl/verl/protocol.py:74-99 | row r of the padded batch is row r modulo the size, in tensor and non-tensor columns alike |
| BatchOps.PadReachesDivisor | verl/verl/protocol.py:74-99 | the padded size is the next multiple of the divisor |
| BatchOps.UnpadUndoesPad | verl/verl/protocol.py:102-106 | unpadding gives the batch back |
| BatchOps.Chunk | verl/verl/protocol.py:864-903 | equal contiguous chunks, or a failed assertion exactly when the size does not divide |
| BatchOps.ConcatUndoesChunk | verl/verl/protocol.py:864-961 | concatenating the chunks gives the batch back |
| BatchOps.Split | verl/verl/protocol.py:905-914 | contiguous pieces, the last one possibly shorter |
| BatchOps.ConcatUndoesSplit | verl/verl/protocol.py:905-961 | concatenating the pieces gives the batch back |
| BatchOps.RepeatAt | verl/verl/protocol.py:971-1013 | row r of a repeated batch is row r / times, or r modulo the size |
| BatchOps.TileIsConcat | verl/verl/protocol.py:971-1013 | repeating without interleaving is concatenating copies |
| BatchOps.Batch.Reorder | verl/verl/protocol.py:963-969 | the in-place reorder reads all columns by the indices |
| BatchOps.Batch.Padding | verl/verl/protocol.py:849-862 | the in-place padding appends copies of the first or last row |
| BatchOps.InverseUndoesReorder | verl/verl/protocol.py:963-969 | a reorder by a permutation is undone by its inverse |
| BatchOps.UndoableExactly | verl/verl/protocol.py:963-969 | a reorder can be undone by another exactly when it drops no row |
| BatchShapes.UnfoldUndoesFold | verl/verl/protocol.py:202-238 | folding works exactly on a batch of tensors that is not empty and that the new size divides, and unfolding undoes it |
| BatchShapes.FoldedAt | verl/verl/protocol.py:202-220 | group i of a folded column is the i-th run of rows |
| BatchShapes.ReshapedAt | verl/verl/protocol.py:1015-1052 | cell c of row i*n+s of a split column is cell s*(cols/n)+c of row i |
| BatchShapes.UnfoldedRows | verl/verl/protocol.py:1015-1052 | in every column alike, row i*n+s is the s-th piece of row i if the column is split and row i otherwise |
| BatchShapes.UnfoldsExactly | verl/verl/protocol.py:1015-1052 | on a batch that is not empty, unfolding works exactly when the split divides the second dimension of every column to be split, and there is a list of keys or no non-tensor column |

## Left out

- Torch, Ray, vLLM, FSDP and Megatron calls, device moves, tokenizers and chat templates: parameters or functions of the model where a property needs one.
- SearchAgentSessions.Execute: decoding of arguments, JSON Schema checks, YAML rendering and error texts; a call is well formed or not. The corpus lookup `_mock_search` is a parameter.
- SessionProofs.RunKeeps: dictionary insertion order of saved chunks is not modelled; identifiers and concepts are strings and scores are reals.
- Text.SameNormalForm: case folding is that of ASCII; whitespace is all that `split()` knows.
- SearchAgentLoop.Rollout: the model is assumed to generate at least one token per turn with a log-probability per token or none, as the base class does; parallel tool calls run one after the other.
- JsonParsers.ReadNumber: the syntax of floats, and what `int()` accepts besides digits with a sign, are parameters; so are equality of float keys and logging.
- SeqlenBalancing.Combine: which of several equal rows a heap returns first is not fixed; the classes of the algorithm are values.
- GvpoBalance.BalanceBatch: rounding of uids in a 32-bit float tensor and the statistics logged afterwards.
- The value of the loss, whitening, and floating-point rounding: estimators are over the reals.
- Gae.AdvantageReturn: one row of the batch; rows do not interact in the loop.
- Rloo.LoopInPlace: token rewards are already summed to scores, and the final product with the mask is not repeated. The lists of a group hold values where the program holds views of the tensor; their values are read only before the first update.
- QkvLayout.MergeQkv: the other cases of the merge (gate and up projections, norms, plain concatenation) are one expression each.
- LayerMerge.MergeStateDicts: the mapping of key names is part of the input, and a fused value stays one value under its key.
- MoeConversion.ConvertLayers: all layers with experts have the same number of experts and matrix size, as in one model configuration; values other than experts are only counted, buffers included, and the two ways in which ungrouped experts fail are one error.
- TokensDicts.TokensDict.SetData: one entry is replaced as a whole, which covers setting a key and extending a list under it. Reading out the dictionary hands its caller a reference, which is not modelled.
- JournalProofs.ClearedStepsAreKept: writing a file, copying it together with noting its step, and deleting the expired files one by one are single steps; the clock and the saving interval are not modelled.
- DynamicSampling.Trainer.FitLoop: everything after the batch has been cut, and the length of the training run.
- DrainProxy.GenerateProxy.Arrive: HTTP, the backends and their rotation, and wall-clock time; running out of time is a parameter of each look.
- BatchOps.Chunk: uneven chunks under automatic padding; an empty batch is assumed to chunk into empty batches.
- BatchShapes.UnfoldUndoesFold: folding also replaces the non-tensor columns of its argument in place.
- BatchShapes.UnfoldsExactly: columns have a second dimension, and an entry along it stands for all that further dimensions hold there, none of them empty; the list of keys is a set.
- DataProtos.ConcatGathers: merging of meta information.
- DataProto serialization, union, selection and data loaders; HTTP clients, signal handlers and hardware probes; the rollout viewer, dataset scripts, entry points, configuration classes and reward functions.
- The copies of modelled code in verl/recipe/entropy/entropy_ray_trainer.py and verl/recipe/collabllm/collabllm_interation.py.
