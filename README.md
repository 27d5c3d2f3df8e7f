# resource-query: the two-phase DFU matcher

resource-query matches a job's resource request against a resource graph
and books the match. The graph's vertices are resource pools: a rack, a
node, a socket, a core. Each vertex has a planner, which is its schedule of
amounts over time. The edges relate pools within one or more subsystems.
The first subsystem a matcher registers is the dominant one, here
"containment"; every other one is auxiliary.

The depth-first-and-up traverser (DFU) works in several phases.

1. Priming, done once after the graph is loaded: one post-order walk per
   subsystem gives each vertex a subtree planner. That planner aggregates
   the amounts of the tracked resource types found below the vertex.
2. Priming the request: each request of the jobspec gets, as user data, the
   totals its `with` sub-requests ask for.
3. `select`: a fresh match generation and colour epoch, then a depth-first
   walk from the dominant root. Each vertex is pruned by tag, exclusivity
   and subtree planner. Vertices are matched against the requests, slots
   are counted, and every successful child is scored into an aggregator.
   At the root, `resolve` checks the counts, chooses the groups and writes
   the chosen decisions (needs, exclusivity, generation) onto the edges.
4. `update`: a fresh colour epoch. The walk follows only the edges marked
   with the current generation. It books each matched vertex for the job:
   a tag, an allocation or reservation entry, and spans on its own planner
   and its subtree planner.
5. `run` strings these together. When the job cannot be allocated now and
   the operation is match-allocate-or-else-reserve, it retries at every
   later time the root's subtree planner offers.

Where the two traverser sources differ, the model follows
`dfu_traverse_impl.cpp` for the `dfu_impl_t` members. From
`dfu_traverse.hpp` it takes `jobmeta_t::build`, the `count` helper, the
traverser's `initialize` and `run`, and the older `prime` and
`exclusivity` that `initialize` and `run` call there
(`PrimeLegacy`, `ExclusivityLegacy`). `updcore`, `upd_dfv` and `resolve`
read the same in both files. `enforce` does not: `dfu_traverse.hpp` marks
one edge per group with the group's own needs and exclusivity, while
`dfu_traverse_impl.cpp` marks every edge of a group with that edge's own
needs and exclusivity. The model's `enforce` follows
`dfu_traverse_impl.cpp`.

Modules, one per source component:

- `ResourceData` (`resource_data.hpp`): the colour arithmetic and the
  vertex and edge records as values, with their copy, assign and scrub.
- `Jobspec` (`jobspec.hpp`, `jobspec.cpp`): the YAML node, a declarative
  decoder, and the parser methods proved to agree with it.
- `MatcherData` (`matcher_data.hpp`): the subsystem registry, `select_count`
  and `prev_pwr`.
- `DfuMatchCb` (`dfu_match_cb.hpp`): the base match callback.
- `Planners` and `ScoringApi`: value models of the planner library and of
  the scoring aggregator. Their sources are not part of this model; only
  their call sites are.
- `DfuJobMeta` (`dfu_traverse.hpp:49-68`): the job metadata.
- `DfuTraverseImpl`: the `dfu_impl_t` walks.
  - `ResourceGraph` is a class holding the vertex, edge and planner arenas.
  - `DfuImpl` is a class with the colour base, the match generation and the
    traversal level.
- `DfuTraverser`: `dfu_traverser_t`.

Every walk method is proved against a value-level description of what it
may do to the graph:

- `PrimeFrame`/`PrimeOutcome` for priming;
- `MatchStep`/`MarkedWith` for the select walks;
- `Committed`/`UpdOutcome` for update.

What the select walk computes is stated through the descents each
vertex's loops made (`Descent`: the edge, the target's type, success, the
child's exclusivity, its scored aggregator and its avail):

- `ExploreFold` is explore's aggregator, with one singleton group per
  child that succeeded;
- `UpFold` is the aggregator of aux_upv's child loop;
- `ExpFold` is dom_exp's aggregator over every subsystem;
- `SlotDone` gives dom_slot's slot groups, via `SlotsFit` and `SlotChain`;
- `VisitDone` and `DfvInto` describe a dom_dfv visit and what it leaves
  in the parent's aggregator;
- `RootResolves` is resolve's verdict at the root.

Lemmas about those descriptions carry the properties. Termination uses the
set of (vertex, subsystem) pairs still white in the current epoch. The
update walk needs the dominant hierarchy to be acyclic; this is stated with
a ghost rank per vertex (`DomRanked`, `RankedBy`).

## Model

| member | source | states |
|---|---|---|
| ResourceData.ColorWriters | resource_data.hpp:45-72 | Reset moves the base up by NEW_BASE = 3. The writers put white, gray and black at offsets 0, 1 and 2 from the base. |
| ResourceData.ColorTestsDisjoint | resource_data.hpp:49-68 | Under one base a colour is at most one of white, gray and black. White means at most the base. |
| ResourceData.ResetIsFullRecolor | resource_data.hpp:45-72 | After a reset, every colour written under the old base or earlier reads as white, and as neither gray nor black. |
| ResourceData.ResetsForgetOldColors | resource_data.hpp:45-52 | The same holds after any number of resets: an earlier session's colours never leak into a later one. |
| ResourceData.FreshSchedule | resource_data.hpp:76-77 | A fresh schedule has empty tag, allocation and reservation maps and a NULL planner. |
| ResourceData.CopySchedule | resource_data.hpp:78-101 | Copy and assignment copy the three maps and share the planner handle; no planner is duplicated. |
| ResourceData.FreshPoolInfra | resource_data.hpp:129-130 | A fresh vertex record has no membership, spans, subtree planners or colours. |
| ResourceData.CopyPoolInfra | resource_data.hpp:131-136 | The copy constructor copies membership, spans and colours, but the subtree planners start empty. |
| ResourceData.AssignPoolInfra | resource_data.hpp:137-150 | Assignment also copies the subtree planner handles. |
| ResourceData.ScrubPoolInfra | resource_data.hpp:158-164 | Scrub clears the spans and colours and NULLs every subtree planner; membership is kept. |
| ResourceData.FreshRelationInfra | resource_data.hpp:171-172 | A fresh edge record has needs, best_k_cnt and exclusive all 0. |
| ResourceData.CopyRelationInfra | resource_data.hpp:173-186 | Copy and assignment keep membership, needs, best_k_cnt and exclusive. |
| ResourceData.ScrubRelationInfra | resource_data.hpp:191-196 | Scrub zeroes the three decision fields and keeps membership. |
| ResourceData.ScrubRestoresFresh | resource_data.hpp:191-200 | Scrubbing gives back the fresh decision state. Scrubbing twice is scrubbing once. |
| ResourceData.FreshResourcePool | resource_data.hpp:204-253 | A fresh vertex has id -1, size 0, an empty type, paths, basename, name, properties and unit, a fresh schedule and infra data, and the uninitialised uuid's bytes as given. |
| ResourceData.CopyResourcePool | resource_data.hpp:206-234 | A copied vertex equals the original in every field. Its subtree planner handles are kept, because idata is assigned, not copy-constructed. |
| ResourceData.CopyResourceRelation | resource_data.hpp:262-274 | A copied edge keeps its name and its record. |
| ResourceData.PoolInfraCopyVersusAssign | resource_data.hpp:131-150 | Copy construction and assignment of a vertex record differ exactly in the subtree planners. |
| Jobspec.LookupInFinds | jobspec.cpp:24-35 | A mapping lookup finds the first entry with the key. It finds one exactly when the key is among the entries' keys. |
| Jobspec.LookupFinds | jobspec.cpp:77-84 | `node[key]` is defined exactly when the node is a mapping that holds the key. |
| Jobspec.ParseYamlCount | jobspec.cpp:9-62 | The parsed count agrees with the count decoder. A scalar gives min = max. A mapping needs all four keys, 1 <= min <= max and an operator among '+', '-' and '^'; anything else is rejected. |
| Jobspec.ParseResource | jobspec.cpp:66-113 | The parsed resource agrees with the resource decoder, success and failure alike. |
| Jobspec.ParseResourceFields | jobspec.cpp:87-112 | The optional fields and the field-count test agree with the decoder's reading of the rest of the mapping. |
| Jobspec.ParseYamlResources | jobspec.cpp:187-201 | A resource list parses exactly when it is a sequence of valid resources, and gives them in order. |
| Jobspec.DecodeItemsFailurePersists | jobspec.cpp:196-198 | Once an item fails, every longer prefix of the list fails too, so the first failure is final. |
| Jobspec.CheckStringValues | jobspec.cpp:149-151 | A task's count loop succeeds exactly when every value converts to a string. |
| Jobspec.AssignStrings | jobspec.cpp:165-167 | Assigning a string mapping entry by entry leaves the map the entries denote, in which the last occurrence of a key wins. |
| Jobspec.ParseTask | jobspec.cpp:115-169 | A parsed task agrees with `DecodeTask`. |
| Jobspec.ParseYamlTasks | jobspec.cpp:171-185 | A task list parses exactly when it is a sequence of valid tasks, in order. |
| Jobspec.TaskItemsFailurePersists | jobspec.cpp:180-182 | Once a task item fails, every longer prefix fails. |
| Jobspec.ParseAttributes | jobspec.cpp:239-248 | The attribute import succeeds exactly when every value is a mapping of strings, and builds the nested map the entries denote. |
| Jobspec.ParseJobspec | jobspec.cpp:204-255 | The parsed jobspec agrees with the jobspec decoder: a four-entry mapping with version, resources, tasks and attributes. |
| Jobspec.AttributeMapsPrefix | jobspec.cpp:239-243 | An entry whose value is not a mapping of strings fails every longer prefix. |
| Jobspec.FieldCountTest | jobspec.cpp:66-112 | The constructor's field count equals the number of recognised keys in the mapping. So it matches the size exactly when no key is unknown or repeated. |
| Jobspec.RecognizedKeysCoverEntries | jobspec.cpp:110-112 | The recognised keys present number the entries exactly when every key is recognised and none repeats. |
| Jobspec.KeySetSize | jobspec.cpp:74-76 | A mapping has at least as many entries as distinct keys, and exactly as many exactly when its keys are distinct. |
| Jobspec.ScalarCount | jobspec.cpp:12-16 | A scalar count sets min = max to its value and keeps operator '+' and operand 1. Nothing requires it to be positive. |
| Jobspec.CountRequiresAllKeys | jobspec.cpp:24-35 | A count mapping missing any of min, max, operator or operand is rejected. |
| Jobspec.AcceptedCountBounds | jobspec.cpp:38-59 | An accepted count mapping has 1 <= min <= max and an operator among '+', '-' and '^'; '*' is rejected. |
| Jobspec.AcceptedResourceKeys | jobspec.cpp:74-112 | An accepted resource has type, count and only distinct recognised keys, so at most 7 entries. |
| Jobspec.UnknownResourceKeyRejected | jobspec.cpp:110-112 | A key outside the recognised seven, or a repeated key, makes the resource fail. |
| Jobspec.ResourceFields | jobspec.cpp:87-107 | exclusive is true only for the text "true". A label overrides unit. user_data starts empty. |
| Jobspec.TaskFields | jobspec.cpp:124-152 | An accepted task has a command and a one-pair slot. Its own count map stays empty whatever the count mapping holds. |
| Jobspec.MapOfLastWins | jobspec.cpp:165-167 | Each key of a string mapping gets the value of its last entry. |
| Jobspec.MapOfKeys | jobspec.cpp:165-167 | The keys of the built map are exactly the entries' keys. |
| Jobspec.TopLevelKeys | jobspec.cpp:207-243 | An accepted jobspec's top level holds exactly the keys version, resources, tasks and attributes, once each, and every attribute value is a mapping. |
| MatcherData.PowTermIncreasing | matcher_data.hpp:165-176 | With min >= 2 and operand >= 1 the terms prev_pwr walks through increase strictly. |
| MatcherData.PrevPwrIsLargestTermBelow | matcher_data.hpp:165-176 | prev_pwr gives the largest term of min, min^(2^operand), ... that is below count, or 0 when min >= count. |
| MatcherData.PrevPwrBounds | matcher_data.hpp:165-176 | For count > min the result stays at least min and is strictly below count. |
| MatcherData.PrevPwrWalk | matcher_data.hpp:168-175 | From any term below count the walk ends at the largest term below count. |
| MatcherData.PrevPwrWrapsAround | matcher_data.hpp:168-175 | As written, with a 32-bit i, min 2, operand 1 and count 70000: i wraps to 0 and stays there, so the loop never ends. |
| MatcherData.FirstTermsOfTwo | matcher_data.hpp:168-175 | The first six values of the 32-bit and the unbounded i, for min 2 and operand 1. |
| MatcherData.PrevPwrUnboundedExample | matcher_data.hpp:165-176 | Over unbounded integers the same call returns 65536, the largest term below 70000. |
| MatcherData.StepDecreases | matcher_data.hpp:145-158 | Above qc >= min, a '^' pass strictly lowers the count and stays at least min. A '*' pass lowers it exactly when the divisor is 2 or more. A '+' pass by an operand between 0 and the count subtracts it without wrapping. |
| MatcherData.PassesStep | matcher_data.hpp:145-158 | One pass from a count above qc leaves a loop that still ends, with one pass fewer. |
| MatcherData.ShrinkFits | matcher_data.hpp:145-158 | Whenever the shrinking loop ends, it ends at a value <= qc and <= its start. |
| MatcherData.SelectCountBounds | matcher_data.hpp:136-161 | select_count is 0 when max < min or min > qc. Otherwise it lies between min and max, is at most qc with a shrinking operator, and never ends below min with '^'. |
| MatcherData.ShrinkIsFirstFit | matcher_data.hpp:143-159 | Whenever the loop ends, its result is the first value of max, step(max), step(step(max)), ... that is <= qc. |
| MatcherData.ShrinkIsIter | matcher_data.hpp:143-159 | The loop's result is the value after exactly its number of passes. |
| MatcherData.PlusShrink | matcher_data.hpp:145-147 | With '+' by a positive operand and count % operand <= qc, the loop ends without wrapping: the result is count - k * operand for some k >= 1, and adding the operand once more exceeds qc. |
| MatcherData.PlusExample | matcher_data.hpp:136-161 | min 2, max 8, '+' 2 gives 4 against 5 and 0 against 1; min 1, max 10, '+' 3 gives 1 against 2. |
| MatcherData.PlusEndsDependsOnQc | matcher_data.hpp:145-147 | min 1, max 10, '+' 4 gives 2 against 2, but the loop never ends against 1: every value it reaches, wrapped in 32 bits, is 2 modulo 4. |
| MatcherData.TimesEnds | matcher_data.hpp:149-151 | A '*' loop by an unsigned divisor of 2 or more ends against any qc. |
| MatcherData.TimesByOneNeverEnds | matcher_data.hpp:149-151 | A '*' loop by a divisor of 1 never ends from above qc. |
| MatcherData.PowEnds | matcher_data.hpp:152-155 | A '^' loop with min >= 2 and operand >= 1 ends against any qc >= min. |
| MatcherData.TimesTerms | matcher_data.hpp:149-151 | With '*' the k-th term is max divided by operand^k. |
| MatcherData.OtherOperatorKeepsMax | matcher_data.hpp:142-159 | Any other operator, '-' among them, leaves the count at max, which can exceed qc. |
| MatcherData.RegisterAllIsDedup | matcher_data.hpp:96-104 | After any sequence of add_subsystem calls the list holds each added subsystem exactly once. |
| MatcherData.RegisterAllKeepsOrder | matcher_data.hpp:84-104 | The first subsystem added comes first and is the dominant one. The list after a prefix of the calls is a prefix of the final list. |
| MatcherData.MatcherData.constructor | matcher_data.hpp:57-58 | A new matcher has the given name, no subsystem and no tracked types. |
| MatcherData.MatcherData.Copy | matcher_data.hpp:59-65 | The copy holds all four members of the original. |
| MatcherData.MatcherData.Assign | matcher_data.hpp:66-73 | Assignment copies all four members. |
| MatcherData.MatcherData.AddSubsystem | matcher_data.hpp:96-104 | A new subsystem is appended with the filter {tf} and 0 is returned. A known one gives -1 and changes nothing. |
| MatcherData.MatcherData.DomSubsystem | matcher_data.hpp:121-124 | The dominant subsystem is the first one registered. |
| MatcherData.MatcherData.PrevPwr | matcher_data.hpp:165-176 | The loop computes the largest-term-below function, over unbounded integers. |
| MatcherData.MatcherData.SelectCount | matcher_data.hpp:136-161 | On every input where the source's loop ends, the loop computes the select_count specification: the early zero, the max < min case, and the first fitting value of the shrinking chain. A '^' pass uses the corrected prev_pwr of "## Findings". |
| DfuMatchCb.DfuMatchCb.constructor | dfu_match_cb.hpp:49 | A new callback has traversal level 0 and anonymous matcher data. |
| DfuMatchCb.DfuMatchCb.Named | dfu_match_cb.hpp:50-51 | A named callback has the given matcher name and level 0. |
| DfuMatchCb.DfuMatchCb.WithScorer | dfu_match_cb.hpp:110-136 | A callback derived from the base one, whose post-order hooks score each vertex with the given function; level 0 and the given matcher name. |
| DfuMatchCb.DfuMatchCb.Copy | dfu_match_cb.hpp:52-56 | The copy has the original's matcher data and level. |
| DfuMatchCb.DfuMatchCb.Assign | dfu_match_cb.hpp:57-62 | Assignment copies the matcher data and then the level. |
| DfuMatchCb.DfuMatchCb.DomFinishGraph | dfu_match_cb.hpp:82-87 | The base hook accepts the whole walk with 0 and changes nothing. |
| DfuMatchCb.DfuMatchCb.DomFinishSlot | dfu_traverse_impl.cpp:358 | The slot hook the walk calls accepts every slot with 0. |
| DfuMatchCb.DfuMatchCb.DomDiscoverVtx | dfu_match_cb.hpp:101-107 | Discovering a dominant vertex raises the level by one and returns 0. |
| DfuMatchCb.DfuMatchCb.DomFinishVtx | dfu_match_cb.hpp:108-136 | Finishing a dominant vertex lowers the level by one and returns 0. The aggregator comes back with the score the callback's scorer gives the vertex, and nothing else changed. |
| DfuMatchCb.DfuMatchCb.AuxDiscoverVtx | dfu_match_cb.hpp:149-156 | Discovering an auxiliary vertex raises the level by one and returns 0. |
| DfuMatchCb.DfuMatchCb.AuxFinishVtx | dfu_match_cb.hpp:158-184 | Finishing an auxiliary vertex lowers the level by one and returns 0. The aggregator comes back with the score the callback's scorer gives the vertex, and nothing else changed. |
| DfuMatchCb.DfuMatchCb.Incr | dfu_match_cb.hpp:186-189 | incr raises the level by one. |
| DfuMatchCb.DfuMatchCb.Decr | dfu_match_cb.hpp:190-193 | decr lowers the level by one. |
| DfuMatchCb.DfuMatchCb.Level | dfu_match_cb.hpp:194-201 | The prefix is four dashes per level, and empty at a level of 0 or below. |
| Planners.PlannerNew | dfu_traverse_impl.cpp:132-139 | A planner is made exactly when the type list is non-empty, not too long and as long as the totals. It starts with no span. |
| Planners.AvailDuring | dfu_traverse_impl.cpp:118-127 | The availability query gives 0 exactly when the counts fit throughout the window, and -1 otherwise. |
| Planners.MinAvailIsMin | dfu_traverse_impl.cpp:93-96 | What is available of a type over a window is at most its amount at any instant of the window, and is reached at one. |
| Planners.AddSpanEffect | dfu_traverse_impl.cpp:545-570 | A fitting span is logged under the next id and takes its counts from exactly the instants of its window. A span that does not fit is refused with -1 and changes nothing. |
| Planners.AddSpanKeepsCapacity | dfu_traverse_impl.cpp:545-570 | Adding spans never over-commits a planner that was not over-committed. |
| Planners.FreshPlannerIsFull | dfu_traverse_impl.cpp:132-139 | A fresh planner offers its full totals over any window of its horizon. |
| Planners.AvailTimesExact | dfu_traverse.hpp:985-986 | The time enumeration yields exactly the window starts from the given time on at which the counts fit, in increasing order. |
| ScoringApi.AllEdgesBelowWeakens | dfu_traverse_impl.cpp:497-521 | A fresh aggregator satisfies the walk invariant, and the walk invariant gives the edge bound enforcement needs. |
| ScoringApi.AddKeepsAllEdgesBelow | dfu_traverse_impl.cpp:276-283 | Adding a non-root group over existing edges keeps the walk invariant. |
| ScoringApi.MergeKeepsAllEdgesBelow | dfu_traverse_impl.cpp:482-495 | Merging two aggregators that keep the walk invariant keeps it. |
| ScoringApi.AddAppends | dfu_traverse_impl.cpp:276-283 | add appends exactly one group, to (s, t) only, and records t under s the first time. The qualified count grows by the group's count when its score meets the match. |
| ScoringApi.QualifiedSumAppend | dfu_traverse_impl.cpp:455-466 | The qualified count is additive over concatenated group lists. |
| ScoringApi.MergeAppends | dfu_traverse_impl.cpp:482-495 | merge appends the child's groups after the parent's for every pair, so the qualified counts add. The parent's choices and scalars are kept. |
| ScoringApi.AppendNewMembers | dfu_traverse_impl.cpp:482-495 | The merged type list extends the parent's list, adds exactly the child's new types, and has no duplicate. |
| ScoringApi.ChooseAccumAllChoosesEvery | dfu_traverse_impl.cpp:466-470 | choose_accum_all chooses every recorded group of (s, t), and each can be fetched with `at`. |
| ScoringApi.ChosenAreFetchable | dfu_traverse_impl.cpp:504-515 | In a well-formed aggregator `at` below best_i never throws. |
| ScoringApi.IteratorWalks | dfu_traverse_impl.cpp:364-385 | After a rewind and k increments the iterator stands on the k-th group of (s, t). |
| DfuJobMeta.DefaultJobMeta | dfu_traverse.hpp:49-53 | Default metadata: allocate, job -1, time -1 and the system default duration. |
| DfuJobMeta.AtollReadsDecimal | dfu_traverse.hpp:65 | atoll reads back a decimal rendering, with or without a leading minus sign. |
| DfuJobMeta.AtollStopsAtNonDigit | dfu_traverse.hpp:65 | atoll stops at the first character that is not a digit. |
| DfuJobMeta.BuildAsWritten | dfu_traverse.hpp:55-67 | As written, build is defined only when the jobspec has a "system" attribute. It then sets time, job and mode, and the duration from "duration" when present. |
| DfuJobMeta.BuildSetsRequest | dfu_traverse.hpp:55-67 | build sets time, job id and mode. It takes the duration, cast to unsigned 64-bit, from the "system" attributes when they hold one and keeps it otherwise, and it agrees with the code as written wherever that is defined. |
| DfuJobMeta.NegativeDurationWraps | dfu_traverse.hpp:65 | A negative duration text wraps around to a huge unsigned duration. |
| DfuJobMeta.AcceptedJobspecWithoutSystem | dfu_traverse.hpp:62-63 | The parser accepts a jobspec with no attributes, and for it the code as written looks "system" up and finds nothing. |
| DfuTraverseImpl.Paint | dfu_traverse_impl.cpp:306-318 | Painting a vertex gray or black under the current base takes its pair out of the white pairs and changes nothing else. |
| DfuTraverseImpl.WalkKeepsGraphOk | dfu_traverse_impl.cpp:249-441 | A matching walk, which recolours vertices and reweights edges, keeps the graph well formed. |
| DfuTraverseImpl.ResetWhitens | dfu_traverse_impl.cpp:47-56 | A new colour epoch makes every vertex white for every subsystem and keeps every colour below black. |
| DfuTraverseImpl.AggregateOf | dfu_traverse.hpp:689-708 | The aggregate asked of a planner has one entry per planner type. |
| DfuTraverseImpl.FirstHit | dfu_traverse_impl.cpp:141-159 | The matching scan stops at the first request of the vertex's type or of type slot, having skipped only other types. |
| DfuTraverseImpl.LastSlot | dfu_traverse_impl.cpp:147-152 | The slot found among the children is the last request of type slot; none means no such request. |
| DfuTraverseImpl.MatchFirstWins | dfu_traverse_impl.cpp:141-159 | The first request of the vertex's type is matched, with its last slot child as the slot. A slot request met earlier is the slot instead, with no match. |
| DfuTraverseImpl.ExclusivityRules | dfu_traverse.hpp:372-380 | The older last-match rule says yes only when the any-match rule does. The two agree when the requests of the type agree with each other. |
| DfuTraverseImpl.AccumIfEffect | dfu_traverse_impl.cpp:204-217 | accum_if succeeds exactly for a tracked type. It then adds the count to that type's entry, a missing entry counting as 0, and to no other. |
| DfuTraverseImpl.AccumAllStep | dfu_traverse_impl.cpp:219-233 | Adding one entry of a map and then the rest is adding them all, whatever the order. |
| DfuTraverseImpl.AccumAllBasics | dfu_traverse_impl.cpp:219-233 | Adding no entry changes nothing. Adding only brings in tracked types and only grows them. |
| DfuTraverseImpl.AccumKeepsTracked | dfu_traverse_impl.cpp:204-233 | Accumulating never brings an untracked type into the accumulator. |
| DfuTraverseImpl.PrimeFrameTrans | dfu_traverse_impl.cpp:697-732 | Two priming steps make one. |
| DfuTraverseImpl.PrimeComposes | dfu_traverse_impl.cpp:697-732 | The gray step, the child loop and the post-order half of prime make one priming step with prime's outcome. |
| DfuTraverseImpl.LegacyComposes | dfu_traverse.hpp:248-283 | The same for the older prime. |
| DfuTraverseImpl.PrimedKeepsShape | dfu_traverse_impl.cpp:734-746 | Priming a request list changes no request, only its user data. |
| DfuTraverseImpl.PrimedKeepsTracked | dfu_traverse_impl.cpp:734-746 | Priming brings no untracked type into the accumulator and drops none of its entries. |
| DfuTraverseImpl.PrimedAccumulates | dfu_traverse_impl.cpp:734-746 | On a freshly parsed forest whose totals fit an unsigned int, priming adds the minimal total asked of each tracked type, and nothing of an untracked one. |
| DfuTraverseImpl.PrimedFillsUserData | dfu_traverse_impl.cpp:734-746 | On such a forest priming fills each request's user data with the tracked totals of its `with` forest. |
| DfuTraverseImpl.SameShapeTotals | dfu_traverse_impl.cpp:734-746 | Forests of the same shape ask the same totals. |
| DfuTraverseImpl.EnforceRcIff | dfu_traverse_impl.cpp:497-521 | enforce fails exactly when best_i overruns the groups of some type. In a well-formed aggregator it never does. |
| DfuTraverseImpl.WfNoOverrun | dfu_traverse_impl.cpp:504-515 | best_i of a well-formed aggregator never overruns. |
| DfuTraverseImpl.MarkAllEffect | dfu_traverse_impl.cpp:504-515 | Writing decisions never changes an edge's ends or membership. An edge no selected edge names is untouched. A named edge takes the generation, needs and exclusivity of the last selected edge that names it. |
| DfuTraverseImpl.WrittenStops | dfu_traverse_impl.cpp:497-521 | enforce either runs through every type or stops at the first that overruns, having written what it reached. |
| DfuTraverseImpl.MatchStepTrans | dfu_traverse_impl.cpp:249-441 | Two steps of the matching walk make one. |
| DfuTraverseImpl.MarkAllMarks | dfu_traverse_impl.cpp:504-515 | Writing decisions under a generation marks only with that generation. |
| DfuTraverseImpl.RecoloredKeeps | dfu_traverse_impl.cpp:84-130 | A recolouring keeps everything pruning looks at. |
| DfuTraverseImpl.EligibleEarlier | dfu_traverse_impl.cpp:258-268 | An edge the walk may descend now could have been descended at any earlier point of the walk. |
| DfuTraverseImpl.NoEligibleStays | dfu_traverse_impl.cpp:258-268 | A vertex with nothing left to descend keeps having nothing. |
| DfuTraverseImpl.ExtendedByAdd | dfu_traverse_impl.cpp:276-283 | Adding a group extends the aggregator and grows the added pair; setting a scalar keeps every list. |
| DfuTraverseImpl.ExtendedByMerge | dfu_traverse_impl.cpp:482-495 | Merging extends the parent aggregator. |
| DfuTraverseImpl.ExploredChild | dfu_traverse_impl.cpp:258-284 | A descent that extends the aggregator keeps explore's loop standing, and the added singleton makes the loop a success. |
| DfuTraverseImpl.ExploreLoopDone | dfu_traverse_impl.cpp:258-289 | When explore's loop has gone through every edge, its descents cover every eligible edge and their fold is the aggregator. |
| DfuTraverseImpl.ExpSoFarStep | dfu_traverse_impl.cpp:331-344 | One more subsystem keeps dom_exp's loop standing: the aggregator only grows, and it grows under the last subsystem when that one succeeded. |
| DfuTraverseImpl.ExpLoopStep | dfu_traverse_impl.cpp:337-342 | One explore of u in subsystem i, with its fold, code and leaf flag, moves dom_exp's loop from i to i + 1 and appends its descents to the trace. |
| DfuTraverseImpl.ExpLoopDone | dfu_traverse_impl.cpp:336-343 | When dom_exp's loop has gone through every subsystem, its aggregator is the fold of all their descents and its code is that of the last subsystem. |
| DfuTraverseImpl.SlotsFitIsLargest | dfu_traverse_impl.cpp:363-372 | n slots fit exactly when n is at most UINT_MAX and every element's qualified count covers n times its max count. |
| DfuTraverseImpl.ScoredRootResolves | dfu_match_cb.hpp:110-136 | Success can happen: once the post-order hook scores a childless root at MATCH_MET or more, a request for as many vertices of its type as it has free resolves. |
| DfuTraverseImpl.KeptScoreRootFails | dfu_match_cb.hpp:129-136 | With the base callback's hooks, which leave the score alone, the same request at such a root never resolves. Its root group keeps the fresh score of -1. |
| DfuTraverseImpl.ElemFitMeans | dfu_traverse_impl.cpp:366-371 | One element allows n slots exactly when its qualified count covers n times its max count. |
| DfuTraverseImpl.SlotCount | dfu_traverse_impl.cpp:363-372 | The counting loop computes the least element fit, starting from UINT_MAX. |
| DfuTraverseImpl.SlotGroup | dfu_traverse_impl.cpp:373-392 | One slot group: every element of the shape takes its run of groups from its type's cursor on (from 0 for the first slot). The group counts 1, is exclusive, scores MATCH_MET plus the scores of the groups taken and holds their first edges. Only the cursors of the explored aggregator move. |
| DfuTraverseImpl.TakeIsRun | dfu_traverse_impl.cpp:376-389 | The groups an element takes are consecutive groups from the cursor on, each with an edge. Each is taken while the counts before it fall short of the max count, a group whose count is 0 included. The run stops short of the max count only at the end of the groups or at a group without edges, so it is the shortest run whose counts reach the max count. |
| DfuTraverseImpl.TakeZeroCountExample | dfu_traverse_impl.cpp:376-389 | With a max count of 2, a group counting 0 is taken and the element goes on to the next group; the group after the count is reached is not taken. |
| DfuTraverseImpl.SlotElem | dfu_traverse_impl.cpp:376-389 | One element takes whole groups of its type from the cursor on (rewound for the first slot) until their counts reach its max count, moving the cursor past each. A group whose count is 0 is taken as well, adds its edge and score, and the element goes on. The score returned is their summed score and the edges their first edges, each exclusive and needing its whole count. The element stops at a cursor past the end or a group without edges. |
| DfuTraverseImpl.AddSlots | dfu_traverse_impl.cpp:373-392 | qual slot groups are appended under (dom, "slot"), each from the cursors its predecessor left. Nothing else of the aggregator changes. |
| DfuTraverseImpl.SlotLoopStep | dfu_traverse_impl.cpp:373-392 | One more slot group, built from the current cursors, is appended to the aggregator. The chain of cursor states grows by the state that group left. |
| DfuTraverseImpl.CountTerminatesAlways | matcher_data.hpp:136-161 | A count whose loop ends against min ends against every qualified count. |
| DfuTraverseImpl.CountTerminatesExactly | matcher_data.hpp:136-161 | The qualified-count-free criterion holds exactly when select_count returns against every qualified count. |
| DfuTraverseImpl.ChooseTypesEffect | dfu_traverse_impl.cpp:466-476 | Choosing changes only best_i. Every listed type without a top-K choice gets all its groups chosen, and nothing else does. |
| DfuTraverseImpl.ChooseRestEffect | dfu_traverse_impl.cpp:462-477 | The same, across every subsystem. |
| DfuTraverseImpl.ChooseRestWf | dfu_traverse_impl.cpp:462-479 | After choosing, every group of a type without a top-K choice is enforced. A well-formed aggregator stays well formed, so enforcement never overruns. |
| DfuTraverseImpl.EnforceAllMarks | dfu_traverse_impl.cpp:477-479 | Enforcing in every subsystem writes only decisions of the current generation. |
| DfuTraverseImpl.CommittedTrans | dfu_traverse_impl.cpp:586-618 | Two commitments make one. |
| DfuTraverseImpl.AddSpanGrows | dfu_traverse_impl.cpp:545-570 | Adding a span over the job's window to one planner is a planner growth that over-commits nothing. |
| DfuTraverseImpl.BookedStays | dfu_traverse_impl.cpp:538-576 | A booking, once made, stays through later commitments. |
| DfuTraverseImpl.CommittedKeepsGraphOk | dfu_traverse_impl.cpp:538-576 | A commitment leaves the graph well formed. |
| DfuTraverseImpl.UpdOutcomeTrans | dfu_traverse_impl.cpp:600-611 | A child's update outcome, reached along a followed edge, adds to the outcome at u so far. |
| DfuTraverseImpl.BookEffectKeeps | dfu_traverse_impl.cpp:554-572 | The booking keeps the graph well formed, the colours and the number of planners. |
| DfuTraverseImpl.CoreEffectMeans | dfu_traverse_impl.cpp:538-576 | updcore books u for the job and nothing else, and commits nothing when u is not exclusive and nothing below it was. An exclusive u is booked with its span id. A committed u is tagged when allocating. The parent gains u's needs when u is exclusive. |
| DfuTraverseImpl.OwnEffectMeans | dfu_traverse_impl.cpp:544-553 | The first half of updcore only adds a span of the needs to an exclusive vertex's own planner and passes its type's needs up. |
| DfuTraverseImpl.BookEffectMeans | dfu_traverse_impl.cpp:554-572 | The second half books u only; with nothing committed it changes nothing. A committed u is tagged when allocating and holds the exclusive span and a subtree span under the job. |
| DfuTraverseImpl.UpdLeaveOutcome | dfu_traverse_impl.cpp:612-617 | After its children, u painted black and booked by updcore makes u's update outcome. An exclusive u commits something. |
| DfuTraverseImpl.IncLevel | dfu_traverse_impl.cpp:594 | `++` on the unsigned traversal level wraps modulo 2^32. |
| DfuTraverseImpl.DecLevel | dfu_traverse_impl.cpp:574 | `--` on the unsigned traversal level wraps modulo 2^32. |
| DfuTraverseImpl.LevelRestored | dfu_traverse_impl.cpp:574-594 | Raising and then lowering the traversal level gives it back. |
| DfuTraverseImpl.ResourceGraph.constructor | dfu_traverse_impl.cpp:632-637 | The graph holds the given vertices, edges and planners. |
| DfuTraverseImpl.ResourceGraph.SetColor | dfu_traverse_impl.cpp:306 | Setting a colour changes that one vertex's colour for that one subsystem. |
| DfuTraverseImpl.ResourceGraph.SetVertex | dfu_traverse_impl.cpp:554-572 | Setting a vertex replaces that one vertex. |
| DfuTraverseImpl.ResourceGraph.SetEdge | dfu_traverse_impl.cpp:510-512 | Setting an edge replaces that one edge. |
| DfuTraverseImpl.ResourceGraph.AddPlanner | dfu_traverse_impl.cpp:132-139 | A new planner is appended, and its handle is the old arena length. |
| DfuTraverseImpl.ResourceGraph.SetPlanner | dfu_traverse_impl.cpp:545-570 | Writing a planner replaces that one planner. |
| DfuTraverseImpl.DfuImpl.constructor | dfu_traverse_impl.cpp:632-637 | A traverser over the given graph, callback and roots, at generation 0 and colour base 0. |
| DfuTraverseImpl.DfuImpl.Copy | dfu_traverse_impl.cpp:639-648 | The copy shares the graph, the callback and the roots, and copies the counters. |
| DfuTraverseImpl.DfuImpl.Tick | dfu_traverse_impl.cpp:47-51 | tick starts a new match generation and a new colour epoch, in which every vertex is white again. |
| DfuTraverseImpl.DfuImpl.TickColorBase | dfu_traverse_impl.cpp:53-56 | tick_color_base starts a new colour epoch only. |
| DfuTraverseImpl.DfuImpl.NotStoppedIsWhite | dfu_traverse_impl.cpp:64-70 | stop_explore is false exactly when the edge's target is still white in the current epoch. |
| DfuTraverseImpl.DfuImpl.Exclusivity | dfu_traverse_impl.cpp:72-82 | exclusivity is true exactly when some request of the vertex's type is exclusive. |
| DfuTraverseImpl.DfuImpl.ExclusivityLegacy | dfu_traverse.hpp:372-380 | The older exclusivity follows the last request of the vertex's type. |
| DfuTraverseImpl.DfuImpl.Count | dfu_traverse.hpp:689-708 | count gives one entry per planner type, in planner order: the looked-up demand cast to uint64, or 0 when it is absent. A NULL planner gives none. |
| DfuTraverseImpl.DfuImpl.Prune | dfu_traverse_impl.cpp:84-130 | prune is true exactly when the vertex's own planner has nothing free over the job's window, whatever the vertex's type, or when some request of the vertex's type rules it out. A request rules it out by tag, when an exclusive allocation meets a vertex some job holds, or by the subtree planner, when the request's aggregate does not fit over the window. |
| DfuTraverseImpl.DfuImpl.SubtreePlan | dfu_traverse_impl.cpp:132-139 | The subtree planner has the totals and types given and the base time and horizon of the vertex's own planner. It is NULL exactly when the planner cannot be made. |
| DfuTraverseImpl.DfuImpl.Match | dfu_traverse_impl.cpp:141-159 | match reports the first request of the vertex's type, with the last slot among its children, unless a slot request comes first. |
| DfuTraverseImpl.DfuImpl.SlotAmong | dfu_traverse_impl.cpp:148-152 | The matched request's slot is the last of its children of type slot, and there is none when no child is a slot (`LastSlot`). |
| DfuTraverseImpl.DfuImpl.SlotMatch | dfu_traverse_impl.cpp:161-181 | slot_match is true exactly when there is a slot and each of its children's types is the type of some out-edge target. |
| DfuTraverseImpl.DfuImpl.Test | dfu_traverse_impl.cpp:183-202 | test gives a slot match with the slot's children, else a resource match with the matched request's children, else no match with the requests unchanged. |
| DfuTraverseImpl.DfuImpl.AccumEach | dfu_traverse_impl.cpp:219-233 | accum_if of every entry of the map, in the map's order, gives the order-free accumulation. |
| DfuTraverseImpl.DfuImpl.AggregateList | dfu_traverse_impl.cpp:719-726 | Each key of the child aggregate becomes one planner type, once, with its value as that type's total. |
| DfuTraverseImpl.DfuImpl.AttachSubplan | dfu_traverse_impl.cpp:718-729 | A non-empty aggregate becomes the vertex's subtree planner, or gives -1 when it has more types than a planner holds. An empty one changes nothing. |
| DfuTraverseImpl.DfuImpl.Prime | dfu_traverse_impl.cpp:697-732 | The vertex's size, when tracked, and then its children's aggregate go to the parent. A non-empty aggregate becomes the subtree planner. The vertex ends black. The result is -1 when a child fails or the aggregate is too wide. |
| DfuTraverseImpl.DfuImpl.PrimeEnter | dfu_traverse_impl.cpp:705-706 | The vertex turns gray, so no edge becomes eligible that was not before. |
| DfuTraverseImpl.DfuImpl.PrimeLeave | dfu_traverse_impl.cpp:712-731 | After successful children their aggregate goes to the parent and into the subtree planner. The vertex turns black whatever happened. |
| DfuTraverseImpl.DfuImpl.PrimeAttach | dfu_traverse_impl.cpp:712-729 | The accumulation and subtree-planner step behaves as the attach outcome describes. |
| DfuTraverseImpl.DfuImpl.PrimeExp | dfu_traverse_impl.cpp:235-247 | Each white child is primed in edge order, stopping at the first failure. |
| DfuTraverseImpl.DfuImpl.PrimeChild | dfu_traverse_impl.cpp:239-245 | One white child is primed into the aggregate as a priming step. |
| DfuTraverseImpl.DfuImpl.PrimeLegacy | dfu_traverse.hpp:248-283 | As prime, except that it cannot fail and that a too-wide aggregate leaves a NULL subtree planner. |
| DfuTraverseImpl.DfuImpl.LegacyChildren | dfu_traverse.hpp:258-266 | The older child loop primes every white child in edge order. |
| DfuTraverseImpl.DfuImpl.LegacyAttach | dfu_traverse.hpp:272-280 | A non-empty aggregate is stored as the subtree planner unchecked, so NULL when it is too wide. |
| DfuTraverseImpl.DfuImpl.LegacyLeave | dfu_traverse.hpp:267-282 | The older post-order half: the aggregate goes to the parent and to the subtree planner, and the vertex turns black. |
| DfuTraverseImpl.DfuImpl.PrimeResources | dfu_traverse_impl.cpp:734-746 | Priming a request list gives back the requests with their user data filled in and the root aggregate, as the primed-request function states. |
| DfuTraverseImpl.DfuImpl.MarkEdges | dfu_traverse_impl.cpp:508-513 | Marking writes the decisions of the selected edges onto the graph's edges, in order. |
| DfuTraverseImpl.DfuImpl.EnforceType | dfu_traverse_impl.cpp:502-516 | The groups best_i reaches for one type are marked in order. The result is -1 when best_i overruns the groups. |
| DfuTraverseImpl.DfuImpl.Enforce | dfu_traverse_impl.cpp:497-521 | The edges end as the enforce function states. Every selected edge of the chosen groups, root groups skipped, is marked with this generation, needs and exclusivity. An overrun gives -1. |
| DfuTraverseImpl.DfuImpl.EnforceStep | dfu_traverse_impl.cpp:502-516 | One type of enforce's loop: what is left to write after it is what was left before it, minus its own edges. |
| DfuTraverseImpl.DfuImpl.EnforceGroup | dfu_traverse_impl.cpp:506-513 | One reached group of a type has its selected edges marked, a root group none. What is left of the reached groups still leads to the type's goal. |
| DfuTraverseImpl.EnforceLoopDone | dfu_traverse_impl.cpp:497-521 | When enforce's loop has gone through every type or stopped at an overrun, its code and edges are those the enforce function states. |
| DfuTraverseImpl.DfuImpl.EnforceEach | dfu_traverse_impl.cpp:477-479 | enforce runs for every subsystem in turn; the edges end as the all-subsystems enforce function states. |
| DfuTraverseImpl.DfuImpl.ResolveInto | dfu_traverse_impl.cpp:482-495 | With a positive overall score the choice is enforced on the spot, under a hierarchical constraint, or merged into the parent's. A score of 0 or less changes nothing. It always succeeds. |
| DfuTraverseImpl.DfuImpl.Descend | dfu_traverse_impl.cpp:264-274 | One descent walks the target with aux_upv upward or dom_dfv downward. The aggregator ends as the descent's yield: unchanged for a failing child, otherwise the child's scored aggregator resolved into it (downward also with the child's avail and score). Upward, the exclusivity flag is unchanged. |
| DfuTraverseImpl.DfuImpl.Explore | dfu_traverse_impl.cpp:249-290 | The descents are of out-edges of u eligible in s, in edge order, and every edge still eligible at the end was descended. The aggregator is their fold: each child's yield, then, for a child that succeeded, the singleton group of its edge, scored with the overall score and counted with the avail the child left, under the child's type. 0 exactly when some child succeeded. A dominant descent makes u no leaf. With nothing eligible, -1 and nothing changes. |
| DfuTraverseImpl.DfuImpl.ExploreEdge | dfu_traverse_impl.cpp:258-287 | One out-edge keeps explore's loop standing (`ExploreLoop`): an edge not in s or with a non-white target adds no descent and changes nothing; a white target adds its descent, and the fold, the code and the leaf flag follow it. |
| DfuTraverseImpl.DfuImpl.ExploreTaken | dfu_traverse_impl.cpp:261-287 | An out-edge with a white target adds exactly its descent to the loop's trace, and the loop keeps standing. |
| DfuTraverseImpl.DfuImpl.ExploreChild | dfu_traverse_impl.cpp:261-287 | The descent is of the given edge and records its target's type. The aggregator ends as the explore fold with this descent appended: the child's yield and, on success, its singleton group with the score and avail the child left and the child's exclusivity. The code becomes 0 on success, and a dominant descent makes u no leaf. |
| DfuTraverseImpl.DfuImpl.AuxUpv | dfu_traverse_impl.cpp:292-329 | A pruned vertex fails with nothing changed and no descents. Otherwise u is visited: its descents are of eligible out-edges (none at the subsystem's root), all but the last succeeded, and u succeeds exactly when all did. On success u is black, its own aggregator is the upward fold of the descents scored by the post-order hook, and the parent's aggregator is exactly that one resolved into it. |
| DfuTraverseImpl.DfuImpl.AuxVisit | dfu_traverse_impl.cpp:306-318 | Unless u is the subsystem's root, its white children are walked in edge order into a fresh aggregator, which ends as their upward fold. All descents but the last succeeded, and the code is 0 exactly when all did. A root or a vertex with nothing eligible succeeds with no descents. On success u is black and every edge still eligible was descended. |
| DfuTraverseImpl.DfuImpl.AuxBlack | dfu_traverse_impl.cpp:318 | u turns black in aux; no edge or planner changes, and when u is not the root the edges covered stay covered. |
| DfuTraverseImpl.DfuImpl.AuxChildren | dfu_traverse_impl.cpp:308-316 | The descents are of eligible out-edges, in edge order, and the aggregator is their upward fold. Every descent but the last succeeded, so the loop stops at the first child that fails, and the code is -1 exactly then. On success every edge still eligible was descended. With nothing eligible, 0 and nothing changes. |
| DfuTraverseImpl.DfuImpl.AuxEdge | dfu_traverse_impl.cpp:309-315 | One out-edge of the child loop: a non-white target or an edge outside aux adds no descent; a white target adds its descent. The aggregator stays the upward fold of the descents, the code is 0 exactly when all succeeded, and a vertex with nothing eligible changes nothing. |
| DfuTraverseImpl.DfuImpl.DomExp | dfu_traverse_impl.cpp:331-344 | Explore runs in every subsystem in turn, downward in the dominant one and upward in the others (`ExpEnd`). The graph moves on by a match step. The aggregator is the fold of all their descents (`ExpDone`), and each subsystem's descents cover its eligible edges. The code is 0 exactly when some child of the last subsystem succeeded, and the aggregator then grew in that subsystem. |
| DfuTraverseImpl.DfuImpl.DomExpStep | dfu_traverse_impl.cpp:337-342 | One subsystem of dom_exp keeps its loop standing (`ExpLoop`): downward when it is the dominant one, upward otherwise, and its descents are appended to the trace. |
| DfuTraverseImpl.DfuImpl.DomSlot | dfu_traverse_impl.cpp:346-396 | The slot shape is explored exclusively into an aggregator of its own. When some child succeeded, exactly as many slot groups as fit in that aggregator (`SlotsFit`) are added under (dom, "slot"), each built from the cursors its predecessor left (`SlotChain`). Otherwise nothing is added. The code is 0 exactly when some child succeeded and at least one slot fits. |
| DfuTraverseImpl.DfuImpl.DomDfv | dfu_traverse_impl.cpp:398-441 | u is exclusive when its parent's request or some request of its type says so. A pruned vertex fails with nothing changed. A vertex that is not pruned succeeds and ends black. Its visit builds its aggregator as test directs (`VisitDone`), the post-order hook scores it, and the parent's aggregator ends exactly as that one resolved into it, with u's avail and that score. |
| DfuTraverseImpl.DfuImpl.DomDfvVisit | dfu_traverse_impl.cpp:415-440 | Past pruning, with some of u's own resources free: u is visited as test directs, ends black, and the parent's aggregator takes u's scored aggregator, its avail and its score. |
| DfuTraverseImpl.DfuImpl.DomLeave | dfu_traverse_impl.cpp:428-440 | With nothing of u's own free, the visit's code comes back and nothing changes. Otherwise the post-order hook scores the aggregator, the parent's becomes that one resolved into it, with u's avail and score, and the vertex succeeds. |
| DfuTraverseImpl.DfuImpl.DomVisit | dfu_traverse_impl.cpp:419-427 | u ends black. Its aggregator is built from a fresh one as test directed: the slot groups of the slot's shape, or the fold of the descents of every subsystem's explore (`VisitDone`). |
| DfuTraverseImpl.DfuImpl.Resolve | dfu_traverse_impl.cpp:443-480 | Every root request must get a non-zero count from the root's avail, and every recorded type a non-zero qualified count. The last root request sets needs. Each type without a top-K choice then gets all its groups chosen, and the choice is enforced in every subsystem. |
| DfuTraverseImpl.DfuImpl.RootCounts | dfu_traverse_impl.cpp:449-458 | select_count of each root request against the root's avail, failing at the first zero. The last count becomes needs. |
| DfuTraverseImpl.DfuImpl.ChooseQualified | dfu_traverse_impl.cpp:460-476 | Every recorded type needs a non-zero qualified count, failing at the first without one. Types without a top-K choice get all groups chosen. |
| DfuTraverseImpl.DfuImpl.ChooseSubsystem | dfu_traverse_impl.cpp:462-475 | The same for one subsystem. |
| DfuTraverseImpl.DfuImpl.Select | dfu_traverse_impl.cpp:748-772 | A new generation and colour epoch, then the dominant walk from the root. The walk's aggregator is the root's visit, scored and resolved as dom_dfv does. The match succeeds exactly when the root is not pruned and resolve accepts that aggregator with the root group added (`RootResolves`). On success the last root request's count becomes needs. A pruned root fails with no edge changed. Only this generation's decisions are written. |
| DfuTraverseImpl.DfuImpl.Updcore | dfu_traverse_impl.cpp:538-576 | u is booked as the core effect states. The commit count grows by one for an exclusive u. The level drops by one, wrapping as an unsigned int. |
| DfuTraverseImpl.DfuImpl.UpdOwn | dfu_traverse_impl.cpp:544-553 | The first half of updcore, as the own effect states. |
| DfuTraverseImpl.DfuImpl.UpdBook | dfu_traverse_impl.cpp:554-572 | The second half of updcore, as the book effect states. |
| DfuTraverseImpl.DfuImpl.UpdUpv | dfu_traverse_impl.cpp:578-584 | The auxiliary update is a stub that commits nothing. |
| DfuTraverseImpl.DfuImpl.UpdDfv | dfu_traverse_impl.cpp:586-618 | Children reached by followed edges are updated first, then u is painted black and booked. Only u's chosen subtree changes. Nothing but colours changes when nothing was committed. An exclusive u commits itself. The level comes back. |
| DfuTraverseImpl.DfuImpl.UpdFinish | dfu_traverse_impl.cpp:612-617 | u is painted black in the dominant subsystem and booked by updcore. |
| DfuTraverseImpl.DfuImpl.UpdChildren | dfu_traverse_impl.cpp:595-611 | The out-edges of u in every subsystem in turn, each outcome adding to u's. |
| DfuTraverseImpl.DfuImpl.UpdSubsystem | dfu_traverse_impl.cpp:597-610 | The edge loop of one subsystem. |
| DfuTraverseImpl.DfuImpl.UpdEdge | dfu_traverse_impl.cpp:598-609 | An edge is followed exactly when its target is neither gray nor black and its decision is of the current generation. It is followed with its exclusivity and its needs cast to unsigned; any other edge is skipped. |
| DfuTraverseImpl.DfuImpl.Update | dfu_traverse_impl.cpp:774-783 | A new colour epoch, then upd_dfv from the root. 0 exactly when something was committed, and then some vertex is booked; otherwise only colours changed. An exclusive root always commits. Only the followed subtree changes, no planner is over-committed, and every span is over the job's window. |
| DfuTraverser.DomRankedReweighted | dfu_traverse_impl.cpp:586-618 | An acyclic dominant hierarchy stays acyclic when a walk reweights its edges, and its edges of any one generation are ranked. |
| DfuTraverser.SameShapeTop | dfu_traverse.hpp:968-976 | Forests of the same shape agree on every top-level request apart from `with` lists and user data. |
| DfuTraverser.AvailTimesReservable | dfu_traverse.hpp:977-990 | The enumerated times lie after the start time, and the request's totals fit at each of them. |
| DfuTraverser.ReservedAtOffered | dfu_traverse.hpp:980-989 | A reservation at an offered time lies after the job's time, and the request's totals fit there. |
| DfuTraverser.DfuTraverser.constructor | dfu_traverse.hpp:868-873 | A traverser over the given graph, roots and callback. |
| DfuTraverser.DfuTraverser.Initialize | dfu_traverse.hpp:922-943 | Each subsystem is primed from its root in order. The first subsystem without a root gives -1. Only colours and subtree planners change, and planners are added. |
| DfuTraverser.DfuTraverser.PrimeRoot | dfu_traverse.hpp:930-937 | One subsystem's priming succeeds and changes only colours and subtree planners. |
| DfuTraverser.DfuTraverser.InitializeWith | dfu_traverse.hpp:945-953 | Setting graph, roots and callback, then initialize. |
| DfuTraverser.DfuTraverser.Run | dfu_traverse.hpp:955-998 | -1 with nothing changed when the dominant subsystem has no root or no request. Otherwise the requests come back primed. A failed run changes only colours and edge marks. A successful run either allocated at the time given, or reserved at a later time where the root's subtree planner fits the request's totals. Either way it committed the job for its duration. |
| DfuTraverser.DfuTraverser.RunPrimed | dfu_traverse.hpp:976-996 | With the requests primed: match at the job's time or else reserve later, then commit. On success the job is committed at the job's time, or, under allocate-or-else-reserve, reserved at a later time where the request fits. |
| DfuTraverser.DfuTraverser.SelectOrElse | dfu_traverse.hpp:976-990 | select at the time given. Its success keeps the metadata. Under allocate-or-else-reserve its failure leads to the retry over exactly the times the root's subtree planner offers after that time: -1 only after every offered time was tried, success at the last time tried, and every earlier try failed. A success resolves at the root. A reservation lies after the given time, at a time where the request fits. |
| DfuTraverser.DfuTraverser.Commit | dfu_traverse.hpp:992-995 | On success the job is committed from the pre-select state. On failure only colours changed. |
| DfuTraverser.DfuTraverser.SelectAt | dfu_traverse.hpp:978-979 | One select: the walk only recolours vertices and reweights edges, and on success it resolves at the root. |
| DfuTraverser.DfuTraverser.OrElseReserve | dfu_traverse.hpp:977-990 | Allocation is off. The times offered are exactly those the root's subtree planner enumerates after the job's time at which the totals fit; none when the root has no such planner. Select is tried at each in turn, and every try before the last one failed: -1 only once all were tried, otherwise success at the last one tried, which lies later than the job's time, fits the request, and resolves at the root. |
| DfuTraverser.DfuTraverser.TryTimes | dfu_traverse.hpp:982-989 | Select is tried at each of the times in turn, allocation off, and every try before the last one failed. -1 only once every time was tried. On success the metadata is at the last time tried, and the walk resolves at the root. |

## Left out

- Map iteration order: the source iterates ordered maps. Accumulation and
  types are stated order-free, and the loops pick entries by a
  nondeterministic choice.
- Output: the `emit_edge`/`emit_vertex` lines and `dfu_impl_t::level` are
  output only. `DfuImpl` keeps the traversal level as a counter. The impl's
  prefix unit is "---", while the callback's `level` is modelled with
  "----" as its header writes it.
- The null checks on the graph, roots and callback pointers are left out.
  The model's objects always exist.
- I/O is not modelled. The YAML loader is replaced by a `Node` datatype
  given to the parser.
- `SYSTEM_DEFAULT_DURATION` is a build-time constant. It is the
  `defaultDuration` parameter of the traverser.
- The planner library and the scoring API are not part of this model. They
  are value models (`Planners`, `ScoringApi`) whose semantics are chosen to
  fit their call sites.
- Only the base match callback is modelled. Its hooks always accept. The
  `dom_finish_slot` hook the walk calls is not declared in the callback
  header, so it is modelled as accepting.
- Scoring: the matchers derived from the base callback score a vertex in
  their post-order hooks. The model takes that scoring as the callback's
  `scorer`, a function of the subsystem, the vertex and its aggregator
  (`DfuMatchCb.DfuMatchCb.WithScorer`). The base callback keeps the fresh
  score of -1, under which no request resolves
  (`DfuTraverseImpl.KeptScoreRootFails`). A scorer giving MATCH_MET makes
  success reachable (`DfuTraverseImpl.ScoredRootResolves`). The walk order
  is the default match policy's only.
- DfuTraverseImpl.DfuImpl.AuxVisit: that a failing child leaves u gray is
  not stated. Stating it needs a frame saying that a walk paints only
  vertices that were white when it began, and the model does not carry
  that frame through the mutual recursion. The stop at the first failing
  child is stated: every descent but the last succeeded.
- DfuTraverseImpl.DfuImpl.Descend: the child's own scored aggregator and
  avail recorded in a descent are not tied back to the child's own visit.
  Each parent's aggregator is stated exactly in terms of them, one level
  at a time.
- DfuTraverseImpl.SlotGroup: `dom_slot` sums the slot's score in a 32-bit
  `int`. The model's sum is unbounded.
- `dom_slot` with an element max count of 0 divides by zero in the source;
  the model reads it as no slot. It also leaves out an iterator running past
  the end of the groups, and a group without edges, both undefined
  behaviour in the source; the model stops taking groups there.
- DfuTraverseImpl.SlotElem: `dom_slot` keeps the running count `j` in a
  32-bit `int` that is compared as unsigned, so a sum of counts above
  2^32 - 1 wraps. The model's running count is unbounded.
- Integer widths: int64 times and ids are unbounded. The unsigned casts
  that matter are explicit: counts cast to unsigned int, the traversal
  level, the duration cast to uint64. prev_pwr's 32-bit `i` is explicit
  only in `PrevPwrWrapsAround`; the rest of the model uses the corrected
  prev_pwr over unbounded integers (see Findings).
- `operator[]` on a missing key inserts a default entry, and the model
  reads it as the default without inserting it. This covers colours,
  subtree planners and roots: a subsystem whose root is missing reads as
  vertex 0 in `enforce`.
- The `.at (dom)` throw in `run` is modelled as the -1 return.
- MatcherData.MatcherData.DomSubsystem: dereferencing `begin()` of an empty
  list is undefined, so the model requires a registered subsystem.
- MatcherData.MatcherData.SelectCount: its loop need not end. Examples:
  a '+' operand of 0; a '+' count whose 32-bit values never come down to
  qc (`PlusEndsDependsOnQc`); '*' by 1 (`TimesByOneNeverEnds`); '^' with
  min below 2 or operand 0. The model requires exactly that the loop ends
  (`SelectCountTerminates`). '*' by an unsigned 0 divides by zero and is
  excluded with these. A '^' pass uses the corrected prev_pwr of
  "## Findings", which always ends; the source's 32-bit one can hang.
- DfuTraverser.DfuTraverser.Run: `resolve` calls select_count only for
  requests of the root's type. The qualified count it uses is the walk's
  avail, which is known only after the walk. So `Run`, `RunPrimed`,
  `SelectOrElse`, `SelectAt`, `OrElseReserve`, `TryTimes`,
  `DfuImpl.Select`, `DfuImpl.Resolve` and `DfuImpl.RootCounts` require,
  for the root's type only, a count whose loop ends against every
  qualified count (`CountTerminates`; `CountTerminatesExactly`). That is
  the same as ending against min. A '+' count that ends against the walk's
  avail but not against min is excluded (`PlusEndsDependsOnQc`).
- The walks need an acyclic dominant hierarchy. The source assumes one.
  The model takes it as a ghost rank per vertex.
- A tristate `TRUE` hierarchical-constraint flag is read as the boolean
  true.
- A NULL own planner of a vertex offers nothing over any window.
- DfuTraverser.DfuTraverser.Run: the reserved time is proved to fit the
  root's subtree planner and to come after the start time. That every
  earlier offered time failed is stated by `SelectOrElse`, `OrElseReserve`
  and `TryTimes` as their recorded results (`FirstSuccess`), not by `Run`.
- DfuTraverser.DfuTraverser.Initialize: the older `prime` it calls always
  returns 0, so its return code is not further constrained.
- `DfuJobMeta.Build` takes the corrected reading (see Findings). `atoll` is
  not modelled beyond int64 range.

## Findings

| source | as written | input that shows it | evidently intended | confidence | as-written member | corrected member |
|---|---|---|---|---|---|---|
| matcher_data.hpp:165-176 | `prev_pwr` squares a 32-bit `unsigned i` while `i < count`. | min 2, operand 1, count 70000: i runs 2, 4, 16, 256, 65536, then wraps to 0 and stays below count, so the loop never ends. | The largest term min^(2^(k*operand)) below count. | not executed | MatcherData.PrevPwrWrapsAround | MatcherData.PrevPwrIsLargestTermBelow |
| dfu_traverse.hpp:62-63 | `build` finds the "system" attribute and dereferences the iterator without checking that it was found. | A jobspec whose attributes mapping is empty, which the parser accepts. | A missing "system" attribute keeps the default duration. | not executed | DfuJobMeta.AcceptedJobspecWithoutSystem | DfuJobMeta.BuildSetsRequest |
