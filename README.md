# Consensus visualizer core in Dafny

This project models the two computational cores of the consensus visualizer.

The first is the log reconstruction of `ParserLogs`. Validator log lines are
read one at a time. Each line can register the validator's identity in a
per-file registry, and is then dispatched to one of three handlers:
target-reached, skip-certificate or published-event. The handlers update the
shared slot registry, the collation markers, the vote ledger, the leader
windows and the event list. After every file has been read, an inference pass
derives per-slot events. It applies the BFT quorum rule `(2N)//3 + 1` to
find the first vote, in time order, at which the accumulated weight reaches
quorum. It then emits the collate → notarize → finalize phases, each gated on
the one before.

The second is the selection and derivation logic the figure builder uses on a
parsed snapshot. This covers the `DataFilter` queries, the pairing of start
and end events into intervals, the choice of a slot's start time, and the
y-axis category list of the summary figure.

Modules:

- `Wrappers`: `Option`, `Result` and a dictionary `.get`.
- `Seqs`: order-preserving filters, first/last match, and bucket sizes.
- `Models`: the snapshot types `SlotData`, `EventData` and `ConsensusData`.
- `Quorum`: the threshold and the vote-accumulation loop. The crossing time
  is specified independently of vote order.
- `LogLines`: a log line after tokenisation, and the committee id.
- `Inference`: a pure specification of what the inference pass appends for
  one slot, and the causal chain the event list keeps.
- `LogParsing`: the `ParserLogs` class. Its dictionaries and lists are fields
  that its methods reassign. Each handler is also a function on `Shared`, a
  value holding all of those fields. Each method is proved to leave exactly
  that function's result. The per-file and per-run loops are proved to fold
  `LineStep` over the lines.
- `FigureBuilder`: `DataFilter` and the `DetailFigureBuilder` helpers.

The word after `target=` is an enumeration: one case for each of the seven
targets in `TARGET_TO_LABEL`, and one for any other word. Timestamps are
integer microseconds. A malformed line makes the source fail an
`assert`, which aborts the parse. The model returns `Err(MalformedLine(file, line))`
instead.

## Model

| member | source | states |
|---|---|---|
| Quorum.WeightThreshold | src/parser/parser_logs.py:199-200 | the threshold is the least weight strictly above two thirds of the total: 3r > 2N and 3(r-1) <= 2N |
| Quorum.ThresholdExamples | src/parser/parser_logs.py:199-200 | N=10 gives 7, N=9 gives 7, N=1 gives 1, N=0 gives 1 |
| Quorum.ThresholdMonotone | src/parser/parser_logs.py:199-200 | the threshold is positive and never decreases as the committee total grows |
| Quorum.SortByTime | src/parser/parser_logs.py:234 | the result is ordered by vote time and is a permutation of the votes |
| Quorum.SortKeepsWeights | src/parser/parser_logs.py:234-237 | sorting changes neither the total weight nor the weight cast up to any instant |
| Quorum.FirstCrossingSorted | src/parser/parser_logs.py:236-262 | on votes sorted by time and a positive need, the accumulating walk finds no crossing exactly when the total weight falls short, and otherwise stops at the earliest instant of quorum |
| Quorum.CrossingTimeIsEarliestQuorum | src/parser/parser_logs.py:233-262 | for a positive threshold, there is no crossing exactly when the total vote weight is below the threshold; otherwise the crossing is a vote time at which the votes cast so far reach the threshold, while at every earlier instant they fall short |
| Quorum.EarliestQuorumUnique | src/parser/parser_logs.py:233-262 | only one instant can be the earliest quorum of a list of votes |
| Quorum.WeightUpToRemove | src/parser/parser_logs.py:236-237 | taking the vote at one index out of a list takes exactly its weight out of the weight cast by any time and out of the total |
| Quorum.RemoveVote | src/parser/parser_logs.py:236-237 | any vote of a list can be taken out, leaving one copy fewer and exactly that vote's weight less by any time and in total |
| Quorum.WeightUpToPerm | src/parser/parser_logs.py:234-237 | two lists holding the same votes in any order cast the same weight by every time and in total |
| Quorum.CrossingOrderFree | src/parser/parser_logs.py:233-262 | for a positive threshold, any rearrangement of the same votes gives the same crossing time, so the order in which votes were logged does not matter |
| Quorum.CrossingMonotone | src/parser/parser_logs.py:199-200 | if the same votes reach quorum under a larger committee total, they also reach it under a smaller one, no later |
| Quorum.FirstCrossing | src/parser/parser_logs.py:236-262 | defines the walk over votes in list order, still needing some weight: the time of the first vote whose weight covers what is still needed, or None when the list runs out |
| Quorum.CrossingTime | src/parser/parser_logs.py:233-262 | defines the crossing of `_process_vote_threshold` as that walk over the votes sorted by time, from the full threshold |
| Quorum.AccumulateVotes | src/parser/parser_logs.py:233-262 | the sort-and-accumulate loop returns the specified crossing time: None exactly when the total weight is below the threshold, otherwise the earliest quorum instant |
| LogLines.ExtractValgroup | src/parser/parser_logs.py:275-281 | no committee token gives None; a well-formed token gives a committee id that splits back into that token |
| LogLines.SplitCommitteeIdRoundTrip | src/parser/parser_logs.py:280 | splitting `name.index` at its last dot recovers the name and the index |
| LogLines.CommitteeIdInjective | src/parser/parser_logs.py:280 | distinct well-formed tokens give distinct committee ids |
| LogLines.ParseTarget | src/parser/parser_logs.py:56 | the captured word is kept exactly, and it is an "other" target exactly when it is not a key of `TARGET_TO_LABEL` |
| LogLines.ParseTargetName | src/parser/parser_logs.py:56 | reading the word of any target that reading can produce gives that target back |
| LogLines.TargetLabelIsTable | src/parser/parser_logs.py:21-29 | the label of a parsed target is exactly the `TARGET_TO_LABEL` lookup of the word, and None when the word is not in the table |
| Inference.ThresholdEvents | src/parser/parser_logs.py:236-262 | on a crossing, `{label}_reached` at the crossing and then the `{label}` phase from the phase start to it; nothing otherwise; every event belongs to the slot and none is local |
| Inference.CollateEvents | src/parser/parser_logs.py:179-197 | the `collate` phase from the `collate_started` to the `collate_finished` marker time when both markers exist, nothing otherwise; it belongs to the slot and is not local |
| Inference.NotarizeEvents | src/parser/parser_logs.py:202-210 | after a collation span, the threshold events of the notarize votes from the collation end; nothing without one; every event belongs to the slot and none is local |
| Inference.FinalizeEvents | src/parser/parser_logs.py:212-223 | after a notarize crossing, the threshold events of the finalize votes from that crossing; nothing without one; every event belongs to the slot and none is local |
| Inference.SlotEvents | src/parser/parser_logs.py:167-223 | a slot's inferred events start with its `slot_start_est` marker; all of them belong to that slot and none is a local event |
| Inference.SlotPhasesGated | src/parser/parser_logs.py:179-223 | a slot gets a collate phase iff both collation markers exist; a notarize phase iff, in addition, its notarize votes reach quorum; a finalize phase iff it has a notarize phase and its finalize votes reach quorum |
| Inference.SlotPhasesAbut | src/parser/parser_logs.py:203-223 | the notarize phase starts where the collate phase ends; the finalize phase starts at the notarize crossing, where the notarize phase ends |
| Inference.CollateAbutsNotarize | src/parser/parser_logs.py:179-209 | every notarize phase of a slot starts at the end of its collate phase |
| Inference.NotarizeAbutsFinalize | src/parser/parser_logs.py:203-223 | every finalize phase of a slot starts at the end of its notarize phase |
| Inference.CrossingFacts | src/parser/parser_logs.py:199-262 | when a slot has votes of a kind, a crossing exists iff their total weight reaches the committee's threshold |
| Inference.SlotEventsKeepChain | src/parser/parser_logs.py:167-223 | appending a slot's inferred events keeps the causal chain: finalize only where notarize, notarize and collate only where both collation markers were logged |
| Inference.ChainAppendSlot | src/parser/parser_logs.py:167-223 | events of one slot whose collate and notarize phases come only after both markers, and whose finalize phase comes only beside a notarize phase, keep the chain and every recorded marker |
| Inference.InferAll | src/parser/parser_logs.py:167-223 | defines the events of the inference pass: each slot's events in turn, in the given creation order, with its committee's total weight |
| Inference.InferAllKeepsChain | src/parser/parser_logs.py:167-223 | running the inference over any registered slot order, after an event list that keeps the chain, keeps the chain and every recorded marker |
| Inference.AppendObservation | src/parser/parser_logs.py:81-103 | appending a local or observed event keeps the causal chain and records the event's slot under its label |
| LogParsing.NextLeaderObservedIff | src/parser/parser_logs.py:77-106 | a target-reached line emits `finalize_observed_by_next_leader` iff its target is `FinalObserved` and its validator leads the next slot; its last event is a local event iff the target has a label, and then it is the local event with that label, slot, time and validator |
| LogParsing.ObservedSlotFields | src/parser/parser_logs.py:60-75 | after a target-reached line the slot keeps its key; its estimate is t for a new slot and min(t, old estimate) otherwise, so never above t; the empty flag and block id are unchanged (false and None for a new slot); the collator becomes the validator only for `CollateStarted` |
| LogParsing.TableMarkSkipped | src/parser/parser_logs.py:126-136 | a skip vote keeps the slot table consistent with its creation order, and never removes a slot, clears an empty flag or raises an estimate |
| LogParsing.TargetKeepsInvariant | src/parser/parser_logs.py:77-106 | appending a target-reached line's events and keeping its markers preserves the causal chain, and every kept marker is an appended local event |
| LogParsing.ObserveStep | src/parser/parser_logs.py:60-75 | defines the slot bookkeeping of a target-reached line on the shared maps: the slot entry becomes `ObservedSlot`, a new key goes last in the creation order, and t joins the slot's estimate sources; nothing else changes |
| LogParsing.RecordStep | src/parser/parser_logs.py:77-106 | defines the events of a target-reached line on the shared maps: `TargetEvents` are appended, under the leaders as they are, and the markers become `MarkersAfter`; nothing else changes |
| LogParsing.TargetStep | src/parser/parser_logs.py:43-106 | defines `_parse_stats_target_reached` on the shared maps: an unmatched line changes nothing; otherwise the slot bookkeeping, then the events and markers |
| LogParsing.SkipStep | src/parser/parser_logs.py:108-136 | defines `_parse_skip_vote` on the shared maps: without a slot number nothing changes (`LineStep` reports such a line as malformed, the source's assertion); otherwise `skip_observed` is appended, the slot becomes `SkippedSlot`, a new key goes last, and a new slot's only estimate source is t |
| LogParsing.WindowLeaders | src/parser/parser_logs.py:163-165 | defines the leaders after a window: the loop over [start, end), each slot of the committee set to the sender in turn |
| LogParsing.PublishStep | src/parser/parser_logs.py:138-165 | defines `_parse_publish_event` on the shared maps: a complete vote is appended to the ledger with the sender's weight, a complete window sets the leaders, and anything else changes nothing (a line missing a field is reported malformed by `LineStep`) |
| LogParsing.DispatchStep | src/parser/parser_logs.py:316-322 | defines the dispatch on the shared maps: each category goes to its one handler step, and an unrecognised line changes nothing |
| LogParsing.RegistryAfter | src/parser/parser_logs.py:283-299 | defines the file registry after a line: complete identity fields record the validator id and own weight of the committee; anything else leaves it |
| LogParsing.TotalsAfter | src/parser/parser_logs.py:301-303 | defines the committee totals after a line: complete identity fields record the committee's total weight; anything else leaves them |
| LogParsing.FileFrom | src/parser/parser_logs.py:329-343 | defines the per-file loop from a line on: each line's `LineStep` in turn, stopping at the first line that fails and reporting its index |
| LogParsing.ParseFiles | src/parser/parser_logs.py:324-345 | defines the loop over files: each file from an empty registry, an error naming the first malformed line, otherwise the shared maps after every file |
| LogParsing.WindowLeadersCover | src/parser/parser_logs.py:155-165 | after a leader window the sender leads every slot in [start, end) of its committee, and every other key keeps its leader or stays absent |
| LogParsing.LineStep | src/parser/parser_logs.py:283-303 | the file registry keeps a weight for exactly the committees with a validator id |
| LogParsing.LineStepFails | src/parser/parser_logs.py:333-343 | a line fails exactly when it has a timestamp and a committee id, and its identity fields are incomplete or its committee is registered and its category lacks a field; a line without a timestamp or committee id changes nothing and passes |
| LogParsing.UnstampedLinesSkipped | src/parser/parser_logs.py:333-339 | lines without a timestamp or committee id are skipped: a run of them changes nothing and never stops the file |
| LogParsing.FileStopsAtMalformed | src/parser/parser_logs.py:329-343 | the line that stops a file lies within the remaining lines, has a timestamp and a committee id, and lacks a required identity or category field |
| LogParsing.ParseStopsAtMalformed | src/parser/parser_logs.py:324-343 | an aborted parse names a line of one of the remaining files that has a timestamp and a committee id and lacks a required field |
| LogParsing.ParserLogs.constructor | src/parser/parser_logs.py:34-41 | every map and the event list start empty |
| LogParsing.ParserLogs.ObserveTarget | src/parser/parser_logs.py:60-75 | the new shared maps are exactly `ObserveStep` of the old: the slot is created not empty with estimate t, or its estimate is lowered to min(t, estimate); the collator is set when given; a new key goes last in creation order; t joins the slot's estimate sources; the table invariant is kept, and no slot is removed, un-emptied or given a later estimate |
| LogParsing.ParserLogs.RecordTarget | src/parser/parser_logs.py:77-106 | the new shared maps are exactly `RecordStep` of the old: the next-leader observation, then the labelled local event, are appended; a collation marker replaces the earlier marker with the same label; the causal chain and marker accounting are kept |
| LogParsing.ParserLogs.ParseStatsTargetReached | src/parser/parser_logs.py:43-106 | the new shared maps are exactly `TargetStep` of the old: an unmatched line changes nothing; otherwise the slot bookkeeping of `ObserveStep` (new slot entry, running-minimum estimate and its sources, collator, creation order), then the events and markers of `RecordStep`; votes, leaders and totals are untouched; the invariant, with each estimate the minimum of its line times, is kept |
| LogParsing.ParserLogs.MarkSkipped | src/parser/parser_logs.py:126-136 | creates the slot empty with estimate t, last in creation order, or marks the existing slot empty and leaves its estimate; the table invariant is kept |
| LogParsing.ParserLogs.ParseSkipVote | src/parser/parser_logs.py:108-136 | a missing slot number is an error; otherwise appends `skip_observed` and creates the slot empty at t, or marks the existing slot empty without touching its estimate; the new shared maps are exactly `SkipStep` of the old |
| LogParsing.ParserLogs.ParsePublishEvent | src/parser/parser_logs.py:138-165 | a vote is appended to the ledger under its slot and kind with the sender's own weight; a leader window makes the sender leader of every slot in [start, end) and leaves every other key as it was; missing fields are errors; the leaders become exactly `WindowLeaders` of the old ones, and the new shared maps are exactly `PublishStep` of the old |
| LogParsing.ParserLogs.ParseValidatorInfo | src/parser/parser_logs.py:283-303 | a line without the identity phrase changes nothing; a complete one registers id and weight in the file's registry and the total in the shared map; a missing number is an error; a malformed line leaves the registry unchanged too; otherwise registry and totals are `RegistryAfter` and `TotalsAfter` of the old |
| LogParsing.ParserLogs.ProcessLogLine | src/parser/parser_logs.py:305-322 | a committee without a registered validator id changes nothing; otherwise the new shared maps are exactly `DispatchStep` with the registered id and weight; the line fails exactly when it is malformed |
| LogParsing.ParserLogs.DispatchPayload | src/parser/parser_logs.py:316-322 | the new shared maps are exactly `DispatchStep` of the old: a target-reached line goes to `TargetStep`, a skip certificate to `SkipStep`, a published event to `PublishStep`, and an unrecognised line changes nothing; each category touches only its own maps; only a malformed skip or publish line fails |
| LogParsing.ParserLogs.ProcessVoteThreshold | src/parser/parser_logs.py:225-262 | returns the crossing time, and appends `{label}_reached` then the `{label}` phase from the phase start to the crossing exactly when there is one |
| LogParsing.ParserLogs.InferSlot | src/parser/parser_logs.py:168-223 | one iteration appends exactly the slot's specified events |
| LogParsing.ParserLogs.AppendInferAll | src/parser/parser_logs.py:167-223 | the loop over the slots in creation order appends exactly the specified events of every slot |
| LogParsing.ParserLogs.InferSlotEvents | src/parser/parser_logs.py:167-223 | appends the specified events of every slot in creation order; every slot's committee total is registered, so the lookup at line 199 cannot fail; the causal chain holds afterwards |
| LogParsing.ParserLogs.ParseLine | src/parser/parser_logs.py:333-343 | the new shared maps, the file registry and the verdict are exactly `LineStep`: a line without a timestamp or committee id changes nothing; otherwise its identity fields are registered and it is dispatched when its committee is registered; it fails exactly when its registration fields are incomplete, or its validator is registered and its payload is malformed |
| LogParsing.ParserLogs.ParseFile | src/parser/parser_logs.py:329-343 | the new shared maps and the stopping line are exactly the fold `FileFrom` of `LineStep` over the lines, from an empty registry; a reported malformed line has a timestamp and a committee id and lacks a required field; slots are never removed, the empty flag never clears and estimates never rise |
| LogParsing.ParserLogs.Parse | src/parser/parser_logs.py:324-347 | the result follows the fold `ParseFiles` over the files: an error exactly when the fold stops, naming the same line, which has a missing field; otherwise the final maps are the folded ones with `InferAll` over them appended to the events, and the result lists the slots in creation order and those events, which keep the causal chain; every slot's committee has a registered total |
| FigureBuilder.FilterSlots | src/visualizer/figure_builder.py:19-28 | exactly the slots of the committee within [slot_from, slot_to], empty ones only if shown, in original order with their multiplicity |
| FigureBuilder.PassesFilters | src/visualizer/figure_builder.py:41-56 | the chain of `continue` tests keeps an event exactly when it satisfies every filter that was given a truthy value |
| FigureBuilder.EventMatches | src/visualizer/figure_builder.py:41-56 | defines the filter conjunction: each given, truthy filter must hold of the event |
| FigureBuilder.FilterEvents | src/visualizer/figure_builder.py:30-57 | an order-preserving subsequence of the events holding exactly those that pass every active filter |
| FigureBuilder.FalsyQueryKeepsAll | src/visualizer/figure_builder.py:41-49 | with no arguments, or only an empty committee id and empty sets, every event is kept |
| FigureBuilder.HasValidatorSelects | src/visualizer/figure_builder.py:51-55 | `has_validator=True` keeps exactly the events with a validator, `False` exactly those without |
| FigureBuilder.GetSlot | src/visualizer/figure_builder.py:59-63 | the first slot matching both committee and slot number, or None iff no slot matches |
| FigureBuilder.GroupOf | src/visualizer/figure_builder.py:65-70 | defines the grouping: the events added one at a time, each appended to its label's bucket |
| FigureBuilder.GroupedMembers | src/visualizer/figure_builder.py:65-70 | a grouping is a partition: a bucket holds only input events with its label, and every input event is in its label's bucket |
| FigureBuilder.GroupOfGrouped | src/visualizer/figure_builder.py:67-69 | appending the events one at a time gives one bucket per occurring label, holding that label's events in input order |
| FigureBuilder.GroupOfSize | src/visualizer/figure_builder.py:67-69 | the bucket sizes add up to the number of events, so none is lost or duplicated |
| FigureBuilder.GroupEventsByLabel | src/visualizer/figure_builder.py:65-70 | the loop builds the specified grouping: one bucket per occurring label, each holding that label's events in input order, with sizes summing to the input length |
| FigureBuilder.PairedInterval | src/visualizer/figure_builder.py:226-268 | defines the interval a start event opens: none unless its label has an end label; then closed by the last event of the same validator with that end label, or none if there is no such event |
| FigureBuilder.Intervals | src/visualizer/figure_builder.py:225-269 | the intervals the start events open, in their order, each closed against the whole input; never more intervals than start events |
| FigureBuilder.PairedIntervalSpec | src/visualizer/figure_builder.py:226-268 | a start event opens an interval iff an end event of the same validator exists; the interval keeps the start event's committee, slot, validator, kind and time and ends at the last such end event |
| FigureBuilder.IntervalsSound | src/visualizer/figure_builder.py:225-269 | every inferred interval is opened by a start event of the input |
| FigureBuilder.IntervalsComplete | src/visualizer/figure_builder.py:225-269 | every start event with a matching end event opens an inferred interval |
| FigureBuilder.LastByKey | src/visualizer/figure_builder.py:221-223 | the map holds, for every (validator, label), the last event with that key, and no entry for a key that never occurs |
| FigureBuilder.IntervalFromMap | src/visualizer/figure_builder.py:226-268 | looking up a start event's end label in that map gives exactly the specified interval of the start event |
| FigureBuilder.CloseIntervals | src/visualizer/figure_builder.py:225-269 | the second loop returns the specified intervals of the start events, in their order |
| FigureBuilder.InferContinuousEvents | src/visualizer/figure_builder.py:218-269 | the map-then-scan loops return the specified intervals, in start-event order |
| FigureBuilder.MinStart | src/visualizer/figure_builder.py:180 | the least start time of a non-empty event list |
| FigureBuilder.GetSlotStart | src/visualizer/figure_builder.py:175-180 | the time of the first `slot_start_est` marker; else the earliest event time; else 0 |
| FigureBuilder.SlotCategories | src/visualizer/figure_builder.py:146 | exactly the slots from slot_to down to slot_from, strictly descending, slot_to - slot_from + 1 of them (none when slot_from > slot_to) |

## Left out

- Reading log files, splitting them into lines and scanning directories (src/parser/parser_logs.py:326-327, main.py) are I/O. `Parse` takes the files as sequences of tokenised lines.
- Regular-expression matching and `_extract_timestamp` (src/parser/parser_logs.py:264-273) are replaced by `LogLines.LogLine`. Its fields hold what the patterns capture. A timestamp is integer microseconds, not the source's float milliseconds in local time.
- Which handler a line goes to is decided by the tokeniser, in the source's order of tests. A vote broadcast that mentions `SkipVote` is tokenised as `OtherPublished`, unless it also matches a later test (src/parser/parser_logs.py:141 and 155): then it goes to that branch.
- LogParsing.ParserLogs.ParseValidatorInfo: on a line that has a validator id but lacks a later number, the source writes the id into the per-file registry before its `assert` fails. The model leaves the registry unchanged, because the parse aborts either way.
- An aborted parse raises `AssertionError` in the source. The model returns `Err` instead.
- Quorum.SortByTime: it is a stable insertion sort, but stability is not proved. `Quorum.CrossingOrderFree` proves that the crossing time does not depend on vote order, and the crossing time is all the inference pass uses from the sorted list.
- Float timestamps and `round`, `to_datetime` and `to_relative` are left out. All plotly figure construction is left out too: `SummaryFigureBuilder._add_bars` and `_add_markers`, `_configure_layout` apart from its category list, `DetailFigureBuilder._add_baseline_markers` and `_add_validator_events`, and `FigureBuilder`.
- FigureBuilder.SlotCategories: the model returns the slot numbers. The source converts each one with `str`, and that conversion is not modelled.
- `DataFilter` never changes its snapshot. Its queries are therefore functions and methods that take the snapshot as a parameter.
- FigureBuilder.GroupEventsByLabel: the result is a map, so the insertion order of the dictionary keys is not modelled. Every caller sorts the keys.
- `get_color` and `get_symbol` (src/models.py:24-32) read maps from `src.visualizer.style`, which is not part of this model.
- src/parser/parser_mock.py generates random test data and is not part of this model. src/parser/parser_base.py is only an interface.
- Validator ids and collators are natural numbers. src/models.py also allows strings, but `ParserLogs` only ever produces integers.
- The ghost field `estimateSources` records which line times may set a slot's start estimate. It exists only to state the running-minimum invariant. Every handler, and the folds of `ParseFile` and `Parse`, state its new value, so the invariant is tied to the line times at every level.
- A skip-certificate line on an existing slot does not lower its start estimate (src/parser/parser_logs.py:126-136).
