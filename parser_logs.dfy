/** The log-reconstruction state machine `ParserLogs` of
    src/parser/parser_logs.py: per-line handlers that update the shared slot
    registry, collation markers, vote ledger, leader windows and event list,
    the per-file identity registry, and the inference pass run after all files. */
module LogParsing {
  import opened Wrappers
  import opened Models
  import opened Quorum
  import opened LogLines
  import opened Inference
  import opened Seqs

  /** The identity registry of one input file: validator id (`v_groups`) and
      own weight (`v_weights`) per committee. */
  datatype FileRegistry = FileRegistry(validators: map<string, nat>, weights: map<string, nat>)

  /** A line whose category matched but a required field did not (a failed
      `assert` in the source, which aborts the parse): file and line index. */
  datatype ParseError = MalformedLine(file: nat, line: nat)

  /** The line registers an identity but lacks one of its three numbers. */
  predicate IdentityMalformed(id: Option<IdentityFields>)
  {
    id.Some? && (id.value.validator.None? || id.value.weight.None? || id.value.total.None?)
  }

  /** The line's category lacks a field that category requires. */
  predicate PayloadMalformed(p: Payload)
  {
    match p
    case SkipCertificate(slot) => slot.None?
    case PublishedEvent(BroadcastVote(slot, vote)) => slot.None? || vote.None?
    case PublishedEvent(LeaderWindowStarted(a, b)) => a.None? || b.None?
    case _ => false
  }

  ghost predicate IsMinOf(m: int, xs: set<int>)
  {
    m in xs && forall x :: x in xs ==> m <= x
  }

  /** Slots are never removed, `is_empty` never goes back to false, and the
      start estimate never increases. */
  ghost predicate SlotsEvolve(before: map<SlotKey, Slot>, after: map<SlotKey, Slot>)
  {
    forall k :: k in before ==>
      && k in after
      && (before[k].isEmpty ==> after[k].isEmpty)
      && after[k].startEstimate <= before[k].startEstimate
  }

  lemma SlotsEvolveTransitive(a: map<SlotKey, Slot>, b: map<SlotKey, Slot>, c: map<SlotKey, Slot>)
    requires SlotsEvolve(a, b) && SlotsEvolve(b, c)
    ensures SlotsEvolve(a, c)
  {
  }

  function Min(a: int, b: int): int { if a <= b then a else b }

  /** `collated.setdefault(slot_id, {})`. */
  function MarkersAt(collated: Collated, k: SlotKey): map<string, Event>
  {
    if k in collated then collated[k] else map[]
  }

  /** `votes.setdefault(slot_id, {}).setdefault(vote, [])`. */
  function VotesAt(votes: Ledger, k: SlotKey, kind: string): seq<Vote>
  {
    if k in votes && kind in votes[k] then votes[k][kind] else []
  }

  function LedgerAt(votes: Ledger, k: SlotKey): map<string, seq<Vote>>
  {
    if k in votes then votes[k] else map[]
  }

  function LocalEvent(group: string, slot: nat, name: string, t: int, v: nat): Event
  {
    Event(group, slot, name, "local", t, None, Some(v))
  }

  function NextLeaderEvent(group: string, slot: nat, t: int): Event
  {
    Event(group, slot, "finalize_observed_by_next_leader", "observed", t, None, None)
  }

  /** `list(self.slots.values())`: the slots in the order they were created. */
  function SlotsInOrder(order: seq<SlotKey>, slots: map<SlotKey, Slot>): (r: seq<Slot>)
    requires forall i :: 0 <= i < |order| ==> order[i] in slots
    ensures |r| == |order|
    ensures forall i :: 0 <= i < |order| ==> r[i] == slots[order[i]]
  {
    if order == [] then []
    else SlotsInOrder(order[..|order| - 1], slots) + [slots[order[|order| - 1]]]
  }

  /** The slot table is consistent: `order` lists each key of `slots` once,
      every slot sits under its own key in a registered committee, and each
      start estimate is the earliest of the times that may set it. */
  ghost predicate SlotTableOk(slots: map<SlotKey, Slot>, order: seq<SlotKey>, totals: map<string, nat>,
                              sources: map<SlotKey, set<int>>)
  {
    && (forall i, j :: 0 <= i < j < |order| ==> order[i] != order[j])
    && (forall k :: k in slots <==> k in order)
    && (forall k :: k in slots ==> KeyOfSlot(slots[k]) == k && k.0 in totals)
    && sources.Keys == slots.Keys
    && (forall k :: k in slots ==> IsMinOf(slots[k].startEstimate, sources[k]))
  }

  /** The creation order after a line touches `k`: a new key goes last. */
  function OrderAfter(order: seq<SlotKey>, slots: map<SlotKey, Slot>, k: SlotKey): seq<SlotKey>
  {
    if k in slots then order else order + [k]
  }

  /** The estimate sources after a target-reached line at `t` for `k`. */
  function SourcesAfter(sources: map<SlotKey, set<int>>, k: SlotKey, t: int): map<SlotKey, set<int>>
  {
    sources[k := (if k in sources then sources[k] else {}) + {t}]
  }

  lemma TableAddSlot(slots: map<SlotKey, Slot>, order: seq<SlotKey>, totals: map<string, nat>,
                     sources: map<SlotKey, set<int>>, s: Slot)
    requires SlotTableOk(slots, order, totals, sources)
    requires KeyOfSlot(s) !in slots && s.group in totals
    ensures SlotTableOk(slots[KeyOfSlot(s) := s], order + [KeyOfSlot(s)], totals,
                        sources[KeyOfSlot(s) := {s.startEstimate}])
  {
    var k := KeyOfSlot(s);
    var order' := order + [k];
    forall i, j | 0 <= i < j < |order'| ensures order'[i] != order'[j] {
      if j == |order| {
        assert order[i] in order;
      }
    }
  }

  lemma TableObserve(slots: map<SlotKey, Slot>, order: seq<SlotKey>, totals: map<string, nat>,
                     sources: map<SlotKey, set<int>>, k: SlotKey, t: int)
    requires SlotTableOk(slots, order, totals, sources) && k in slots
    ensures SlotTableOk(slots[k := slots[k].(startEstimate := Min(t, slots[k].startEstimate))], order, totals,
                        sources[k := sources[k] + {t}])
  {
  }

  lemma TableObserveTarget(slots: map<SlotKey, Slot>, order: seq<SlotKey>, totals: map<string, nat>,
                           sources: map<SlotKey, set<int>>, k: SlotKey, t: int, collator: Option<nat>)
    requires SlotTableOk(slots, order, totals, sources) && k.0 in totals
    ensures SlotTableOk(slots[k := ObservedSlot(slots, k, t, collator)],
                        OrderAfter(order, slots, k), totals, SourcesAfter(sources, k, t))
    ensures SlotsEvolve(slots, slots[k := ObservedSlot(slots, k, t, collator)])
  {
    if k !in slots {
      TableObserveNew(slots, order, totals, sources, k, t, collator);
    } else {
      TableObserveExisting(slots, order, totals, sources, k, t, collator);
    }
    ObservedSlotEvolves(slots, k, t, collator);
  }

  lemma TableObserveNew(slots: map<SlotKey, Slot>, order: seq<SlotKey>, totals: map<string, nat>,
                        sources: map<SlotKey, set<int>>, k: SlotKey, t: int, collator: Option<nat>)
    requires SlotTableOk(slots, order, totals, sources) && k.0 in totals && k !in slots
    ensures SlotTableOk(slots[k := ObservedSlot(slots, k, t, collator)], order + [k], totals, sources[k := {t}])
  {
    var created := Slot(k.0, k.1, false, t, None, None);
    TableAddSlot(slots, order, totals, sources, created);
    if collator.Some? {
      TableSetFields(slots[k := created], order + [k], totals, sources[k := {t}], k, created.(collator := collator));
    }
  }

  lemma TableObserveExisting(slots: map<SlotKey, Slot>, order: seq<SlotKey>, totals: map<string, nat>,
                             sources: map<SlotKey, set<int>>, k: SlotKey, t: int, collator: Option<nat>)
    requires SlotTableOk(slots, order, totals, sources) && k in slots
    ensures SlotTableOk(slots[k := ObservedSlot(slots, k, t, collator)], order, totals, sources[k := sources[k] + {t}])
  {
    TableObserve(slots, order, totals, sources, k, t);
    var lowered := slots[k].(startEstimate := Min(t, slots[k].startEstimate));
    if collator.Some? {
      TableSetFields(slots[k := lowered], order, totals, sources[k := sources[k] + {t}], k, lowered.(collator := collator));
    }
  }

  /** A target-reached line keeps every slot, never clears `is_empty` and
      never raises an estimate. */
  lemma ObservedSlotEvolves(slots: map<SlotKey, Slot>, k: SlotKey, t: int, collator: Option<nat>)
    ensures SlotsEvolve(slots, slots[k := ObservedSlot(slots, k, t, collator)])
  {
  }

  lemma TableSetFields(slots: map<SlotKey, Slot>, order: seq<SlotKey>, totals: map<string, nat>,
                       sources: map<SlotKey, set<int>>, k: SlotKey, s: Slot)
    requires SlotTableOk(slots, order, totals, sources) && k in slots
    requires KeyOfSlot(s) == k && s.startEstimate == slots[k].startEstimate
    ensures SlotTableOk(slots[k := s], order, totals, sources)
  {
  }

  lemma TableMoreTotals(slots: map<SlotKey, Slot>, order: seq<SlotKey>, totals: map<string, nat>,
                        sources: map<SlotKey, set<int>>, totals': map<string, nat>)
    requires SlotTableOk(slots, order, totals, sources) && totals.Keys <= totals'.Keys
    ensures SlotTableOk(slots, order, totals', sources)
  {
  }

  lemma OrderedSlotsRegistered(slots: map<SlotKey, Slot>, order: seq<SlotKey>, totals: map<string, nat>,
                                sources: map<SlotKey, set<int>>)
    requires SlotTableOk(slots, order, totals, sources)
    ensures forall i :: 0 <= i < |order| ==> order[i] in slots && order[i].0 in totals
    ensures forall i :: 0 <= i < |SlotsInOrder(order, slots)| ==> SlotsInOrder(order, slots)[i].group in totals
  {
    assert forall i :: 0 <= i < |order| ==> order[i] in slots;
  }

  /** A slot after a target-reached line: created not empty at `t`, or with
      its estimate lowered to `t`; the collator is set when one is given. */
  function ObservedSlot(slots: map<SlotKey, Slot>, k: SlotKey, t: int, collator: Option<nat>): Slot
  {
    var s := if k in slots then slots[k].(startEstimate := Min(t, slots[k].startEstimate))
             else Slot(k.0, k.1, false, t, None, None);
    if collator.Some? then s.(collator := collator) else s
  }

  /** The collator a target-reached line records: its sender, when the
      target is the start of collation. */
  function CollatorOf(target: Target, v: nat): Option<nat>
  {
    if target == CollateStarted then Some(v) else None
  }

  /** What a target-reached line does to its slot: the key is kept, the
      estimate becomes `t` or the earlier of `t` and the old estimate, the
      empty flag and block id are untouched (a new slot is not empty and has
      none), and the collator is set only at the start of collation. */
  lemma ObservedSlotFields(slots: map<SlotKey, Slot>, k: SlotKey, t: int, target: Target, v: nat)
    requires k in slots ==> KeyOfSlot(slots[k]) == k
    ensures var r, existed := ObservedSlot(slots, k, t, CollatorOf(target, v)), k in slots;
            && KeyOfSlot(r) == k
            && r.startEstimate == (if existed then Min(t, slots[k].startEstimate) else t)
            && r.startEstimate <= t
            && r.isEmpty == (existed && slots[k].isEmpty)
            && r.blockId == (if existed then slots[k].blockId else None)
            && r.collator == (if target == CollateStarted then Some(v)
                              else if existed then slots[k].collator else None)
  {
  }

  /** A slot after a skip vote: created empty at `t`, or marked empty with its
      estimate left as it was. */
  function SkippedSlot(slots: map<SlotKey, Slot>, k: SlotKey, t: int): Slot
  {
    if k in slots then slots[k].(isEmpty := true) else Slot(k.0, k.1, true, t, None, None)
  }

  lemma TableMarkSkipped(slots: map<SlotKey, Slot>, order: seq<SlotKey>, totals: map<string, nat>,
                         sources: map<SlotKey, set<int>>, k: SlotKey, t: int)
    requires SlotTableOk(slots, order, totals, sources) && k.0 in totals
    ensures SlotTableOk(slots[k := SkippedSlot(slots, k, t)],
                        OrderAfter(order, slots, k), totals,
                        if k in slots then sources else sources[k := {t}])
    ensures SlotsEvolve(slots, slots[k := SkippedSlot(slots, k, t)])
  {
    if k !in slots {
      TableAddSlot(slots, order, totals, sources, SkippedSlot(slots, k, t));
    } else {
      TableSetFields(slots, order, totals, sources, k, SkippedSlot(slots, k, t));
    }
  }

  /** The local event of a target-reached line whose target has a label. */
  function LocalEvents(k: SlotKey, target: Target, t: int, v: nat): seq<Event>
  {
    match TargetLabel(target)
    case Some(name) => [LocalEvent(k.0, k.1, name, t, v)]
    case None => []
  }

  /** Everything a target-reached line appends: the next leader observing the
      finalization of the previous slot, then the labelled local event. */
  function TargetEvents(slotLeaders: map<SlotKey, nat>, k: SlotKey, target: Target, t: int, v: nat): seq<Event>
  {
    (if target == FinalObserved && MapGet(slotLeaders, (k.0, k.1 + 1)) == Some(v)
     then [NextLeaderEvent(k.0, k.1, t)] else [])
    + LocalEvents(k, target, t, v)
  }

  /** The next leader's observation is among a target-reached line's events
      exactly when the target is `FinalObserved` and the line's validator leads
      the following slot; the labelled local event comes last whenever the
      target has a label. */
  lemma NextLeaderObservedIff(slotLeaders: map<SlotKey, nat>, k: SlotKey, target: Target, t: int, v: nat)
    ensures NextLeaderEvent(k.0, k.1, t) in TargetEvents(slotLeaders, k, target, t, v) <==>
              target == FinalObserved && MapGet(slotLeaders, (k.0, k.1 + 1)) == Some(v)
    ensures var es := TargetEvents(slotLeaders, k, target, t, v);
            TargetLabel(target).Some? <==> es != [] && es[|es| - 1].kind == "local"
    ensures var es := TargetEvents(slotLeaders, k, target, t, v);
            TargetLabel(target).Some? ==> es[|es| - 1] == LocalEvent(k.0, k.1, TargetLabel(target).value, t, v)
  {
    var es := TargetEvents(slotLeaders, k, target, t, v);
    assert "observed" != "local" by {
      assert "observed"[0] != "local"[0];
    }
    assert NextLeaderEvent(k.0, k.1, t) !in LocalEvents(k, target, t, v);
  }

  /** The target's label is one of the two collation markers. */
  predicate CollationMarker(target: Target)
  {
    TargetLabel(target).Some? && TargetLabel(target).value in {"collate_started", "collate_finished"}
  }

  /** Keeping a marker for a slot whose local event of that label is already
      in the list keeps every marker accounted for. */
  lemma MarkerRecorded(collated: Collated, es: seq<Event>, k: SlotKey, name: string, ev: Event)
    requires CollatedRecorded(collated, es) && k in KeysOf(es, name, "local")
    ensures CollatedRecorded(collated[k := MarkersAt(collated, k)[name := ev]], es)
  {
  }

  /** The collation markers after a target-reached line: a marker label
      replaces any earlier event under the same label. */
  function MarkersAfter(collated: Collated, k: SlotKey, target: Target, t: int, v: nat): Collated
  {
    if CollationMarker(target)
    then collated[k := MarkersAt(collated, k)[TargetLabel(target).value := LocalEvent(k.0, k.1, TargetLabel(target).value, t, v)]]
    else collated
  }


  /** Appending a target-reached line's local event and keeping its marker
      preserves the chain and leaves every kept marker recorded. */
  lemma LocalKeepsInvariant(collated: Collated, es: seq<Event>, k: SlotKey, target: Target, t: int, v: nat)
    requires CollatedRecorded(collated, es) && ChainHolds(es)
    ensures var es' := es + LocalEvents(k, target, t, v);
            CollatedRecorded(MarkersAfter(collated, k, target, t, v), es') && ChainHolds(es')
  {
    match TargetLabel(target)
    case None =>
      assert es + LocalEvents(k, target, t, v) == es;
    case Some(name) =>
      var ev := LocalEvent(k.0, k.1, name, t, v);
      AppendObservation(es, ev);
      if CollationMarker(target) {
        MarkerRecorded(collated, es + [ev], k, name, ev);
      }
  }

  /** Appending an observation keeps the invariant with the markers unchanged. */
  lemma ObservationKeepsInvariant(collated: Collated, es: seq<Event>, e: Event)
    requires CollatedRecorded(collated, es) && ChainHolds(es) && e.kind != "phase"
    ensures CollatedRecorded(collated, es + [e]) && ChainHolds(es + [e])
  {
    AppendObservation(es, e);
  }

  /** The same for everything a target-reached line appends. */
  lemma TargetKeepsInvariant(collated: Collated, es: seq<Event>, slotLeaders: map<SlotKey, nat>,
                             k: SlotKey, target: Target, t: int, v: nat)
    requires CollatedRecorded(collated, es) && ChainHolds(es)
    ensures var es' := es + TargetEvents(slotLeaders, k, target, t, v);
            CollatedRecorded(MarkersAfter(collated, k, target, t, v), es') && ChainHolds(es')
  {
    var pre := if target == FinalObserved && MapGet(slotLeaders, (k.0, k.1 + 1)) == Some(v)
               then [NextLeaderEvent(k.0, k.1, t)] else [];
    if pre == [] {
      assert es + pre == es;
    } else {
      ObservationKeepsInvariant(collated, es, pre[0]);
    }
    LocalKeepsInvariant(collated, es + pre, k, target, t, v);
    AppendAssoc(es, pre, LocalEvents(k, target, t, v));
    assert TargetEvents(slotLeaders, k, target, t, v) == pre + LocalEvents(k, target, t, v);
  }

  /** The shared maps of a parser as one value: the slot table and its
      creation order, the collation markers, the vote ledger, the committee
      totals, the slot leaders, the event list and the estimate sources. */
  datatype Shared = Shared(
    slots: map<SlotKey, Slot>,
    order: seq<SlotKey>,
    collated: Collated,
    votes: Ledger,
    totals: map<string, nat>,
    leaders: map<SlotKey, nat>,
    events: seq<Event>,
    sources: map<SlotKey, set<int>>)

  /** The leaders after `v` announces its window [start, end) in `group`. */
  function WindowLeaders(leaders: map<SlotKey, nat>, group: string, start: nat, end: nat, v: nat): map<SlotKey, nat>
    decreases end
  {
    if end <= start then leaders
    else WindowLeaders(leaders, group, start, end - 1, v)[(group, end - 1) := v]
  }

  /** A leader window makes its sender the leader of every slot in [start, end)
      of its committee, overwriting earlier assignments, and leaves every other
      key as it was. */
  lemma {:induction false} WindowLeadersCover(leaders: map<SlotKey, nat>, group: string, start: nat, end: nat, v: nat)
    ensures forall s: nat :: start <= s < end ==> MapGet(WindowLeaders(leaders, group, start, end, v), (group, s)) == Some(v)
    ensures forall key: SlotKey :: key.0 != group || key.1 < start || end <= key.1 ==>
              MapGet(WindowLeaders(leaders, group, start, end, v), key) == MapGet(leaders, key)
    decreases end
  {
    if end > start {
      WindowLeadersCover(leaders, group, start, end - 1, v);
    }
  }

  /** The ledger after `vote` is appended under its slot and kind. */
  function VotesAfter(votes: Ledger, k: SlotKey, vote: Vote): Ledger
  {
    votes[k := LedgerAt(votes, k)[vote.kind := VotesAt(votes, k, vote.kind) + [vote]]]
  }

  /** The slot bookkeeping of a target-reached line on the shared maps: the
      slot is created or its estimate lowered, a new key goes last in the
      creation order, and `t` becomes a source of its estimate. */
  function ObserveStep(st: Shared, k: SlotKey, t: int, collator: Option<nat>): Shared
  {
    st.(slots := st.slots[k := ObservedSlot(st.slots, k, t, collator)],
        order := OrderAfter(st.order, st.slots, k),
        sources := SourcesAfter(st.sources, k, t))
  }

  /** The events and collation markers of a target-reached line on the shared maps. */
  function RecordStep(st: Shared, k: SlotKey, target: Target, t: int, v: nat): Shared
  {
    st.(events := st.events + TargetEvents(st.leaders, k, target, t, v),
        collated := MarkersAfter(st.collated, k, target, t, v))
  }

  /** `_parse_stats_target_reached` on the shared maps: the slot bookkeeping,
      then the events; a line whose pattern did not match changes nothing. */
  function TargetStep(st: Shared, stats: Option<TargetStats>, t: int, group: string, v: nat): Shared
  {
    match stats
    case None => st
    case Some(TargetStats(target, slot)) =>
      var k := (group, slot);
      RecordStep(ObserveStep(st, k, t, CollatorOf(target, v)), k, target, t, v)
  }

  /** `_parse_skip_vote` on the shared maps; a line without a slot number changes nothing. */
  function SkipStep(st: Shared, skipSlot: Option<nat>, t: int, group: string, v: nat): Shared
  {
    match skipSlot
    case None => st
    case Some(slot) =>
      var k := (group, slot);
      st.(events := st.events + [LocalEvent(group, slot, "skip_observed", t, v)],
          slots := st.slots[k := SkippedSlot(st.slots, k, t)],
          order := OrderAfter(st.order, st.slots, k),
          sources := if k in st.slots then st.sources else st.sources[k := {t}])
  }

  /** `_parse_publish_event` on the shared maps, `weight` being the sender's
      own weight; a line with a missing field changes nothing. */
  function PublishStep(st: Shared, p: Published, t: int, group: string, v: nat, weight: nat): Shared
  {
    match p
    case BroadcastVote(Some(slot), Some(kind)) => st.(votes := VotesAfter(st.votes, (group, slot), Vote(kind, t, v, weight)))
    case LeaderWindowStarted(Some(start), Some(end)) => st.(leaders := WindowLeaders(st.leaders, group, start, end, v))
    case _ => st
  }

  /** The dispatch of `_process_log_line` on the shared maps: each category
      goes to its one handler, and an unrecognised line changes nothing. */
  function DispatchStep(st: Shared, payload: Payload, group: string, t: int, v: nat, weight: nat): Shared
  {
    match payload
    case StatsTargetReached(stats) => TargetStep(st, stats, t, group, v)
    case SkipCertificate(slot) => SkipStep(st, slot, t, group, v)
    case PublishedEvent(p) => PublishStep(st, p, t, group, v, weight)
    case Unrecognised => st
  }

  /** The file's registry after a line's identity fields. */
  function RegistryAfter(reg: FileRegistry, identity: Option<IdentityFields>, group: string): FileRegistry
  {
    match identity
    case Some(IdentityFields(Some(validator), Some(weight), Some(_))) =>
      FileRegistry(reg.validators[group := validator], reg.weights[group := weight])
    case _ => reg
  }

  /** The committee totals after a line's identity fields. */
  function TotalsAfter(totals: map<string, nat>, identity: Option<IdentityFields>, group: string): map<string, nat>
  {
    match identity
    case Some(IdentityFields(Some(_), Some(_), Some(total))) => totals[group := total]
    case _ => totals
  }

  /** What one line does, and whether it is well formed. */
  datatype LineOutcome = LineOutcome(st: Shared, reg: FileRegistry, ok: bool)

  /** One line of the per-file loop of `parse`: a line without a timestamp or
      committee id is skipped; otherwise its identity fields are registered
      and the line is processed for a committee whose validator id is known. */
  function LineStep(st: Shared, reg: FileRegistry, line: LogLine): (r: LineOutcome)
    requires reg.validators.Keys == reg.weights.Keys
    ensures r.reg.validators.Keys == r.reg.weights.Keys
  {
    var group := ExtractValgroup(line.valgroup);
    if line.time.None? || group.None? then LineOutcome(st, reg, true)
    else if IdentityMalformed(line.identity) then LineOutcome(st, reg, false)
    else
      var g := group.value;
      var reg' := RegistryAfter(reg, line.identity, g);
      var st' := st.(totals := TotalsAfter(st.totals, line.identity, g));
      if g !in reg'.validators then LineOutcome(st', reg', true)
      else LineOutcome(DispatchStep(st', line.payload, g, line.time.value, reg'.validators[g], reg'.weights[g]),
                       reg', !PayloadMalformed(line.payload))
  }

  /** A line is skipped, without effect, when it has no timestamp or no committee id. */
  predicate Unstamped(line: LogLine)
  {
    line.time.None? || ExtractValgroup(line.valgroup).None?
  }

  /** A line stops its file when it has both and lacks a field its identity or
      category requires. */
  predicate StopsFile(line: LogLine, reg: FileRegistry)
  {
    !Unstamped(line)
    && (IdentityMalformed(line.identity)
        || (ExtractValgroup(line.valgroup).value in RegistryAfter(reg, line.identity, ExtractValgroup(line.valgroup).value).validators
            && PayloadMalformed(line.payload)))
  }

  /** The state after the lines of one file from index `i` on, and the index
      of the line that stopped it, if one did. */
  datatype FileOutcome = FileOutcome(st: Shared, malformed: Option<nat>)

  /** The per-file loop of `parse` from line `i` on, with the file's registry so far. */
  function FileFrom(st: Shared, reg: FileRegistry, lines: seq<LogLine>, i: nat): FileOutcome
    requires reg.validators.Keys == reg.weights.Keys
    decreases |lines| - i
  {
    if i >= |lines| then FileOutcome(st, None)
    else
      var out := LineStep(st, reg, lines[i]);
      if !out.ok then FileOutcome(out.st, Some(i))
      else FileFrom(out.st, out.reg, lines, i + 1)
  }

  /** The outer loop of `parse` from file `f` on: each file starts with an
      empty registry, and the first malformed line aborts the parse. */
  function ParseFiles(st: Shared, files: seq<seq<LogLine>>, f: nat): Result<Shared, ParseError>
    decreases |files| - f
  {
    if f >= |files| then Ok(st)
    else
      var out := FileFrom(st, FileRegistry(map[], map[]), files[f], 0);
      match out.malformed
      case Some(l) => Err(MalformedLine(f, l))
      case None => ParseFiles(out.st, files, f + 1)
  }

  /** A line fails exactly when it stops its file. */
  lemma LineStepFails(st: Shared, reg: FileRegistry, line: LogLine)
    requires reg.validators.Keys == reg.weights.Keys
    ensures !LineStep(st, reg, line).ok <==> StopsFile(line, reg)
    ensures Unstamped(line) ==> LineStep(st, reg, line) == LineOutcome(st, reg, true)
  {
  }

  /** Lines without a timestamp or committee id are skipped: a file of them
      changes nothing and never stops. */
  lemma {:induction false} UnstampedLinesSkipped(st: Shared, reg: FileRegistry, lines: seq<LogLine>, i: nat)
    requires reg.validators.Keys == reg.weights.Keys
    requires forall j :: i <= j < |lines| ==> Unstamped(lines[j])
    ensures FileFrom(st, reg, lines, i) == FileOutcome(st, None)
    decreases |lines| - i
  {
    if i < |lines| {
      LineStepFails(st, reg, lines[i]);
      UnstampedLinesSkipped(st, reg, lines, i + 1);
    }
  }

  /** The line that stops a file is malformed: it has a timestamp and a
      committee id and lacks a required field. */
  lemma {:induction false} FileStopsAtMalformed(st: Shared, reg: FileRegistry, lines: seq<LogLine>, i: nat)
    requires reg.validators.Keys == reg.weights.Keys
    ensures var m := FileFrom(st, reg, lines, i).malformed;
            m.Some? ==>
              && i <= m.value < |lines|
              && lines[m.value].time.Some? && lines[m.value].valgroup.Some?
              && (IdentityMalformed(lines[m.value].identity) || PayloadMalformed(lines[m.value].payload))
    decreases |lines| - i
  {
    if i < |lines| {
      var out := LineStep(st, reg, lines[i]);
      LineStepFails(st, reg, lines[i]);
      if out.ok {
        FileStopsAtMalformed(out.st, out.reg, lines, i + 1);
      }
    }
  }

  /** An aborted parse names a malformed line of one of the files. */
  lemma {:induction false} ParseStopsAtMalformed(st: Shared, files: seq<seq<LogLine>>, f: nat)
    ensures var r := ParseFiles(st, files, f);
            r.Err? ==>
              var g, l := r.error.file, r.error.line;
              && f <= g < |files| && l < |files[g]|
              && files[g][l].time.Some? && files[g][l].valgroup.Some?
              && (IdentityMalformed(files[g][l].identity) || PayloadMalformed(files[g][l].payload))
    decreases |files| - f
  {
    if f < |files| {
      var out := FileFrom(st, FileRegistry(map[], map[]), files[f], 0);
      FileStopsAtMalformed(st, FileRegistry(map[], map[]), files[f], 0);
      if out.malformed.None? {
        ParseStopsAtMalformed(out.st, files, f + 1);
      }
    }
  }

  class ParserLogs {
    var slots: map<SlotKey, Slot>
    /** Creation order of the keys of `slots` (the dictionary's insertion order). */
    var slotOrder: seq<SlotKey>
    var collated: Collated
    var votes: Ledger
    var totalWeights: map<string, nat>
    var slotLeaders: map<SlotKey, nat>
    var events: seq<Event>
    /** Timestamps of the lines that may set a slot's start estimate: the line
        that created it and every target-reached line for it. */
    ghost var estimateSources: map<SlotKey, set<int>>

    ghost predicate Valid()
      reads this
    {
      TableValid() && EventsValid()
    }

    /** The slot table is consistent with its creation order and sources. */
    ghost predicate TableValid()
      reads this`slots, this`slotOrder, this`totalWeights, this`estimateSources
    {
      SlotTableOk(slots, slotOrder, totalWeights, estimateSources)
    }

    /** Every kept marker was emitted, and the phase chain holds. */
    ghost predicate EventsValid()
      reads this`collated, this`events
    {
      CollatedRecorded(collated, events) && ChainHolds(events)
    }

    /** The shared maps as one value. */
    ghost function Snapshot(): Shared
      reads this
    {
      Shared(slots, slotOrder, collated, votes, totalWeights, slotLeaders, events, estimateSources)
    }

    /** The per-file registry agrees with itself and with the shared totals:
        every committee with a validator id has a weight and a total weight. */
    ghost predicate RegistryCovered(reg: FileRegistry)
      reads this
    {
      reg.validators.Keys == reg.weights.Keys && reg.validators.Keys <= totalWeights.Keys
    }

    constructor ()
      ensures Valid()
      ensures slots == map[] && slotOrder == [] && collated == map[] && votes == map[]
      ensures totalWeights == map[] && slotLeaders == map[] && events == []
    {
      slots, slotOrder, collated, votes := map[], [], map[], map[];
      totalWeights, slotLeaders, events := map[], map[], [];
      estimateSources := map[];
    }

    /** Append one observation (an event that is not a phase) to the event list. */
    method Record(e: Event)
      requires Valid() && e.kind != "phase"
      modifies this`events
      ensures Valid() && events == old(events) + [e]
      ensures KeyOfEvent(e) in KeysOf(events, e.name, e.kind)
    {
      AppendObservation(events, e);
      events := events + [e];
    }

    /** The slot bookkeeping of a target-reached line: create the slot (not
        empty, estimate = t) or lower its estimate to the earlier of the two,
        and record the collator when the target is the start of collation. */
    method ObserveTarget(k: SlotKey, t: int, collator: Option<nat>)
      requires TableValid() && k.0 in totalWeights
      modifies this`slots, this`slotOrder, this`estimateSources
      ensures TableValid() && SlotsEvolve(old(slots), slots)
      ensures Snapshot() == ObserveStep(old(Snapshot()), k, t, collator)
    {
      TableObserveTarget(slots, slotOrder, totalWeights, estimateSources, k, t, collator);
      ghost var sources' := SourcesAfter(estimateSources, k, t);
      var order' := OrderAfter(slotOrder, slots, k);
      var slots' := slots[k := ObservedSlot(slots, k, t, collator)];
      assert SlotTableOk(slots', order', totalWeights, sources');
      slots, slotOrder, estimateSources := slots', order', sources';
    }

    /** The events of a target-reached line: the next-leader observation, then
        the labelled local event, which also becomes a collation marker. */
    method RecordTarget(k: SlotKey, target: Target, t: int, v: nat)
      requires EventsValid()
      modifies this`events, this`collated
      ensures EventsValid()
      ensures Snapshot() == RecordStep(old(Snapshot()), k, target, t, v)
    {
      TargetKeepsInvariant(collated, events, slotLeaders, k, target, t, v);
      events := events + TargetEvents(slotLeaders, k, target, t, v);
      collated := MarkersAfter(collated, k, target, t, v);
    }

    /** `_parse_stats_target_reached`: create the slot if absent (not empty,
        estimate = t), lower its estimate to the running minimum, record the
        collator, emit the next-leader observation and the local event, and
        keep the collation markers. A line whose pattern did not match is ignored. */
    method ParseStatsTargetReached(stats: Option<TargetStats>, t: int, group: string, v: nat)
      requires Valid() && group in totalWeights
      modifies this`slots, this`slotOrder, this`estimateSources, this`events, this`collated
      ensures Valid() && SlotsEvolve(old(slots), slots) && old(events) <= events
      ensures Snapshot() == TargetStep(old(Snapshot()), stats, t, group, v)
    {
      if stats.None? {
        return;
      }
      var target, k := stats.value.target, (group, stats.value.slot);
      ObserveTarget(k, t, CollatorOf(target, v));
      RecordTarget(k, target, t, v);
    }

    /** The slot bookkeeping of a skip vote. */
    method MarkSkipped(k: SlotKey, t: int)
      requires TableValid() && k.0 in totalWeights
      modifies this`slots, this`slotOrder, this`estimateSources
      ensures TableValid() && SlotsEvolve(old(slots), slots)
      ensures slots == old(slots)[k := SkippedSlot(old(slots), k, t)]
      ensures slotOrder == OrderAfter(old(slotOrder), old(slots), k)
      ensures estimateSources == (if k in old(slots) then old(estimateSources) else old(estimateSources)[k := {t}])
    {
      TableMarkSkipped(slots, slotOrder, totalWeights, estimateSources, k, t);
      ghost var sources' := if k in slots then estimateSources else estimateSources[k := {t}];
      var order' := OrderAfter(slotOrder, slots, k);
      var slots' := slots[k := SkippedSlot(slots, k, t)];
      assert SlotTableOk(slots', order', totalWeights, sources');
      slots, slotOrder, estimateSources := slots', order', sources';
    }

    /** `_parse_skip_vote`: emit `skip_observed`, then create the slot as empty
        (estimate = t) or mark the existing slot empty, leaving its estimate. */
    method ParseSkipVote(skipSlot: Option<nat>, t: int, group: string, v: nat) returns (ok: bool)
      requires Valid() && group in totalWeights
      modifies this`events, this`slots, this`slotOrder, this`estimateSources
      ensures Valid() && SlotsEvolve(old(slots), slots) && old(events) <= events
      ensures ok == skipSlot.Some?
      ensures !ok ==>
                slots == old(slots) && slotOrder == old(slotOrder) && events == old(events)
                && estimateSources == old(estimateSources)
      ensures ok ==>
                var k := (group, skipSlot.value);
                && events == old(events) + [LocalEvent(group, k.1, "skip_observed", t, v)]
                && slots == old(slots)[k := SkippedSlot(old(slots), k, t)]
                && slotOrder == OrderAfter(old(slotOrder), old(slots), k)
                && estimateSources == (if k in old(slots) then old(estimateSources)
                                       else old(estimateSources)[k := {t}])
      ensures Snapshot() == SkipStep(old(Snapshot()), skipSlot, t, group, v)
    {
      if skipSlot.None? {
        return false;
      }
      var k := (group, skipSlot.value);
      Record(LocalEvent(group, k.1, "skip_observed", t, v));
      MarkSkipped(k, t);
      return true;
    }

    /** `_parse_publish_event`: a vote broadcast (not a skip vote) is appended to
        the ledger with the sender's own weight; a leader-window announcement
        makes the sender the leader of every slot in [start, end), overwriting
        earlier assignments and leaving all other slots alone. */
    method ParsePublishEvent(p: Published, t: int, group: string, v: nat, weights: map<string, nat>)
      returns (ok: bool)
      requires Valid() && group in weights
      modifies this`votes, this`slotLeaders
      ensures Valid()
      ensures ok == match p
                    case BroadcastVote(slot, vote) => slot.Some? && vote.Some?
                    case LeaderWindowStarted(a, b) => a.Some? && b.Some?
                    case OtherPublished => true
      ensures !ok || p.OtherPublished? ==> votes == old(votes) && slotLeaders == old(slotLeaders)
      ensures ok && p.BroadcastVote? ==>
                var k, kind := (group, p.voteSlot.value), p.vote.value;
                && slotLeaders == old(slotLeaders)
                && votes == old(votes)[k := LedgerAt(old(votes), k)[kind :=
                                        VotesAt(old(votes), k, kind) + [Vote(kind, t, v, weights[group])]]]
      ensures ok && p.LeaderWindowStarted? ==>
                var start, end := p.startSlot.value, p.endSlot.value;
                && votes == old(votes)
                && slotLeaders == WindowLeaders(old(slotLeaders), group, start, end, v)
                && (forall s: nat :: start <= s < end ==> MapGet(slotLeaders, (group, s)) == Some(v))
                && (forall key: SlotKey :: key.0 != group || key.1 < start || end <= key.1 ==>
                      MapGet(slotLeaders, key) == MapGet(old(slotLeaders), key))
      ensures Snapshot() == PublishStep(old(Snapshot()), p, t, group, v, weights[group])
    {
      match p {
        case BroadcastVote(voteSlot, vote) =>
          if voteSlot.None? || vote.None? {
            return false;
          }
          var k, kind := (group, voteSlot.value), vote.value;
          votes := votes[k := LedgerAt(votes, k)[kind := VotesAt(votes, k, kind) + [Vote(kind, t, v, weights[group])]]];
          return true;
        case LeaderWindowStarted(startSlot, endSlot) =>
          if startSlot.None? || endSlot.None? {
            return false;
          }
          var start, end := startSlot.value, endSlot.value;
          var s := start;
          while s < end
            invariant start <= s && (s <= end || s == start)
            invariant slotLeaders == WindowLeaders(old(slotLeaders), group, start, s, v)
            invariant votes == old(votes)
          {
            slotLeaders := slotLeaders[(group, s) := v];
            s := s + 1;
          }
          WindowLeadersCover(old(slotLeaders), group, start, end, v);
          return true;
        case OtherPublished =>
          return true;
      }
    }

    /** `_parse_validator_info`: a "We are validator" line registers the
        validator id and own weight in the file's registry and the committee's
        total weight in the shared map. */
    method ParseValidatorInfo(identity: Option<IdentityFields>, group: string, reg: FileRegistry)
      returns (reg': FileRegistry, ok: bool)
      requires Valid() && RegistryCovered(reg)
      modifies this`totalWeights
      ensures Valid() && RegistryCovered(reg')
      ensures ok == !IdentityMalformed(identity)
      ensures identity.None? ==> reg' == reg && totalWeights == old(totalWeights)
      ensures !ok ==> reg' == reg && totalWeights == old(totalWeights)
      ensures ok ==> reg' == RegistryAfter(reg, identity, group)
                     && totalWeights == TotalsAfter(old(totalWeights), identity, group)
      ensures identity.Some? && ok ==>
                var id := identity.value;
                && reg' == FileRegistry(reg.validators[group := id.validator.value], reg.weights[group := id.weight.value])
                && totalWeights == old(totalWeights)[group := id.total.value]
    {
      if identity.None? {
        return reg, true;
      }
      var id := identity.value;
      if id.validator.None? || id.weight.None? || id.total.None? {
        return reg, false;
      }
      reg' := FileRegistry(reg.validators[group := id.validator.value], reg.weights[group := id.weight.value]);
      TableMoreTotals(slots, slotOrder, totalWeights, estimateSources, totalWeights[group := id.total.value]);
      totalWeights := totalWeights[group := id.total.value];
      ok := true;
    }

    /** `_process_log_line`: a line from a committee whose validator id this file
        has not registered is dropped; otherwise it goes to its handler. */
    method ProcessLogLine(payload: Payload, group: string, t: int, reg: FileRegistry) returns (ok: bool)
      requires Valid() && RegistryCovered(reg)
      modifies this`slots, this`slotOrder, this`estimateSources, this`events, this`collated
      modifies this`votes, this`slotLeaders
      ensures Valid() && RegistryCovered(reg)
      ensures SlotsEvolve(old(slots), slots) && old(events) <= events
      ensures ok == (group !in reg.validators || !PayloadMalformed(payload))
      ensures group !in reg.validators ==>
                slots == old(slots) && slotOrder == old(slotOrder) && collated == old(collated)
                && votes == old(votes) && slotLeaders == old(slotLeaders) && events == old(events)
      ensures Snapshot() == if group in reg.validators
                            then DispatchStep(old(Snapshot()), payload, group, t, reg.validators[group], reg.weights[group])
                            else old(Snapshot())
    {
      if group !in reg.validators {
        return true;
      }
      ok := DispatchPayload(payload, group, t, reg.validators[group], reg.weights);
    }

    /** The handler dispatch of `_process_log_line`: each kind of line goes to
        exactly one handler, which touches only its own maps. */
    method DispatchPayload(payload: Payload, group: string, t: int, v: nat, weights: map<string, nat>)
      returns (ok: bool)
      requires Valid() && group in totalWeights && group in weights
      modifies this`slots, this`slotOrder, this`estimateSources, this`events, this`collated
      modifies this`votes, this`slotLeaders
      ensures Valid()
      ensures SlotsEvolve(old(slots), slots) && old(events) <= events
      ensures ok == !PayloadMalformed(payload)
      ensures payload.Unrecognised? ==>
                slots == old(slots) && slotOrder == old(slotOrder) && collated == old(collated)
                && votes == old(votes) && slotLeaders == old(slotLeaders) && events == old(events)
      ensures payload.StatsTargetReached? ==> votes == old(votes) && slotLeaders == old(slotLeaders)
      ensures payload.SkipCertificate? ==>
                collated == old(collated) && votes == old(votes) && slotLeaders == old(slotLeaders)
      ensures payload.PublishedEvent? ==>
                slots == old(slots) && slotOrder == old(slotOrder) && collated == old(collated) && events == old(events)
      ensures Snapshot() == DispatchStep(old(Snapshot()), payload, group, t, v, weights[group])
    {
      match payload {
        case StatsTargetReached(stats) =>
          ParseStatsTargetReached(stats, t, group, v);
          ok := true;
        case SkipCertificate(slot) =>
          ok := ParseSkipVote(slot, t, group, v);
        case PublishedEvent(published) =>
          ok := ParsePublishEvent(published, t, group, v, weights);
        case Unrecognised =>
          ok := true;
      }
    }

    /** `_process_vote_threshold`: on the first vote, in time order, at which the
        accumulated weight reaches the threshold, append `{label}_reached` and the
        `{label}` phase from `phaseStart`, and return that vote's time. */
    method ProcessVoteThreshold(s: Slot, kindVotes: seq<Vote>, threshold: int, phase: string, phaseStart: int)
      returns (reached: Option<int>)
      modifies this`events
      ensures reached == CrossingTime(kindVotes, threshold)
      ensures events == old(events) + ThresholdEvents(s, phase, phaseStart, reached)
    {
      reached := AccumulateVotes(kindVotes, threshold);
      if reached.Some? {
        events := events + [Event(s.group, s.slot, phase + "_reached", "reached", reached.value, None, None),
                            Event(s.group, s.slot, phase, "phase", phaseStart, Some(reached.value), None)];
      }
    }

    /** The body of the loop of `_infer_slot_events` for one slot: the start
        estimate marker, the collation phase when both markers exist, the
        notarization phase from the collation end, and the finalization phase
        from the notarization crossing. */
    method InferSlot(s: Slot, total: nat)
      modifies this`events
      ensures events == old(events) + SlotEvents(s, collated, votes, total)
    {
      var k := KeyOfSlot(s);
      ghost var before := events;
      events := events + [EstimateEvent(s)];
      var span := CollationSpan(collated, k);
      if span.Some? {
        events := events + [Event(s.group, s.slot, "collate", "phase", span.value.0, Some(span.value.1), None)];
      }
      ghost var afterCollate := events;
      assert afterCollate == before + [EstimateEvent(s)] + CollateEvents(s, collated);
      var threshold := WeightThreshold(total);
      var notarizeReached: Option<int> := None;
      if k in votes && "NotarizeVote" in votes[k] && span.Some? {
        notarizeReached := ProcessVoteThreshold(s, votes[k]["NotarizeVote"], threshold, "notarize", span.value.1);
      }
      assert notarizeReached == NotarizeCrossing(s, collated, votes, total);
      ghost var afterNotarize := events;
      assert afterNotarize == afterCollate + NotarizeEvents(s, collated, votes, total);
      if k in votes && "FinalizeVote" in votes[k] && notarizeReached.Some? {
        var _ := ProcessVoteThreshold(s, votes[k]["FinalizeVote"], threshold, "finalize", notarizeReached.value);
      }
      assert events == afterNotarize + FinalizeEvents(s, collated, votes, total);
      var collate, notarize := CollateEvents(s, collated), NotarizeEvents(s, collated, votes, total);
      AppendAssoc(before, [EstimateEvent(s)], collate);
      AppendAssoc(before, [EstimateEvent(s)] + collate, notarize);
      AppendAssoc(before, [EstimateEvent(s)] + collate + notarize, FinalizeEvents(s, collated, votes, total));
    }

    /** The loop of `_infer_slot_events`: every slot in creation order. */
    method AppendInferAll()
      requires forall j :: 0 <= j < |slotOrder| ==> slotOrder[j] in slots && slotOrder[j].0 in totalWeights
      modifies this`events
      ensures events == old(events) + InferAll(slotOrder, slots, collated, votes, totalWeights)
    {
      var i := 0;
      while i < |slotOrder|
        invariant 0 <= i <= |slotOrder|
        invariant events == old(events) + InferAll(slotOrder[..i], slots, collated, votes, totalWeights)
      {
        var k := slotOrder[i];
        var s := slots[k];
        var total := totalWeights[k.0];
        InferAllStep(slotOrder, i, slots, collated, votes, totalWeights);
        AppendAssoc(old(events), InferAll(slotOrder[..i], slots, collated, votes, totalWeights),
                    SlotEvents(s, collated, votes, total));
        InferSlot(s, total);
        i := i + 1;
      }
      assert slotOrder[..|slotOrder|] == slotOrder;
    }

    /** `_infer_slot_events`: the committee's total weight is always
        registered, so its lookup cannot fail, and the appended events keep
        the causal chain. */
    method InferSlotEvents()
      requires Valid()
      modifies this`events
      ensures Valid()
      ensures events == old(events) + InferAll(slotOrder, slots, collated, votes, totalWeights)
    {
      OrderedSlotsRegistered(slots, slotOrder, totalWeights, estimateSources);
      InferAllKeepsChain(events, slotOrder, slots, collated, votes, totalWeights);
      AppendInferAll();
    }

    /** One line of the per-file loop of `parse`: a line without a timestamp
        or committee id is skipped; otherwise its registration fields are
        read, then the line is processed. `ok` is false when the line is
        malformed, which stops the file. */
    method ParseLine(line: LogLine, reg: FileRegistry) returns (reg': FileRegistry, ok: bool)
      requires Valid() && RegistryCovered(reg)
      modifies this
      ensures Valid() && RegistryCovered(reg')
      ensures SlotsEvolve(old(slots), slots) && old(events) <= events
      ensures !ok <==>
                var group := ExtractValgroup(line.valgroup);
                && line.time.Some? && group.Some?
                && (IdentityMalformed(line.identity)
                    || (group.value in reg'.validators && PayloadMalformed(line.payload)))
      ensures var out := LineStep(old(Snapshot()), reg, line);
              Snapshot() == out.st && reg' == out.reg && ok == out.ok
    {
      reg', ok := reg, true;
      var group := ExtractValgroup(line.valgroup);
      if line.time.Some? && group.Some? {
        reg', ok := ParseValidatorInfo(line.identity, group.value, reg);
        if ok {
          ok := ProcessLogLine(line.payload, group.value, line.time.value, reg');
        }
      }
    }

    /** One iteration of the per-file loop of `parse`: a fresh identity
        registry; the index of the first malformed line, if any, stops the file. */
    method ParseFile(lines: seq<LogLine>) returns (malformed: Option<nat>)
      requires Valid()
      modifies this
      ensures Valid() && SlotsEvolve(old(slots), slots) && old(events) <= events
      ensures malformed.Some? ==>
                var l := malformed.value;
                && l < |lines| && lines[l].time.Some? && lines[l].valgroup.Some?
                && (IdentityMalformed(lines[l].identity) || PayloadMalformed(lines[l].payload))
      ensures var out := FileFrom(old(Snapshot()), FileRegistry(map[], map[]), lines, 0);
              Snapshot() == out.st && malformed == out.malformed
    {
      var reg := FileRegistry(map[], map[]);
      var i := 0;
      while i < |lines|
        invariant 0 <= i <= |lines|
        invariant Valid() && RegistryCovered(reg)
        invariant SlotsEvolve(old(slots), slots) && old(events) <= events
        invariant FileFrom(old(Snapshot()), FileRegistry(map[], map[]), lines, 0) == FileFrom(Snapshot(), reg, lines, i)
      {
        ghost var slots0 := slots;
        var ok;
        reg, ok := ParseLine(lines[i], reg);
        SlotsEvolveTransitive(old(slots), slots0, slots);
        if !ok {
          return Some(i);
        }
        i := i + 1;
      }
      return None;
    }

    /** `parse`: the files in order, then the inference pass once. A malformed
        line aborts the whole parse. */
    method Parse(files: seq<seq<LogLine>>) returns (r: Result<ConsensusData, ParseError>)
      requires Valid()
      modifies this
      ensures Valid() && SlotsEvolve(old(slots), slots) && old(events) <= events
      ensures r.Ok? ==> r.value == ConsensusData(SlotsInOrder(slotOrder, slots), events)
      ensures r.Ok? ==> ChainHolds(r.value.events)
      ensures r.Ok? ==> forall i :: 0 <= i < |r.value.slots| ==> r.value.slots[i].group in totalWeights
      ensures r.Err? ==>
                var f, l := r.error.file, r.error.line;
                && f < |files| && l < |files[f]|
                && files[f][l].time.Some? && files[f][l].valgroup.Some?
                && (IdentityMalformed(files[f][l].identity) || PayloadMalformed(files[f][l].payload))
      ensures var out := ParseFiles(old(Snapshot()), files, 0);
              && (r.Err? <==> out.Err?)
              && (r.Err? ==> r.error == out.error)
              && (r.Ok? ==> Snapshot() == out.value.(events := out.value.events
                                                     + InferAll(slotOrder, slots, collated, votes, totalWeights)))
    {
      var f := 0;
      while f < |files|
        invariant 0 <= f <= |files|
        invariant Valid() && SlotsEvolve(old(slots), slots) && old(events) <= events
        invariant ParseFiles(old(Snapshot()), files, 0) == ParseFiles(Snapshot(), files, f)
      {
        ghost var slots0 := slots;
        var malformed := ParseFile(files[f]);
        SlotsEvolveTransitive(old(slots), slots0, slots);
        if malformed.Some? {
          return Err(MalformedLine(f, malformed.value));
        }
        f := f + 1;
      }
      ghost var parsed := Snapshot();
      InferSlotEvents();
      OrderedSlotsRegistered(slots, slotOrder, totalWeights, estimateSources);
      r := Ok(ConsensusData(SlotsInOrder(slotOrder, slots), events));
    }
  }
}
