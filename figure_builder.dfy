/** The selection and derivation logic of src/visualizer/figure_builder.py:
    the `DataFilter` queries over a parsed snapshot, the start/end pairing
    and slot-start choice of `DetailFigureBuilder`, and the summary y-axis
    category list. The plotly figure construction around them is not modelled. */
module FigureBuilder {
  import opened Wrappers
  import opened Models
  import opened Seqs

  // ---------------------------------------------------------------------------
  // DataFilter.filter_slots

  /** The condition of the `filter_slots` comprehension. */
  predicate SlotSelected(s: Slot, group: string, slotFrom: int, slotTo: int, showEmpty: bool)
  {
    s.group == group && slotFrom <= s.slot <= slotTo && (showEmpty || !s.isEmpty)
  }

  /** `filter_slots`: the snapshot's slots of one committee within
      [slotFrom, slotTo], empty ones only when asked for, in their original
      order and with their multiplicity. */
  function FilterSlots(data: ConsensusData, group: string, slotFrom: int, slotTo: int, showEmpty: bool)
    : (r: seq<Slot>)
    ensures IsSubsequence(r, data.slots)
    ensures forall s :: s in r <==> s in data.slots && SlotSelected(s, group, slotFrom, slotTo, showEmpty)
    ensures forall s :: multiset(r)[s] ==
                        if SlotSelected(s, group, slotFrom, slotTo, showEmpty) then multiset(data.slots)[s] else 0
  {
    var p := (s: Slot) => SlotSelected(s, group, slotFrom, slotTo, showEmpty);
    FilterMembers(data.slots, p);
    Filter(data.slots, p)
  }

  // ---------------------------------------------------------------------------
  // DataFilter.filter_events

  /** The keyword arguments of `filter_events`; None is "not given". */
  datatype EventQuery = EventQuery(
    group: Option<string>,
    slot: Option<int>,
    slots: Option<set<int>>,
    labels: Option<set<string>>,
    kinds: Option<set<string>>,
    hasValidator: Option<bool>)

  /** The query with every argument left out. */
  const NoQuery := EventQuery(None, None, None, None, None, None)

  /** An event passes every active filter. An empty committee id or an empty
      set is falsy in the source and so imposes no constraint, while `slot`
      is tested against None and so constrains even when it is 0. */
  predicate EventMatches(q: EventQuery, e: Event)
  {
    && (q.group.None? || q.group.value == "" || e.group == q.group.value)
    && (q.slot.None? || e.slot == q.slot.value)
    && (q.slots.None? || q.slots.value == {} || e.slot in q.slots.value)
    && (q.labels.None? || q.labels.value == {} || e.name in q.labels.value)
    && (q.kinds.None? || q.kinds.value == {} || e.kind in q.kinds.value)
    && (q.hasValidator.None? || q.hasValidator.value == e.validator.Some?)
  }

  function Matcher(q: EventQuery): Event -> bool
  {
    (e: Event) => EventMatches(q, e)
  }

  /** The body of `filter_events`'s loop: the filters in the order they are
      tried, each skipping the event on the first mismatch. Falling through
      every test is the same as satisfying the whole conjunction. */
  method PassesFilters(q: EventQuery, e: Event) returns (keep: bool)
    ensures keep == EventMatches(q, e)
  {
    keep := true;
    if q.group.Some? && q.group.value != "" && e.group != q.group.value {
      keep := false;
    } else if q.slot.Some? && e.slot != q.slot.value {
      keep := false;
    } else if q.slots.Some? && q.slots.value != {} && e.slot !in q.slots.value {
      keep := false;
    } else if q.labels.Some? && q.labels.value != {} && e.name !in q.labels.value {
      keep := false;
    } else if q.kinds.Some? && q.kinds.value != {} && e.kind !in q.kinds.value {
      keep := false;
    } else if q.hasValidator.Some? {
      if q.hasValidator.value && e.validator.None? {
        keep := false;
      } else if !q.hasValidator.value && e.validator.Some? {
        keep := false;
      }
    }
  }

  /** `filter_events`: the events that pass every given filter, in order. */
  method FilterEvents(data: ConsensusData, q: EventQuery) returns (result: seq<Event>)
    ensures result == Filter(data.events, Matcher(q))
    ensures IsSubsequence(result, data.events)
    ensures forall e :: e in result <==> e in data.events && EventMatches(q, e)
  {
    result := [];
    var i := 0;
    while i < |data.events|
      invariant 0 <= i <= |data.events|
      invariant result == Filter(data.events[..i], Matcher(q))
    {
      var keep := PassesFilters(q, data.events[i]);
      FilterStep(data.events, i, Matcher(q));
      if keep {
        result := result + [data.events[i]];
      }
      i := i + 1;
    }
    assert data.events[..|data.events|] == data.events;
    FilterMembers(data.events, Matcher(q));
  }

  /** With no argument given, or with only falsy ones, `filter_events`
      keeps every event. */
  lemma FalsyQueryKeepsAll(events: seq<Event>, q: EventQuery)
    requires q.group.None? || q.group == Some("")
    requires q.slot.None? && q.hasValidator.None?
    requires q.slots.None? || q.slots == Some({})
    requires q.labels.None? || q.labels == Some({})
    requires q.kinds.None? || q.kinds == Some({})
    ensures Filter(events, Matcher(q)) == events
  {
    FilterAll(events, Matcher(q));
  }

  /** `has_validator=True` keeps exactly the events with a validator,
      `False` exactly those without one. */
  lemma HasValidatorSelects(events: seq<Event>, wanted: bool)
    ensures forall e :: e in Filter(events, Matcher(NoQuery.(hasValidator := Some(wanted)))) <==>
                          e in events && e.validator.Some? == wanted
  {
    FilterMembers(events, Matcher(NoQuery.(hasValidator := Some(wanted))));
  }

  // ---------------------------------------------------------------------------
  // DataFilter.get_slot

  /** `get_slot`: the first slot of the snapshot with this committee and slot
      number, or None when there is none. */
  function GetSlot(data: ConsensusData, group: string, slot: int): (r: Option<Slot>)
    ensures r.Some? ==> exists i :: 0 <= i < |data.slots| && data.slots[i] == r.value
                                    && r.value.group == group && r.value.slot == slot
                                    && forall j :: 0 <= j < i ==> !(data.slots[j].group == group && data.slots[j].slot == slot)
    ensures r.None? <==> forall i :: 0 <= i < |data.slots| ==> !(data.slots[i].group == group && data.slots[i].slot == slot)
  {
    First(data.slots, (s: Slot) => s.group == group && s.slot == slot)
  }

  // ---------------------------------------------------------------------------
  // DataFilter.group_events_by_label

  function HasLabel(name: string): Event -> bool
  {
    (e: Event) => e.name == name
  }

  /** `result.setdefault(e.label, []).append(e)`. */
  function AddToBucket(buckets: map<string, seq<Event>>, e: Event): map<string, seq<Event>>
  {
    buckets[e.name := (if e.name in buckets then buckets[e.name] else []) + [e]]
  }

  /** `buckets` has a key for each label that occurs in `s`, and no other. */
  ghost predicate LabelsOf(s: seq<Event>, buckets: map<string, seq<Event>>)
  {
    forall name :: name in buckets <==> exists i :: 0 <= i < |s| && s[i].name == name
  }

  /** `buckets` holds, under each of its labels, the events of `s` with that
      label in order. */
  ghost predicate Grouped(s: seq<Event>, buckets: map<string, seq<Event>>)
  {
    LabelsOf(s, buckets) && forall name :: name in buckets ==> buckets[name] == Filter(s, HasLabel(name))
  }

  lemma LabelsStep(events: seq<Event>, i: nat, buckets: map<string, seq<Event>>)
    requires i < |events| && LabelsOf(events[..i], buckets)
    ensures LabelsOf(events[..i + 1], AddToBucket(buckets, events[i]))
  {
    var s, s', b' := events[..i], events[..i + 1], AddToBucket(buckets, events[i]);
    forall name ensures name in b' <==> exists j :: 0 <= j < |s'| && s'[j].name == name {
      if name in buckets {
        var j :| 0 <= j < |s| && s[j].name == name;
        assert s'[j] == s[j];
      }
      if exists j :: 0 <= j < |s'| && s'[j].name == name {
        var j :| 0 <= j < |s'| && s'[j].name == name;
        if j < |s| {
          assert s[j] == s'[j];
        }
      }
    }
  }

  lemma GroupedStep(events: seq<Event>, i: nat, buckets: map<string, seq<Event>>)
    requires i < |events| && Grouped(events[..i], buckets)
    ensures Grouped(events[..i + 1], AddToBucket(buckets, events[i]))
  {
    LabelsStep(events, i, buckets);
    var s, e, b' := events[..i], events[i], AddToBucket(buckets, events[i]);
    assert events[..i + 1] == s + [e];
    forall name | name in b' ensures b'[name] == Filter(events[..i + 1], HasLabel(name)) {
      if name == e.name && name !in buckets {
        FilterNone(s, HasLabel(name));
      }
    }
  }

  /** A grouping is a partition by label: a bucket holds only input events
      with its label, and every input event is in its label's bucket. */
  lemma GroupedMembers(s: seq<Event>, buckets: map<string, seq<Event>>)
    requires Grouped(s, buckets)
    ensures forall name, e :: name in buckets && e in buckets[name] ==> e in s && e.name == name
    ensures forall i :: 0 <= i < |s| ==> s[i].name in buckets && s[i] in buckets[s[i].name]
  {
    forall name | name in buckets
      ensures forall e :: e in buckets[name] ==> e in s && e.name == name
    {
      FilterMembers(s, HasLabel(name));
    }
    forall i | 0 <= i < |s|
      ensures s[i].name in buckets && s[i] in buckets[s[i].name]
    {
      FilterMembers(s, HasLabel(s[i].name));
    }
  }

  /** The buckets after appending every event of `s` in turn. */
  function GroupOf(s: seq<Event>): map<string, seq<Event>>
    decreases |s|
  {
    if s == [] then map[] else AddToBucket(GroupOf(s[..|s| - 1]), s[|s| - 1])
  }

  /** Appending events one at a time groups them by label. */
  lemma {:induction false} GroupOfGrouped(s: seq<Event>)
    ensures Grouped(s, GroupOf(s))
    decreases |s|
  {
    if s != [] {
      var n := |s| - 1;
      GroupOfGrouped(s[..n]);
      assert s[..n + 1] == s;
      GroupedStep(s, n, GroupOf(s[..n]));
    }
  }

  /** The bucket sizes add up to the number of events: none is lost or
      duplicated. */
  lemma {:induction false} GroupOfSize(s: seq<Event>)
    ensures SumSizes(GroupOf(s), GroupOf(s).Keys) == |s|
    decreases |s|
  {
    if s != [] {
      var n := |s| - 1;
      var prev := GroupOf(s[..n]);
      GroupOfSize(s[..n]);
      SumSizesAppend(prev, s[n].name, s[n]);
      assert AddToBucket(prev, s[n]).Keys == prev.Keys + {s[n].name};
    }
  }

  /** `group_events_by_label`: one bucket per label that occurs, holding the
      events with that label in input order (so, by `GroupedMembers`, every
      event is in exactly its own label's bucket); the bucket sizes add up to
      the input length. */
  method GroupEventsByLabel(events: seq<Event>) returns (result: map<string, seq<Event>>)
    ensures result == GroupOf(events)
    ensures Grouped(events, result)
    ensures SumSizes(result, result.Keys) == |events|
  {
    result := map[];
    var i := 0;
    while i < |events|
      invariant 0 <= i <= |events|
      invariant result == GroupOf(events[..i])
    {
      assert events[..i + 1][..i] == events[..i];
      result := AddToBucket(result, events[i]);
      i := i + 1;
    }
    assert events[..|events|] == events;
    GroupOfGrouped(events);
    GroupOfSize(events);
  }

  // ---------------------------------------------------------------------------
  // DetailFigureBuilder._infer_continuous_events

  /** The interval label and the end label paired with a start label. */
  function EndLabelOf(name: string): Option<(string, string)>
  {
    if name == "collate_started" then Some(("collation", "collate_finished"))
    else if name == "validate_started" then Some(("block_validation", "validate_finished"))
    else if name == "notarize_observed" then Some(("finalization", "finalize_observed"))
    else None
  }

  /** The key of `event_map`: validator and label. */
  type PairKey = (Option<nat>, string)

  function KeyMatcher(key: PairKey): Event -> bool
  {
    (e: Event) => e.validator == key.0 && e.name == key.1
  }

  /** The interval a start event opens, closed by the last end event of the
      same validator in `events`, or None when it is not a start event or no
      such end event exists. */
  function PairedInterval(events: seq<Event>, e: Event): Option<Event>
  {
    match EndLabelOf(e.name)
    case None => None
    case Some((interval, endName)) =>
      match Last(events, KeyMatcher((e.validator, endName)))
      case None => None
      case Some(last) => Some(Event(e.group, e.slot, interval, e.kind, e.start, Some(last.start), e.validator))
  }

  /** A start event opens an interval exactly when an end event of the same
      validator exists; the interval copies the start event's committee, slot,
      validator, kind and time, and ends at the last such end event. */
  lemma PairedIntervalSpec(events: seq<Event>, e: Event)
    ensures PairedInterval(events, e).Some? <==>
              EndLabelOf(e.name).Some?
              && exists j :: 0 <= j < |events| && events[j].validator == e.validator
                             && events[j].name == EndLabelOf(e.name).value.1
    ensures PairedInterval(events, e).Some? ==>
              var r := PairedInterval(events, e).value;
              && r.group == e.group && r.slot == e.slot && r.validator == e.validator
              && r.kind == e.kind && r.start == e.start
              && r.name == EndLabelOf(e.name).value.0
              && exists j :: 0 <= j < |events| && events[j].validator == e.validator
                             && events[j].name == EndLabelOf(e.name).value.1
                             && r.end == Some(events[j].start)
                             && forall k :: j < k < |events| ==>
                                  !(events[k].validator == e.validator && events[k].name == EndLabelOf(e.name).value.1)
  {
    if EndLabelOf(e.name).Some? {
      var endName := EndLabelOf(e.name).value.1;
      var last := Last(events, KeyMatcher((e.validator, endName)));
    }
  }

  function OptionToSeq<T>(o: Option<T>): (r: seq<T>)
    ensures o.None? ==> r == []
    ensures o.Some? ==> r == [o.value]
  {
    if o.Some? then [o.value] else []
  }

  /** The intervals the start events among `starts` open, in their order,
      each closed against the whole input `all`. */
  function Intervals(all: seq<Event>, starts: seq<Event>): (r: seq<Event>)
    ensures |r| <= |starts|
    decreases |starts|
  {
    if starts == [] then []
    else Intervals(all, starts[..|starts| - 1]) + OptionToSeq(PairedInterval(all, starts[|starts| - 1]))
  }

  /** Every inferred interval is opened by some start event among `starts`. */
  lemma {:induction false} IntervalsSound(all: seq<Event>, starts: seq<Event>)
    ensures forall x :: x in Intervals(all, starts) ==>
                          exists i :: 0 <= i < |starts| && PairedInterval(all, starts[i]) == Some(x)
    decreases |starts|
  {
    if starts != [] {
      var init := starts[..|starts| - 1];
      IntervalsSound(all, init);
      forall x | x in Intervals(all, starts)
        ensures exists i :: 0 <= i < |starts| && PairedInterval(all, starts[i]) == Some(x)
      {
        if x in Intervals(all, init) {
          var i :| 0 <= i < |init| && PairedInterval(all, init[i]) == Some(x);
          assert starts[i] == init[i];
        } else {
          assert PairedInterval(all, starts[|starts| - 1]) == Some(x);
        }
      }
    }
  }

  /** Every start event among `starts` that has a matching end event opens an
      interval. */
  lemma {:induction false} IntervalsComplete(all: seq<Event>, starts: seq<Event>)
    ensures forall i :: 0 <= i < |starts| && PairedInterval(all, starts[i]).Some? ==>
                          PairedInterval(all, starts[i]).value in Intervals(all, starts)
    decreases |starts|
  {
    if starts != [] {
      var init := starts[..|starts| - 1];
      IntervalsComplete(all, init);
      forall i | 0 <= i < |starts| && PairedInterval(all, starts[i]).Some?
        ensures PairedInterval(all, starts[i]).value in Intervals(all, starts)
      {
        if i < |init| {
          assert starts[i] == init[i];
        }
      }
    }
  }

  lemma LastStep(s: seq<Event>, i: nat, key: PairKey)
    requires i < |s|
    ensures Last(s[..i + 1], KeyMatcher(key)) ==
              if s[i].validator == key.0 && s[i].name == key.1 then Some(s[i]) else Last(s[..i], KeyMatcher(key))
  {
    assert s[..i + 1][..i] == s[..i];
  }

  lemma IntervalsStep(all: seq<Event>, i: nat)
    requires i < |all|
    ensures Intervals(all, all[..i + 1]) == Intervals(all, all[..i]) + OptionToSeq(PairedInterval(all, all[i]))
  {
    assert all[..i + 1][..i] == all[..i];
  }

  /** The first loop of `_infer_continuous_events`: the last event per
      (validator, label), as a dictionary overwritten in list order. */
  method LastByKey(events: seq<Event>) returns (eventMap: map<PairKey, Event>)
    ensures forall key :: MapGet(eventMap, key) == Last(events, KeyMatcher(key))
  {
    eventMap := map[];
    var i := 0;
    while i < |events|
      invariant 0 <= i <= |events|
      invariant forall key :: MapGet(eventMap, key) == Last(events[..i], KeyMatcher(key))
    {
      var e := events[i];
      eventMap := eventMap[(e.validator, e.name) := e];
      forall key ensures MapGet(eventMap, key) == Last(events[..i + 1], KeyMatcher(key)) {
        LastStep(events, i, key);
      }
      i := i + 1;
    }
    assert events[..|events|] == events;
  }

  /** The body of the second loop of `_infer_continuous_events`: a start
      label looks its end label up in the map of last events. */
  method IntervalFromMap(eventMap: map<PairKey, Event>, ghost events: seq<Event>, e: Event)
    returns (interval: Option<Event>)
    requires forall key :: MapGet(eventMap, key) == Last(events, KeyMatcher(key))
    ensures interval == PairedInterval(events, e)
  {
    interval := None;
    var paired := EndLabelOf(e.name);
    if paired.Some? {
      var endEvent := MapGet(eventMap, (e.validator, paired.value.1));
      if endEvent.Some? {
        interval := Some(Event(e.group, e.slot, paired.value.0, e.kind, e.start,
                               Some(endEvent.value.start), e.validator));
      }
    }
  }

  /** The second loop of `_infer_continuous_events`: one interval for every
      start event, in list order, whose end label is in the map. */
  method CloseIntervals(eventMap: map<PairKey, Event>, events: seq<Event>) returns (inferred: seq<Event>)
    requires forall key :: MapGet(eventMap, key) == Last(events, KeyMatcher(key))
    ensures inferred == Intervals(events, events)
  {
    inferred := [];
    var i := 0;
    while i < |events|
      invariant 0 <= i <= |events|
      invariant inferred == Intervals(events, events[..i])
    {
      IntervalsStep(events, i);
      var interval := IntervalFromMap(eventMap, events, events[i]);
      inferred := inferred + OptionToSeq(interval);
      i := i + 1;
    }
    assert events[..|events|] == events;
  }

  /** `_infer_continuous_events`: the first loop keeps the last event per
      (validator, label); the second emits an interval for every start event
      whose end event is in that map. */
  method InferContinuousEvents(events: seq<Event>) returns (inferred: seq<Event>)
    ensures inferred == Intervals(events, events)
    ensures forall x :: x in inferred ==>
                          exists i :: 0 <= i < |events| && PairedInterval(events, events[i]) == Some(x)
    ensures forall i :: 0 <= i < |events| && PairedInterval(events, events[i]).Some? ==>
                          PairedInterval(events, events[i]).value in inferred
  {
    var eventMap := LastByKey(events);
    inferred := CloseIntervals(eventMap, events);
    IntervalsSound(events, events);
    IntervalsComplete(events, events);
  }

  // ---------------------------------------------------------------------------
  // DetailFigureBuilder._get_slot_start

  /** `min(e.t_ms for e in events)`. */
  function MinStart(events: seq<Event>): (r: int)
    requires events != []
    ensures exists i :: 0 <= i < |events| && events[i].start == r
    ensures forall i :: 0 <= i < |events| ==> r <= events[i].start
  {
    if |events| == 1 then events[0].start
    else
      var rest := MinStart(events[1..]);
      assert forall i :: 1 <= i < |events| ==> events[i] == events[1..][i - 1];
      if events[0].start <= rest then events[0].start else rest
  }

  predicate IsStartMarker(m: Event)
  {
    m.name == "slot_start_est"
  }

  /** `_get_slot_start`: the time of the first `slot_start_est` marker;
      without one, the earliest event time; without events, 0. */
  function GetSlotStart(markers: seq<Event>, events: seq<Event>): (r: int)
    ensures (exists i :: 0 <= i < |markers| && IsStartMarker(markers[i])) ==>
              exists i :: 0 <= i < |markers| && IsStartMarker(markers[i]) && r == markers[i].start
                          && forall j :: 0 <= j < i ==> !IsStartMarker(markers[j])
    ensures (forall i :: 0 <= i < |markers| ==> !IsStartMarker(markers[i])) && events != [] ==>
              (exists i :: 0 <= i < |events| && events[i].start == r)
              && forall i :: 0 <= i < |events| ==> r <= events[i].start
    ensures (forall i :: 0 <= i < |markers| ==> !IsStartMarker(markers[i])) && events == [] ==> r == 0
  {
    match First(markers, IsStartMarker)
    case Some(m) => m.start
    case None => if events != [] then MinStart(events) else 0
  }

  // ---------------------------------------------------------------------------
  // SummaryFigureBuilder._configure_layout, the y-axis category list

  /** `range(slot_to, slot_from - 1, -1)`: the slots from `slotTo` down to
      `slotFrom`. */
  function SlotCategories(slotFrom: int, slotTo: int): (r: seq<int>)
    ensures |r| == if slotFrom <= slotTo then slotTo - slotFrom + 1 else 0
    ensures forall x :: x in r <==> slotFrom <= x <= slotTo
    ensures forall i, j :: 0 <= i < j < |r| ==> r[i] > r[j]
    ensures r != [] ==> r[0] == slotTo && r[|r| - 1] == slotFrom
    decreases slotTo - slotFrom
  {
    if slotTo < slotFrom then []
    else [slotTo] + SlotCategories(slotFrom, slotTo - 1)
  }
}
