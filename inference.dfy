/** The post-parse inference pass of src/parser/parser_logs.py
    (`_infer_slot_events`, lines 167-223) as a function of the parser's maps:
    the events one slot contributes, and the causal chain
    collate -> notarize -> finalize that every event list it builds keeps. */
module Inference {
  import opened Wrappers
  import opened Models
  import opened Quorum
  import opened Seqs

  /** `collated`: slot key -> marker label -> the local event recorded for it. */
  type Collated = map<SlotKey, map<string, Event>>

  /** `votes`: slot key -> vote kind -> the votes logged for it. */
  type Ledger = map<SlotKey, map<string, seq<Vote>>>

  /** Start and finish times of a slot's collation, when both markers were recorded. */
  function CollationSpan(collated: Collated, k: SlotKey): Option<(int, int)>
  {
    if k in collated && "collate_started" in collated[k] && "collate_finished" in collated[k]
    then Some((collated[k]["collate_started"].start, collated[k]["collate_finished"].start))
    else None
  }

  /** The two events `_process_vote_threshold` appends on a crossing, in order:
      `{label}_reached` at the crossing and the `{label}` phase up to it. */
  function ThresholdEvents(s: Slot, name: string, phaseStart: int, crossing: Option<int>): (r: seq<Event>)
    ensures forall e :: e in r ==> KeyOfEvent(e) == KeyOfSlot(s) && e.kind != "local"
  {
    if crossing.None? then []
    else [Event(s.group, s.slot, name + "_reached", "reached", crossing.value, None, None),
          Event(s.group, s.slot, name, "phase", phaseStart, Some(crossing.value), None)]
  }

  predicate IsPhase(e: Event, name: string)
  {
    e.kind == "phase" && e.name == name
  }

  ghost predicate HasPhase(es: seq<Event>, name: string)
  {
    exists e :: e in es && IsPhase(e, name)
  }

  /** Votes of one kind logged for one slot, or None when there are none. */
  function VotesOf(votes: Ledger, k: SlotKey, kind: string): Option<seq<Vote>>
  {
    if k in votes && kind in votes[k] then Some(votes[k][kind]) else None
  }

  /** The votes of `kind` for `k` exist and together reach the threshold. */
  ghost predicate QuorumReached(votes: Ledger, k: SlotKey, kind: string, total: nat)
  {
    VotesOf(votes, k, kind).Some?
    && TotalWeight(VotesOf(votes, k, kind).value) >= WeightThreshold(total)
  }

  /** The `slot_start_est` marker at the slot's start estimate. */
  function EstimateEvent(s: Slot): Event
  {
    Event(s.group, s.slot, "slot_start_est", "estimate", s.startEstimate, None, None)
  }

  /** The `collate` phase, present when both collation markers were recorded. */
  function CollateEvents(s: Slot, collated: Collated): (r: seq<Event>)
    ensures forall e :: e in r ==> KeyOfEvent(e) == KeyOfSlot(s) && e.kind != "local"
  {
    match CollationSpan(collated, KeyOfSlot(s))
    case None => []
    case Some(span) => [Event(s.group, s.slot, "collate", "phase", span.0, Some(span.1), None)]
  }

  /** The notarize crossing, evaluated only when collation finished. */
  function NotarizeCrossing(s: Slot, collated: Collated, votes: Ledger, total: nat): Option<int>
  {
    var k := KeyOfSlot(s);
    if VotesOf(votes, k, "NotarizeVote").Some? && CollationSpan(collated, k).Some?
    then CrossingTime(VotesOf(votes, k, "NotarizeVote").value, WeightThreshold(total))
    else None
  }

  function NotarizeEvents(s: Slot, collated: Collated, votes: Ledger, total: nat): (r: seq<Event>)
    ensures forall e :: e in r ==> KeyOfEvent(e) == KeyOfSlot(s) && e.kind != "local"
  {
    match CollationSpan(collated, KeyOfSlot(s))
    case None => []
    case Some(span) => ThresholdEvents(s, "notarize", span.1, NotarizeCrossing(s, collated, votes, total))
  }

  /** The finalize crossing, evaluated only when notarize crossed. */
  function FinalizeCrossing(s: Slot, collated: Collated, votes: Ledger, total: nat): Option<int>
  {
    var k := KeyOfSlot(s);
    if VotesOf(votes, k, "FinalizeVote").Some? && NotarizeCrossing(s, collated, votes, total).Some?
    then CrossingTime(VotesOf(votes, k, "FinalizeVote").value, WeightThreshold(total))
    else None
  }

  function FinalizeEvents(s: Slot, collated: Collated, votes: Ledger, total: nat): (r: seq<Event>)
    ensures forall e :: e in r ==> KeyOfEvent(e) == KeyOfSlot(s) && e.kind != "local"
  {
    match NotarizeCrossing(s, collated, votes, total)
    case None => []
    case Some(t) => ThresholdEvents(s, "finalize", t, FinalizeCrossing(s, collated, votes, total))
  }

  /** The events the inference pass appends for slot `s` of a committee whose
      total weight is `total`, in emission order. */
  function SlotEvents(s: Slot, collated: Collated, votes: Ledger, total: nat): (es: seq<Event>)
    ensures |es| >= 1 && es[0] == EstimateEvent(s)
    ensures forall e :: e in es ==> KeyOfEvent(e) == KeyOfSlot(s) && e.kind != "local"
  {
    var col, nev, fev := CollateEvents(s, collated), NotarizeEvents(s, collated, votes, total),
                         FinalizeEvents(s, collated, votes, total);
    assert forall e :: e in [EstimateEvent(s)] + col + nev + fev <==> e == EstimateEvent(s) || e in col || e in nev || e in fev;
    [EstimateEvent(s)] + col + nev + fev
  }

  lemma HasPhaseAppend(a: seq<Event>, b: seq<Event>, name: string)
    ensures HasPhase(a + b, name) <==> HasPhase(a, name) || HasPhase(b, name)
  {
    if HasPhase(a + b, name) {
      var e :| e in a + b && IsPhase(e, name);
      assert e in a || e in b;
    }
    if HasPhase(a, name) {
      var e :| e in a && IsPhase(e, name);
      assert e in a + b;
    }
    if HasPhase(b, name) {
      var e :| e in b && IsPhase(e, name);
      assert e in a + b;
    }
  }

  lemma ThresholdPhases(s: Slot, vote: string, phaseStart: int, crossing: Option<int>, name: string)
    ensures HasPhase(ThresholdEvents(s, vote, phaseStart, crossing), name) <==> crossing.Some? && vote == name
  {
    var es := ThresholdEvents(s, vote, phaseStart, crossing);
    if crossing.Some? && vote == name {
      assert IsPhase(es[1], name);
    }
  }

  lemma CrossingFacts(votes: Ledger, k: SlotKey, kind: string, total: nat)
    ensures VotesOf(votes, k, kind).Some? ==>
              (CrossingTime(VotesOf(votes, k, kind).value, WeightThreshold(total)).Some?
               <==> QuorumReached(votes, k, kind, total))
  {
    if VotesOf(votes, k, kind).Some? {
      CrossingTimeIsEarliestQuorum(VotesOf(votes, k, kind).value, WeightThreshold(total));
    }
  }

  lemma SlotEventsPhases(s: Slot, collated: Collated, votes: Ledger, total: nat, name: string)
    ensures HasPhase(SlotEvents(s, collated, votes, total), name) <==>
              || HasPhase(CollateEvents(s, collated), name)
              || HasPhase(NotarizeEvents(s, collated, votes, total), name)
              || HasPhase(FinalizeEvents(s, collated, votes, total), name)
  {
    var est, col := [EstimateEvent(s)], CollateEvents(s, collated);
    var nev, fev := NotarizeEvents(s, collated, votes, total), FinalizeEvents(s, collated, votes, total);
    HasPhaseAppend(est, col, name);
    HasPhaseAppend(est + col, nev, name);
    HasPhaseAppend(est + col + nev, fev, name);
    assert !HasPhase(est, name);
  }

  lemma CollatePhases(s: Slot, collated: Collated, name: string)
    ensures HasPhase(CollateEvents(s, collated), name) <==>
              CollationSpan(collated, KeyOfSlot(s)).Some? && name == "collate"
  {
    var col := CollateEvents(s, collated);
    if CollationSpan(collated, KeyOfSlot(s)).Some? && name == "collate" {
      assert IsPhase(col[0], name);
    }
  }

  lemma NotarizePhases(s: Slot, collated: Collated, votes: Ledger, total: nat, name: string)
    ensures HasPhase(NotarizeEvents(s, collated, votes, total), name) <==>
              NotarizeCrossing(s, collated, votes, total).Some? && name == "notarize"
  {
    match CollationSpan(collated, KeyOfSlot(s)) {
      case None =>
      case Some(span) => ThresholdPhases(s, "notarize", span.1, NotarizeCrossing(s, collated, votes, total), name);
    }
  }

  lemma FinalizePhases(s: Slot, collated: Collated, votes: Ledger, total: nat, name: string)
    ensures HasPhase(FinalizeEvents(s, collated, votes, total), name) <==>
              FinalizeCrossing(s, collated, votes, total).Some? && name == "finalize"
  {
    match NotarizeCrossing(s, collated, votes, total) {
      case None =>
      case Some(t) => ThresholdPhases(s, "finalize", t, FinalizeCrossing(s, collated, votes, total), name);
    }
  }

  /** Which phases one slot gets: a collate phase exactly when both collation
      markers exist; a notarize phase exactly when, in addition, the notarize
      votes reach quorum; a finalize phase exactly when there is a notarize phase
      and the finalize votes reach quorum. */
  lemma {:induction false} SlotPhasesGated(s: Slot, collated: Collated, votes: Ledger, total: nat)
    ensures var es := SlotEvents(s, collated, votes, total);
            && (HasPhase(es, "collate") <==> CollationSpan(collated, KeyOfSlot(s)).Some?)
            && (HasPhase(es, "notarize") <==>
                  CollationSpan(collated, KeyOfSlot(s)).Some? && QuorumReached(votes, KeyOfSlot(s), "NotarizeVote", total))
            && (HasPhase(es, "finalize") <==>
                  HasPhase(es, "notarize") && QuorumReached(votes, KeyOfSlot(s), "FinalizeVote", total))
  {
    var k := KeyOfSlot(s);
    CrossingFacts(votes, k, "NotarizeVote", total);
    CrossingFacts(votes, k, "FinalizeVote", total);
    SlotEventsPhases(s, collated, votes, total, "collate");
    SlotEventsPhases(s, collated, votes, total, "notarize");
    SlotEventsPhases(s, collated, votes, total, "finalize");
    CollatePhases(s, collated, "collate");
    CollatePhases(s, collated, "notarize");
    CollatePhases(s, collated, "finalize");
    NotarizePhases(s, collated, votes, total, "collate");
    NotarizePhases(s, collated, votes, total, "notarize");
    NotarizePhases(s, collated, votes, total, "finalize");
    FinalizePhases(s, collated, votes, total, "collate");
    FinalizePhases(s, collated, votes, total, "notarize");
    FinalizePhases(s, collated, votes, total, "finalize");
  }

  /** The phases of one slot line up: notarize starts where collate ends, and
      finalize starts at the notarize crossing, where the notarize phase ends. */
  lemma {:induction false} SlotPhasesAbut(s: Slot, collated: Collated, votes: Ledger, total: nat)
    ensures var es := SlotEvents(s, collated, votes, total);
            && (forall c, n :: c in es && n in es && IsPhase(c, "collate") && IsPhase(n, "notarize") ==>
                  c.end == Some(n.start))
            && (forall n, f :: n in es && f in es && IsPhase(n, "notarize") && IsPhase(f, "finalize") ==>
                  n.end == Some(f.start))
  {
    CollateAbutsNotarize(s, collated, votes, total);
    NotarizeAbutsFinalize(s, collated, votes, total);
  }

  lemma CollateAbutsNotarize(s: Slot, collated: Collated, votes: Ledger, total: nat)
    ensures var es := SlotEvents(s, collated, votes, total);
            forall c, n :: c in es && n in es && IsPhase(c, "collate") && IsPhase(n, "notarize") ==>
              c.end == Some(n.start)
  {
    var est, col := [EstimateEvent(s)], CollateEvents(s, collated);
    var nev, fev := NotarizeEvents(s, collated, votes, total), FinalizeEvents(s, collated, votes, total);
    var es := SlotEvents(s, collated, votes, total);
    assert es == est + col + nev + fev;
    forall e | e in es && IsPhase(e, "collate") ensures e in col {
      assert e !in nev && e !in fev;
    }
    forall e | e in es && IsPhase(e, "notarize") ensures e in nev && e == nev[1] {
      assert "notarize" != "finalize" by { assert "notarize"[0] != "finalize"[0]; }
      assert e !in fev;
    }
  }

  lemma NotarizeAbutsFinalize(s: Slot, collated: Collated, votes: Ledger, total: nat)
    ensures var es := SlotEvents(s, collated, votes, total);
            forall n, f :: n in es && f in es && IsPhase(n, "notarize") && IsPhase(f, "finalize") ==>
              n.end == Some(f.start)
  {
    var est, col := [EstimateEvent(s)], CollateEvents(s, collated);
    var nev, fev := NotarizeEvents(s, collated, votes, total), FinalizeEvents(s, collated, votes, total);
    var es := SlotEvents(s, collated, votes, total);
    assert es == est + col + nev + fev;
    assert "notarize" != "finalize" by { assert "notarize"[0] != "finalize"[0]; }
    forall e | e in es && IsPhase(e, "notarize") ensures e in nev && e == nev[1] {
      assert e !in fev;
    }
    forall e | e in es && IsPhase(e, "finalize") ensures e in fev && e == fev[1] {
    }
  }

  /** The committee/slot keys of the events with the given label and kind. */
  function KeysOf(es: seq<Event>, name: string, kind: string): set<SlotKey>
    decreases |es|
  {
    if es == [] then {}
    else
      var e := es[|es| - 1];
      KeysOf(es[..|es| - 1], name, kind) + (if e.name == name && e.kind == kind then {KeyOfEvent(e)} else {})
  }

  /** A key is in `KeysOf` exactly when some event with that label and kind
      carries it. */
  lemma {:induction false} KeysOfMembers(es: seq<Event>, name: string, kind: string, k: SlotKey)
    ensures k in KeysOf(es, name, kind) <==>
            exists i :: 0 <= i < |es| && es[i].name == name && es[i].kind == kind && KeyOfEvent(es[i]) == k
    decreases |es|
  {
    if es != [] {
      var n := |es| - 1;
      KeysOfMembers(es[..n], name, kind, k);
      if exists i :: 0 <= i < |es| && es[i].name == name && es[i].kind == kind && KeyOfEvent(es[i]) == k {
        var i :| 0 <= i < |es| && es[i].name == name && es[i].kind == kind && KeyOfEvent(es[i]) == k;
        if i < n {
          assert es[..n][i] == es[i];
        }
      }
      if k in KeysOf(es[..n], name, kind) {
        var i :| 0 <= i < n && es[..n][i].name == name && es[..n][i].kind == kind && KeyOfEvent(es[..n][i]) == k;
        assert es[i] == es[..n][i];
      }
    }
  }

  lemma {:induction false} KeysOfAppend(a: seq<Event>, b: seq<Event>, name: string, kind: string)
    ensures KeysOf(a + b, name, kind) == KeysOf(a, name, kind) + KeysOf(b, name, kind)
    decreases |b|
  {
    if b == [] {
      assert a + b == a;
    } else {
      var n := |b| - 1;
      KeysOfAppend(a, b[..n], name, kind);
      assert (a + b)[..|a + b| - 1] == a + b[..n];
    }
  }

  /** The causal chain over a whole event list: a finalize phase only for a slot
      with a notarize phase, and a notarize or collate phase only for a slot whose
      collate_started and collate_finished local events are both in the list. */
  ghost predicate ChainHolds(es: seq<Event>)
  {
    && KeysOf(es, "finalize", "phase") <= KeysOf(es, "notarize", "phase")
    && KeysOf(es, "notarize", "phase") <= MarkedKeys(es)
    && KeysOf(es, "collate", "phase") <= MarkedKeys(es)
  }

  /** The keys with both a collate_started and a collate_finished local event. */
  function MarkedKeys(es: seq<Event>): set<SlotKey>
  {
    KeysOf(es, "collate_started", "local") * KeysOf(es, "collate_finished", "local")
  }

  /** Every marker kept in `collated` was appended to `es` as a local event. */
  ghost predicate CollatedRecorded(collated: Collated, es: seq<Event>)
  {
    forall k, name :: k in collated && name in collated[k] ==> k in KeysOf(es, name, "local")
  }

  /** When every event of `es` belongs to slot `k`, the keys of a label are {k} or {}. */
  lemma KeysOfOneSlot(es: seq<Event>, k: SlotKey, name: string, kind: string)
    requires forall e :: e in es ==> KeyOfEvent(e) == k
    ensures KeysOf(es, name, kind) <= {k}
    ensures kind == "phase" && HasPhase(es, name) ==> KeysOf(es, name, kind) == {k}
    ensures kind == "phase" && !HasPhase(es, name) ==> KeysOf(es, name, kind) == {}
  {
    forall k' | k' in KeysOf(es, name, kind) ensures k' == k && (kind == "phase" ==> HasPhase(es, name)) {
      KeysOfMembers(es, name, kind, k');
      var i :| 0 <= i < |es| && es[i].name == name && es[i].kind == kind && KeyOfEvent(es[i]) == k';
      assert es[i] in es;
    }
    if kind == "phase" && HasPhase(es, name) {
      KeysOfMembers(es, name, kind, k);
      var e :| e in es && IsPhase(e, name);
      var i :| 0 <= i < |es| && es[i] == e;
    }
  }

  /** Appending events never loses a recorded marker. */
  lemma RecordedAppend(collated: Collated, es: seq<Event>, se: seq<Event>)
    requires CollatedRecorded(collated, es)
    ensures CollatedRecorded(collated, es + se)
  {
    forall k, name | k in collated && name in collated[k] ensures k in KeysOf(es + se, name, "local") {
      KeysOfAppend(es, se, name, "local");
    }
  }

  /** Appending events of one slot `k` keeps the causal chain when their
      phases are themselves gated: a collate or notarize phase only if `k`
      already has both collation markers, a finalize phase only beside a
      notarize phase. */
  lemma ChainAppendSlot(es: seq<Event>, se: seq<Event>, k: SlotKey, collated: Collated)
    requires ChainHolds(es) && CollatedRecorded(collated, es)
    requires forall e :: e in se ==> KeyOfEvent(e) == k
    requires HasPhase(se, "collate") || HasPhase(se, "notarize") ==>
               k in MarkedKeys(es)
    requires HasPhase(se, "finalize") ==> HasPhase(se, "notarize")
    ensures ChainHolds(es + se) && CollatedRecorded(collated, es + se)
  {
    RecordedAppend(collated, es, se);
    MarkedKeysAppend(es, se);
    GatedAppend(es, se, k, "collate");
    GatedAppend(es, se, k, "notarize");
    FinalizeGatedAppend(es, se, k);
  }

  lemma MarkedKeysAppend(es: seq<Event>, se: seq<Event>)
    ensures MarkedKeys(es) <= MarkedKeys(es + se)
  {
    KeysOfAppend(es, se, "collate_started", "local");
    KeysOfAppend(es, se, "collate_finished", "local");
  }

  /** A phase of slot `k` appended after both of its markers keeps that phase gated. */
  lemma GatedAppend(es: seq<Event>, se: seq<Event>, k: SlotKey, name: string)
    requires forall e :: e in se ==> KeyOfEvent(e) == k
    requires KeysOf(es, name, "phase") <= MarkedKeys(es) && MarkedKeys(es) <= MarkedKeys(es + se)
    requires HasPhase(se, name) ==> k in MarkedKeys(es)
    ensures KeysOf(es + se, name, "phase") <= MarkedKeys(es + se)
  {
    KeysOfAppend(es, se, name, "phase");
    KeysOfOneSlot(se, k, name, "phase");
  }

  /** A finalize phase of slot `k` appended beside its notarize phase keeps finalize gated. */
  lemma FinalizeGatedAppend(es: seq<Event>, se: seq<Event>, k: SlotKey)
    requires forall e :: e in se ==> KeyOfEvent(e) == k
    requires KeysOf(es, "finalize", "phase") <= KeysOf(es, "notarize", "phase")
    requires HasPhase(se, "finalize") ==> HasPhase(se, "notarize")
    ensures KeysOf(es + se, "finalize", "phase") <= KeysOf(es + se, "notarize", "phase")
  {
    KeysOfAppend(es, se, "finalize", "phase");
    KeysOfAppend(es, se, "notarize", "phase");
    KeysOfOneSlot(se, k, "finalize", "phase");
    KeysOfOneSlot(se, k, "notarize", "phase");
  }

  /** Appending the events of one slot keeps the causal chain. */
  lemma SlotEventsKeepChain(es: seq<Event>, s: Slot, collated: Collated, votes: Ledger, total: nat)
    requires ChainHolds(es) && CollatedRecorded(collated, es)
    ensures ChainHolds(es + SlotEvents(s, collated, votes, total))
    ensures CollatedRecorded(collated, es + SlotEvents(s, collated, votes, total))
  {
    var k := KeyOfSlot(s);
    SlotPhasesGated(s, collated, votes, total);
    if CollationSpan(collated, k).Some? {
      assert "collate_started" in collated[k] && "collate_finished" in collated[k];
    }
    ChainAppendSlot(es, SlotEvents(s, collated, votes, total), k, collated);
  }

  /** Appending an observation (an event that is not a phase) keeps the chain
      and adds at most its own key. */
  lemma AppendObservation(es: seq<Event>, e: Event)
    requires e.kind != "phase"
    ensures forall name, kind :: KeysOf(es, name, kind) <= KeysOf(es + [e], name, kind)
    ensures KeyOfEvent(e) in KeysOf(es + [e], e.name, e.kind)
    ensures ChainHolds(es) ==> ChainHolds(es + [e])
    ensures forall c :: CollatedRecorded(c, es) ==> CollatedRecorded(c, es + [e])
  {
    var es' := es + [e];
    assert es'[..|es|] == es;
    assert forall name, kind :: KeysOf(es', name, kind)
             == KeysOf(es, name, kind) + (if e.name == name && e.kind == kind then {KeyOfEvent(e)} else {});
    assert forall name :: KeysOf(es', name, "phase") == KeysOf(es, name, "phase");
  }

  /** The events the inference pass appends for the slots in `order`, in order. */
  function InferAll(order: seq<SlotKey>, slots: map<SlotKey, Slot>, collated: Collated, votes: Ledger,
                    totalWeights: map<string, nat>): seq<Event>
    requires forall i :: 0 <= i < |order| ==> order[i] in slots && order[i].0 in totalWeights
  {
    if order == [] then []
    else
      var k := order[|order| - 1];
      InferAll(order[..|order| - 1], slots, collated, votes, totalWeights)
        + SlotEvents(slots[k], collated, votes, totalWeights[k.0])
  }

  lemma InferAllStep(order: seq<SlotKey>, i: nat, slots: map<SlotKey, Slot>, collated: Collated, votes: Ledger,
                     totalWeights: map<string, nat>)
    requires i < |order|
    requires forall j :: 0 <= j < |order| ==> order[j] in slots && order[j].0 in totalWeights
    ensures InferAll(order[..i + 1], slots, collated, votes, totalWeights)
            == InferAll(order[..i], slots, collated, votes, totalWeights)
               + SlotEvents(slots[order[i]], collated, votes, totalWeights[order[i].0])
  {
    assert order[..i + 1][..i] == order[..i];
  }

  /** One more slot of the inference pass keeps the causal chain. */
  lemma InferAllChainStep(es: seq<Event>, order: seq<SlotKey>, slots: map<SlotKey, Slot>, collated: Collated,
                          votes: Ledger, totalWeights: map<string, nat>)
    requires order != []
    requires forall j :: 0 <= j < |order| ==> order[j] in slots && order[j].0 in totalWeights
    requires var prefix := es + InferAll(order[..|order| - 1], slots, collated, votes, totalWeights);
             ChainHolds(prefix) && CollatedRecorded(collated, prefix)
    ensures ChainHolds(es + InferAll(order, slots, collated, votes, totalWeights))
    ensures CollatedRecorded(collated, es + InferAll(order, slots, collated, votes, totalWeights))
  {
    var n := |order| - 1;
    var k := order[n];
    var init := InferAll(order[..n], slots, collated, votes, totalWeights);
    var last := SlotEvents(slots[k], collated, votes, totalWeights[k.0]);
    SlotEventsKeepChain(es + init, slots[k], collated, votes, totalWeights[k.0]);
    InferAllStep(order, n, slots, collated, votes, totalWeights);
    assert order[..n + 1] == order;
    AppendAssoc(es, init, last);
  }

  /** The whole inference pass keeps the causal chain and leaves every kept
      marker recorded. */
  lemma {:induction false} InferAllKeepsChain(es: seq<Event>, order: seq<SlotKey>, slots: map<SlotKey, Slot>,
                                              collated: Collated, votes: Ledger, totalWeights: map<string, nat>)
    requires forall j :: 0 <= j < |order| ==> order[j] in slots && order[j].0 in totalWeights
    requires ChainHolds(es) && CollatedRecorded(collated, es)
    ensures ChainHolds(es + InferAll(order, slots, collated, votes, totalWeights))
    ensures CollatedRecorded(collated, es + InferAll(order, slots, collated, votes, totalWeights))
    decreases |order|
  {
    if order == [] {
      assert es + InferAll(order, slots, collated, votes, totalWeights) == es;
    } else {
      InferAllKeepsChain(es, order[..|order| - 1], slots, collated, votes, totalWeights);
      InferAllChainStep(es, order, slots, collated, votes, totalWeights);
    }
  }
}
