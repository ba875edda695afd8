/** A validator log line after tokenising: the regular-expression matching of
    src/parser/parser_logs.py is replaced by the fields it would capture. */
module LogLines {
  import opened Wrappers

  /** `valgroup(<name>).<index>`, as captured by `valgroup\(([^)]+)\)\.(\d+)`. */
  datatype ValgroupToken = ValgroupToken(name: string, index: string)

  predicate IsDigit(c: char) { '0' <= c <= '9' }

  /** What the committee-id pattern can capture: a non-empty name without ')'
      and a non-empty run of decimal digits. */
  predicate WellFormedToken(tok: ValgroupToken)
  {
    && |tok.name| > 0
    && ')' !in tok.name
    && |tok.index| > 0
    && forall i :: 0 <= i < |tok.index| ==> IsDigit(tok.index[i])
  }

  /** `f"{name}.{index}"`. */
  function CommitteeId(tok: ValgroupToken): string
  {
    tok.name + "." + tok.index
  }

  /** Position of the last '.' in `s`. */
  function LastDot(s: string): (r: Option<nat>)
    ensures r.Some? ==> r.value < |s| && s[r.value] == '.'
                        && forall j :: r.value < j < |s| ==> s[j] != '.'
    ensures r.None? ==> forall j :: 0 <= j < |s| ==> s[j] != '.'
  {
    if s == [] then None
    else if s[|s| - 1] == '.' then Some(|s| - 1)
    else LastDot(s[..|s| - 1])
  }

  /** Splits a committee id back into name and index at its last '.'. */
  function SplitCommitteeId(id: string): Option<ValgroupToken>
  {
    match LastDot(id)
    case None => None
    case Some(i) => Some(ValgroupToken(id[..i], id[i + 1..]))
  }

  /** `_extract_valgroup`: the committee id of the line, or None when the line
      carries no committee token. The id determines the token it came from. */
  function ExtractValgroup(tok: Option<ValgroupToken>): (r: Option<string>)
    ensures tok.None? ==> r.None?
    ensures tok.Some? && WellFormedToken(tok.value) ==> r.Some? && SplitCommitteeId(r.value) == tok
  {
    match tok
    case None => None
    case Some(t) =>
      if WellFormedToken(t) then
        SplitCommitteeIdRoundTrip(t);
        Some(CommitteeId(t))
      else
        Some(CommitteeId(t))
  }

  lemma SplitCommitteeIdRoundTrip(tok: ValgroupToken)
    requires WellFormedToken(tok)
    ensures SplitCommitteeId(CommitteeId(tok)) == Some(tok)
  {
    var id := CommitteeId(tok);
    var i := |tok.name|;
    assert id[i] == '.';
    forall j | i < j < |id| ensures id[j] != '.' {
      assert id[j] == tok.index[j - i - 1];
    }
    assert LastDot(id) == Some(i);
    assert id[..i] == tok.name;
    assert id[i + 1..] == tok.index;
  }

  /** Two well-formed committee tokens never produce the same committee id. */
  lemma CommitteeIdInjective(a: ValgroupToken, b: ValgroupToken)
    requires WellFormedToken(a) && WellFormedToken(b)
    requires CommitteeId(a) == CommitteeId(b)
    ensures a == b
  {
    SplitCommitteeIdRoundTrip(a);
    SplitCommitteeIdRoundTrip(b);
  }

  /** `TARGET_TO_LABEL`: the canonical event label of each stats target. */
  const TargetToLabel: map<string, string> := map[
    "CandidateReceived" := "candidate_received",
    "CollateStarted" := "collate_started",
    "CollateFinished" := "collate_finished",
    "ValidateStarted" := "validate_started",
    "ValidateFinished" := "validate_finished",
    "NotarObserved" := "notarize_observed",
    "FinalObserved" := "finalize_observed"
  ]

  /** The word after `target=`: one of the seven targets with a label, or
      any other word. */
  datatype Target =
    | CandidateReceived | CollateStarted | CollateFinished | ValidateStarted
    | ValidateFinished | NotarObserved | FinalObserved
    | OtherTarget(word: string)

  /** The word in the log line that names the target. */
  function TargetName(t: Target): string
  {
    match t
    case CandidateReceived => "CandidateReceived"
    case CollateStarted => "CollateStarted"
    case CollateFinished => "CollateFinished"
    case ValidateStarted => "ValidateStarted"
    case ValidateFinished => "ValidateFinished"
    case NotarObserved => "NotarObserved"
    case FinalObserved => "FinalObserved"
    case OtherTarget(w) => w
  }

  /** Reads the captured word; the name of the result is the word itself. */
  function ParseTarget(word: string): (t: Target)
    ensures TargetName(t) == word
    ensures t.OtherTarget? <==> word !in TargetToLabel
  {
    if word == "CandidateReceived" then CandidateReceived
    else if word == "CollateStarted" then CollateStarted
    else if word == "CollateFinished" then CollateFinished
    else if word == "ValidateStarted" then ValidateStarted
    else if word == "ValidateFinished" then ValidateFinished
    else if word == "NotarObserved" then NotarObserved
    else if word == "FinalObserved" then FinalObserved
    else OtherTarget(word)
  }

  /** A target as `ParseTarget` produces it: a word outside the table. */
  predicate CanonicalTarget(t: Target)
  {
    t.OtherTarget? ==> t.word !in TargetToLabel
  }

  lemma ParseTargetName(t: Target)
    requires CanonicalTarget(t)
    ensures ParseTarget(TargetName(t)) == t
  {
  }

  /** The label `TARGET_TO_LABEL` gives a target, or None for a word outside it. */
  function TargetLabel(t: Target): Option<string>
  {
    match t
    case CandidateReceived => Some("candidate_received")
    case CollateStarted => Some("collate_started")
    case CollateFinished => Some("collate_finished")
    case ValidateStarted => Some("validate_started")
    case ValidateFinished => Some("validate_finished")
    case NotarObserved => Some("notarize_observed")
    case FinalObserved => Some("finalize_observed")
    case OtherTarget(_) => None
  }

  /** Looking a word up in `TARGET_TO_LABEL` and labelling its parsed target
      agree. */
  lemma TargetLabelIsTable(word: string)
    ensures TargetLabel(ParseTarget(word)) == MapGet(TargetToLabel, word)
  {
  }

  /** The three registration fields of a "We are validator" line; a field the
      line lacks is None. */
  datatype IdentityFields = IdentityFields(validator: Option<nat>, weight: Option<nat>, total: Option<nat>)

  /** `target=<word>, slot=<int>, timestamp=<float>` (the timestamp is unused). */
  datatype TargetStats = TargetStats(target: Target, slot: nat)

  /** The sub-cases of a "Published event" line. */
  datatype Published =
    | BroadcastVote(voteSlot: Option<nat>, vote: Option<string>)       // BroadcastVote, not SkipVote
    | LeaderWindowStarted(startSlot: Option<nat>, endSlot: Option<nat>) // OurLeaderWindowStarted
    | OtherPublished

  /** The category a line is dispatched to, in the source's order of tests:
      "StatsTargetReached", then "Obtained certificate for SkipVote", then
      "Published event". A target-reached line whose pattern does not match
      carries None and is ignored; a missing field of the other categories is None. */
  datatype Payload =
    | StatsTargetReached(stats: Option<TargetStats>)
    | SkipCertificate(skipSlot: Option<nat>)
    | PublishedEvent(published: Published)
    | Unrecognised

  /** One log line: its timestamp (microseconds), committee token, registration
      fields when it contains "We are validator", and its category. */
  datatype LogLine = LogLine(
    time: Option<int>,
    valgroup: Option<ValgroupToken>,
    identity: Option<IdentityFields>,
    payload: Payload)
}
