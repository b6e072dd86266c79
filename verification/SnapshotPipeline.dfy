/** From source records to a snapshot: validation, qualification of the reference model, labelling, and the build. */
module SnapshotPipeline {
  import opened Wrappers
  import opened Domain
  import opened Snapshot
  import opened SnapshotProperties
  import opened SnapshotConservation
  import opened Sequences
  import opened Counting
  import opened Costs

  /** The target's validators and its judgement of an output against a reference. */
  datatype Target = Target(validateInput: Payload -> Option<Payload>, validateOutput: Payload -> Option<Payload>, isCorrect: (Payload, Payload) -> bool)

  datatype CallResult =
    | Answered(output: Payload, source: Option<ReferenceSource>, cost: Cost)
    | Failed(validationFailure: bool, cost: Cost)
    | BrokerExhausted

  /** The reference model's answer to an input, by the number of calls made before. */
  type Broker = (Payload, nat) -> CallResult

  datatype QualificationOptions = QualificationOptions(
    maxParseFailureRate: real,
    maxSchemaFailureRate: real,
    minAgreementRate: real,
    minGoldSamples: int)

  datatype Budget = Budget(maxCalls: Option<int>, maxCost: Option<real>)

  datatype PipelineOptions = PipelineOptions(qualification: QualificationOptions, allowInsufficient: bool, budget: Budget, build: Options)

  datatype Status = Qualified | Unqualified | TooLittle

  datatype PipelineError =
    | InvalidSourceRecord(recordId: string)
    | ReferenceBudgetExhausted
    | NotQualified(status: Status)
    | CallBudgetExhausted
    | CostBudgetExhausted
    | LabellingFailed(recordIds: seq<string>)
    | BuildFailed(error: Error)

  // ---------------------------------------------------------------------------
  // Validation
  // ---------------------------------------------------------------------------

  predicate ValidRecord(t: Target, r: SourceRecord) {
    && t.validateInput(r.input).Some?
    && (r.referenceOutput.Some? ==> t.validateOutput(r.referenceOutput.value).Some?)
    && (r.referenceSource.Some? ==> !r.referenceSource.value.UnknownSource?)
    && KnownEligibility(r.eligibility)
  }

  function ValidatedRecord(t: Target, r: SourceRecord): SourceRecord
    requires ValidRecord(t, r)
  {
    r.(input := t.validateInput(r.input).value,
       referenceOutput := if r.referenceOutput.Some? then t.validateOutput(r.referenceOutput.value) else None)
  }

  function Validated(t: Target, records: seq<SourceRecord>): Result<seq<SourceRecord>, PipelineError>
    decreases |records|
  {
    if |records| == 0 then Ok([])
    else if !ValidRecord(t, records[0]) then Err(InvalidSourceRecord(records[0].recordId))
    else After([ValidatedRecord(t, records[0])], Validated(t, records[1..]))
  }

  method ValidateSourceRecords(t: Target, records: seq<SourceRecord>) returns (validated: Result<seq<SourceRecord>, PipelineError>)
    ensures validated == Validated(t, records)
  {
    var done: seq<SourceRecord> := [];
    assert records[0..] == records;
    AfterNothing(Validated(t, records));
    for i := 0 to |records|
      invariant Validated(t, records) == After(done, Validated(t, records[i..]))
    {
      assert records[i..][1..] == records[i + 1..];
      if !ValidRecord(t, records[i]) {
        return Err(InvalidSourceRecord(records[i].recordId));
      }
      var r := ValidatedRecord(t, records[i]);
      AfterOneMore(done, r, Validated(t, records[i + 1..]));
      done := done + [r];
    }
    NothingAfter(done, Validated(t, records[|records|..]));
    validated := Ok(done);
  }

  lemma {:induction false} ValidationIsExact(t: Target, records: seq<SourceRecord>)
    ensures Validated(t, records).Ok? <==> forall i | 0 <= i < |records| :: ValidRecord(t, records[i])
    ensures Validated(t, records).Ok? ==>
              var v := Validated(t, records).value;
              |v| == |records| && forall i | 0 <= i < |records| :: v[i] == ValidatedRecord(t, records[i])
    decreases |records|
  {
    if |records| > 0 {
      ValidationIsExact(t, records[1..]);
      assert forall i | 0 < i < |records| :: records[i] == records[1..][i - 1];
    }
  }

  // ---------------------------------------------------------------------------
  // Qualification
  // ---------------------------------------------------------------------------

  /** How the reference model did on the records that have a reference. */
  datatype Tally = Tally(samples: nat, gold: nat, agreed: nat, goldAgreed: nat, parseFailures: nat, schemaFailures: nat, cost: Cost)

  const NO_TALLY := Tally(0, 0, 0, 0, 0, 0, NOTHING)

  predicate GoldLike(r: SourceRecord) { r.referenceSource == Some(Gold) || r.referenceSource == Some(Human) }

  function Compared(t: Target, tally: Tally, r: SourceRecord, answer: CallResult): Tally
    requires r.referenceOutput.Some? && !answer.BrokerExhausted?
  {
    var gold := if GoldLike(r) then 1 else 0;
    var seen := tally.(samples := tally.samples + 1, gold := tally.gold + gold, cost := Plus(tally.cost, answer.cost));
    match answer
    case Failed(validationFailure, _) =>
      if validationFailure then seen.(schemaFailures := seen.schemaFailures + 1) else seen.(parseFailures := seen.parseFailures + 1)
    case Answered(output, _, _) =>
      if t.isCorrect(output, r.referenceOutput.value) then seen.(agreed := seen.agreed + 1, goldAgreed := seen.goldAgreed + gold) else seen
  }

  /** Nothing when the broker's own budget runs out. */
  function ComparedAll(t: Target, broker: Broker, tally: Tally, records: seq<SourceRecord>): Option<Tally>
    decreases |records|
  {
    if |records| == 0 then Some(tally)
    else if records[0].referenceOutput.None? then ComparedAll(t, broker, tally, records[1..])
    else
      var answer := broker(records[0].input, tally.samples);
      if answer.BrokerExhausted? then None else ComparedAll(t, broker, Compared(t, tally, records[0], answer), records[1..])
  }

  function Judgement(tally: Tally, o: QualificationOptions): Status {
    if tally.samples == 0 then TooLittle
    else if Ratio(tally.parseFailures, tally.samples) > o.maxParseFailureRate || Ratio(tally.schemaFailures, tally.samples) > o.maxSchemaFailureRate then Unqualified
    else if Ratio(tally.agreed, tally.samples) < o.minAgreementRate then Unqualified
    else if tally.gold < o.minGoldSamples then TooLittle
    else Qualified
  }

  method QualifyReferenceBaseline(t: Target, broker: Broker, o: QualificationOptions, records: seq<SourceRecord>)
    returns (tally: Option<Tally>, status: Status)
    ensures tally == ComparedAll(t, broker, NO_TALLY, records)
    ensures tally.Some? ==> status == Judgement(tally.value, o)
  {
    var counts := NO_TALLY;
    status := TooLittle;
    assert records[0..] == records;
    for i := 0 to |records|
      invariant ComparedAll(t, broker, counts, records[i..]) == ComparedAll(t, broker, NO_TALLY, records)
    {
      assert records[i..][1..] == records[i + 1..];
      var r := records[i];
      if r.referenceOutput.None? {
        continue;
      }
      var answer := broker(r.input, counts.samples);
      if answer.BrokerExhausted? {
        return None, status;
      }
      var gold := if GoldLike(r) then 1 else 0;
      counts := counts.(samples := counts.samples + 1, gold := counts.gold + gold, cost := Plus(counts.cost, answer.cost));
      if answer.Failed? {
        if answer.validationFailure {
          counts := counts.(schemaFailures := counts.schemaFailures + 1);
        } else {
          counts := counts.(parseFailures := counts.parseFailures + 1);
        }
        continue;
      }
      if t.isCorrect(answer.output, r.referenceOutput.value) {
        counts := counts.(agreed := counts.agreed + 1, goldAgreed := counts.goldAgreed + gold);
      }
    }
    tally, status := Some(counts), Judgement(counts, o);
  }

  function HasReference(r: SourceRecord): bool { r.referenceOutput.Some? }

  function GoldReference(r: SourceRecord): bool { r.referenceOutput.Some? && GoldLike(r) }

  /** Outcomes that are counted apart never exceed the samples, nor gold agreements the agreements or the gold. */
  predicate TallyOk(tally: Tally) {
    tally.agreed + tally.parseFailures + tally.schemaFailures <= tally.samples && tally.goldAgreed <= tally.agreed && tally.goldAgreed <= tally.gold
  }

  /** Every record with a reference is a sample, and the gold samples are those of gold or human origin. */
  lemma {:induction false} TallyCounts(t: Target, broker: Broker, tally: Tally, records: seq<SourceRecord>)
    requires TallyOk(tally)
    ensures var after := ComparedAll(t, broker, tally, records);
            after.Some? ==>
              && after.value.samples == tally.samples + Count(records, HasReference)
              && after.value.gold == tally.gold + Count(records, GoldReference)
              && TallyOk(after.value)
    decreases |records|
  {
    if |records| > 0 {
      CountFirst(records, HasReference);
      CountFirst(records, GoldReference);
      if records[0].referenceOutput.None? {
        TallyCounts(t, broker, tally, records[1..]);
      } else {
        var answer := broker(records[0].input, tally.samples);
        if !answer.BrokerExhausted? {
          TallyCounts(t, broker, Compared(t, tally, records[0], answer), records[1..]);
        }
      }
    }
  }

  // ---------------------------------------------------------------------------
  // Labelling
  // ---------------------------------------------------------------------------

  /** The records labelled so far, those that could not be, and what the calls cost; `offset` calls came before. */
  datatype Labels = Labels(output: seq<SourceRecord>, failures: seq<string>, calls: nat, cost: Cost)

  const NO_LABELS := Labels([], [], 0, NOTHING)

  function WithAnswer(s: Labels, r: SourceRecord, answer: CallResult): Labels
    requires !answer.BrokerExhausted?
  {
    var called := s.(calls := s.calls + 1, cost := Plus(s.cost, answer.cost));
    if answer.Answered? && answer.source.Some?
    then called.(output := s.output + [r.(referenceOutput := Some(answer.output), referenceSource := answer.source)])
    else called.(failures := s.failures + [r.recordId])
  }

  /** An undefined cost is over no budget. */
  predicate OverCost(budget: Budget, cost: Cost) { budget.maxCost.Some? && Greater(cost, Finite(budget.maxCost.value)) }

  function LabelledAll(broker: Broker, budget: Budget, offset: nat, s: Labels, records: seq<SourceRecord>): Result<Labels, PipelineError>
    decreases |records|
  {
    if |records| == 0 then Ok(s)
    else if records[0].referenceOutput.Some? then LabelledAll(broker, budget, offset, s.(output := s.output + [records[0]]), records[1..])
    else if budget.maxCalls.Some? && s.calls >= budget.maxCalls.value then Err(CallBudgetExhausted)
    else
      var answer := broker(records[0].input, offset + s.calls);
      if answer.BrokerExhausted? then Err(ReferenceBudgetExhausted)
      else
        var after := WithAnswer(s, records[0], answer);
        if OverCost(budget, after.cost) then Err(CostBudgetExhausted)
        else LabelledAll(broker, budget, offset, after, records[1..])
  }

  method ReferenceMissingOutputs(broker: Broker, budget: Budget, offset: nat, records: seq<SourceRecord>) returns (labels: Result<Labels, PipelineError>)
    ensures labels == LabelledAll(broker, budget, offset, NO_LABELS, records)
  {
    var s := NO_LABELS;
    assert records[0..] == records;
    for i := 0 to |records|
      invariant LabelledAll(broker, budget, offset, s, records[i..]) == LabelledAll(broker, budget, offset, NO_LABELS, records)
    {
      assert records[i..][1..] == records[i + 1..];
      var r := records[i];
      if r.referenceOutput.Some? {
        s := s.(output := s.output + [r]);
        continue;
      }
      if budget.maxCalls.Some? && s.calls >= budget.maxCalls.value {
        return Err(CallBudgetExhausted);
      }
      var answer := broker(r.input, offset + s.calls);
      if answer.BrokerExhausted? {
        return Err(ReferenceBudgetExhausted);
      }
      s := s.(calls := s.calls + 1, cost := Plus(s.cost, answer.cost));
      if OverCost(budget, s.cost) {
        return Err(CostBudgetExhausted);
      }
      if answer.Answered? && answer.source.Some? {
        s := s.(output := s.output + [r.(referenceOutput := Some(answer.output), referenceSource := answer.source)]);
      } else {
        s := s.(failures := s.failures + [r.recordId]);
      }
    }
    labels := Ok(s);
  }

  /** A label adds a reference, to a record without one, and changes nothing else. */
  ghost predicate LabelOf(r: SourceRecord, l: SourceRecord) {
    && l.referenceOutput.Some?
    && (if r.referenceOutput.Some? then l == r
        else l.referenceSource.Some? && l == r.(referenceOutput := l.referenceOutput, referenceSource := l.referenceSource))
  }

  ghost predicate LabelsOf(records: seq<SourceRecord>, labelled: seq<SourceRecord>) {
    |labelled| == |records| && forall i | 0 <= i < |records| :: LabelOf(records[i], labelled[i])
  }

  /** The calls so far are within the budget, and so is their cost, unless it is undefined. */
  predicate WithinBudget(budget: Budget, s: Labels) {
    && (budget.maxCalls.Some? ==> s.calls == 0 || s.calls <= budget.maxCalls.value)
    && (budget.maxCost.Some? ==> s.calls == 0 || s.cost.Undefined? || !Greater(s.cost, Finite(budget.maxCost.value)))
  }

  /** Labelling makes one call for each record without a reference, and stays within its budget. */
  lemma {:induction false} LabellingStaysInBudget(broker: Broker, budget: Budget, offset: nat, s: Labels, records: seq<SourceRecord>)
    requires WithinBudget(budget, s)
    ensures var labels := LabelledAll(broker, budget, offset, s, records);
            labels.Ok? ==>
              && WithinBudget(budget, labels.value) && s.failures <= labels.value.failures
              && labels.value.calls == s.calls + Count(records, (r: SourceRecord) => r.referenceOutput.None?)
    decreases |records|
  {
    if |records| > 0 && LabelledAll(broker, budget, offset, s, records).Ok? {
      CountFirst(records, (r: SourceRecord) => r.referenceOutput.None?);
      LabellingStaysInBudget(broker, budget, offset, AfterRecord(broker, offset, s, records[0]), records[1..]);
    }
  }

  /** One answer of undefined cost is enough: however much the later ones cost, labelling never stops for its cost. */
  lemma {:induction false} UndefinedCostEndsTheCostBudget(broker: Broker, budget: Budget, offset: nat, s: Labels, records: seq<SourceRecord>)
    requires s.cost.Undefined?
    ensures LabelledAll(broker, budget, offset, s, records) != Err(CostBudgetExhausted)
    ensures LabelledAll(broker, budget, offset, s, records).Ok? ==> LabelledAll(broker, budget, offset, s, records).value.cost.Undefined?
    decreases |records|
  {
    if |records| > 0 && records[0].referenceOutput.Some? {
      UndefinedCostEndsTheCostBudget(broker, budget, offset, s.(output := s.output + [records[0]]), records[1..]);
    } else if |records| > 0 && !broker(records[0].input, offset + s.calls).BrokerExhausted? {
      var answer := broker(records[0].input, offset + s.calls);
      UndefinedStays(s.cost, answer.cost);
      UndefinedCostEndsTheCostBudget(broker, budget, offset, WithAnswer(s, records[0], answer), records[1..]);
    }
  }

  lemma {:induction false} FailuresStay(broker: Broker, budget: Budget, offset: nat, s: Labels, records: seq<SourceRecord>)
    ensures var labels := LabelledAll(broker, budget, offset, s, records);
            labels.Ok? ==> s.failures <= labels.value.failures && s.output <= labels.value.output
    decreases |records|
  {
    if |records| > 0 && LabelledAll(broker, budget, offset, s, records).Ok? {
      FailuresStay(broker, budget, offset, AfterRecord(broker, offset, s, records[0]), records[1..]);
    }
  }

  /** Labelling that finishes without failures labels every record, in order. */
  lemma {:induction false} LabellingIsExact(broker: Broker, budget: Budget, offset: nat, s: Labels, records: seq<SourceRecord>)
    requires LabelledAll(broker, budget, offset, s, records).Ok? && LabelledAll(broker, budget, offset, s, records).value.failures == []
    ensures s.output <= LabelledAll(broker, budget, offset, s, records).value.output
    ensures LabelsOf(records, LabelledAll(broker, budget, offset, s, records).value.output[|s.output|..])
    decreases |records|
  {
    FailuresStay(broker, budget, offset, s, records);
    if |records| > 0 {
      var after := AfterRecord(broker, offset, s, records[0]);
      FailuresStay(broker, budget, offset, after, records[1..]);
      LabellingIsExact(broker, budget, offset, after, records[1..]);
      OneMoreLabel(records, LabelledAll(broker, budget, offset, s, records).value.output[|s.output|..]);
    }
  }

  lemma OneMoreLabel(records: seq<SourceRecord>, labelled: seq<SourceRecord>)
    requires records != [] && labelled != [] && LabelOf(records[0], labelled[0]) && LabelsOf(records[1..], labelled[1..])
    ensures LabelsOf(records, labelled)
  {
    forall i | 0 <= i < |records| ensures LabelOf(records[i], labelled[i]) {
      if i > 0 {
        assert LabelOf(records[1..][i - 1], labelled[1..][i - 1]);
      }
    }
  }

  function AfterRecord(broker: Broker, offset: nat, s: Labels, r: SourceRecord): Labels {
    if r.referenceOutput.Some? then s.(output := s.output + [r])
    else
      var answer := broker(r.input, offset + s.calls);
      if answer.BrokerExhausted? then s else WithAnswer(s, r, answer)
  }

  // ---------------------------------------------------------------------------
  // The whole build
  // ---------------------------------------------------------------------------

  function Prepared(t: Target, broker: Broker, o: PipelineOptions, sources: seq<SourceRecord>): Result<seq<SourceRecord>, PipelineError> {
    var validated := Validated(t, sources);
    if validated.Err? then validated
    else
      var tally := ComparedAll(t, broker, NO_TALLY, validated.value);
      if tally.None? then Err(ReferenceBudgetExhausted)
      else
        var status := Judgement(tally.value, o.qualification);
        if status == Unqualified || (status == TooLittle && !o.allowInsufficient) then Err(NotQualified(status))
        else
          var labels := LabelledAll(broker, o.budget, tally.value.samples, NO_LABELS, validated.value);
          if labels.Err? then Err(labels.error)
          else if labels.value.failures != [] then Err(LabellingFailed(labels.value.failures))
          else Ok(labels.value.output)
  }

  function BuiltFrom(t: Target, c: Contract, broker: Broker, o: PipelineOptions, rnd: Randomness, manifests: seq<Manifest>, newId: nat -> string,
                     sources: seq<SourceRecord>): Result<Build, PipelineError>
  {
    var labelled := Prepared(t, broker, o, sources);
    if labelled.Err? then Err(labelled.error)
    else
      var built := Built(c, labelled.value, o.build, rnd, manifests, newId);
      if built.Err? then Err(BuildFailed(built.error)) else Ok(built.value)
  }

  method BuildFromSources(t: Target, c: Contract, broker: Broker, o: PipelineOptions, rnd: Randomness, manifests: seq<Manifest>, newId: nat -> string,
                          sources: seq<SourceRecord>) returns (result: Result<Build, PipelineError>)
    ensures result == BuiltFrom(t, c, broker, o, rnd, manifests, newId, sources)
  {
    var validated := ValidateSourceRecords(t, sources);
    if validated.Err? {
      return Err(validated.error);
    }
    var tally, status := QualifyReferenceBaseline(t, broker, o.qualification, validated.value);
    if tally.None? {
      return Err(ReferenceBudgetExhausted);
    }
    if status == Unqualified || (status == TooLittle && !o.allowInsufficient) {
      return Err(NotQualified(status));
    }
    var labels := ReferenceMissingOutputs(broker, o.budget, tally.value.samples, validated.value);
    if labels.Err? {
      return Err(labels.error);
    }
    if labels.value.failures != [] {
      return Err(LabellingFailed(labels.value.failures));
    }
    var built := BuildSnapshot(c, labels.value.output, o.build, rnd, manifests, newId);
    result := if built.Err? then Err(BuildFailed(built.error)) else Ok(built.value);
  }

  /** What reaches the build is one labelled record for each source, in order: same identifier, validated input, same
      permissions, a reference, and the source's own reference where it had one. */
  ghost predicate Reaches(t: Target, r: SourceRecord, l: SourceRecord) {
    && ValidRecord(t, r) && l.referenceOutput.Some?
    && l.recordId == r.recordId && Some(l.input) == t.validateInput(r.input) && l.eligibility == r.eligibility
    && (r.referenceOutput.Some? ==> l.referenceOutput == t.validateOutput(r.referenceOutput.value) && l.referenceSource == r.referenceSource)
  }

  lemma PreparedKeepsSources(t: Target, broker: Broker, o: PipelineOptions, sources: seq<SourceRecord>)
    ensures var labelled := Prepared(t, broker, o, sources);
            labelled.Ok? ==> |labelled.value| == |sources| && forall i | 0 <= i < |sources| :: Reaches(t, sources[i], labelled.value[i])
  {
    if Prepared(t, broker, o, sources).Ok? {
      ValidationIsExact(t, sources);
      var validated := Validated(t, sources).value;
      var tally := ComparedAll(t, broker, NO_TALLY, validated).value;
      LabellingIsExact(broker, o.budget, tally.samples, NO_LABELS, validated);
      var labels := LabelledAll(broker, o.budget, tally.samples, NO_LABELS, validated).value;
      assert labels.output[0..] == labels.output;
      forall i | 0 <= i < |sources| ensures Reaches(t, sources[i], labels.output[i]) {
        assert LabelOf(validated[i], labels.output[i]);
      }
    }
  }

  /** A snapshot is only built on a reference model that qualified, or was too little tested where that is allowed. */
  lemma SnapshotsAreQualified(t: Target, broker: Broker, o: PipelineOptions, sources: seq<SourceRecord>)
    ensures Prepared(t, broker, o, sources).Ok? ==>
              var validated := Validated(t, sources);
              && validated.Ok?
              && var tally := ComparedAll(t, broker, NO_TALLY, validated.value);
                 && tally.Some? && tally.value.samples == Count(validated.value, HasReference)
                 && tally.value.gold == Count(validated.value, GoldReference)
                 && (tally.value.samples == 0 ==> o.allowInsufficient)
                 && (tally.value.samples > 0 ==>
                       && Ratio(tally.value.parseFailures, tally.value.samples) <= o.qualification.maxParseFailureRate
                       && Ratio(tally.value.schemaFailures, tally.value.samples) <= o.qualification.maxSchemaFailureRate
                       && Ratio(tally.value.agreed, tally.value.samples) >= o.qualification.minAgreementRate
                       && (tally.value.gold >= o.qualification.minGoldSamples || o.allowInsufficient))
  {
    if Prepared(t, broker, o, sources).Ok? {
      TallyCounts(t, broker, NO_TALLY, Validated(t, sources).value);
    }
  }

  /** In every snapshot built from sources, a row that shares a source's normalized input lies in a split that the
      source itself allowed. */
  lemma SourcesPermitTheirSplits(t: Target, c: Contract, broker: Broker, o: PipelineOptions, rnd: Randomness, manifests: seq<Manifest>,
                                 newId: nat -> string, sources: seq<SourceRecord>, i: nat, split: Split, x: SnapshotRecord)
    requires i < |sources|
    ensures var built := BuiltFrom(t, c, broker, o, rnd, manifests, newId, sources);
            built.Ok? && x in Rows(built.value.snapshot, split) ==>
              && t.validateInput(sources[i].input).Some?
              && (x.normalizedKey == c.normalizeInput(t.validateInput(sources[i].input).value) ==> RoleOf(split) in sources[i].eligibility)
  {
    var built := BuiltFrom(t, c, broker, o, rnd, manifests, newId, sources);
    if built.Ok? && x in Rows(built.value.snapshot, split) {
      var labelled := Prepared(t, broker, o, sources).value;
      PreparedKeepsSources(t, broker, o, sources);
      assert Reaches(t, sources[i], labelled[i]);
      RowIsPermitted(c, labelled, o.build, rnd, manifests, newId, split, x);
      assert labelled[i] in labelled;
      assert x.normalizedKey == c.normalizeInput(labelled[i].input) ==> MergedInput(c, labelled[i], x.source);
    }
  }

  /** In "fail" mode the duplicates that a snapshot's records list are the identifiers of its sources. */
  lemma SourcesAreAllListed(t: Target, c: Contract, broker: Broker, o: PipelineOptions, rnd: Randomness, manifests: seq<Manifest>,
                            newId: nat -> string, sources: seq<SourceRecord>, id: string)
    requires o.build.onConflict == FailOnConflict
    ensures var built := BuiltFrom(t, c, broker, o, rnd, manifests, newId, sources);
            built.Ok? ==> Listed(built.value.deduped, id) == Occurrences(Ids(sources), id)
  {
    if BuiltFrom(t, c, broker, o, rnd, manifests, newId, sources).Ok? {
      PreparedKeepsIds(t, broker, o, sources);
      BuiltListsAll(c, Prepared(t, broker, o, sources).value, o.build, rnd, manifests, newId, id);
    }
  }

  lemma BuiltListsAll(c: Contract, records: seq<SourceRecord>, o: Options, rnd: Randomness, manifests: seq<Manifest>, newId: nat -> string, id: string)
    requires o.onConflict == FailOnConflict && Built(c, records, o, rnd, manifests, newId).Ok?
    ensures Listed(Built(c, records, o, rnd, manifests, newId).value.deduped, id) == Occurrences(Ids(records), id)
  {
    BuiltHasDeduplicated(c, records, o, rnd, manifests, newId);
    DeduplicatedListsAll(c, records, id);
  }

  lemma BuiltHasDeduplicated(c: Contract, records: seq<SourceRecord>, o: Options, rnd: Randomness, manifests: seq<Manifest>, newId: nat -> string)
    requires Built(c, records, o, rnd, manifests, newId).Ok?
    ensures Deduplicated(c, records, o.onConflict) == Ok(Built(c, records, o, rnd, manifests, newId).value.deduped)
  {
  }

  lemma DeduplicatedListsAll(c: Contract, records: seq<SourceRecord>, id: string)
    requires Deduplicated(c, records, FailOnConflict).Ok?
    ensures Listed(Deduplicated(c, records, FailOnConflict).value, id) == Occurrences(Ids(records), id)
  {
    DuplicatesPartitionTheInput(c, records, FailOnConflict, id);
  }

  lemma PreparedKeepsIds(t: Target, broker: Broker, o: PipelineOptions, sources: seq<SourceRecord>)
    ensures Prepared(t, broker, o, sources).Ok? ==> Ids(Prepared(t, broker, o, sources).value) == Ids(sources)
  {
    if Prepared(t, broker, o, sources).Ok? {
      PreparedKeepsSources(t, broker, o, sources);
      SameIds(t, sources, Prepared(t, broker, o, sources).value);
    }
  }

  lemma SameIds(t: Target, sources: seq<SourceRecord>, labelled: seq<SourceRecord>)
    requires |labelled| == |sources| && forall i | 0 <= i < |sources| :: Reaches(t, sources[i], labelled[i])
    ensures Ids(labelled) == Ids(sources)
  {
    forall i | 0 <= i < |sources| ensures Ids(labelled)[i] == Ids(sources)[i] {
      assert Reaches(t, sources[i], labelled[i]);
    }
  }
}
