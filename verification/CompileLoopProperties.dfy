/** What every run of the compile loop keeps, and every sequence of runs cut short anywhere. */
module CompileLoopProperties {
  import opened Wrappers
  import opened Costs
  import opened UsageLedger
  import opened CompileLoop
  import opened Counting

  // ---------------------------------------------------------------------------
  // Invariants
  // ---------------------------------------------------------------------------

  ghost predicate SameSubmission(a: Entry, b: Entry) {
    a.submissionId == b.submissionId && a.digest == b.digest && a.status != OtherStatus && b.status != OtherStatus
  }

  ghost predicate NoDuplicates(ledger: Ledger) {
    forall i, j {:trigger SameSubmission(ledger[i], ledger[j])} | 0 <= i < j < |ledger| :: !SameSubmission(ledger[i], ledger[j])
  }

  /** The running counters are folds over the ledger. */
  ghost predicate CountersMatch(env: Env, s: State) {
    && s.evaluated == Count(s.ledger, IsEvaluated)
    && s.feedback == Count(s.ledger, HasFeedback)
    && s.failed == Count(s.ledger, HasFailed)
    && AtMost(LedgerCost(s.ledger), s.total)
    && AtMost(s.total, Recoverable(env, Disk(s.ledger, s.usage)))
  }

  /** The cost that a run resumed from the disk finds there. */
  function Recoverable(env: Env, d: Disk): Amount {
    MaxAmount(LedgerCost(d.ledger), CompileCost(env, d.usage))
  }

  function Limit(env: Env, base: Disk): int {
    if env.maxCandidates > Count(base.ledger, IsEvaluated) then env.maxCandidates else Count(base.ledger, IsEvaluated)
  }

  /** What a run that started from `base` may leave on disk. */
  ghost predicate SoundDisk(env: Env, base: Disk, d: Disk) {
    && base.ledger <= d.ledger && AtMost(KeptCost(base.usage), KeptCost(d.usage))
    && NoDuplicates(d.ledger) && Count(d.ledger, IsEvaluated) <= Limit(env, base)
  }

  /** Everything written is sound, and a write holds the total cost up to the next one. */
  ghost predicate SoundWrites(env: Env, base: Disk, history: seq<Write>) {
    && (forall w <- history :: SoundDisk(env, base, w.disk))
    && (forall k {:trigger CostKept(env, history, k)} | 0 < k < |history| :: CostKept(env, history, k))
  }

  ghost predicate CostKept(env: Env, history: seq<Write>, k: nat)
    requires 0 < k < |history|
  {
    AtMost(history[k].total, Recoverable(env, history[k - 1].disk))
  }

  ghost predicate SoundHistory(env: Env, base: Disk, s: State) {
    && s.history != [] && s.history[|s.history| - 1].disk == Disk(s.ledger, s.usage)
    && SoundWrites(env, base, s.history)
  }

  /** An evaluation was started below the candidate limit and below the cost limit. */
  ghost predicate WithinLimits(env: Env, start: Start) {
    start.evaluated < env.maxCandidates && !OverBudget(env, start.total)
  }

  /** The agent's session ends as completed, timed out or failed. */
  predicate AgentEnds(env: Env) {
    env.agentEnd in {ReadyForTest, TimeLimit, AgentFailure}
  }

  /** A stop for a limit that was reached, or for something that was observed. */
  ghost predicate Justified(env: Env, reason: StopReason, s: State) {
    && (reason == CandidateLimit ==> s.evaluated >= env.maxCandidates)
    && (reason == BudgetExhausted ==> OverBudget(env, s.total))
    && (reason == Crash ==> exists t: nat :: ReadingOf(env.usageFile(t)).Raises?)
    && (reason == UserStop ==> exists t: nat :: env.userStop(t))
    && (reason == TimeLimit ==> env.agentEnd == TimeLimit || exists t: nat :: env.timeUp(t))
    && (reason in {ReadyForTest, AgentFailure} ==> env.agentEnd == reason)
  }

  ghost predicate Sound(env: Env, base: Disk, s: State) {
    && CountersMatch(env, s) && SoundHistory(env, base, s)
    && (forall start <- s.started :: WithinLimits(env, start))
    && (s.pending.Some? ==> Justified(env, s.pending.value, s))
  }

  /** Nothing recorded is lost and no cost goes down. */
  ghost predicate Grows(s: State, t: State) {
    && s.ledger <= t.ledger && s.evaluated <= t.evaluated && AtMost(s.total, t.total)
    && AtMost(KeptCost(s.usage), KeptCost(t.usage)) && s.history <= t.history && s.started <= t.started
  }

  /** What a step that may end the loop keeps. */
  ghost predicate Kept(env: Env, base: Disk, s: State, stop: Stop) {
    Sound(env, base, stop.state) && Grows(s, stop.state) && (stop.reason.Some? ==> Justified(env, stop.reason.value, stop.state))
  }

  lemma KeptAfter(env: Env, base: Disk, s: State, t: State, stop: Stop)
    requires Grows(s, t) && Kept(env, base, t, stop)
    ensures Kept(env, base, s, stop)
  {
    GrowsTwice(s, t, stop.state);
  }

  /** The step recorded and started nothing. */
  ghost predicate Quiet(s: State, t: State) {
    && s.ledger == t.ledger && s.evaluated == t.evaluated && s.feedback == t.feedback && s.failed == t.failed
    && s.started == t.started && s.pending == t.pending && Grows(s, t)
  }

  lemma GrowsTwice(s: State, t: State, u: State)
    requires Grows(s, t) && Grows(t, u)
    ensures Grows(s, u)
  {
  }

  lemma QuietTwice(s: State, t: State, u: State)
    requires Quiet(s, t) && Quiet(t, u)
    ensures Quiet(s, u)
  {
  }

  // ---------------------------------------------------------------------------
  // Steps that only look
  // ---------------------------------------------------------------------------

  /** A sound write keeps the history sound when the last one holds its cost. */
  lemma OneMoreWrite(env: Env, base: Disk, history: seq<Write>, w: Write)
    requires SoundWrites(env, base, history) && SoundDisk(env, base, w.disk)
    requires history != [] && AtMost(w.total, Recoverable(env, history[|history| - 1].disk))
    ensures SoundWrites(env, base, history + [w])
  {
    var more := history + [w];
    forall x | x in more ensures SoundDisk(env, base, x.disk) {
      assert x in history || x == w;
    }
    forall k | 0 < k < |more| ensures CostKept(env, more, k) {
      if k < |history| {
        assert CostKept(env, history, k);
      }
    }
  }

  lemma LastWriteIsSound(env: Env, base: Disk, s: State)
    requires SoundHistory(env, base, s)
    ensures SoundDisk(env, base, Disk(s.ledger, s.usage))
  {
    assert s.history[|s.history| - 1] in s.history;
  }

  /** A step that only looks, and may find a reason to stop. */
  ghost predicate Looks(env: Env, base: Disk, s: State, stop: Stop) {
    && Sound(env, base, stop.state) && Quiet(s, stop.state)
    && (stop.reason.Some? ==> Justified(env, stop.reason.value, stop.state))
  }

  lemma SyncKeeps(env: Env, base: Disk, s: State)
    requires Sound(env, base, s)
    ensures Looks(env, base, s, SyncUsage(env, s))
    ensures SyncUsage(env, s).state.total == s.total
  {
    var t := SyncUsage(env, s).state;
    LastWriteIsSound(env, base, s);
    if t.usage != s.usage {
      OneMoreWrite(env, base, s.history, Write(Disk(s.ledger, t.usage), s.total));
    }
  }

  lemma RefreshKeeps(env: Env, base: Disk, s: State)
    requires Sound(env, base, s)
    ensures Looks(env, base, s, Refreshed(env, s))
    ensures Refreshed(env, s).reason.None? ==> AtMost(CompileCost(env, Refreshed(env, s).state.usage), Refreshed(env, s).state.total)
  {
    SyncKeeps(env, base, s);
  }

  lemma TickKeeps(env: Env, base: Disk, s: State)
    requires Sound(env, base, s)
    ensures Sound(env, base, Ticked(s)) && Quiet(s, Ticked(s))
  {
  }

  lemma BudgetStopKeeps(env: Env, base: Disk, s: State)
    requires Sound(env, base, s)
    ensures var stop := BudgetStop(env, s);
            && Looks(env, base, s, stop)
            && (stop.reason.Some? ==> stop.reason.value in {BudgetExhausted, Crash})
            && (stop.reason.None? ==> !OverBudget(env, stop.state.total))
  {
    if env.maxCost.Some? {
      RefreshKeeps(env, base, s);
    }
  }

  lemma CurrentStopKeeps(env: Env, base: Disk, s: State)
    requires Sound(env, base, s)
    ensures var stop := CurrentStop(env, s);
            Looks(env, base, s, stop) && (stop.reason.None? ==> !OverBudget(env, stop.state.total))
  {
    var t := Ticked(s);
    TickKeeps(env, base, s);
    if env.timeUp(s.tick) {
      assert CurrentStop(env, s) == Stop(Some(TimeLimit), t);
    } else if env.userStop(s.tick) {
      assert CurrentStop(env, s) == Stop(Some(UserStop), t);
    } else {
      assert CurrentStop(env, s) == BudgetStop(env, t);
      BudgetStopKeeps(env, base, t);
      QuietTwice(s, t, BudgetStop(env, t).state);
    }
  }

  lemma LimitStopKeeps(env: Env, base: Disk, s: State)
    requires Sound(env, base, s)
    ensures var stop := LimitStop(env, s);
            Looks(env, base, s, stop) && (stop.reason.None? ==> stop.state.evaluated < env.maxCandidates && !OverBudget(env, stop.state.total))
  {
    BudgetStopKeeps(env, base, s);
  }

  lemma {:induction false} AwaitKeeps(env: Env, base: Disk, s: State, polls: nat)
    requires Sound(env, base, s)
    ensures Looks(env, base, s, Awaited(env, s, polls))
    decreases polls
  {
    CurrentStopLooks(env, base, s);
    var stop := CurrentStop(env, s);
    if stop.reason.None? && polls > 0 {
      AwaitKeeps(env, base, stop.state, polls - 1);
      LooksTwice(env, base, s, stop.state, Awaited(env, stop.state, polls - 1));
    }
  }

  lemma CurrentStopLooks(env: Env, base: Disk, s: State)
    requires Sound(env, base, s)
    ensures Looks(env, base, s, CurrentStop(env, s))
  {
    CurrentStopKeeps(env, base, s);
  }

  lemma LooksTwice(env: Env, base: Disk, s: State, t: State, stop: Stop)
    requires Quiet(s, t) && Looks(env, base, t, stop)
    ensures Looks(env, base, s, stop)
  {
    QuietTwice(s, t, stop.state);
  }

  // ---------------------------------------------------------------------------
  // Steps that evaluate and record
  // ---------------------------------------------------------------------------

  /** What an evaluation keeps: it records nothing, and its report charges no more than what is kept. */
  ghost predicate Evaluates(env: Env, base: Disk, s: State, e: Evaluation) {
    && Sound(env, base, e.state) && Grows(s, e.state) && e.state.ledger == s.ledger && e.state.evaluated == s.evaluated
    && (e.outcome.Evaluated? ==> AtMost(e.outcome.cost, CompileCost(env, e.state.usage)))
  }

  lemma EvaluatesAfter(env: Env, base: Disk, s: State, t: State, e: Evaluation)
    requires Grows(s, t) && t.ledger == s.ledger && t.evaluated == s.evaluated && Evaluates(env, base, t, e)
    ensures Evaluates(env, base, s, e)
  {
    GrowsTwice(s, t, e.state);
  }

  lemma ReportIsKept(env: Env, s: State, t: State, answer: Answer)
    requires Grows(s, t)
    ensures var outcome := Reported(env, answer, s.usage);
            outcome.Evaluated? ==> AtMost(outcome.cost, CompileCost(env, t.usage))
  {
  }

  lemma PendingKeeps(env: Env, base: Disk, s: State, reason: StopReason)
    requires Sound(env, base, s) && Justified(env, reason, s)
    ensures var t := s.(pending := if s.pending.Some? then s.pending else Some(reason));
            Sound(env, base, t) && Grows(s, t)
  {
  }

  lemma AwaitedEvaluationKeeps(env: Env, base: Disk, s: State)
    requires Sound(env, base, s)
    ensures Evaluates(env, base, s, AwaitedEvaluation(env, s))
  {
    AwaitKeeps(env, base, s, env.idlePolls(s.tick));
    var stop := Awaited(env, s, env.idlePolls(s.tick));
    var t := stop.state;
    if stop.reason.None? {
      ReportIsKept(env, s, t, env.answer(t.tick));
      TickKeeps(env, base, t);
      GrowsTwice(s, t, Ticked(t));
    } else if stop.reason != Some(Crash) {
      PendingKeeps(env, base, t, stop.reason.value);
      GrowsTwice(s, t, t.(pending := if t.pending.Some? then t.pending else stop.reason));
    }
  }

  lemma StartKeeps(env: Env, base: Disk, s: State)
    requires Sound(env, base, s) && WithinLimits(env, Start(s.evaluated, s.total))
    ensures var begun := s.(started := s.started + [Start(s.evaluated, s.total)]);
            Sound(env, base, begun) && Grows(s, begun)
  {
  }

  lemma EvaluateKeeps(env: Env, base: Disk, s: State)
    requires Sound(env, base, s) && WithinLimits(env, Start(s.evaluated, s.total))
    ensures Evaluates(env, base, s, EvaluatedCandidate(env, s))
  {
    var begun := s.(started := s.started + [Start(s.evaluated, s.total)]);
    StartKeeps(env, base, s);
    SyncKeeps(env, base, begun);
    var synced := SyncUsage(env, begun);
    GrowsTwice(s, begun, synced.state);
    if synced.reason.None? {
      AwaitedEvaluationKeeps(env, base, synced.state);
      EvaluatesAfter(env, base, s, synced.state, AwaitedEvaluation(env, synced.state));
    }
  }

  lemma CountsAfter(ledger: Ledger, e: Entry)
    ensures forall p: Entry -> bool :: Count(ledger + [e], p) == Count(ledger, p) + (if p(e) then 1 else 0)
    ensures LedgerCost(ledger + [e]) == if e.cost.Some? then MaxAmount(LedgerCost(ledger), e.cost.value) else LedgerCost(ledger)
  {
    assert (ledger + [e])[..|ledger|] == ledger;
  }

  lemma NewEntryIsNoDuplicate(ledger: Ledger, e: Entry)
    requires NoDuplicates(ledger) && !Contains(ledger, e.submissionId, e.digest)
    ensures NoDuplicates(ledger + [e])
  {
    forall i | 0 <= i < |ledger| ensures !SameSubmission(ledger[i], e) {
      assert ledger[i] in ledger;
      assert !IsRecorded(ledger[i], e.submissionId, e.digest);
    }
  }

  lemma LastIsRecorded(ledger: Ledger, e: Entry)
    requires e.status != OtherStatus
    ensures Contains(ledger + [e], e.submissionId, e.digest)
  {
    assert (ledger + [e])[|ledger|] == e;
    assert IsRecorded(e, e.submissionId, e.digest);
  }

  /** The run after an entry was appended, counted and written. */
  function Entered(s: State, e: Entry): State {
    var t := Appended(s, e);
    Persisted(t.(evaluated := t.evaluated + 1))
  }

  lemma EntryKeepsCounters(env: Env, s: State, e: Entry)
    requires CountersMatch(env, s) && IsEvaluated(e) && (e.cost.Some? ==> AtMost(e.cost.value, s.total))
    ensures CountersMatch(env, Entered(s, e))
  {
    CountsAfter(s.ledger, e);
  }

  lemma EntryIsSoundOnDisk(env: Env, base: Disk, s: State, e: Entry)
    requires SoundDisk(env, base, Disk(s.ledger, s.usage)) && s.evaluated == Count(s.ledger, IsEvaluated) < env.maxCandidates
    requires !Contains(s.ledger, e.submissionId, e.digest)
    ensures SoundDisk(env, base, Disk(s.ledger + [e], s.usage))
  {
    CountsAfter(s.ledger, e);
    NewEntryIsNoDuplicate(s.ledger, e);
  }

  lemma EntryKeepsHistory(env: Env, base: Disk, s: State, e: Entry)
    requires Sound(env, base, s) && s.evaluated < env.maxCandidates && !Contains(s.ledger, e.submissionId, e.digest)
    ensures SoundHistory(env, base, Entered(s, e))
  {
    LastWriteIsSound(env, base, s);
    EntryIsSoundOnDisk(env, base, s, e);
    OneMoreWrite(env, base, s.history, Write(Disk(s.ledger + [e], s.usage), s.total));
  }

  lemma EnteredIsSound(env: Env, base: Disk, s: State, e: Entry)
    requires Sound(env, base, s) && s.evaluated < env.maxCandidates && !Contains(s.ledger, e.submissionId, e.digest)
    requires IsEvaluated(e) && (e.cost.Some? ==> AtMost(e.cost.value, s.total))
    ensures Sound(env, base, Entered(s, e)) && Grows(s, Entered(s, e))
  {
    EntryKeepsCounters(env, s, e);
    EntryKeepsHistory(env, base, s, e);
  }

  lemma AfterEntryIsEntered(env: Env, s: State, e: Entry)
    ensures var u := Entered(s, e);
            AfterEntry(env, Appended(s, e)) == if u.pending.Some? then Stop(u.pending, u) else LimitStop(env, u)
  {
  }

  /** Appending an evaluated entry, counting it and writing the ledger keeps the run sound. */
  lemma EntryKeeps(env: Env, base: Disk, s: State, e: Entry)
    requires Sound(env, base, s) && s.evaluated < env.maxCandidates && !Contains(s.ledger, e.submissionId, e.digest)
    requires IsEvaluated(e) && (e.cost.Some? ==> AtMost(e.cost.value, s.total))
    ensures Kept(env, base, s, AfterEntry(env, Appended(s, e)))
    ensures AfterEntry(env, Appended(s, e)).state.ledger == s.ledger + [e]
  {
    var u := Entered(s, e);
    AfterEntryIsEntered(env, s, e);
    EnteredIsSound(env, base, s, e);
    if u.pending.Some? {
      assert Kept(env, base, s, Stop(u.pending, u));
    } else {
      LimitStopKeeps(env, base, u);
      LooksThenKept(env, base, s, u, LimitStop(env, u));
    }
  }

  lemma LooksThenKept(env: Env, base: Disk, s: State, t: State, stop: Stop)
    requires Grows(s, t) && Looks(env, base, t, stop)
    ensures Kept(env, base, s, stop) && stop.state.ledger == t.ledger
  {
    GrowsTwice(s, t, stop.state);
  }

  lemma FailureKeeps(env: Env, base: Disk, s: State, id: string, digest: Digest)
    requires Sound(env, base, s) && s.evaluated < env.maxCandidates
    ensures var stop := FailureRecorded(env, s, id, digest);
            Kept(env, base, s, stop) && Contains(stop.state.ledger, id, digest)
  {
    if !Contains(s.ledger, id, digest) {
      EntryKeeps(env, base, s, FailedEntry(id, digest));
      LastIsRecorded(s.ledger, FailedEntry(id, digest));
    }
  }

  lemma ChargeKeeps(env: Env, base: Disk, s: State, cost: Amount)
    requires Sound(env, base, s) && AtMost(cost, CompileCost(env, s.usage))
    ensures Sound(env, base, Charged(s, cost)) && Grows(s, Charged(s, cost)) && Charged(s, cost).evaluated == s.evaluated
  {
  }

  lemma OutcomeKeeps(env: Env, base: Disk, s: State, id: string, digest: Digest, outcome: Outcome)
    requires Sound(env, base, s) && s.evaluated < env.maxCandidates && !Contains(s.ledger, id, digest)
    requires outcome.Evaluated? ==> AtMost(outcome.cost, CompileCost(env, s.usage))
    ensures var stop := OutcomeRecorded(env, s, id, digest, outcome);
            Kept(env, base, s, stop) && Contains(stop.state.ledger, id, digest)
  {
    if outcome.Raised? || outcome.fault == BeforeCost {
      FailureKeeps(env, base, s, id, digest);
    } else {
      var t := Charged(s, outcome.cost);
      ChargeKeeps(env, base, s, outcome.cost);
      if outcome.fault == AfterCost {
        FailureKeeps(env, base, t, id, digest);
        KeptAfter(env, base, s, t, FailureRecorded(env, t, id, digest));
      } else {
        var e := FeedbackEntry(id, digest, outcome);
        EntryKeeps(env, base, t, e);
        KeptAfter(env, base, s, t, AfterEntry(env, Appended(t, e)));
        LastIsRecorded(t.ledger, e);
      }
    }
  }

  function DigestOf(submission: Submission): Digest {
    if submission.contents.Some? then Contents(submission.contents.value) else FailureMarker(submission.name)
  }

  lemma ReceivedKeeps(env: Env, base: Disk, s: State, submission: Submission)
    requires Sound(env, base, s) && s.evaluated < env.maxCandidates
    ensures var stop := Received(env, s, submission);
            && Kept(env, base, s, stop)
            && (stop.reason.None? ==> Contains(stop.state.ledger, submission.name, DigestOf(submission)))
  {
    var id, digest := submission.name, DigestOf(submission);
    if submission.contents.None? || (!Contains(s.ledger, id, digest) && !submission.valid) {
      FailureKeeps(env, base, s, id, digest);
    } else if !Contains(s.ledger, id, digest) {
      ValidSubmissionKeeps(env, base, s, id, digest);
    }
  }

  /** A submission is recorded unless the loop stops for a reason. */
  lemma SubmissionKeeps(env: Env, base: Disk, s: State, submission: Submission)
    requires Sound(env, base, s)
    ensures var stop := Processed(env, s, submission);
            && Kept(env, base, s, stop)
            && (stop.reason.None? ==> Contains(stop.state.ledger, submission.name, DigestOf(submission)))
  {
    LimitStopKeeps(env, base, s);
    var limit := LimitStop(env, s);
    if limit.reason.None? {
      ReceivedKeeps(env, base, limit.state, submission);
      KeptAfter(env, base, s, limit.state, Received(env, limit.state, submission));
    }
  }

  lemma EvaluationKeeps(env: Env, base: Disk, s: State, id: string, digest: Digest)
    requires Sound(env, base, s) && WithinLimits(env, Start(s.evaluated, s.total)) && !Contains(s.ledger, id, digest)
    ensures var e := EvaluatedCandidate(env, s);
            var recorded := OutcomeRecorded(env, e.state, id, digest, e.outcome);
            Kept(env, base, s, recorded) && Contains(recorded.state.ledger, id, digest)
  {
    EvaluateKeeps(env, base, s);
    var e := EvaluatedCandidate(env, s);
    OutcomeKeeps(env, base, e.state, id, digest, e.outcome);
    KeptAfter(env, base, s, e.state, OutcomeRecorded(env, e.state, id, digest, e.outcome));
  }

  lemma ValidSubmissionKeeps(env: Env, base: Disk, s: State, id: string, digest: Digest)
    requires Sound(env, base, s) && s.evaluated < env.maxCandidates && !Contains(s.ledger, id, digest)
    ensures var stop := Validated(env, s, id, digest);
            Kept(env, base, s, stop) && (stop.reason.None? ==> Contains(stop.state.ledger, id, digest))
  {
    CurrentStopKeeps(env, base, s);
    var stop := CurrentStop(env, s);
    if stop.reason == Some(Crash) {
      FailureKeeps(env, base, stop.state, id, digest);
      KeptAfter(env, base, s, stop.state, FailureRecorded(env, stop.state, id, digest));
    } else if stop.reason.None? {
      EvaluationKeeps(env, base, stop.state, id, digest);
      KeptAfter(env, base, s, stop.state, Validated(env, s, id, digest));
    }
  }

  ghost predicate AllRecorded(ledger: Ledger, submissions: seq<Submission>) {
    forall x <- submissions :: Contains(ledger, x.name, DigestOf(x))
  }

  lemma StillContains(a: Ledger, b: Ledger, id: string, digest: Digest)
    requires a <= b && Contains(a, id, digest)
    ensures Contains(b, id, digest)
  {
    var e :| e in a && IsRecorded(e, id, digest);
    assert e in b;
  }

  lemma OneMoreRecorded(a: Ledger, b: Ledger, submissions: seq<Submission>)
    requires a <= b && submissions != []
    requires Contains(a, submissions[0].name, DigestOf(submissions[0])) && AllRecorded(b, submissions[1..])
    ensures AllRecorded(b, submissions)
  {
    StillContains(a, b, submissions[0].name, DigestOf(submissions[0]));
    assert submissions == [submissions[0]] + submissions[1..];
  }

  lemma {:induction false} SubmissionsKeep(env: Env, base: Disk, s: State, submissions: seq<Submission>)
    requires Sound(env, base, s)
    ensures var stop := ProcessedAll(env, s, submissions);
            && Kept(env, base, s, stop)
            && (stop.reason.None? ==> AllRecorded(stop.state.ledger, submissions))
    decreases |submissions|
  {
    if |submissions| > 0 {
      SubmissionKeeps(env, base, s, submissions[0]);
      var stop := Processed(env, s, submissions[0]);
      if stop.reason.None? {
        SubmissionsKeep(env, base, stop.state, submissions[1..]);
        var last := ProcessedAll(env, stop.state, submissions[1..]);
        GrowsTwice(s, stop.state, last.state);
        if last.reason.None? {
          OneMoreRecorded(stop.state.ledger, last.state.ledger, submissions);
        }
      }
    }
  }

  ghost predicate ListingRecorded(ready: Option<seq<Submission>>, stop: Stop) {
    stop.reason.None? && ready.Some? ==> AllRecorded(stop.state.ledger, ready.value)
  }

  lemma ListedAllKeep(env: Env, base: Disk, s: State, ready: Option<seq<Submission>>)
    requires Sound(env, base, s)
    ensures Kept(env, base, s, ListedAll(env, s, ready)) && ListingRecorded(ready, ListedAll(env, s, ready))
  {
    if ready.Some? {
      SubmissionsKeep(env, base, s, ready.value);
    }
  }

  /** A drain that ends without a reason to stop has recorded every submission that was ready when it looked. */
  lemma DrainKeeps(env: Env, base: Disk, s: State)
    requires Sound(env, base, s)
    ensures Kept(env, base, s, Drained(env, s))
    ensures Drained(env, s).reason.None? ==> ListingRecorded(env.listing(LimitStop(env, s).state.tick), Drained(env, s))
  {
    LimitStopKeeps(env, base, s);
    var limit := LimitStop(env, s);
    if limit.reason.None? {
      var t, ready := Ticked(limit.state), env.listing(limit.state.tick);
      TickKeeps(env, base, limit.state);
      GrowsTwice(s, limit.state, t);
      ListedAllKeep(env, base, t, ready);
      KeptAfter(env, base, s, t, ListedAll(env, t, ready));
    }
  }

  lemma LastDrainKeeps(env: Env, base: Disk, s: State)
    requires Sound(env, base, s) && AgentEnds(env)
    ensures Kept(env, base, s, LastDrain(env, s))
  {
    DrainKeeps(env, base, s);
  }

  lemma RoundKeeps(env: Env, base: Disk, s: State)
    requires Sound(env, base, s)
    ensures Kept(env, base, s, Round(env, s))
  {
    CurrentStopKeeps(env, base, s);
    var stop := CurrentStop(env, s);
    if stop.reason.None? {
      DrainKeeps(env, base, stop.state);
      KeptAfter(env, base, s, stop.state, Drained(env, stop.state));
    }
  }

  lemma {:induction false} LoopKeeps(env: Env, base: Disk, s: State, polls: nat)
    requires Sound(env, base, s) && AgentEnds(env)
    ensures var stop := Looped(env, s, polls);
            Kept(env, base, s, stop) && stop.reason.Some?
    decreases polls
  {
    RoundKeeps(env, base, s);
    var round := Round(env, s);
    if round.reason.None? {
      if polls > 0 {
        LoopKeeps(env, base, round.state, polls - 1);
        KeptAfter(env, base, s, round.state, Looped(env, round.state, polls - 1));
      } else {
        LastDrainKeeps(env, base, round.state);
        KeptAfter(env, base, s, round.state, LastDrain(env, round.state));
      }
    }
  }

  lemma ResumedIsSound(env: Env, disk: Disk)
    requires NoDuplicates(disk.ledger)
    ensures Sound(env, disk, Resumed(disk))
  {
  }

  lemma RunKeepsBeforeLastRefresh(env: Env, disk: Disk)
    requires NoDuplicates(disk.ledger) && AgentEnds(env)
    ensures var stop := BeforeLastRefresh(env, disk);
            Kept(env, disk, Resumed(disk), stop) && stop.reason.Some?
  {
    ResumedIsSound(env, disk);
    SyncKeeps(env, disk, Resumed(disk));
    var synced := SyncUsage(env, Resumed(disk));
    if synced.reason.None? {
      LimitStopKeeps(env, disk, synced.state);
      var limit := LimitStop(env, synced.state);
      KeptAfter(env, disk, Resumed(disk), synced.state, limit);
      if limit.reason.None? {
        LoopKeeps(env, disk, limit.state, env.agentPolls);
        KeptAfter(env, disk, Resumed(disk), limit.state, Looped(env, limit.state, env.agentPolls));
      }
    }
  }

  lemma SoundStaysInLimit(env: Env, base: Disk, s: State)
    requires Sound(env, base, s)
    ensures s.evaluated <= Limit(env, base)
  {
    LastWriteIsSound(env, base, s);
  }

  /** Every run, whatever it observes: nothing is recorded twice, the counters are folds over the ledger, the
      evaluated count stays within the limit it started under, no evaluation starts at a limit, costs never go
      down, a stop for a limit happens at that limit, and only a usage file that raises can crash it. All of it holds
      of everything written to disk. A run that does not crash reports all that was used. */
  lemma EveryRunIsSound(env: Env, disk: Disk)
    requires NoDuplicates(disk.ledger) && AgentEnds(env)
    ensures var stop := WholeRun(env, disk);
            && Kept(env, disk, Resumed(disk), stop) && stop.reason.Some?
            && stop.state.evaluated <= Limit(env, disk)
            && (stop.reason != Some(Crash) ==> AtMost(CompileCost(env, stop.state.usage), stop.state.total))
  {
    RunKeepsBeforeLastRefresh(env, disk);
    var before := BeforeLastRefresh(env, disk);
    if before.reason != Some(Crash) {
      RefreshKeeps(env, disk, before.state);
      LastRefreshKeeps(env, disk, before);
    }
    SoundStaysInLimit(env, disk, WholeRun(env, disk).state);
  }

  lemma LastRefreshKeeps(env: Env, disk: Disk, before: Stop)
    requires Kept(env, disk, Resumed(disk), before) && before.reason.Some?
    requires before.reason != Some(Crash) && Looks(env, disk, before.state, Refreshed(env, before.state))
    ensures var last := Refreshed(env, before.state);
            Kept(env, disk, Resumed(disk), Stop(if last.reason.Some? then last.reason else before.reason, last.state))
  {
    var last := Refreshed(env, before.state);
    GrowsTwice(Resumed(disk), before.state, last.state);
    StillJustified(env, before.reason.value, before.state, last.state);
  }

  lemma StillJustified(env: Env, reason: StopReason, s: State, t: State)
    requires Justified(env, reason, s) && Grows(s, t)
    ensures Justified(env, reason, t)
  {
  }

  /** A run resumed at the candidate limit starts and records nothing. */
  lemma NothingStartsAtTheLimit(env: Env, disk: Disk)
    requires NoDuplicates(disk.ledger) && Count(disk.ledger, IsEvaluated) >= env.maxCandidates
    ensures var stop := WholeRun(env, disk);
            && stop.state.started == [] && stop.state.ledger == disk.ledger
            && stop.reason in {Some(CandidateLimit), Some(BudgetExhausted), Some(Crash)}
  {
    ResumedIsSound(env, disk);
    SyncKeeps(env, disk, Resumed(disk));
    var synced := SyncUsage(env, Resumed(disk));
    if synced.reason.None? {
      BudgetStopKeeps(env, disk, synced.state);
      LimitStopKeeps(env, disk, synced.state);
      LastRefreshIsQuiet(env, disk, synced.state, LimitStop(env, synced.state));
    }
  }

  /** A run resumed over its budget starts and records nothing either: once an infinite cost is kept, so it is for
      every later run with a budget. */
  lemma NothingStartsOverBudget(env: Env, disk: Disk)
    requires NoDuplicates(disk.ledger) && OverBudget(env, CompileCost(env, disk.usage))
    ensures var stop := WholeRun(env, disk);
            && stop.state.started == [] && stop.state.ledger == disk.ledger
            && stop.reason in {Some(BudgetExhausted), Some(Crash)}
  {
    ResumedIsSound(env, disk);
    SyncKeeps(env, disk, Resumed(disk));
    var synced := SyncUsage(env, Resumed(disk));
    if synced.reason.None? {
      OverBudgetStops(env, disk, synced.state);
      LimitStopKeeps(env, disk, synced.state);
      LastRefreshIsQuiet(env, disk, synced.state, LimitStop(env, synced.state));
    }
  }

  lemma OverBudgetStops(env: Env, base: Disk, s: State)
    requires Sound(env, base, s) && OverBudget(env, CompileCost(env, s.usage))
    ensures LimitStop(env, s).reason in {Some(BudgetExhausted), Some(Crash)}
  {
    SyncKeeps(env, base, s);
  }

  /** The first check stopped the run, and its last refresh only looks. */
  lemma LastRefreshIsQuiet(env: Env, disk: Disk, s: State, limit: Stop)
    requires Looks(env, disk, s, limit) && limit.reason.Some? && s.started == [] && s.ledger == disk.ledger
    ensures var last := Refreshed(env, limit.state);
            && limit.state.started == last.state.started == [] && limit.state.ledger == last.state.ledger == disk.ledger
            && (last.reason.Some? ==> last.reason == Some(Crash))
  {
    RefreshKeeps(env, disk, limit.state);
  }

  // ---------------------------------------------------------------------------
  // Runs cut short anywhere, each resumed from what was on disk
  // ---------------------------------------------------------------------------

  /** A run, and the number of writes to disk after which it ended, by itself or not. */
  datatype Attempt = Attempt(env: Env, writes: nat)

  /** What a run leaves on disk when it ends after so many writes. */
  function LeftBy(env: Env, disk: Disk, writes: nat): Disk {
    var history := WholeRun(env, disk).state.history;
    if writes < |history| then history[writes].disk else if history != [] then history[|history| - 1].disk else disk
  }

  lemma LeftIsSound(env: Env, disk: Disk, writes: nat)
    requires NoDuplicates(disk.ledger) && AgentEnds(env)
    ensures SoundDisk(env, disk, LeftBy(env, disk, writes))
  {
    EveryRunIsSound(env, disk);
    var s := WholeRun(env, disk).state;
    WriteIsSound(env, disk, s, if writes < |s.history| then writes else |s.history| - 1);
  }

  lemma WriteIsSound(env: Env, base: Disk, s: State, k: nat)
    requires Sound(env, base, s) && k < |s.history|
    ensures SoundDisk(env, base, s.history[k].disk)
  {
    assert s.history[k] in s.history;
  }

  function DiskAfter(disk: Disk, attempts: seq<Attempt>): Disk
    decreases |attempts|
  {
    if |attempts| == 0 then disk
    else
      var last := attempts[|attempts| - 1];
      LeftBy(last.env, DiskAfter(disk, attempts[..|attempts| - 1]), last.writes)
  }

  /** Over any sequence of runs, each cut short after any write and resumed: no submission is recorded twice,
      what is recorded stays, the usage never goes down, and the evaluated count stays within the limit. */
  lemma {:induction false} EverySequenceOfRunsIsSound(disk: Disk, attempts: seq<Attempt>, limit: int)
    requires NoDuplicates(disk.ledger) && Count(disk.ledger, IsEvaluated) <= limit
    requires forall i | 0 <= i < |attempts| :: AgentEnds(attempts[i].env) && attempts[i].env.maxCandidates <= limit
    ensures var d := DiskAfter(disk, attempts);
            && NoDuplicates(d.ledger) && disk.ledger <= d.ledger && AtMost(KeptCost(disk.usage), KeptCost(d.usage))
            && Count(d.ledger, IsEvaluated) <= limit
    decreases |attempts|
  {
    if |attempts| > 0 {
      var last := attempts[|attempts| - 1];
      EverySequenceOfRunsIsSound(disk, attempts[..|attempts| - 1], limit);
      LeftIsSound(last.env, DiskAfter(disk, attempts[..|attempts| - 1]), last.writes);
    }
  }

  // ---------------------------------------------------------------------------
  // The cost that survives
  // ---------------------------------------------------------------------------

  /** The total cost that a run reached before its next write, or its end. */
  function TotalAfter(env: Env, disk: Disk, k: nat): Amount {
    var s := WholeRun(env, disk).state;
    if k + 1 < |s.history| then s.history[k + 1].total else s.total
  }

  lemma WriteHoldsTheCost(env: Env, base: Disk, s: State, k: nat)
    requires Sound(env, base, s) && k < |s.history|
    ensures AtMost(if k + 1 < |s.history| then s.history[k + 1].total else s.total, Recoverable(env, s.history[k].disk))
  {
    if k + 1 < |s.history| {
      assert CostKept(env, s.history, k + 1);
    }
  }

  lemma ReachedIsRecoverable(env: Env, disk: Disk, k: nat)
    requires NoDuplicates(disk.ledger) && AgentEnds(env) && k < |WholeRun(env, disk).state.history|
    ensures var d := WholeRun(env, disk).state.history[k].disk;
            SoundDisk(env, disk, d) && AtMost(TotalAfter(env, disk, k), Recoverable(env, d))
  {
    EveryRunIsSound(env, disk);
    WriteIsSound(env, disk, WholeRun(env, disk).state, k);
    WriteHoldsTheCost(env, disk, WholeRun(env, disk).state, k);
  }

  /** Wherever a run is cut short or crashes, a run resumed from what is on disk reports at least the total cost that
      the first had reached, unless it crashes itself. */
  lemma RestartRecoversTheCost(env: Env, disk: Disk, later: Env, k: nat)
    requires NoDuplicates(disk.ledger) && AgentEnds(env) && AgentEnds(later) && later.fixedCost >= env.fixedCost
    requires k < |WholeRun(env, disk).state.history|
    ensures var resumed := WholeRun(later, WholeRun(env, disk).state.history[k].disk);
            resumed.reason != Some(Crash) ==> AtMost(TotalAfter(env, disk, k), resumed.state.total)
  {
    ReachedIsRecoverable(env, disk, k);
    EveryRunIsSound(later, WholeRun(env, disk).state.history[k].disk);
  }

  // ---------------------------------------------------------------------------
  // Selection
  // ---------------------------------------------------------------------------

  /** The selected entry passed the gate, and no other that did has a greater coverage, or an equal one later. */
  lemma {:induction false} SelectedIsBest(ledger: Ledger)
    ensures var i := SelectedEntry(ledger);
            && (i.None? <==> forall e <- ledger :: !Selectable(e))
            && (i.Some? ==>
                  && i.value < |ledger| && Selectable(ledger[i.value])
                  && forall j | 0 <= j < |ledger| && Selectable(ledger[j]) ::
                       Score(ledger[j]) < Score(ledger[i.value]) || (Score(ledger[j]) == Score(ledger[i.value]) && j <= i.value))
  {
    if ledger != [] {
      var n := |ledger| - 1;
      SelectedIsBest(ledger[..n]);
      assert ledger == ledger[..n] + [ledger[n]];
    }
  }

  /** As the ledger grows, over any runs, the selected coverage never goes down. */
  lemma SelectionOnlyImproves(a: Ledger, b: Ledger)
    requires a <= b && SelectedEntry(a).Some?
    ensures SelectedEntry(b).Some? && SelectedEntry(a).value < |a| && SelectedEntry(b).value < |b|
    ensures Score(a[SelectedEntry(a).value]) <= Score(b[SelectedEntry(b).value])
  {
    SelectedIsBest(a);
    SelectedIsBest(b);
    var i := SelectedEntry(a).value;
    assert b[i] == a[i] && b[i] in b;
  }
}
