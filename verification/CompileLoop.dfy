/** The interactive compile loop: submissions are evaluated once each, within candidate and cost limits, and
    recorded in a ledger on disk that a later run resumes from. */
module CompileLoop {
  import opened Wrappers
  import opened Costs
  import opened UsageLedger
  import opened Counting

  // ---------------------------------------------------------------------------
  // The ledger of evaluated submissions
  // ---------------------------------------------------------------------------

  datatype EntryStatus = FeedbackWritten | EvaluationFailed | Skipped | OtherStatus

  datatype Gate = GatePass | GateFail | GateInsufficient

  /** A digest of a submission's contents, or the marker used when they cannot be read. */
  datatype Digest = Contents(digest: string) | FailureMarker(submissionId: string)

  datatype Entry = Entry(
    submissionId: string,
    digest: Digest,
    status: EntryStatus,
    candidateId: Option<string>,
    cost: Option<Amount>,
    coverage: Option<real>,
    gate: Option<Gate>)

  type Ledger = seq<Entry>

  predicate IsRecorded(e: Entry, id: string, digest: Digest) {
    e.submissionId == id && e.digest == digest && e.status != OtherStatus
  }

  predicate Contains(ledger: Ledger, id: string, digest: Digest) {
    exists e <- ledger :: IsRecorded(e, id, digest)
  }

  predicate IsEvaluated(e: Entry) { e.status == FeedbackWritten || e.status == EvaluationFailed }

  predicate HasFeedback(e: Entry) { e.status == FeedbackWritten }

  predicate HasFailed(e: Entry) { e.status == EvaluationFailed }

  function LedgerCost(ledger: Ledger): Amount {
    if ledger == [] then NOTHING
    else
      var before := LedgerCost(ledger[..|ledger| - 1]);
      var cost := ledger[|ledger| - 1].cost;
      if cost.Some? then MaxAmount(before, cost.value) else before
  }

  predicate Selectable(e: Entry) {
    e.status == FeedbackWritten && e.gate == Some(GatePass) && e.candidateId.Some?
  }

  function Score(e: Entry): real {
    if e.coverage.Some? then e.coverage.value else -1.0
  }

  /** Where the selected entry is: the greatest coverage, the latest of equals. */
  function SelectedEntry(ledger: Ledger): Option<nat> {
    if ledger == [] then None
    else
      var n := |ledger| - 1;
      var before := SelectedEntry(ledger[..n]);
      if Selectable(ledger[n]) && (before.None? || (before.value < n && Score(ledger[before.value]) <= Score(ledger[n]))) then Some(n)
      else before
  }

  // ---------------------------------------------------------------------------
  // The environment
  // ---------------------------------------------------------------------------

  /** Why a run ends; a crash is an exception that nothing in it catches. */
  datatype StopReason = TimeLimit | UserStop | BudgetExhausted | CandidateLimit | ReadyForTest | AgentFailure | Crash

  /** A ready directory; its contents may be unreadable, and it may not be a valid submission. */
  datatype Submission = Submission(name: string, contents: Option<string>, valid: bool)

  /** Where recording an evaluation fails, if it does: before the report's cost is counted, or after. */
  datatype RecordFault = NoFault | BeforeCost | AfterCost

  /** What an evaluation answers, when it is not stopped; a candidate that saves costs has a time to pay back. */
  datatype Answer =
    | Refused
    | Answered(candidateId: string, saves: bool, coverage: Option<real>, gate: Gate, fault: RecordFault)

  /** An evaluation and the compile cost of its report. */
  datatype Outcome =
    | Raised
    | Evaluated(candidateId: string, cost: Amount, coverage: Option<real>, gate: Gate, fault: RecordFault)

  /** What the loop observes, by the number of observations made before; its budget and fixed costs. */
  datatype Env = Env(
    timeUp: nat -> bool,
    userStop: nat -> bool,
    usageFile: nat -> UsageFile,
    listing: nat -> Option<seq<Submission>>,
    idlePolls: nat -> nat,
    answer: nat -> Answer,
    agentPolls: nat,
    agentEnd: StopReason,
    maxCost: Option<real>,
    maxCandidates: int,
    fixedCost: real)

  /** What survives the process. */
  datatype Disk = Disk(ledger: Ledger, usage: Kept)

  /** A write to disk, and the run's total cost when it was made. */
  datatype Write = Write(disk: Disk, total: Amount)

  /** An evaluation that was started, with the evaluated count and the refreshed total cost at that moment. */
  datatype Start = Start(evaluated: int, total: Amount)

  /** The loop's variables, what was written to disk, in order, and the evaluations started. */
  datatype State = State(
    ledger: Ledger,
    evaluated: int,
    feedback: int,
    failed: int,
    total: Amount,
    usage: Kept,
    pending: Option<StopReason>,
    tick: nat,
    history: seq<Write>,
    started: seq<Start>)

  /** The value of a step that may end the loop, and the state after it. */
  datatype Stop = Stop(reason: Option<StopReason>, state: State)

  // ---------------------------------------------------------------------------
  // Costs and limits
  // ---------------------------------------------------------------------------

  function LedgerOnDisk(history: seq<Write>): Ledger {
    if history == [] then [] else history[|history| - 1].disk.ledger
  }

  function Unless(failed: bool): Option<StopReason> { if failed then Some(Crash) else None }

  /** Reading the usage file may raise; nothing is written then. */
  function SyncUsage(env: Env, s: State): Stop {
    var file := env.usageFile(s.tick);
    var usage := Synced(s.usage, file);
    Stop(Unless(ReadingOf(file).Raises?),
         s.(usage := usage, tick := s.tick + 1,
            history := if usage == s.usage then s.history else s.history + [Write(Disk(LedgerOnDisk(s.history), usage), s.total)]))
  }

  /** The fixed costs and those of the usage. */
  function CompileCost(env: Env, usage: Kept): Amount { Plus(Finite(env.fixedCost), KeptCost(usage)) }

  function Refreshed(env: Env, s: State): Stop {
    var synced := SyncUsage(env, s);
    var t := synced.state;
    if synced.reason.Some? then synced
    else Stop(None, t.(total := MaxAmount(s.total, CompileCost(env, t.usage))))
  }

  predicate OverBudget(env: Env, total: Amount) {
    env.maxCost.Some? && AtMost(Finite(env.maxCost.value), total)
  }

  /** The total is refreshed only when there is a budget to compare it with. */
  function BudgetStop(env: Env, s: State): Stop {
    if env.maxCost.None? then Stop(None, s)
    else
      var refreshed := Refreshed(env, s);
      if refreshed.reason.Some? then refreshed
      else Stop(if OverBudget(env, refreshed.state.total) then Some(BudgetExhausted) else None, refreshed.state)
  }

  /** One observation later. */
  function Ticked(s: State): State { s.(tick := s.tick + 1) }

  function CurrentStop(env: Env, s: State): Stop {
    var t := Ticked(s);
    if env.timeUp(s.tick) then Stop(Some(TimeLimit), t)
    else if env.userStop(s.tick) then Stop(Some(UserStop), t)
    else BudgetStop(env, t)
  }

  function LimitStop(env: Env, s: State): Stop {
    var budget := BudgetStop(env, s);
    if budget.reason.None? && budget.state.evaluated >= env.maxCandidates then Stop(Some(CandidateLimit), budget.state)
    else budget
  }

  // ---------------------------------------------------------------------------
  // One submission
  // ---------------------------------------------------------------------------

  /** Waiting for an evaluation that needs `polls` more polls, and the check made when it answers. */
  function Awaited(env: Env, s: State, polls: nat): Stop
    decreases polls
  {
    var stop := CurrentStop(env, s);
    if stop.reason.Some? || polls == 0 then stop else Awaited(env, stop.state, polls - 1)
  }

  datatype Evaluation = Evaluation(outcome: Outcome, state: State)

  /** A report charges the fixed costs and the agent usage that the evaluation was started with. An infinite charge
      takes infinitely long to pay back, which raises. */
  function Reported(env: Env, answer: Answer, usage: Kept): Outcome {
    match answer
    case Refused => Raised
    case Answered(candidateId, saves, coverage, gate, fault) =>
      var cost := CompileCost(env, usage);
      if saves && cost.Infinite? then Raised else Evaluated(candidateId, cost, coverage, gate, fault)
  }

  /** Stopping an evaluation for a limit leaves the reason pending. */
  function AwaitedEvaluation(env: Env, s: State): Evaluation {
    var stop := Awaited(env, s, env.idlePolls(s.tick));
    var t := stop.state;
    if stop.reason == Some(Crash) then Evaluation(Raised, t)
    else if stop.reason.Some? then Evaluation(Raised, t.(pending := if t.pending.Some? then t.pending else stop.reason))
    else Evaluation(Reported(env, env.answer(t.tick), s.usage), Ticked(t))
  }

  /** Exceptions of an evaluation are caught where its outcome is recorded. */
  function EvaluatedCandidate(env: Env, s: State): Evaluation {
    var synced := SyncUsage(env, s.(started := s.started + [Start(s.evaluated, s.total)]));
    if synced.reason.Some? then Evaluation(Raised, synced.state) else AwaitedEvaluation(env, synced.state)
  }

  function Persisted(s: State): State {
    s.(history := s.history + [Write(Disk(s.ledger, s.usage), s.total)])
  }

  /** After an entry was appended: it is counted and written, and the loop may have to stop. */
  function AfterEntry(env: Env, s: State): Stop {
    var t := Persisted(s.(evaluated := s.evaluated + 1));
    if t.pending.Some? then Stop(t.pending, t) else LimitStop(env, t)
  }

  /** An entry counts as feedback or as failure by its status. */
  function Appended(s: State, e: Entry): State {
    s.(ledger := s.ledger + [e],
       feedback := s.feedback + (if e.status == FeedbackWritten then 1 else 0),
       failed := s.failed + (if e.status == EvaluationFailed then 1 else 0))
  }

  function FailedEntry(id: string, digest: Digest): Entry {
    Entry(id, digest, EvaluationFailed, None, None, None, None)
  }

  function FailureRecorded(env: Env, s: State, id: string, digest: Digest): Stop {
    if Contains(s.ledger, id, digest) then Stop(None, s)
    else AfterEntry(env, Appended(s, FailedEntry(id, digest)))
  }

  function FeedbackEntry(id: string, digest: Digest, outcome: Outcome): Entry
    requires outcome.Evaluated?
  {
    Entry(id, digest, FeedbackWritten, Some(outcome.candidateId), Some(outcome.cost), outcome.coverage, Some(outcome.gate))
  }

  function Charged(s: State, cost: Amount): State {
    s.(total := MaxAmount(s.total, cost))
  }

  function OutcomeRecorded(env: Env, s: State, id: string, digest: Digest, outcome: Outcome): Stop {
    if outcome.Raised? || outcome.fault == BeforeCost then FailureRecorded(env, s, id, digest)
    else
      var t := Charged(s, outcome.cost);
      if outcome.fault == AfterCost then FailureRecorded(env, t, id, digest)
      else AfterEntry(env, Appended(t, FeedbackEntry(id, digest, outcome)))
  }

  /** A valid submission; an exception of the check before its evaluation is recorded as its failure. */
  function Validated(env: Env, s: State, id: string, digest: Digest): Stop {
    var stop := CurrentStop(env, s);
    if stop.reason == Some(Crash) then FailureRecorded(env, stop.state, id, digest)
    else if stop.reason.Some? then stop
    else
      var e := EvaluatedCandidate(env, stop.state);
      OutcomeRecorded(env, e.state, id, digest, e.outcome)
  }

  function Received(env: Env, s: State, submission: Submission): Stop {
    var id := submission.name;
    if submission.contents.None? then FailureRecorded(env, s, id, FailureMarker(id))
    else
      var digest := Contents(submission.contents.value);
      if Contains(s.ledger, id, digest) then Stop(None, s)
      else if !submission.valid then FailureRecorded(env, s, id, digest)
      else Validated(env, s, id, digest)
  }

  function Processed(env: Env, s: State, submission: Submission): Stop {
    var limit := LimitStop(env, s);
    if limit.reason.Some? then limit else Received(env, limit.state, submission)
  }

  function ProcessedAll(env: Env, s: State, submissions: seq<Submission>): Stop
    decreases |submissions|
  {
    if |submissions| == 0 then Stop(None, s)
    else
      var stop := Processed(env, s, submissions[0]);
      if stop.reason.Some? then stop else ProcessedAll(env, stop.state, submissions[1..])
  }

  // ---------------------------------------------------------------------------
  // The loop
  // ---------------------------------------------------------------------------

  /** The submissions that are ready, if there is a directory of them. */
  function ListedAll(env: Env, s: State, ready: Option<seq<Submission>>): Stop {
    if ready.None? then Stop(None, s) else ProcessedAll(env, s, ready.value)
  }

  function Drained(env: Env, s: State): Stop {
    var limit := LimitStop(env, s);
    if limit.reason.Some? then limit else ListedAll(env, Ticked(limit.state), env.listing(limit.state.tick))
  }

  /** The drain after the agent's end, which gives the reason when nothing else does. */
  function LastDrain(env: Env, s: State): Stop {
    var last := Drained(env, s);
    Stop(if last.reason.Some? then last.reason else Some(env.agentEnd), last.state)
  }

  /** One round of the loop before it polls the agent. */
  function Round(env: Env, s: State): Stop {
    var stop := CurrentStop(env, s);
    if stop.reason.Some? then stop else Drained(env, stop.state)
  }

  /** The loop with `polls` more polls at which the agent still runs. */
  function Looped(env: Env, s: State, polls: nat): Stop
    decreases polls
  {
    var round := Round(env, s);
    if round.reason.Some? then round
    else if polls > 0 then Looped(env, round.state, polls - 1)
    else LastDrain(env, round.state)
  }

  /** The state of a run that starts from what an earlier one left on disk. */
  function Resumed(disk: Disk): State {
    State(disk.ledger, Count(disk.ledger, IsEvaluated), Count(disk.ledger, HasFeedback), Count(disk.ledger, HasFailed),
          LedgerCost(disk.ledger), disk.usage, None, 0, [Write(disk, LedgerCost(disk.ledger))], [])
  }

  /** The run up to the last refresh of its total cost. */
  function BeforeLastRefresh(env: Env, disk: Disk): Stop {
    var synced := SyncUsage(env, Resumed(disk));
    if synced.reason.Some? then synced
    else
      var limit := LimitStop(env, synced.state);
      if limit.reason.Some? then limit else Looped(env, limit.state, env.agentPolls)
  }

  function WholeRun(env: Env, disk: Disk): Stop {
    var stop := BeforeLastRefresh(env, disk);
    if stop.reason == Some(Crash) then stop
    else
      var last := Refreshed(env, stop.state);
      Stop(if last.reason.Some? then last.reason else stop.reason, last.state)
  }

  // ---------------------------------------------------------------------------
  // The program
  // ---------------------------------------------------------------------------

  class Loop {
    const env: Env
    var ledger: Ledger
    var evaluatedCount: int
    var feedbackCount: int
    var failedCount: int
    var totalCandidateCost: Amount
    var agentUsageLedger: Kept
    var pendingStopReason: Option<StopReason>
    var tick: nat
    var history: seq<Write>
    var started: seq<Start>

    function Now(): State
      reads this
    {
      State(ledger, evaluatedCount, feedbackCount, failedCount, totalCandidateCost, agentUsageLedger, pendingStopReason, tick, history, started)
    }

    constructor (env: Env, disk: Disk)
      ensures this.env == env && Now() == Resumed(disk)
    {
      this.env := env;
      ledger := disk.ledger;
      evaluatedCount := Count(disk.ledger, IsEvaluated);
      feedbackCount := Count(disk.ledger, HasFeedback);
      failedCount := Count(disk.ledger, HasFailed);
      totalCandidateCost := LedgerCost(disk.ledger);
      agentUsageLedger := disk.usage;
      pendingStopReason := None;
      tick := 0;
      history := [Write(disk, LedgerCost(disk.ledger))];
      started := [];
    }

    /** `crash` stands for an exception. */
    method SyncCoreAgentUsageLedger() returns (crash: Option<StopReason>)
      modifies this
      ensures Stop(crash, Now()) == SyncUsage(env, old(Now()))
    {
      var observed := ReadAgentUsageLedger(env.usageFile(tick));
      tick := tick + 1;
      if observed.Raises? {
        return Some(Crash);
      }
      if observed.Malformed? {
        return None;
      }
      if Greater(CostOfAll(observed.events), KeptCost(agentUsageLedger)) {
        agentUsageLedger := observed.events;
        history := history + [Write(Disk(LedgerOnDisk(history), agentUsageLedger), totalCandidateCost)];
      }
      return None;
    }

    method RefreshTotalCompileCost() returns (crash: Option<StopReason>)
      modifies this
      ensures Stop(crash, Now()) == Refreshed(env, old(Now()))
    {
      crash := SyncCoreAgentUsageLedger();
      if crash.None? {
        totalCandidateCost := MaxAmount(totalCandidateCost, CompileCost(env, agentUsageLedger));
      }
    }

    method BudgetStopReason() returns (reason: Option<StopReason>)
      modifies this
      ensures Stop(reason, Now()) == BudgetStop(env, old(Now()))
    {
      if env.maxCost.None? {
        return None;
      }
      reason := RefreshTotalCompileCost();
      if reason.None? && OverBudget(env, totalCandidateCost) {
        return Some(BudgetExhausted);
      }
    }

    method CurrentStopReason() returns (reason: Option<StopReason>)
      modifies this
      ensures Stop(reason, Now()) == CurrentStop(env, old(Now()))
    {
      var now := tick;
      tick := tick + 1;
      if env.timeUp(now) {
        return Some(TimeLimit);
      }
      if env.userStop(now) {
        return Some(UserStop);
      }
      reason := BudgetStopReason();
    }

    method CandidateLimitStopReason() returns (reason: Option<StopReason>)
      modifies this
      ensures Stop(reason, Now()) == LimitStop(env, old(Now()))
    {
      reason := BudgetStopReason();
      if reason.None? && evaluatedCount >= env.maxCandidates {
        return Some(CandidateLimit);
      }
    }

    method AwaitEvaluation(idlePolls: nat) returns (reason: Option<StopReason>)
      modifies this
      ensures Stop(reason, Now()) == Awaited(env, old(Now()), idlePolls)
    {
      var polls := idlePolls;
      while true
        invariant Awaited(env, Now(), polls) == Awaited(env, old(Now()), idlePolls)
        decreases polls
      {
        reason := CurrentStopReason();
        if reason.Some? || polls == 0 {
          return;
        }
        polls := polls - 1;
      }
    }

    method EvaluateCandidate() returns (outcome: Outcome)
      modifies this
      ensures Evaluation(outcome, Now()) == EvaluatedCandidate(env, old(Now()))
    {
      started := started + [Start(evaluatedCount, totalCandidateCost)];
      var crash := SyncCoreAgentUsageLedger();
      if crash.Some? {
        return Raised;
      }
      var usage := agentUsageLedger;
      var reason := AwaitEvaluation(env.idlePolls(tick));
      if reason == Some(Crash) {
        return Raised;
      }
      if reason.Some? {
        if pendingStopReason.None? {
          pendingStopReason := reason;
        }
        return Raised;
      }
      match env.answer(tick) {
        case Refused =>
          outcome := Raised;
        case Answered(candidateId, saves, coverage, gate, fault) =>
          var cost := CompileCost(env, usage);
          outcome := if saves && cost.Infinite? then Raised else Evaluated(candidateId, cost, coverage, gate, fault);
      }
      tick := tick + 1;
    }

    method WriteSubmissionLedger()
      modifies this
      ensures Now() == Persisted(old(Now()))
    {
      history := history + [Write(Disk(ledger, agentUsageLedger), totalCandidateCost)];
    }

    method FinishEntry() returns (reason: Option<StopReason>)
      modifies this
      ensures Stop(reason, Now()) == AfterEntry(env, old(Now()))
    {
      evaluatedCount := evaluatedCount + 1;
      WriteSubmissionLedger();
      if pendingStopReason.Some? {
        return pendingStopReason;
      }
      reason := CandidateLimitStopReason();
    }

    method AppendEntry(entry: Entry)
      modifies this
      ensures Now() == Appended(old(Now()), entry)
    {
      ledger := ledger + [entry];
      if entry.status == FeedbackWritten {
        feedbackCount := feedbackCount + 1;
      } else if entry.status == EvaluationFailed {
        failedCount := failedCount + 1;
      }
    }

    method RecordFailure(id: string, digest: Digest) returns (reason: Option<StopReason>)
      modifies this
      ensures Stop(reason, Now()) == FailureRecorded(env, old(Now()), id, digest)
    {
      if Contains(ledger, id, digest) {
        return None;
      }
      AppendEntry(FailedEntry(id, digest));
      reason := FinishEntry();
    }

    method RecordFeedback(entry: Entry) returns (reason: Option<StopReason>)
      modifies this
      requires entry.status == FeedbackWritten
      ensures Stop(reason, Now()) == AfterEntry(env, Appended(old(Now()), entry))
    {
      AppendEntry(entry);
      reason := FinishEntry();
    }

    method RecordOutcome(id: string, digest: Digest, outcome: Outcome) returns (reason: Option<StopReason>)
      modifies this
      ensures Stop(reason, Now()) == OutcomeRecorded(env, old(Now()), id, digest, outcome)
    {
      if outcome.Raised? || outcome.fault == BeforeCost {
        reason := RecordFailure(id, digest);
        return;
      }
      totalCandidateCost := MaxAmount(totalCandidateCost, outcome.cost);
      if outcome.fault == AfterCost {
        reason := RecordFailure(id, digest);
        return;
      }
      reason := RecordFeedback(FeedbackEntry(id, digest, outcome));
    }

    method ProcessSubmission(submission: Submission) returns (reason: Option<StopReason>)
      modifies this
      ensures Stop(reason, Now()) == Processed(env, old(Now()), submission)
    {
      reason := CandidateLimitStopReason();
      if reason.Some? {
        return;
      }
      if submission.contents.None? {
        reason := RecordFailure(submission.name, FailureMarker(submission.name));
        return;
      }
      var digest := Contents(submission.contents.value);
      if Contains(ledger, submission.name, digest) {
        return None;
      }
      if !submission.valid {
        reason := RecordFailure(submission.name, digest);
        return;
      }
      reason := CurrentStopReason();
      if reason == Some(Crash) {
        reason := RecordFailure(submission.name, digest);
        return;
      }
      if reason.Some? {
        return;
      }
      var outcome := EvaluateCandidate();
      reason := RecordOutcome(submission.name, digest, outcome);
    }

    method DrainReadySubmissions() returns (reason: Option<StopReason>)
      modifies this
      ensures Stop(reason, Now()) == Drained(env, old(Now()))
    {
      reason := CandidateLimitStopReason();
      if reason.Some? {
        return;
      }
      var listing := env.listing(tick);
      tick := tick + 1;
      reason := ProcessListing(listing);
    }

    method ProcessListing(listing: Option<seq<Submission>>) returns (reason: Option<StopReason>)
      modifies this
      ensures Stop(reason, Now()) == ListedAll(env, old(Now()), listing)
    {
      if listing.None? {
        return None;
      }
      reason := ProcessSubmissions(listing.value);
    }

    method ProcessSubmissions(submissions: seq<Submission>) returns (reason: Option<StopReason>)
      modifies this
      ensures Stop(reason, Now()) == ProcessedAll(env, old(Now()), submissions)
    {
      ghost var all := ProcessedAll(env, Now(), submissions);
      assert submissions[0..] == submissions;
      for i := 0 to |submissions|
        invariant ProcessedAll(env, Now(), submissions[i..]) == all
      {
        reason := ProcessSubmission(submissions[i]);
        assert submissions[i..][1..] == submissions[i + 1..];
        if reason.Some? {
          return;
        }
      }
      return None;
    }

    method LoopUntilStopped() returns (reason: Option<StopReason>)
      modifies this
      ensures Stop(reason, Now()) == Looped(env, old(Now()), env.agentPolls)
    {
      var polls := env.agentPolls;
      while true
        invariant Looped(env, Now(), polls) == Looped(env, old(Now()), env.agentPolls)
        decreases polls
      {
        reason := CurrentStopReason();
        if reason.Some? {
          return;
        }
        reason := DrainReadySubmissions();
        if reason.Some? {
          return;
        }
        if polls == 0 {
          reason := DrainReadySubmissions();
          return if reason.Some? then reason else Some(env.agentEnd);
        }
        polls := polls - 1;
      }
    }

    method Run() returns (reason: Option<StopReason>)
      modifies this
      ensures forall disk: Disk :: old(Now()) == Resumed(disk) ==> Stop(reason, Now()) == WholeRun(env, disk)
    {
      reason := SyncCoreAgentUsageLedger();
      if reason.None? {
        reason := CandidateLimitStopReason();
        if reason.None? {
          reason := LoopUntilStopped();
        }
      }
      if reason == Some(Crash) {
        return;
      }
      var crash := RefreshTotalCompileCost();
      if crash.Some? {
        reason := crash;
      }
    }
  }
}
