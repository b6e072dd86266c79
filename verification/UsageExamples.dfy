/** Usage files that do more, or less, than their numbers say. */
module UsageExamples {
  import opened Wrappers
  import opened Costs
  import opened UsageLedger
  import opened CompileLoop

  function Event(cost: RawCost): RawEvent { RawEvent(Some("tokens"), cost) }

  lemma PlainFile()
    ensures ReadingOf(Listed([Event(Number(5.0))])) == Read([UsageEvent("tokens", Finite(5.0))])
    ensures CostOfAll([UsageEvent("tokens", Finite(5.0))]) == Finite(5.0)
  {
    assert [Event(Number(5.0))][..0] == [];
    assert [UsageEvent("tokens", Finite(5.0))][..0] == [];
  }

  /** One event with NaN hides all others of its file: of these two files the first is kept, the second is not. */
  lemma OneUndefinedCostHidesTheFile()
    ensures KeptCost(Synced([], Listed([Event(Number(5.0))]))) == Finite(5.0)
    ensures Synced([], Listed([Event(Number(5.0)), Event(NaN)])) == []
  {
    var hidden := [Event(Number(5.0)), Event(NaN)];
    PlainFile();
    assert hidden[1] in hidden && HidesTheCost(hidden[1]);
    FileMovesKeptCostIff([], Listed(hidden));
  }

  lemma InfiniteFile()
    ensures ReadingOf(Listed([Event(PlusInfinity)])) == Read([UsageEvent("tokens", Infinite)])
    ensures CostOfAll([UsageEvent("tokens", Infinite)]) == Infinite
  {
    assert [Event(PlusInfinity)][..0] == [];
    assert [UsageEvent("tokens", Infinite)][..0] == [];
  }

  /** One infinite cost is kept for good: no file changes the kept copy again. */
  lemma AnInfiniteCostIsKept(kept: Kept, file: UsageFile)
    ensures KeptCost(Synced([], Listed([Event(PlusInfinity)]))) == Infinite
    ensures KeptCost(kept) == Infinite ==> Synced(kept, file) == kept
  {
    InfiniteFile();
  }

  /** One oversized cost ends the run that meets it first, before it looks at any submission. */
  lemma OneOversizedCostEndsTheRun(env: Env, disk: Disk)
    requires env.usageFile(0) == Listed([Event(Oversized)])
    ensures var stop := WholeRun(env, disk);
            stop.reason == Some(Crash) && stop.state.started == [] && stop.state.ledger == disk.ledger
  {
    assert RaisesOn([Event(Oversized)][0]);
  }

  /** Met as an evaluation starts, in a run without a budget, the same file fails the submission instead: it is
      recorded like one that was evaluated, and never looked at again. */
  lemma OneOversizedCostFailsTheSubmission(env: Env, s: State, submission: Submission)
    requires env.maxCost.None? && s.evaluated < env.maxCandidates && !env.timeUp(s.tick) && !env.userStop(s.tick)
    requires submission.contents.Some? && submission.valid
    requires !Contains(s.ledger, submission.name, Contents(submission.contents.value))
    requires env.usageFile(s.tick + 1) == Listed([Event(Oversized)])
    ensures var id, digest := submission.name, Contents(submission.contents.value);
            var t := Processed(env, s, submission).state;
            t.ledger == s.ledger + [FailedEntry(id, digest)] && Contains(t.ledger, id, digest)
  {
    var id, digest := submission.name, Contents(submission.contents.value);
    var t := Ticked(s);
    assert RaisesOn([Event(Oversized)][0]);
    assert LimitStop(env, s) == Stop(None, s);
    assert CurrentStop(env, s) == Stop(None, t);
    var e := EvaluatedCandidate(env, t);
    assert e.outcome == Raised && e.state.ledger == s.ledger;
    assert Processed(env, s, submission) == FailureRecorded(env, e.state, id, digest);
    assert (s.ledger + [FailedEntry(id, digest)])[|s.ledger|] == FailedEntry(id, digest);
    assert IsRecorded(FailedEntry(id, digest), id, digest);
  }
}
