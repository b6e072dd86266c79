/** The agent's usage file and the copy of it that the agent cannot lower. */
module UsageLedger {
  import opened Wrappers
  import opened Costs

  // ---------------------------------------------------------------------------
  // The usage file
  // ---------------------------------------------------------------------------

  /** A cost as it stands in the file: none, a number, one of JSON's three that are no finite number, an integer that
      no float can hold, or something else. */
  datatype RawCost = NoCost | Number(value: real) | PlusInfinity | MinusInfinity | NaN | Oversized | NotANumber

  /** An element of the file's list; an event without a cost costs nothing. */
  datatype RawEvent = NotAMapping | RawEvent(kind: Option<string>, cost: RawCost)

  /** A file may be nested too deep for the parser. */
  datatype UsageFile = Missing | Unreadable | TooDeep | NotAList | Listed(events: seq<RawEvent>)

  datatype UsageEvent = UsageEvent(kind: string, cost: Cost)

  /** What reading a file gives: an exception, nothing when it is malformed, or its well-formed events. */
  datatype Reading = Raises | Malformed | Read(events: seq<UsageEvent>)

  /** An event that is looked at: it has a kind, and its cost is a number. */
  predicate Considered(raw: RawEvent) {
    raw.RawEvent? && raw.kind.Some? && !raw.cost.NotANumber?
  }

  predicate RaisesOn(raw: RawEvent) { Considered(raw) && raw.cost.Oversized? }

  function CostOf(cost: RawCost): Cost {
    match cost
    case NoCost => Finite(0.0)
    case Number(value) => Finite(value)
    case PlusInfinity => Infinite
    case _ => Undefined
  }

  predicate Negative(cost: RawCost) { cost.MinusInfinity? || (cost.Number? && cost.value < 0.0) }

  predicate Accepted(raw: RawEvent) { Considered(raw) && !Negative(raw.cost) }

  function AcceptedEvents(raw: seq<RawEvent>): seq<UsageEvent> {
    if raw == [] then []
    else
      var n := |raw| - 1;
      AcceptedEvents(raw[..n]) + (if Accepted(raw[n]) then [UsageEvent(raw[n].kind.value, CostOf(raw[n].cost))] else [])
  }

  predicate SomeRaises(raw: seq<RawEvent>) {
    raw != [] && (SomeRaises(raw[..|raw| - 1]) || RaisesOn(raw[|raw| - 1]))
  }

  lemma {:induction false} NoneRaises(raw: seq<RawEvent>)
    ensures SomeRaises(raw) <==> exists r <- raw :: RaisesOn(r)
  {
    if raw != [] {
      var before, last := raw[..|raw| - 1], raw[|raw| - 1];
      NoneRaises(before);
      assert raw == before + [last];
      assert (exists r <- raw :: RaisesOn(r)) <==> (exists r <- before :: RaisesOn(r)) || RaisesOn(last);
    }
  }

  /** A missing file says that nothing was used. */
  function ReadingOf(file: UsageFile): Reading {
    match file
    case Missing => Read([])
    case Unreadable => Malformed
    case TooDeep => Raises
    case NotAList => Malformed
    case Listed(events) => if SomeRaises(events) then Raises else Read(AcceptedEvents(events))
  }

  method ReadAgentUsageLedger(file: UsageFile) returns (ledger: Reading)
    ensures ledger == ReadingOf(file)
  {
    if file.Missing? {
      return Read([]);
    }
    if file.TooDeep? {
      return Raises;
    }
    if !file.Listed? {
      return Malformed;
    }
    var events := [];
    for i := 0 to |file.events|
      invariant !SomeRaises(file.events[..i])
      invariant events == AcceptedEvents(file.events[..i])
    {
      assert file.events[..i + 1][..i] == file.events[..i];
      var raw := file.events[i];
      if raw.NotAMapping? {
        continue;
      }
      if raw.kind.None? || raw.cost.NotANumber? {
        continue;
      }
      if raw.cost.Oversized? {
        assert RaisesOn(file.events[i]);
        NoneRaises(file.events);
        return Raises;
      }
      if raw.cost.MinusInfinity? || (raw.cost.Number? && raw.cost.value < 0.0) {
        continue;
      }
      events := events + [UsageEvent(raw.kind.value, CostOf(raw.cost))];
    }
    assert file.events[..|file.events|] == file.events;
    ledger := Read(events);
  }

  function CostOfAll(events: seq<UsageEvent>): Cost {
    if events == [] then NOTHING else Plus(CostOfAll(events[..|events| - 1]), events[|events| - 1].cost)
  }

  // ---------------------------------------------------------------------------
  // The kept copy
  // ---------------------------------------------------------------------------

  /** A file whose cost is undefined is never kept, and no file costs less than nothing. */
  type Kept = events: seq<UsageEvent> | Keepable(CostOfAll(events)) witness []

  predicate Keepable(c: Cost) { c.Infinite? || (c.Finite? && c.value >= 0.0) }

  function KeptCost(kept: Kept): Amount { CostOfAll(kept) }

  /** The kept copy follows the file only upwards. */
  function Synced(core: Kept, file: UsageFile): Kept {
    var observed := ReadingOf(file);
    if observed.Read? && Greater(CostOfAll(observed.events), KeptCost(core)) then observed.events else core
  }

  function SyncedAll(core: Kept, files: seq<UsageFile>): Kept {
    if files == [] then core
    else Synced(SyncedAll(core, files[..|files| - 1]), files[|files| - 1])
  }

  /** The file has a cost that counts: it can be read and no event makes the cost undefined. */
  predicate Counts(file: UsageFile) { ReadingOf(file).Read? && Keepable(CostOfAll(ReadingOf(file).events)) }

  function FileCost(file: UsageFile): Amount
    requires Counts(file)
  {
    CostOfAll(ReadingOf(file).events)
  }

  /** `bound` is at least the cost of every file that counts. */
  ghost predicate CoversFiles(bound: Amount, files: seq<UsageFile>) {
    forall f <- files :: Counts(f) ==> AtMost(FileCost(f), bound)
  }

  /** Over any files the kept cost is the greatest of the cost kept at first and the costs of the files that count;
      the others change nothing. */
  lemma {:induction false} KeptCostIsRunningMaximum(core: Kept, files: seq<UsageFile>)
    ensures AtMost(KeptCost(core), KeptCost(SyncedAll(core, files))) && CoversFiles(KeptCost(SyncedAll(core, files)), files)
    ensures SyncedAll(core, files) == core || exists f <- files :: Counts(f) && SyncedAll(core, files) == ReadingOf(f).events
  {
    if files != [] {
      var n := |files| - 1;
      KeptCostIsRunningMaximum(core, files[..n]);
      assert files == files[..n] + [files[n]];
      assert files[n] in files;
    }
  }

  // ---------------------------------------------------------------------------
  // Which files count
  // ---------------------------------------------------------------------------

  predicate HidesTheCost(raw: RawEvent) { Considered(raw) && raw.cost.NaN? }

  predicate BlowsUp(raw: RawEvent) { Considered(raw) && raw.cost.PlusInfinity? }

  /** The finite costs of a list, the negative ones left out. */
  function FiniteCost(raw: seq<RawEvent>): real {
    if raw == [] then 0.0
    else
      var n := |raw| - 1;
      FiniteCost(raw[..n]) + (if Accepted(raw[n]) && raw[n].cost.Number? then raw[n].cost.value else 0.0)
  }

  predicate SomeHides(raw: seq<RawEvent>) { exists r <- raw :: HidesTheCost(r) }

  predicate SomeBlowsUp(raw: seq<RawEvent>) { exists r <- raw :: BlowsUp(r) }

  /** The cost of a list without oversized costs: undefined when one event has NaN, infinite when one is, and
      otherwise the sum of the costs that are not negative. */
  function ListCost(raw: seq<RawEvent>): Cost {
    if SomeHides(raw) then Undefined else if SomeBlowsUp(raw) then Infinite else Finite(FiniteCost(raw))
  }

  lemma SomeOneMore(raw: seq<RawEvent>, last: RawEvent)
    ensures SomeHides(raw + [last]) <==> SomeHides(raw) || HidesTheCost(last)
    ensures SomeBlowsUp(raw + [last]) <==> SomeBlowsUp(raw) || BlowsUp(last)
  {
    var more := raw + [last];
    assert forall r :: r in more <==> r in raw || r == last;
    if SomeHides(raw) {
      var r :| r in raw && HidesTheCost(r);
      assert r in more;
    }
    if SomeBlowsUp(raw) {
      var r :| r in raw && BlowsUp(r);
      assert r in more;
    }
  }

  lemma ListCostOneMore(raw: seq<RawEvent>, last: RawEvent)
    requires !RaisesOn(last)
    ensures ListCost(raw + [last]) == if Accepted(last) then Plus(ListCost(raw), CostOf(last.cost)) else ListCost(raw)
  {
    SomeOneMore(raw, last);
    assert (raw + [last])[..|raw|] == raw;
  }

  lemma AcceptedOneMore(raw: seq<RawEvent>, last: RawEvent)
    ensures CostOfAll(AcceptedEvents(raw + [last]))
         == if Accepted(last) then Plus(CostOfAll(AcceptedEvents(raw)), CostOf(last.cost)) else CostOfAll(AcceptedEvents(raw))
  {
    var events := AcceptedEvents(raw);
    assert (raw + [last])[..|raw|] == raw;
    if Accepted(last) {
      var e := UsageEvent(last.kind.value, CostOf(last.cost));
      assert (events + [e])[..|events|] == events;
    } else {
      assert AcceptedEvents(raw + [last]) == events;
    }
  }

  lemma {:induction false} CostOfAccepted(raw: seq<RawEvent>)
    requires forall r <- raw :: !RaisesOn(r)
    ensures CostOfAll(AcceptedEvents(raw)) == ListCost(raw)
  {
    if raw != [] {
      var before, last := raw[..|raw| - 1], raw[|raw| - 1];
      assert raw == before + [last] && last in raw;
      CostOfAccepted(before);
      AcceptedOneMore(before, last);
      ListCostOneMore(before, last);
    }
  }

  /** A file raises the kept cost exactly when it is a list, none of its events has an oversized cost or NaN, and an
      event costs infinitely much or the others more than what is kept. */
  lemma FileMovesKeptCostIff(core: Kept, file: UsageFile)
    ensures KeptCost(Synced(core, file)) != KeptCost(core)
            <==> && file.Listed? && KeptCost(core).Finite?
                 && (forall raw <- file.events :: !RaisesOn(raw) && !HidesTheCost(raw))
                 && ((exists raw <- file.events :: BlowsUp(raw)) || FiniteCost(file.events) > KeptCost(core).value)
    ensures Synced(core, file) == core || KeptCost(Synced(core, file)) != KeptCost(core)
  {
    if file.Listed? {
      NoneRaises(file.events);
      if !SomeRaises(file.events) {
        CostOfAccepted(file.events);
      }
    }
  }
}
