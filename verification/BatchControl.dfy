/** The batch control plane: conditional status updates by any number of service instances, each with
    its own in-memory session starts, and the runtime those instances account for. */
module BatchControl {
  import opened Collections
  import opened Tables

  const GIB := 1024 * 1024 * 1024
  const WORKSPACE_HARD_STOP := 10 * GIB
  const WORKSPACE_SOFT_STOP := 15 * GIB
  const POSTGRES_HARD_STOP := 5 * GIB
  const POSTGRES_SOFT_STOP := 8 * GIB
  const OLLAMA_HARD_STOP_FAILURES := 3

  datatype GuardResult = GuardResult(tier: Tier, reason: Option<StopReason>)

  function Severity(tier: Tier): nat
  {
    match tier
    case Normal => 0
    case SoftStop => 1
    case HardStop => 2
  }

  function Tiered(free: nat, hard: nat, soft: nat, hardReason: StopReason, softReason: StopReason): GuardResult
  {
    if free < hard then GuardResult(HardStop, Some(hardReason))
    else if free < soft then GuardResult(SoftStop, Some(softReason))
    else GuardResult(Normal, None)
  }

  function CheckWorkspaceDisk(free: nat): GuardResult
  {
    Tiered(free, WORKSPACE_HARD_STOP, WORKSPACE_SOFT_STOP, WorkspaceHardStop, WorkspaceSoftStop)
  }

  function CheckPostgresDisk(free: nat): GuardResult
  {
    Tiered(free, POSTGRES_HARD_STOP, POSTGRES_SOFT_STOP, PostgresHardStop, PostgresSoftStop)
  }

  /** The more severe of the two disks; the workspace wins a tie. */
  function CheckDisk(workspaceFree: nat, postgresFree: nat): GuardResult
  {
    var workspace, postgres := CheckWorkspaceDisk(workspaceFree), CheckPostgresDisk(postgresFree);
    if Severity(postgres.tier) > Severity(workspace.tier) then postgres else workspace
  }

  datatype Row = Row(status: BatchStatus, stopReason: Option<StopReason>, runtime: int,
                     startedAt: Option<int>, completedAt: Option<int>)

  /** The five conditional updates. */
  datatype Call = Start | Pause(reason: StopReason) | Resume | Abort(reason: StopReason) | Complete(reason: StopReason)

  /** Anything else raises before the row is looked at. */
  predicate Accepts(call: Call)
  {
    match call
    case Pause(reason) => reason in PAUSE_REASONS
    case Abort(reason) => AbortSources(reason) != {}
    case Complete(reason) => reason in COMPLETE_REASONS
    case _ => true
  }

  function Expected(call: Call): set<BatchStatus>
  {
    match call
    case Start => {Planned}
    case Pause(_) => {Running}
    case Resume => {BatchStatus.Paused}
    case Abort(reason) => AbortSources(reason)
    case Complete(_) => {Running}
  }

  function Target(call: Call): BatchStatus
  {
    match call
    case Start => Running
    case Pause(_) => Paused
    case Resume => Running
    case Abort(_) => Aborted
    case Complete(_) => Completed
  }

  function ReasonOf(call: Call): Option<StopReason>
  {
    match call
    case Pause(reason) => Some(reason)
    case Abort(reason) => Some(reason)
    case Complete(reason) => Some(reason)
    case _ => None
  }

  predicate Applies(row: Row, call: Call)
  {
    Accepts(call) && row.status in Expected(call)
  }

  /** Time since this instance's own last start or resume of the batch; zero if it has none. */
  function Delta(started: Option<int>, now: int): int
  {
    if started.Some? then now - started.value else 0
  }

  function Updated(row: Row, call: Call, started: Option<int>, now: int): Row
  {
    Row(Target(call), ReasonOf(call),
        if Target(call) == Running then row.runtime else row.runtime + Delta(started, now),
        if call.Start? then Some(now) else row.startedAt,
        if call.Abort? || call.Complete? then Some(now) else row.completedAt)
  }

  /** A call goes through exactly when the frozen graph has its edge with its reason. */
  lemma AppliesExactlyWhenLegal(row: Row, call: Call)
    ensures Applies(row, call) <==>
            LegalTransition(row.status, Target(call), ReasonOf(call)) && (call.Start? ==> row.status == Planned) &&
            (call.Resume? ==> row.status == Paused)
    ensures Applies(row, call) <==>
            match call
            case Start => row.status == Planned
            case Resume => row.status == Paused
            case Pause(reason) => row.status == Running && (reason == WorkspaceSoftStop || reason == PostgresSoftStop || reason == ManualPause)
            case Complete(reason) =>
              row.status == Running && (reason == SourceWorkExhausted || reason == ExtractedBytesEnvelopeExhausted ||
                                        reason == EmbeddingsEnvelopeExhausted || reason == RuntimeBudgetExceeded)
            case Abort(reason) =>
              (row.status == Paused && reason == ManualAbort) ||
              ((row.status == Running || row.status == Paused) &&
               (reason == WorkspaceHardStop || reason == PostgresHardStop || reason == OllamaPersistentlyUnreachable ||
                reason == SafetyInvariantViolationDetected))
  {}

  // ----- the service -----------------------------------------------------------------------------

  class BatchTable {
    var rows: map<BatchId, Row>
    var now: int

    constructor (rows: map<BatchId, Row>, now: int)
      ensures this.rows == rows && this.now == now
    {
      this.rows := rows;
      this.now := now;
    }
  }

  /** `Raised` is the ValueError for an unknown batch or a reason of the wrong kind. */
  datatype Outcome = Raised | Transition(applied: bool)

  class BatchControlService {
    const table: BatchTable
    var sessionStarts: map<BatchId, int>

    constructor (table: BatchTable)
      ensures this.table == table && sessionStarts == map[]
    {
      this.table := table;
      sessionStarts := map[];
    }

    function Started(b: BatchId): Option<int>
      reads this
    {
      if b in sessionStarts then Some(sessionStarts[b]) else None
    }

    /** What one conditional update leaves behind in the table and in this instance's memory. */
    ghost predicate Ran(rows: map<BatchId, Row>, starts: map<BatchId, int>, b: BatchId, call: Call, outcome: Outcome)
      reads this, table
    {
      (outcome.Raised? <==> !Accepts(call) || b !in rows) &&
      (outcome.Transition? ==> (outcome.applied <==> Applies(rows[b], call))) &&
      if outcome == Transition(true)
      then table.rows == rows[b := Updated(rows[b], call, if b in starts then Some(starts[b]) else None, table.now)] &&
           sessionStarts == if Target(call) == Running then starts[b := table.now] else starts - {b}
      else table.rows == rows && sessionStarts == starts
    }

    /** The batch's row is now this one, and nothing else changed in the table. */
    twostate predicate RowIs(b: BatchId, row: Row)
      reads this, table
    {
      table.rows == old(table.rows)[b := row]
    }

    twostate predicate Unmoved()
      reads this, table
    {
      table.rows == old(table.rows) && sessionStarts == old(sessionStarts)
    }

    method PeekSessionDelta(b: BatchId) returns (delta: int)
      ensures delta == Delta(Started(b), table.now)
    {
      if b !in sessionStarts { return 0; }
      return table.now - sessionStarts[b];
    }

    /** `UPDATE ... WHERE id = :id AND status IN (:expected) RETURNING`. */
    method ApplyUpdate(b: BatchId, expected: set<BatchStatus>, target: BatchStatus, reason: Option<StopReason>,
                       delta: int,
                       setStartedAt: bool, setCompletedAt: bool) returns (outcome: Outcome)
      modifies table`rows
      ensures outcome.Raised? <==> b !in old(table.rows)
      ensures outcome.Transition? ==> outcome.applied == (old(table.rows)[b].status in expected)
      ensures outcome != Transition(true) ==> table.rows == old(table.rows)
      ensures outcome == Transition(true) ==>
                var row := old(table.rows)[b];
                table.rows == old(table.rows)[b :=
                  Row(target, if target == Running then None else if reason.Some? then reason else row.stopReason, row.runtime + delta,
                      if setStartedAt then Some(table.now) else row.startedAt,
                      if setCompletedAt then Some(table.now) else row.completedAt)]
    {
      if b !in table.rows { return Raised; }
      var row := table.rows[b];
      if row.status !in expected { return Transition(false); }
      var values := row.(status := target);
      if target == Running {
        values := values.(stopReason := None);
      } else if reason.Some? {
        values := values.(stopReason := reason);
      }
      if delta != 0 { values := values.(runtime := values.runtime + delta); }
      if setStartedAt { values := values.(startedAt := Some(table.now)); }
      if setCompletedAt { values := values.(completedAt := Some(table.now)); }
      table.rows := table.rows[b := values];
      return Transition(true);
    }

    method StartBatch(b: BatchId) returns (outcome: Outcome)
      modifies this`sessionStarts, table`rows
      ensures Ran(old(table.rows), old(sessionStarts), b, Start, outcome)
      ensures outcome == Transition(true) <==> b in old(table.rows) && old(table.rows)[b].status == Planned
      ensures if outcome == Transition(true)
              then RowIs(b, old(table.rows)[b].(status := Running, stopReason := None, startedAt := Some(table.now))) &&
                   sessionStarts == old(sessionStarts)[b := table.now]
              else Unmoved()
    {
      outcome := ApplyUpdate(b, {Planned}, Running, None, 0, true, false);
      if outcome == Transition(true) { sessionStarts := sessionStarts[b := table.now]; }
    }

    method PauseBatch(b: BatchId, reason: StopReason) returns (outcome: Outcome)
      modifies this`sessionStarts, table`rows
      ensures Ran(old(table.rows), old(sessionStarts), b, Pause(reason), outcome)
      ensures outcome.Raised? <==> b !in old(table.rows) || (reason != WorkspaceSoftStop && reason != PostgresSoftStop && reason != ManualPause)
      ensures outcome == Transition(true) <==> !outcome.Raised? && old(table.rows)[b].status == Running
      ensures if outcome == Transition(true)
              then var row := old(table.rows)[b];
                   var spent := if b in old(sessionStarts) then table.now - old(sessionStarts)[b] else 0;
                   RowIs(b, row.(status := Paused, stopReason := Some(reason), runtime := row.runtime + spent)) &&
                   sessionStarts == old(sessionStarts) - {b}
              else Unmoved()
    {
      if reason !in PAUSE_REASONS { return Raised; }
      var delta := PeekSessionDelta(b);
      outcome := ApplyUpdate(b, {Running}, Paused, Some(reason), delta, false, false);
      if outcome == Transition(true) { sessionStarts := sessionStarts - {b}; }
    }

    method AbortBatch(b: BatchId, reason: StopReason) returns (outcome: Outcome)
      modifies this`sessionStarts, table`rows
      ensures Ran(old(table.rows), old(sessionStarts), b, Abort(reason), outcome)
      ensures outcome.Raised? <==>
                b !in old(table.rows) ||
                (reason != WorkspaceHardStop && reason != PostgresHardStop && reason != OllamaPersistentlyUnreachable &&
                 reason != SafetyInvariantViolationDetected && reason != ManualAbort)
      ensures outcome == Transition(true) <==>
                !outcome.Raised? && (old(table.rows)[b].status == Paused || (old(table.rows)[b].status == Running && reason != ManualAbort))
      ensures if outcome == Transition(true)
              then var row := old(table.rows)[b];
                   var spent := if b in old(sessionStarts) then table.now - old(sessionStarts)[b] else 0;
                   RowIs(b, row.(status := Aborted, stopReason := Some(reason), runtime := row.runtime + spent, completedAt := Some(table.now))) &&
                   sessionStarts == old(sessionStarts) - {b}
              else Unmoved()
    {
      var sources := AbortSources(reason);
      if sources == {} { return Raised; }
      var delta := PeekSessionDelta(b);
      outcome := ApplyUpdate(b, sources, Aborted, Some(reason), delta, false, true);
      if outcome == Transition(true) { sessionStarts := sessionStarts - {b}; }
    }

    method CompleteBatch(b: BatchId, reason: StopReason) returns (outcome: Outcome)
      modifies this`sessionStarts, table`rows
      ensures Ran(old(table.rows), old(sessionStarts), b, Complete(reason), outcome)
      ensures outcome.Raised? <==>
                b !in old(table.rows) ||
                (reason != SourceWorkExhausted && reason != ExtractedBytesEnvelopeExhausted && reason != EmbeddingsEnvelopeExhausted &&
                 reason != RuntimeBudgetExceeded)
      ensures outcome == Transition(true) <==> !outcome.Raised? && old(table.rows)[b].status == Running
      ensures if outcome == Transition(true)
              then var row := old(table.rows)[b];
                   var spent := if b in old(sessionStarts) then table.now - old(sessionStarts)[b] else 0;
                   RowIs(b, row.(status := Completed, stopReason := Some(reason), runtime := row.runtime + spent, completedAt := Some(table.now))) &&
                   sessionStarts == old(sessionStarts) - {b}
              else Unmoved()
    {
      if reason !in COMPLETE_REASONS { return Raised; }
      var delta := PeekSessionDelta(b);
      outcome := ApplyUpdate(b, {Running}, Completed, Some(reason), delta, false, true);
      if outcome == Transition(true) { sessionStarts := sessionStarts - {b}; }
    }

    /** A fresh hard stop aborts the paused batch with the guard's own reason, which is always a legal
        one; a soft stop leaves it as it was; otherwise it resumes. `meanwhile` is the row as other callers
        may have left it between this caller's probe and its update. When they did nothing, the free sizes alone
        decide: under 10 GiB of workspace or 5 GiB for Postgres the batch is aborted, otherwise under 15 or 8 it is
        left alone, otherwise it runs again. */
    method ResumeBatch(b: BatchId, workspaceFree: nat, postgresFree: nat, meanwhile: Option<Row>)
      returns (outcome: Outcome)
      modifies this`sessionStarts, table`rows
      ensures outcome.Raised? <==> b !in old(table.rows)
      ensures b !in old(table.rows) || old(table.rows)[b].status != Paused ==>
                outcome != Transition(true) && table.rows == old(table.rows) && sessionStarts == old(sessionStarts)
      ensures b in old(table.rows) && old(table.rows)[b].status == Paused ==>
                var guard, rows := CheckDisk(workspaceFree, postgresFree), Meanwhile(old(table.rows), b, meanwhile);
                if guard.tier == HardStop then
                  guard.reason.Some? && Ran(rows, old(sessionStarts), b, Abort(guard.reason.value), outcome) &&
                  (meanwhile.None? ==> outcome == Transition(true))
                else if guard.tier == SoftStop then
                  outcome == Transition(false) && table.rows == rows && sessionStarts == old(sessionStarts)
                else Ran(rows, old(sessionStarts), b, Resume, outcome) && (meanwhile.None? ==> outcome == Transition(true))
      ensures b in old(table.rows) && old(table.rows)[b].status == Paused && meanwhile.None? ==>
                var row, gib := old(table.rows)[b], 0x4000_0000;
                var spent := if b in old(sessionStarts) then table.now - old(sessionStarts)[b] else 0;
                if workspaceFree < 10 * gib || postgresFree < 5 * gib then
                  outcome == Transition(true) && sessionStarts == old(sessionStarts) - {b} &&
                  RowIs(b, row.(status := Aborted, runtime := row.runtime + spent, completedAt := Some(table.now),
                                stopReason := Some(if workspaceFree < 10 * gib then WorkspaceHardStop else PostgresHardStop)))
                else if workspaceFree < 15 * gib || postgresFree < 8 * gib then outcome == Transition(false) && Unmoved()
                else outcome == Transition(true) && sessionStarts == old(sessionStarts)[b := table.now] &&
                     RowIs(b, row.(status := Running, stopReason := None))
    {
      if b !in table.rows { return Raised; }
      if table.rows[b].status != Paused { return Transition(false); }
      var guard := CheckDisk(workspaceFree, postgresFree);
      table.rows := Meanwhile(table.rows, b, meanwhile);
      if guard.tier == HardStop {
        outcome := AbortBatch(b, guard.reason.value);
        return;
      }
      if guard.tier == SoftStop { return Transition(false); }
      outcome := ApplyUpdate(b, {BatchStatus.Paused}, Running, None, 0, false, false);
      if outcome == Transition(true) { sessionStarts := sessionStarts[b := table.now]; }
    }
  }

  function Meanwhile(rows: map<BatchId, Row>, b: BatchId, row: Option<Row>): map<BatchId, Row>
  {
    if row.Some? then rows[b := row.value] else rows
  }

  /** The guard's own memory: three failed probes in a row, with none in between that succeeded. */
  class BatchResourceGuard {
    var consecutiveFailures: nat
    ghost var probes: seq<bool>

    ghost predicate Valid()
      reads this
    {
      consecutiveFailures == FailuresAtEnd(probes)
    }

    constructor ()
      ensures Valid() && probes == []
    {
      consecutiveFailures, probes := 0, [];
    }

    method CheckOllamaForEmbedding(reachable: bool) returns (result: GuardResult)
      requires Valid()
      modifies this
      ensures Valid() && probes == old(probes) + [reachable]
      ensures result.tier == HardStop <==> |probes| >= 3 && forall k :: |probes| - 3 <= k < |probes| ==> !probes[k]
      ensures result == GuardResult(HardStop, Some(OllamaPersistentlyUnreachable)) || result == GuardResult(Normal, None)
    {
      probes := probes + [reachable];
      assert probes[..|probes| - 1] == old(probes);
      FailureRun(probes, OLLAMA_HARD_STOP_FAILURES);
      if reachable {
        consecutiveFailures := 0;
        return GuardResult(Normal, None);
      }
      consecutiveFailures := consecutiveFailures + 1;
      if consecutiveFailures >= OLLAMA_HARD_STOP_FAILURES { return GuardResult(HardStop, Some(OllamaPersistentlyUnreachable)); }
      return GuardResult(Normal, None);
    }
  }

  function FailuresAtEnd(probes: seq<bool>): nat
  {
    if probes == [] || probes[|probes| - 1] then 0 else 1 + FailuresAtEnd(probes[..|probes| - 1])
  }

  lemma {:induction false} FailureRun(probes: seq<bool>, n: nat)
    ensures FailuresAtEnd(probes) >= n <==> |probes| >= n && forall k :: |probes| - n <= k < |probes| ==> !probes[k]
    decreases n
  {
    if n > 0 && probes != [] && !probes[|probes| - 1] {
      FailureRun(probes[..|probes| - 1], n - 1);
    } else if n > 0 && probes != [] {
      assert |probes| - n <= |probes| - 1 < |probes|;
    }
  }

  // ----- every run of one batch, by any number of instances ------------------------------------------

  type Caller = nat

  datatype Event = Tick(seconds: nat) | Crash(caller: Caller) | Calls(caller: Caller, call: Call)

  /** `closed` is the total length of the RUNNING periods that have ended, `since` the start of the
      latest one, `trace` every status the batch has had; no call reads them. */
  datatype World = World(row: Row, sessions: map<Caller, int>, now: int, closed: int, since: int, trace: seq<BatchStatus>)

  const NEW: World := World(Row(Planned, None, 0, None, None), map[], 0, 0, 0, [Planned])

  function SessionOf(w: World, c: Caller): Option<int>
  {
    if c in w.sessions then Some(w.sessions[c]) else None
  }

  function Step(w: World, e: Event): World
  {
    match e
    case Tick(seconds) => w.(now := w.now + seconds)
    case Crash(c) => w.(sessions := w.sessions - {c})
    case Calls(c, call) =>
      if !Applies(w.row, call) then w else
        World(Updated(w.row, call, SessionOf(w, c), w.now),
              if Target(call) == Running then w.sessions[c := w.now] else w.sessions - {c}, w.now,
              if w.row.status == Running then w.closed + w.now - w.since else w.closed,
              if Target(call) == Running then w.now else w.since,
              w.trace + [Target(call)])
  }

  function After(events: seq<Event>): World
  {
    if events == [] then NEW else Step(After(events[..|events| - 1]), events[|events| - 1])
  }

  predicate Edge(from: BatchStatus, to: BatchStatus)
  {
    (from == Planned && to == Running) || (from == Running && to in {Paused, Completed, Aborted}) ||
    (from == Paused && to in {Running, Aborted})
  }

  predicate Path(trace: seq<BatchStatus>)
  {
    |trace| > 0 && trace[0] == Planned && forall k :: 0 <= k < |trace| - 1 ==> Edge(trace[k], trace[k + 1])
  }

  /** In every run the status trace is a path of the frozen graph from PLANNED; a terminal status can
      only be its last element; and stop_reason is null exactly in PLANNED and RUNNING. */
  lemma {:induction false} TraceFollowsGraph(events: seq<Event>)
    ensures var w := After(events);
            Path(w.trace) && w.trace[|w.trace| - 1] == w.row.status &&
            (forall k :: 0 <= k < |w.trace| - 1 ==> w.trace[k] !in {Completed, Aborted}) &&
            (w.row.stopReason.None? <==> w.row.status in {Planned, Running}) &&
            (w.row.completedAt.Some? <==> w.row.status in {Completed, Aborted}) &&
            (w.row.startedAt.None? <==> w.row.status == Planned)
    decreases |events|
  {
    if events != [] {
      TraceFollowsGraph(events[..|events| - 1]);
    }
  }

  /** Once terminal, no later event changes the row. */
  lemma {:induction false} TerminalAbsorbs(before: seq<Event>, after: seq<Event>)
    requires After(before).row.status in {Completed, Aborted}
    ensures After(before + after).row == After(before).row
    decreases |after|
  {
    if after == [] {
      assert before + after == before;
    } else {
      var last := |after| - 1;
      assert (before + after)[..|before + after| - 1] == before + after[..last];
      TerminalAbsorbs(before, after[..last]);
    }
  }

  // ----- runtime accounting ------------------------------------------------------------------------------

  /** Every session start is the start of some RUNNING period, the current one at the latest. */
  lemma {:induction false} SessionsArePast(events: seq<Event>)
    ensures var w := After(events);
            w.since <= w.now && forall c :: c in w.sessions ==> w.sessions[c] <= w.since
    decreases |events|
  {
    if events != [] { SessionsArePast(events[..|events| - 1]); }
  }

  /** The call goes through and is one of those that add the caller's session to the recorded runtime:
      pausing, completing and aborting, the latter from PAUSED as well. */
  predicate Records(w: World, call: Call)
  {
    Applies(w.row, call) && Target(call) != Running
  }

  /** Where the RUNNING time that such a call should account for begins; outside RUNNING there is none. */
  function PeriodStart(w: World): int
  {
    if w.row.status == Running then w.since else w.now
  }

  /** What such a call records is the RUNNING time it ends exactly when the caller's session began with that
      time; it is too much exactly when the session is older, which from PAUSED is every session but one that
      began this very moment; and a caller without a session records nothing. */
  lemma RecordedIsExactIff(events: seq<Event>, c: Caller, call: Call)
    requires Records(After(events), call)
    ensures var w := After(events);
            var recorded, period := Step(w, Calls(c, call)).row.runtime - w.row.runtime, w.now - PeriodStart(w);
            (recorded == period <==> SessionOf(w, c) == Some(PeriodStart(w)) || (c !in w.sessions && period == 0)) &&
            (recorded > period <==> c in w.sessions && w.sessions[c] < PeriodStart(w)) &&
            (c !in w.sessions ==> recorded == 0)
  {
    SessionsArePast(events);
  }

  /** By how much an event moves the recorded runtime away from the closed RUNNING time. */
  function Drift(w: World, e: Event): int
  {
    if e.Calls? && Records(w, e.call) then Delta(SessionOf(w, e.caller), w.now) - (w.now - PeriodStart(w)) else 0
  }

  function TotalDrift(events: seq<Event>): int
    decreases |events|
  {
    if events == [] then 0 else
      TotalDrift(events[..|events| - 1]) + Drift(After(events[..|events| - 1]), events[|events| - 1])
  }

  /** Over every run of any number of instances the recorded runtime is the closed RUNNING time plus what
      the recording calls got wrong, and nothing else. */
  lemma {:induction false} RuntimeDrifts(events: seq<Event>)
    ensures After(events).row.runtime == After(events).closed + TotalDrift(events)
    decreases |events|
  {
    if events != [] { RuntimeDrifts(events[..|events| - 1]); }
  }

  /** A recording call whose caller's session is older than the RUNNING time it should account for. */
  predicate StaleCall(w: World, e: Event)
  {
    e.Calls? && Records(w, e.call) && e.caller in w.sessions && w.sessions[e.caller] < PeriodStart(w)
  }

  /** Recorded runtime can only exceed the real closed RUNNING time through such a call. */
  lemma {:induction false} NeverOverCounts(events: seq<Event>)
    requires forall k :: 0 <= k < |events| ==> !StaleCall(After(events[..k]), events[k])
    ensures After(events).row.runtime <= After(events).closed
    decreases |events|
  {
    if events != [] {
      var before := events[..|events| - 1];
      assert forall k :: 0 <= k < |before| ==> before[..k] == events[..k] && before[k] == events[k];
      NeverOverCounts(before);
      SessionsArePast(before);
    }
  }

  /** Instances come one after the other: a new one makes its first call only once the old ones are gone. */
  predicate OneLiveInstance(events: seq<Event>)
  {
    forall k, c :: 0 <= k < |events| && events[k].Calls? && c in After(events[..k]).sessions ==> c == events[k].caller
  }

  /** Whoever has a session began the RUNNING period the batch is in. */
  predicate SessionsCurrent(w: World)
  {
    forall c :: c in w.sessions ==> w.row.status == Running && w.sessions[c] == w.since
  }

  lemma {:induction false} LiveSessionIsCurrent(events: seq<Event>)
    requires OneLiveInstance(events)
    ensures SessionsCurrent(After(events))
    decreases |events|
  {
    if events != [] {
      var before := events[..|events| - 1];
      assert forall k :: 0 <= k < |before| ==> before[..k] == events[..k] && before[k] == events[k];
      LiveSessionIsCurrent(before);
      var last, w := events[|events| - 1], After(before);
      forall c | c in w.sessions && last.Calls? ensures c == last.caller {
        assert c in After(events[..|events| - 1]).sessions;
      }
    }
  }

  /** Across any restarts, with one live instance at a time, recorded runtime never exceeds the closed
      RUNNING time. */
  lemma RestartsNeverOverCount(events: seq<Event>)
    requires OneLiveInstance(events)
    ensures After(events).row.runtime <= After(events).closed
  {
    forall k | 0 <= k < |events| ensures !StaleCall(After(events[..k]), events[k]) {
      assert forall j :: 0 <= j < k ==> events[..k][..j] == events[..j];
      LiveSessionIsCurrent(events[..k]);
    }
    NeverOverCounts(events);
  }

  /** A single instance that never crashes accounts for the closed RUNNING time exactly. */
  lemma {:induction false} SingleInstanceIsExact(events: seq<Event>, c: Caller)
    requires forall k :: 0 <= k < |events| ==> !events[k].Crash? && (events[k].Calls? ==> events[k].caller == c)
    ensures var w := After(events);
            w.row.runtime == w.closed &&
            (forall d :: d in w.sessions ==> d == c) && (w.row.status == Running <==> c in w.sessions) &&
            (c in w.sessions ==> w.sessions[c] == w.since)
    decreases |events|
  {
    if events != [] { SingleInstanceIsExact(events[..|events| - 1], c); }
  }

  lemma AfterOneMore(before: seq<Event>, e: Event)
    ensures After(before + [e]) == Step(After(before), e)
  {
    assert (before + [e])[..|before|] == before;
  }

  /** One instance starts the batch, ten seconds later another one pauses it, and ten more seconds pass. */
  lemma PausedByAnother() returns (events: seq<Event>)
    ensures After(events) == World(Row(Paused, Some(ManualPause), 0, Some(0), None), map[1 := 0], 20, 10, 0, [Planned, Running, Paused])
  {
    AfterOneMore([], Calls(1, Start));
    events := [] + [Calls(1, Start)];
    assert After(events) == World(Row(Running, None, 0, Some(0), None), map[1 := 0], 0, 0, 0, [Planned, Running]) by {
      assert map[][1 := 0] == map[1 := 0] && [Planned] + [Running] == [Planned, Running];
    }
    AfterOneMore(events, Tick(10));
    events := events + [Tick(10)];
    AfterOneMore(events, Calls(2, Pause(ManualPause)));
    events := events + [Calls(2, Pause(ManualPause))];
    assert map[1 := 0] - {2} == map[1 := 0] && [Planned, Running] + [Paused] == [Planned, Running, Paused];
    AfterOneMore(events, Tick(10));
    events := events + [Tick(10)];
  }

  /** Two live instances can record more RUNNING time than there was: the first starts, the second
      pauses and resumes, the first pauses. */
  lemma TwoInstancesOverCount() returns (events: seq<Event>)
    ensures After(events).row.runtime == 30 && After(events).closed == 20
  {
    events := PausedByAnother();
    AfterOneMore(events, Calls(2, Resume));
    events := events + [Calls(2, Resume)];
    AfterOneMore(events, Tick(10));
    events := events + [Tick(10)];
    assert After(events).sessions[1] == 0 && After(events).since == 20;
    AfterOneMore(events, Calls(1, Pause(ManualPause)));
    events := events + [Calls(1, Pause(ManualPause))];
  }

  /** One period, and one instance too many, suffice: the first starts, the second pauses, and when the
      first aborts the paused batch it records all the time since its start. */
  lemma PausedAbortOverCounts() returns (events: seq<Event>)
    ensures After(events).row.runtime == 20 && After(events).closed == 10
    ensures After(events).row.status == Aborted
  {
    events := PausedByAnother();
    AfterOneMore(events, Calls(1, Abort(WorkspaceHardStop)));
    events := events + [Calls(1, Abort(WorkspaceHardStop))];
  }
}
