/**
 The screening hold on a settlement payout, statement by statement.

 One payout is followed from its creation to its end, with the screening row of its destination, its batch and its allowance
 reservation. Requests for the payout, the dispatching worker, passes that re-screen a hold when the screening list moves, and
 reviewers' dispositions all run at once, each through its own sequence of store calls; none of them takes a lock that
 outlives one call, and any call may fail.
 */
module HeldPayouts {
  import opened StoreCalls
  import opened Wrappers
  import L = Ledger
  import R = Rescreen

  datatype PayoutStatus = Queued | Held | Processing | Completed | Failed | Reversed

  // A screening row: the decision on record and the list version it was last screened against; also a screener's answer.
  datatype Row = Row(decision: string, version: string)

  // `sent` is no column: the bank has paid this payout, once or more under its one reference.
  datatype Movement = Movement(status: PayoutStatus, row: Option<Row>, attempts: nat, batch: L.BatchStatus, reserved: bool,
                               sent: bool)

  datatype Outcome = Paid | Declined | Pending

  // NotReached: a lookup failed before the screening.
  datatype Verdict = NotReached | Released | StillHeld | Interdicted | Done | Broken

  // The next call of a request or worker (to AtSettle), of a pass (to AtApply), of an approval and of a rejection. `answer`
  // and `outcome` are what the screener and the bank will say if asked; a screener that is down says nothing.
  datatype Pc =
    | AtReserve(answer: Option<Row>, outcome: Outcome)
    | AtLook(answer: Option<Row>, outcome: Outcome)
    | AtRecord(found: Row, outcome: Outcome)
    | AtHold
    | AtInterdict
    | AtClaim(outcome: Outcome)
    | AtBank(outcome: Outcome)
    | AtSettle(outcome: Outcome)
    | AtRefresh(found: Row)
    | AtDecide(decision: string)
    | AtApply(decision: string)
    | AtClear
    | AtQueue
    | AtReverse
    | AtRelease
    | AtReopen
    | AtReread(verdict: Verdict)
    | Gone(verdict: Verdict)

  datatype Event =
    | Request(answer: Option<Row>, outcome: Outcome)
    | Work(outcome: Outcome)
    | Rescreen(newest: string, answer: Option<Row>)
    | Approve
    | Reject
    | Move(proc: nat, fault: Fault)
    | Retry
    | Cancel
    | Requeue

  datatype World = World(movement: Movement, procs: seq<Pc>)

  const MAX_ATTEMPTS := L.PAYOUT_MAX_ATTEMPTS

  // The payout as its first request inserts it.
  const CREATED := Movement(Queued, None, 0, L.Open, false, false)
  const START := World(CREATED, [])

  predicate OpenHold(row: Option<Row>) {
    row.Some? && (row.value.decision == R.POSSIBLE || row.value.decision == R.STRONG)
  }

  predicate Closed(row: Option<Row>) {
    row.Some? && !OpenHold(row)
  }

  predicate Cleared(row: Option<Row>) {
    row.Some? && !R.BlockedByScreening(row.value.decision)
  }

  // ---------- the statements ----------

  // What the gate does with a decision on record.
  function Enforce(decision: string, outcome: Outcome): Pc {
    if !R.BlockedByScreening(decision) then AtClaim(outcome)
    else if decision == R.POSSIBLE || decision == R.STRONG then AtHold
    else if decision == R.BLOCKED then AtInterdict
    else Gone(Broken)
  }

  // The guarded updates: the named status, and no other, becomes the new one.
  function Shift(m: Movement, was: PayoutStatus, now: PayoutStatus): Movement {
    if m.status == was then m.(status := now) else m
  }

  function Reopened(m: Movement): Movement {
    if m.batch == L.Scheduled then m.(batch := L.Open) else m
  }

  // A call that takes effect, and the next one.
  function Landed(m: Movement, pc: Pc): (Movement, Pc) {
    match pc
    case AtReserve(answer, outcome) => (m.(reserved := true), AtLook(answer, outcome))
    case AtLook(answer, outcome) =>
      (m, if m.row.Some? then Enforce(m.row.value.decision, outcome)
          else if answer.Some? then AtRecord(answer.value, outcome)
          else AtHold)
    case AtRecord(found, outcome) =>
      if m.row.Some? then (m, AtLook(None, outcome))
      else if !R.Recordable(found.decision) then (m, Gone(Broken))
      else (m.(row := Some(found)), Enforce(found.decision, outcome))
    case AtHold => (Shift(m, Queued, Held), Gone(StillHeld))
    case AtInterdict => (Shift(m, Queued, Failed), Gone(Interdicted))
    case AtClaim(outcome) =>
      if m.status == Queued then (m.(status := Processing, attempts := m.attempts + 1, batch := L.Scheduled), AtBank(outcome))
      else (m, AtReread(Done))
    case AtBank(outcome) => (m.(sent := m.sent || outcome == Paid), AtSettle(outcome))
    case AtSettle(outcome) =>
      if outcome == Pending then (m, AtReread(Done))
      else if outcome == Declined then (Shift(m, Processing, Failed), AtReread(Done))
      else if m.status == Processing then (m.(status := Completed, batch := L.Processed), AtReread(Done))
      else (m, Gone(Broken))
    case AtRefresh(found) =>
      if !OpenHold(m.row) then (m, Gone(Broken))
      else (m.(row := Some(m.row.value.(version := found.version))),
            if found.decision == R.CLEAR || found.decision == R.BLOCKED then AtDecide(found.decision)
            else if found.decision == R.POSSIBLE || found.decision == R.STRONG then Gone(StillHeld)
            else Gone(Broken))
    case AtDecide(decision) => // the rows it affected are not counted
      (if OpenHold(m.row) then m.(row := Some(m.row.value.(decision := decision))) else m, AtApply(decision))
    case AtApply(decision) =>
      if decision == R.CLEAR then (Shift(m, Held, Queued), if m.status == Held then AtReread(Released) else Gone(Broken))
      else (Shift(m, Held, Failed), Gone(Interdicted))
    case AtClear =>
      if OpenHold(m.row) then (m.(row := Some(m.row.value.(decision := R.MANUALLY_CLEARED))), AtQueue) else (m, Gone(Broken))
    case AtQueue => (Shift(m, Held, Queued), if m.status == Held then AtReread(Done) else Gone(Broken))
    case AtReverse => (m.(status := Reversed), AtRelease) // whatever the status is by now
    case AtRelease => (m.(reserved := false), AtReopen)
    case AtReopen => (Reopened(m), AtReread(Done))
    case AtReread(verdict) => (m, Gone(verdict))
    case Gone(_) => (m, pc)
  }

  // A call without an answer ends its caller, except that the bank's silence is taken for a refusal, and an error in
  // recording a refusal is dropped.
  function Unanswered(pc: Pc): Pc {
    match pc
    case Gone(_) => pc
    case AtBank(_) => AtSettle(Declined)
    case AtSettle(outcome) => if outcome == Paid then Gone(Broken) else AtReread(Done)
    case _ => Gone(Broken)
  }

  function Statement(m: Movement, pc: Pc, fault: Fault): (Movement, Pc) {
    match fault
    case Ok => Landed(m, pc)
    case Error => (m, Unanswered(pc))
    case LostAck => (Landed(m, pc).0, Unanswered(pc))
  }

  // ---------- who starts ----------

  // Listed for re-evaluation: held, on an open hold, against another list version than the newest.
  predicate Stale(m: Movement, newest: string) {
    m.status == Held && OpenHold(m.row) && m.row.value.version != newest
  }

  function Begin(m: Movement, e: Event): Option<Pc> {
    match e
    case Request(answer, outcome) =>
      if m.status != Completed && m.status != Reversed then Some(AtReserve(answer, outcome)) else None
    case Work(outcome) => if m.status == Queued then Some(AtClaim(outcome)) else None
    case Rescreen(newest, answer) => if Stale(m, newest) && answer.Some? then Some(AtRefresh(answer.value)) else None
    case Approve => if m.status == Held then Some(AtClear) else None
    case Reject => if m.status == Held then Some(AtReverse) else None
    case _ => None
  }

  // The operator's retry and cancellation, and the requeue of a claim that went stale, are one transaction each.
  function AtOnce(m: Movement, e: Event): Movement {
    match e
    case Retry => if m.attempts < MAX_ATTEMPTS then Shift(m, Failed, Queued) else m
    case Cancel =>
      if m.status == Failed || m.status == Processing then Reopened(m.(status := Reversed, reserved := false)) else m
    case Requeue => Shift(m, Processing, Queued)
    case _ => m
  }

  function Next(w: World, e: Event): World {
    if e.Move? then
      if e.proc < |w.procs| then
        var (m, pc) := Statement(w.movement, w.procs[e.proc], e.fault);
        World(m, w.procs[e.proc := pc])
      else w
    else
      var started := Begin(w.movement, e);
      if started.Some? then w.(procs := w.procs + [started.value]) else w.(movement := AtOnce(w.movement, e))
  }

  function Run(w: World, events: seq<Event>): World
    decreases |events|
  {
    if events == [] then w else Run(Next(w, events[0]), events[1..])
  }

  // ---------- saying when ----------

  // Something satisfies `sets`, and nothing after it satisfies `unsets`.
  ghost predicate Since(sets: (World, Event) -> bool, unsets: (World, Event) -> bool, w: World, events: seq<Event>)
    decreases |events|
  {
    events != [] && ((sets(w, events[0]) && Never(unsets, Next(w, events[0]), events[1..]))
                     || Since(sets, unsets, Next(w, events[0]), events[1..]))
  }

  ghost predicate Never(what: (World, Event) -> bool, w: World, events: seq<Event>)
    decreases |events|
  {
    events == [] || (!what(w, events[0]) && Never(what, Next(w, events[0]), events[1..]))
  }

  // What every step sets and unsets holds after a run exactly when it was set and not unsets since.
  lemma {:induction false} HoldsIffSetSince(holds: World -> bool, sets: (World, Event) -> bool, unsets: (World, Event) -> bool,
                                            kept: World -> bool, w: World, events: seq<Event>)
    requires kept(w)
    requires forall x, e :: kept(x) ==> kept(Next(x, e)) && (holds(Next(x, e)) <==> sets(x, e) || (holds(x) && !unsets(x, e)))
    ensures kept(Run(w, events))
    ensures holds(Run(w, events)) <==> Since(sets, unsets, w, events) || (holds(w) && Never(unsets, w, events))
    decreases |events|
  {
    if events != [] { HoldsIffSetSince(holds, sets, unsets, kept, Next(w, events[0]), events[1..]); }
    hide Next;
  }
}
