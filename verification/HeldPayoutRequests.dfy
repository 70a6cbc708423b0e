/**
 What each call about a settlement payout comes to when nothing fails and nothing else runs, and when each may start, in terms of
 the stored rows, with the five decisions, the three claims and the two verdicts of a bank written out.
 */
module HeldPayoutRequests {
  import opened HeldPayoutHandler
  import opened HeldPayouts
  import opened StoreCalls
  import opened Wrappers
  import L = Ledger

  predicate NothingFails(f: Faults) {
    f.reserve == f.look == f.record == f.enforce == f.claim == f.bank == f.settle == f.refresh == f.decide == f.payout == f.release
    == f.reopen == f.reread == Ok
  }

  predicate Passes(decision: string) {
    decision == "clear" || decision == "manually_cleared"
  }

  predicate Ambiguous(decision: string) {
    decision == "possible" || decision == "strong"
  }

  // The payout once the bank has been asked: pending stays in processing.
  function Asked(m: Movement, outcome: Outcome): Movement {
    var claimed := m.(attempts := m.attempts + 1);
    match outcome
    case Paid => claimed.(status := Completed, batch := L.Processed, sent := true)
    case Declined => claimed.(status := Failed, batch := L.Scheduled)
    case Pending => claimed.(status := Processing, batch := L.Scheduled)
  }

  // A queued payout as the gate leaves it; one that is not queued stays as it is.
  function Gated(m: Movement, decision: string, outcome: Outcome): Movement {
    if m.status != Queued then m
    else if Passes(decision) then Asked(m, outcome)
    else if Ambiguous(decision) then m.(status := Held)
    else if decision == "blocked" then m.(status := Failed)
    else m
  }

  lemma {:induction false} DispatchedAlone(m: Movement, outcome: Outcome, f: Faults)
    requires NothingFails(f)
    ensures Alone(m, AtClaim(outcome), f) == (if m.status == Queued then Asked(m, outcome) else m, Done)
  {
    AloneStep(m, AtClaim(outcome), f);
    if m.status == Queued {
      var claimed := m.(status := Processing, attempts := m.attempts + 1, batch := L.Scheduled);
      var asked := claimed.(sent := claimed.sent || outcome == Paid);
      AloneStep(claimed, AtBank(outcome), f);
      AloneStep(asked, AtSettle(outcome), f);
      AloneStep(Asked(m, outcome), AtReread(Done), f);
    } else {
      AloneStep(m, AtReread(Done), f);
    }
    hide Alone;
  }

  lemma {:induction false} GatedAlone(m: Movement, decision: string, outcome: Outcome, f: Faults)
    requires NothingFails(f)
    ensures Alone(m, Enforce(decision, outcome), f) ==
            (Gated(m, decision, outcome),
             if Passes(decision) then Done
             else if Ambiguous(decision) then StillHeld
             else if decision == "blocked" then Interdicted
             else Broken)
  {
    DispatchedAlone(m, outcome, f);
    AloneStep(m, Enforce(decision, outcome), f);
    hide Alone;
  }

  /**
   A request reserves the allowance and goes by the decision on record, or else by a fresh one that is recorded first; a payout
   whose screener is down is held, and one with an answer that cannot be recorded stays as it is.
   */
  lemma {:induction false} ARequestIsGated(m: Movement, answer: Option<Row>, outcome: Outcome, f: Faults)
    requires NothingFails(f)
    ensures var reserved := m.(reserved := true);
            Alone(m, AtReserve(answer, outcome), f).0 ==
            if m.row.Some? then Gated(reserved, m.row.value.decision, outcome)
            else if answer.None? then if m.status == Queued then reserved.(status := Held) else reserved
            else if answer.value.decision !in {"clear", "possible", "strong", "blocked", "manually_cleared"} then reserved
            else Gated(reserved.(row := answer), answer.value.decision, outcome)
  {
    var reserved := m.(reserved := true);
    AloneStep(m, AtReserve(answer, outcome), f);
    AloneStep(reserved, AtLook(answer, outcome), f);
    if m.row.Some? {
      GatedAlone(reserved, m.row.value.decision, outcome, f);
      AloneStep(reserved, Enforce(m.row.value.decision, outcome), f);
    } else if answer.None? {
      AloneStep(reserved, AtHold, f);
    } else {
      var found := answer.value;
      AloneStep(reserved, AtRecord(found, outcome), f);
      GatedAlone(reserved.(row := answer), found.decision, outcome, f);
      AloneStep(reserved.(row := answer), Enforce(found.decision, outcome), f);
    }
    hide Alone;
  }

  /**
   A pass over a hold on an open row records the list version it screened against, and goes by its decision: clear queues the
   payout, blocked fails it, and in both cases the row says so; anything else leaves the hold.
   */
  lemma {:induction false} APassFollowsItsScreen(m: Movement, decision: string, version: string, f: Faults)
    requires NothingFails(f) && m.status == Held && m.row.Some? && Ambiguous(m.row.value.decision)
    ensures Pass(m, Facts(true, Some(Row(decision, version)), f)) ==
            (if decision == "clear" then (m.(status := Queued, row := Some(Row("clear", version))), Released)
             else if decision == "blocked" then (m.(status := Failed, row := Some(Row("blocked", version))), Interdicted)
             else (m.(row := Some(m.row.value.(version := version))), if Ambiguous(decision) then StillHeld else Broken))
  {
    var refreshed := m.(row := Some(m.row.value.(version := version)));
    AloneStep(m, AtRefresh(Row(decision, version)), f);
    if decision == "clear" || decision == "blocked" {
      var decided := m.(row := Some(Row(decision, version)));
      AloneStep(refreshed, AtDecide(decision), f);
      AloneStep(decided, AtApply(decision), f);
      AloneStep(decided.(status := Queued), AtReread(Released), f);
    }
    hide Alone;
  }

  /**
   An approval queues a held payout whose row is open and marks the row cleared by hand, or changes nothing; a rejection
   reverses it, deletes its reservation and opens its batch if that was scheduled. Neither touches one that is not held.
   */
  lemma {:induction false} ADispositionIsCarriedOut(m: Movement, f: Faults)
    requires NothingFails(f)
    ensures Disposed(m, true, Facts(true, None, f)) ==
            if m.status == Held && m.row.Some? && Ambiguous(m.row.value.decision)
            then (m.(status := Queued, row := Some(Row("manually_cleared", m.row.value.version))), Done) else (m, Broken)
    ensures Disposed(m, false, Facts(true, None, f)) ==
            if m.status == Held
            then (m.(status := Reversed, reserved := false, batch := if m.batch == L.Scheduled then L.Open else m.batch), Done)
            else (m, Broken)
  {
    if m.status == Held {
      ApprovedAlone(m, f);
      RejectedAlone(m, f);
    }
    hide Alone, OpenHold, Ambiguous;
  }

  lemma {:induction false} ApprovedAlone(m: Movement, f: Faults)
    requires NothingFails(f) && m.status == Held
    ensures Alone(m, AtClear, f) ==
            if m.row.Some? && Ambiguous(m.row.value.decision)
            then (m.(status := Queued, row := Some(Row("manually_cleared", m.row.value.version))), Done) else (m, Broken)
  {
    AloneStep(m, AtClear, f);
    if m.row.Some? && Ambiguous(m.row.value.decision) {
      var cleared := m.(row := Some(Row("manually_cleared", m.row.value.version)));
      AloneStep(cleared, AtQueue, f);
      AloneStep(cleared.(status := Queued), AtReread(Done), f);
    }
    hide Alone;
  }

  lemma {:induction false} RejectedAlone(m: Movement, f: Faults)
    requires NothingFails(f)
    ensures Alone(m, AtReverse, f) ==
            (m.(status := Reversed, reserved := false, batch := if m.batch == L.Scheduled then L.Open else m.batch), Done)
  {
    var reversed := m.(status := Reversed);
    var released := reversed.(reserved := false);
    AloneStep(m, AtReverse, f);
    AloneStep(reversed, AtRelease, f);
    AloneStep(released, AtReopen, f);
    AloneStep(released.(batch := if m.batch == L.Scheduled then L.Open else m.batch), AtReread(Done), f);
    hide Alone;
  }

  // ---------- who may start, and what operators do at once ----------

  predicate Starts(w: World, e: Event) {
    |Next(w, e).procs| > |w.procs|
  }

  /**
   A request needs a payout that is neither completed nor reversed, the worker a queued one, a reviewer a held one, and a pass a
   held one on an open row of another list version than the newest, and an answer; none of them changes a row by starting.
   */
  lemma {:induction false} StartsIff(w: World, answer: Option<Row>, outcome: Outcome, newest: string)
    ensures var m := w.movement;
            && (Starts(w, Request(answer, outcome)) <==> m.status != Completed && m.status != Reversed)
            && (Starts(w, Work(outcome)) <==> m.status == Queued)
            && (Starts(w, Rescreen(newest, answer)) <==>
                  m.status == Held && m.row.Some? && Ambiguous(m.row.value.decision) && m.row.value.version != newest && answer.Some?)
            && (Starts(w, Approve) <==> m.status == Held) && (Starts(w, Reject) <==> m.status == Held)
    ensures forall e :: Starts(w, e) ==> Next(w, e).movement == w.movement
  {
  }

  /**
   An operator queues a failed payout again while it has been claimed fewer than three times, and cancels a failed or processing
   one, which deletes its reservation and opens its batch if that was scheduled; a claim gone stale is queued again.
   */
  lemma {:induction false} OperatorsAct(w: World)
    ensures var m := w.movement;
            && Next(w, Retry).movement == (if m.status == Failed && m.attempts < 3 then m.(status := Queued) else m)
            && Next(w, Cancel).movement ==
               (if m.status == Failed || m.status == Processing
                then m.(status := Reversed, reserved := false, batch := if m.batch == L.Scheduled then L.Open else m.batch) else m)
            && Next(w, Requeue).movement == (if m.status == Processing then m.(status := Queued) else m)
  {
  }

  // A claim of the queued payout that went through, whether its caller heard of it or not.
  predicate Claimed(w: World, e: Event) {
    e.Move? && e.proc < |w.procs| && w.procs[e.proc].AtClaim? && e.fault != Error && w.movement.status == Queued
  }

  ghost function Claims(w: World, events: seq<Event>): nat
    decreases |events|
  {
    if events == [] then 0 else (if Claimed(w, events[0]) then 1 else 0) + Claims(Next(w, events[0]), events[1..])
  }

  lemma {:induction false} AttemptsAreClaims(w: World, events: seq<Event>)
    ensures Run(w, events).movement.attempts == w.movement.attempts + Claims(w, events)
    decreases |events|
  {
    if events != [] {
      ClaimCounts(w, events[0]);
      AttemptsAreClaims(Next(w, events[0]), events[1..]);
    }
    hide Next, Claimed;
  }

  lemma {:induction false} ClaimCounts(w: World, e: Event)
    ensures Next(w, e).movement.attempts == w.movement.attempts + if Claimed(w, e) then 1 else 0
  {
  }

  /** Over any run: a failed payout is queued again by a retry exactly when it has been claimed fewer than three times. */
  lemma {:induction false} RetriedIffClaimedFewerThanThreeTimes(events: seq<Event>)
    requires Run(START, events).movement.status == Failed
    ensures Next(Run(START, events), Retry).movement.status == Queued <==> Claims(START, events) < 3
  {
    AttemptsAreClaims(START, events);
    OperatorsAct(Run(START, events));
    hide Run, Claims, Next;
  }

  // ---------- failing calls ----------

  /**
   A call that fails leaves the rows as they were, one that only loses its acknowledgement as if it had worked, and either ends its
   caller; but the bank's silence is recorded as a refusal, and a failure to record a refusal is dropped.
   */
  lemma {:induction false} AFailedCallEndsItsCaller(w: World, p: nat, fault: Fault)
    requires p < |w.procs| && !w.procs[p].Gone? && fault != Ok
    ensures var w' := Next(w, Move(p, fault));
            var pc := w.procs[p];
            && w'.movement == (if fault == Error then w.movement else Next(w, Move(p, Ok)).movement)
            && w'.procs == w.procs[p := if pc.AtBank? then AtSettle(Declined)
                                        else if pc.AtSettle? && pc.outcome != Paid then AtReread(Done)
                                        else Gone(Broken)]
  {
    hide Landed;
  }
}
