// Runs of one payout from its creation that show each condition of HeldPayoutLaws is met.
module HeldPayoutRuns {
  import opened HeldPayoutLaws
  import opened HeldPayouts
  import opened StoreCalls
  import opened Wrappers
  import L = Ledger
  import R = Rescreen

  // The worlds a run goes through.
  predicate Trace(ws: seq<World>, events: seq<Event>) {
    |ws| == |events| + 1 && forall i :: 0 <= i < |events| ==> ws[i + 1] == Next(ws[i], events[i])
  }

  lemma {:induction false} TraceIsRun(ws: seq<World>, events: seq<Event>)
    requires Trace(ws, events)
    ensures Run(ws[0], events) == ws[|events|]
    decreases |events|
  {
    if events != [] {
      var rest := ws[1..];
      forall i | 0 <= i < |events[1..]| ensures rest[i + 1] == Next(rest[i], events[1..][i]) {
        assert ws[i + 2] == Next(ws[i + 1], events[i + 1]);
      }
      TraceIsRun(rest, events[1..]);
    }
    hide Next;
  }

  // ---------- a hold, and two verdicts crossing ----------

  // A request whose screen is ambiguous.
  const HELD := [Request(Some(Row(R.POSSIBLE, "v1")), Paid), Move(0, Ok), Move(0, Ok), Move(0, Ok), Move(0, Ok)]
  const AFTER_HELD := World(Movement(Held, Some(Row(R.POSSIBLE, "v1")), 0, L.Open, true, false), [Gone(StillHeld)])

  lemma {:induction false} AHold()
    ensures Run(START, HELD) == AFTER_HELD
  {
    hide Run;
    var answer := Some(Row(R.POSSIBLE, "v1"));
    var m := CREATED.(reserved := true);
    TraceIsRun([START, World(CREATED, [AtReserve(answer, Paid)]), World(m, [AtLook(answer, Paid)]),
                World(m, [AtRecord(answer.value, Paid)]), World(m.(row := answer), [AtHold]), AFTER_HELD], HELD);
  }

  // A blocking pass refreshes the row, an approval clears it, and the pass, whose decision finds no open row, fails the payout.
  const CROSSED := [Rescreen("v2", Some(Row(R.BLOCKED, "v2"))), Move(1, Ok), Approve, Move(2, Ok), Move(1, Ok), Move(1, Ok)]
  const CROSSED_ROW := Row(R.MANUALLY_CLEARED, "v2")
  const AFTER_CROSSED := World(Movement(Failed, Some(CROSSED_ROW), 0, L.Open, true, false), [Gone(StillHeld), Gone(Interdicted), AtQueue])

  lemma {:induction false} AVerdictCanCrossAnApproval()
    ensures Run(AFTER_HELD, CROSSED) == AFTER_CROSSED && !RowAgrees(AFTER_CROSSED.movement)
  {
    hide Run;
    var m := AFTER_HELD.movement;
    var p := Gone(StillHeld);
    var open := m.(row := Some(Row(R.POSSIBLE, "v2")));
    var cleared := m.(row := Some(CROSSED_ROW));
    TraceIsRun([AFTER_HELD, World(m, [p, AtRefresh(Row(R.BLOCKED, "v2"))]), World(open, [p, AtDecide(R.BLOCKED)]),
                World(open, [p, AtDecide(R.BLOCKED), AtClear]), World(cleared, [p, AtDecide(R.BLOCKED), AtQueue]),
                World(cleared, [p, AtApply(R.BLOCKED), AtQueue]), AFTER_CROSSED], CROSSED);
  }

  // An operator retries it, and a request passes the gate on that row, although the newest screen blocked the account.
  const RETRIED := [Retry, Request(None, Paid), Move(3, Ok), Move(3, Ok), Move(3, Ok), Move(3, Ok), Move(3, Ok)]

  lemma {:induction false} ThenItIsSent()
    ensures Run(AFTER_CROSSED, RETRIED).movement == Movement(Completed, Some(CROSSED_ROW), 1, L.Processed, true, true)
  {
    hide Run;
    var cleared := AFTER_HELD.movement.(row := Some(CROSSED_ROW));
    var ps := AFTER_CROSSED.procs;
    var queued := cleared.(status := Queued);
    var claimed := queued.(status := Processing, attempts := 1, batch := L.Scheduled);
    var paid := claimed.(sent := true);
    TraceIsRun([AFTER_CROSSED, World(queued, ps), World(queued, ps + [AtReserve(None, Paid)]), World(queued, ps + [AtLook(None, Paid)]),
                World(queued, ps + [AtClaim(Paid)]), World(claimed, ps + [AtBank(Paid)]), World(paid, ps + [AtSettle(Paid)]),
                World(paid.(status := Completed, batch := L.Processed), ps + [AtReread(Done)])], RETRIED);
  }

  // ---------- sent without a clear decision ----------

  // A blocking screen fails the payout, an operator retries it, and the worker, which reads no screening row, takes it.
  const INTERDICTED := [Request(Some(Row(R.BLOCKED, "v1")), Paid), Move(0, Ok), Move(0, Ok), Move(0, Ok), Move(0, Ok), Retry, Work(Paid)]

  const SENT := [Move(1, Ok), Move(1, Ok), Move(1, Ok)]

  // The worker sends what it claimed, and the payout and its batch are complete.
  lemma {:induction false} AClaimIsPaid(m: Movement, p: Pc)
    requires m.status == Queued
    ensures Run(World(m, [p, AtClaim(Paid)]), SENT).movement
            == m.(status := Completed, attempts := m.attempts + 1, batch := L.Processed, sent := true)
  {
    hide Run;
    var claimed := m.(status := Processing, attempts := m.attempts + 1, batch := L.Scheduled);
    var paid := claimed.(sent := true);
    TraceIsRun([World(m, [p, AtClaim(Paid)]), World(claimed, [p, AtBank(Paid)]), World(paid, [p, AtSettle(Paid)]),
                World(paid.(status := Completed, batch := L.Processed), [p, AtReread(Done)])], SENT);
  }

  lemma {:induction false} AnInterdictedPayoutIsSent()
    ensures var w := Run(START, INTERDICTED);
            && SendsUncleared(w, Move(1, Ok))
            && Run(w, SENT).movement
               == Movement(Completed, Some(Row(R.BLOCKED, "v1")), 1, L.Processed, true, true)
  {
    hide Run;
    var answer := Some(Row(R.BLOCKED, "v1"));
    var reserved := CREATED.(reserved := true);
    var m := reserved.(row := answer);
    var p := Gone(Interdicted);
    var w := World(m, [p, AtClaim(Paid)]);
    TraceIsRun([START, World(CREATED, [AtReserve(answer, Paid)]), World(reserved, [AtLook(answer, Paid)]),
                World(reserved, [AtRecord(answer.value, Paid)]), World(m, [AtInterdict]), World(m.(status := Failed), [p]),
                World(m, [p]), w], INTERDICTED);
    AClaimIsPaid(m, p);
  }

  // A request is refused at the merchant's limits: its payout is already queued, and the worker takes it unscreened and unreserved.
  const REFUSED := [Request(Some(Row(R.CLEAR, "v1")), Paid), Move(0, Error), Work(Paid)]

  lemma {:induction false} ARefusedRequestIsSent()
    ensures var w := Run(START, REFUSED);
            && SendsUncleared(w, Move(1, Ok))
            && Run(w, SENT).movement == Movement(Completed, None, 1, L.Processed, false, true)
  {
    hide Run;
    var p := Gone(Broken);
    var w := World(CREATED, [p, AtClaim(Paid)]);
    TraceIsRun([START, World(CREATED, [AtReserve(Some(Row(R.CLEAR, "v1")), Paid)]), World(CREATED, [p]), w], REFUSED);
    AClaimIsPaid(CREATED, p);
  }

  // ---------- stranded ----------

  // A clear pass whose payout update fails; then a pass against a newer list, and an approval.
  const SPLIT := [Rescreen("v2", Some(Row(R.CLEAR, "v2"))), Move(1, Ok), Move(1, Ok), Move(1, Error)]
  const TRIED := [Rescreen("v3", Some(Row(R.CLEAR, "v3"))), Approve, Move(2, Ok)]

  lemma {:induction false} AClearedPayoutCanBeStranded()
    ensures var w := Run(AFTER_HELD, SPLIT);
            && Stranded(w) && Quiet(w) && Cleared(w.movement.row)
            && Run(w, TRIED).movement == w.movement
  {
    hide Run;
    var m := AFTER_HELD.movement;
    var p := Gone(StillHeld);
    var open := m.(row := Some(Row(R.POSSIBLE, "v2")));
    var cleared := m.(row := Some(Row(R.CLEAR, "v2")));
    var w := World(cleared, [p, Gone(Broken)]);
    TraceIsRun([AFTER_HELD, World(m, [p, AtRefresh(Row(R.CLEAR, "v2"))]), World(open, [p, AtDecide(R.CLEAR)]),
                World(cleared, [p, AtApply(R.CLEAR)]), w], SPLIT);
    TraceIsRun([w, w, World(cleared, w.procs + [AtClear]), World(cleared, w.procs + [Gone(Broken)])], TRIED);
  }

  // The screener is down, so the payout is held without a row; a second request screens it as clear and finds nothing queued.
  const OUTAGE := [Request(None, Paid), Move(0, Ok), Move(0, Ok), Move(0, Ok), Request(Some(Row(R.CLEAR, "v1")), Paid),
                   Move(1, Ok), Move(1, Ok), Move(1, Ok), Move(1, Ok)]

  lemma {:induction false} AnOutageCanStrandAClearPayout()
    ensures var w := Run(START, OUTAGE);
            Stranded(w) && Quiet(w) && w.movement == Movement(Held, Some(Row(R.CLEAR, "v1")), 0, L.Open, true, false)
  {
    hide Run;
    var answer := Some(Row(R.CLEAR, "v1"));
    var reserved := CREATED.(reserved := true);
    var m := reserved.(status := Held);
    var p := Gone(StillHeld);
    TraceIsRun([START, World(CREATED, [AtReserve(None, Paid)]), World(reserved, [AtLook(None, Paid)]), World(reserved, [AtHold]),
                World(m, [p]), World(m, [p, AtReserve(answer, Paid)]), World(m, [p, AtLook(answer, Paid)]),
                World(m, [p, AtRecord(answer.value, Paid)]), World(m.(row := answer), [p, AtClaim(Paid)]),
                World(m.(row := answer), [p, AtReread(Done)])], OUTAGE);
  }

  // ---------- what a rejection leaves ----------

  // The worker takes the payout before its screen and the bank declines it; a retry and a second request hold it, with its
  // batch scheduled.
  const DECLINED := [Request(Some(Row(R.POSSIBLE, "v1")), Paid), Move(0, Ok), Work(Declined), Move(1, Ok), Move(1, Ok), Move(1, Ok),
                     Move(0, Ok), Move(0, Ok), Move(0, Ok)]
  const HELD_AGAIN := [Retry, Request(None, Paid), Move(2, Ok), Move(2, Ok), Move(2, Ok)]
  // A rejection whose last call fails.
  const REJECTED := [Reject, Move(3, Ok), Move(3, Ok), Move(3, Error)]
  const DECLINED_ONCE := Movement(Failed, Some(Row(R.POSSIBLE, "v1")), 1, L.Scheduled, true, false)
  const AFTER_DECLINED := World(DECLINED_ONCE, [Gone(StillHeld), AtReread(Done)])

  lemma {:induction false} ADeclinedPayout()
    ensures Run(START, DECLINED) == AFTER_DECLINED
  {
    hide Run;
    var answer := Some(Row(R.POSSIBLE, "v1"));
    var reserved := CREATED.(reserved := true);
    var claimed := reserved.(status := Processing, attempts := 1, batch := L.Scheduled);
    var failed := claimed.(status := Failed);
    var look := AtLook(answer, Paid);
    TraceIsRun([START, World(CREATED, [AtReserve(answer, Paid)]), World(reserved, [look]), World(reserved, [look, AtClaim(Declined)]),
                World(claimed, [look, AtBank(Declined)]), World(claimed, [look, AtSettle(Declined)]), World(failed, [look, AtReread(Done)]),
                World(failed, [AtRecord(answer.value, Paid), AtReread(Done)]), World(DECLINED_ONCE, [AtHold, AtReread(Done)]),
                AFTER_DECLINED], DECLINED);
  }

  const AFTER_HELD_AGAIN := World(DECLINED_ONCE.(status := Held), [Gone(StillHeld), AtReread(Done), Gone(StillHeld)])

  lemma {:induction false} AHoldAfterADecline()
    ensures Run(AFTER_DECLINED, HELD_AGAIN) == AFTER_HELD_AGAIN
  {
    hide Run;
    var ps := AFTER_DECLINED.procs;
    var queued := DECLINED_ONCE.(status := Queued);
    TraceIsRun([AFTER_DECLINED, World(queued, ps), World(queued, ps + [AtReserve(None, Paid)]), World(queued, ps + [AtLook(None, Paid)]),
                World(queued, ps + [AtHold]), AFTER_HELD_AGAIN], HELD_AGAIN);
  }

  // The batch stays scheduled for good, with its payout reversed.
  lemma {:induction false} ABatchCanStayScheduled()
    ensures var w := Run(AFTER_HELD_AGAIN, REJECTED);
            && w.movement == DECLINED_ONCE.(status := Reversed, reserved := false)
            && LeftScheduled(w) && Over(w)
  {
    hide Run;
    var w := AFTER_HELD_AGAIN;
    var held := w.movement;
    var reversed := held.(status := Reversed);
    var released := reversed.(reserved := false);
    TraceIsRun([w, World(held, w.procs + [AtReverse]), World(reversed, w.procs + [AtRelease]), World(released, w.procs + [AtReopen]),
                World(released, w.procs + [Gone(Broken)])], REJECTED);
  }

  // A rejection and an approval find the payout held; it is approved and claimed, the bank pays it, and the rejection reverses it
  // and reopens its batch, so that a second payout of the batch can be requested.
  const RACING := [Approve, Reject, Move(1, Ok), Move(1, Ok), Work(Paid)]
  const RACED := [Move(3, Ok), Move(3, Ok), Move(2, Ok), Move(3, Ok), Move(2, Ok), Move(2, Ok)]
  const APPROVED := Movement(Queued, Some(Row(R.MANUALLY_CLEARED, "v1")), 0, L.Open, true, false)
  const AFTER_RACING := World(APPROVED, [Gone(StillHeld), AtReread(Done), AtReverse, AtClaim(Paid)])

  lemma {:induction false} AnApprovedPayoutWithARejectionUnderWay()
    ensures Run(AFTER_HELD, RACING) == AFTER_RACING
  {
    hide Run;
    var m := AFTER_HELD.movement;
    var p := Gone(StillHeld);
    TraceIsRun([AFTER_HELD, World(m, [p, AtClear]), World(m, [p, AtClear, AtReverse]),
                World(APPROVED.(status := Held), [p, AtQueue, AtReverse]), World(APPROVED, [p, AtReread(Done), AtReverse]), AFTER_RACING],
               RACING);
  }

  lemma {:induction false} APaidPayoutCanBeReversed()
    ensures var w := Run(AFTER_RACING, RACED);
            && SentAndReversed(w)
            && w.movement == Movement(Reversed, Some(Row(R.MANUALLY_CLEARED, "v1")), 1, L.Open, false, true)
  {
    hide Run;
    var claimed := APPROVED.(status := Processing, attempts := 1, batch := L.Scheduled);
    var paid := claimed.(sent := true);
    var reversed := paid.(status := Reversed);
    var released := reversed.(reserved := false);
    var p, q := Gone(StillHeld), AtReread(Done);
    TraceIsRun([AFTER_RACING, World(claimed, [p, q, AtReverse, AtBank(Paid)]), World(paid, [p, q, AtReverse, AtSettle(Paid)]),
                World(reversed, [p, q, AtRelease, AtSettle(Paid)]), World(reversed, [p, q, AtRelease, Gone(Broken)]),
                World(released, [p, q, AtReopen, Gone(Broken)]), World(released.(batch := L.Open), [p, q, AtReread(Done), Gone(Broken)])],
               RACED);
  }
}
