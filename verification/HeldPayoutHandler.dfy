/**
 The calls that move a settlement payout, as methods over the stored movements: the request with its screening gate and
 dispatch, a reviewer's disposition, and the pass over stale holds. Each is the machine's process run alone.
 */
module HeldPayoutHandler {
  import opened HeldPayouts
  import opened Passes
  import opened StoreCalls
  import opened Wrappers
  import L = Ledger
  import R = Rescreen

  // What becomes of each call.
  datatype Faults = Faults(reserve: Fault, look: Fault, record: Fault, enforce: Fault, claim: Fault, bank: Fault, settle: Fault,
                           refresh: Fault, decide: Fault, payout: Fault, release: Fault, reopen: Fault, reread: Fault)

  function FaultOf(pc: Pc, f: Faults): Fault {
    match pc
    case AtReserve(_, _) => f.reserve
    case AtLook(_, _) => f.look
    case AtRecord(_, _) => f.record
    case AtHold => f.enforce
    case AtInterdict => f.enforce
    case AtClaim(_) => f.claim
    case AtBank(_) => f.bank
    case AtSettle(_) => f.settle
    case AtRefresh(_) => f.refresh
    case AtDecide(_) => f.decide
    case AtApply(_) => f.payout
    case AtClear => f.decide
    case AtQueue => f.payout
    case AtReverse => f.payout
    case AtRelease => f.release
    case AtReopen => f.reopen
    case AtReread(_) => f.reread
    case Gone(_) => Ok
  }

  // Bounds the calls that are left; a recorded row is looked up once more.
  function Left(m: Movement, pc: Pc): nat {
    match pc
    case AtReserve(_, _) => 11
    case AtRecord(_, _) => if m.row.Some? then 10 else 8
    case AtLook(_, _) => 9
    case AtHold => 1
    case AtInterdict => 1
    case AtClaim(_) => 4
    case AtBank(_) => 3
    case AtSettle(_) => 2
    case AtRefresh(_) => 4
    case AtDecide(_) => 3
    case AtApply(_) => 2
    case AtClear => 3
    case AtQueue => 2
    case AtReverse => 4
    case AtRelease => 3
    case AtReopen => 2
    case AtReread(_) => 1
    case Gone(_) => 0
  }

  // A process with nothing between its calls: what it leaves and what it answers.
  function Alone(m: Movement, pc: Pc, f: Faults): (Movement, Verdict)
    decreases Left(m, pc)
  {
    if pc.Gone? then (m, pc.verdict)
    else var (m', pc') := Statement(m, pc, FaultOf(pc, f)); Alone(m', pc', f)
  }

  // Its calls, as events of the machine in which it is the only process.
  function Calls(m: Movement, pc: Pc, f: Faults): seq<Event>
    decreases Left(m, pc)
  {
    if pc.Gone? then []
    else var (m', pc') := Statement(m, pc, FaultOf(pc, f)); [Move(0, FaultOf(pc, f))] + Calls(m', pc', f)
  }

  lemma {:induction false} AloneIsARun(m: Movement, pc: Pc, f: Faults)
    ensures var (after, verdict) := Alone(m, pc, f); Run(World(m, [pc]), Calls(m, pc, f)) == World(after, [Gone(verdict)])
    decreases Left(m, pc)
  {
    if !pc.Gone? {
      var (m', pc') := Statement(m, pc, FaultOf(pc, f));
      AloneIsARun(m', pc', f);
      var e := Move(0, FaultOf(pc, f));
      assert Next(World(m, [pc]), e) == World(m', [pc']);
      assert Calls(m, pc, f) == [e] + Calls(m', pc', f);
      assert ([e] + Calls(m', pc', f))[1..] == Calls(m', pc', f);
    }
    hide Statement;
  }

  // Taking one call.
  lemma {:induction false} AloneStep(m: Movement, pc: Pc, f: Faults)
    ensures var (m', pc') := Statement(m, pc, FaultOf(pc, f));
            Alone(m, pc, f) == if pc'.Gone? then (m', pc'.verdict) else Alone(m', pc', f)
  {
    assert pc.Gone? ==> Statement(m, pc, FaultOf(pc, f)) == (m, pc);
    var (m', pc') := Statement(m, pc, FaultOf(pc, f));
    assert pc'.Gone? ==> Alone(m', pc', f) == (m', pc'.verdict);
  }

  // lookups: payout, batch and destination found.
  datatype Facts = Facts(lookups: bool, answer: Option<Row>, faults: Faults)

  // One listed movement of a pass.
  function Pass(m: Movement, f: Facts): (Movement, Verdict) {
    if !f.lookups then (m, NotReached)
    else if f.answer.None? then (m, Broken)
    else Alone(m, AtRefresh(f.answer.value), f.faults)
  }

  function PassLeaves(m: Movement, f: Facts): Movement {
    Pass(m, f).0
  }

  function Disposed(m: Movement, approve: bool, f: Facts): (Movement, Verdict) {
    if !f.lookups || m.status != Held then (m, Broken)
    else Alone(m, if approve then AtClear else AtReverse, f.faults)
  }

  // ---------- the pass over stale holds ----------

  function Count(ms: seq<Movement>, fs: seq<Facts>, verdict: Verdict): nat
    requires |ms| == |fs|
  {
    if ms == [] then 0
    else Count(ms[..|ms| - 1], fs[..|ms| - 1], verdict) + if Pass(ms[|ms| - 1], fs[|ms| - 1]).1 == verdict then 1 else 0
  }

  lemma {:induction false} PassAnswers(m: Movement, f: Facts)
    ensures Pass(m, f).1 != Done
  {
    if f.lookups && f.answer.Some? {
      var g := f.faults;
      AloneStep(m, AtRefresh(f.answer.value), g);
      var (m1, pc1) := Statement(m, AtRefresh(f.answer.value), g.refresh);
      AloneStep(m1, pc1, g);
      var (m2, pc2) := Statement(m1, pc1, g.decide);
      AloneStep(m2, pc2, g);
      var (m3, pc3) := Statement(m2, pc2, g.payout);
      AloneStep(m3, pc3, g);
    }
    hide Alone;
  }

  // Every movement is counted under exactly one verdict.
  lemma {:induction false} VerdictsPartition(ms: seq<Movement>, fs: seq<Facts>)
    requires |ms| == |fs|
    ensures Count(ms, fs, NotReached) + Count(ms, fs, Released) + Count(ms, fs, StillHeld) + Count(ms, fs, Interdicted)
            + Count(ms, fs, Broken) == |ms|
  {
    if ms != [] {
      PassAnswers(ms[|ms| - 1], fs[|ms| - 1]);
      VerdictsPartition(ms[..|ms| - 1], fs[..|ms| - 1]);
    }
    hide Pass;
  }

  // Reads a pass over listed payouts as a pass over the movements they name.
  function Named(movements: map<nat, Movement>, held: seq<nat>): (ms: seq<Movement>)
    requires forall i :: 0 <= i < |held| ==> held[i] in movements
    ensures |ms| == |held|
  {
    seq(|held|, i requires 0 <= i < |held| => movements[held[i]])
  }

  lemma {:induction false} CountsStep(ms: seq<Movement>, fs: seq<Facts>, k: nat)
    requires k < |ms| == |fs|
    ensures forall v :: Count(ms[..k + 1], fs[..k + 1], v) == Count(ms[..k], fs[..k], v) + if Pass(ms[k], fs[k]).1 == v then 1 else 0
  {
    forall v ensures Count(ms[..k + 1], fs[..k + 1], v) == Count(ms[..k], fs[..k], v) + if Pass(ms[k], fs[k]).1 == v then 1 else 0 {
      assert ms[..k + 1][..k] == ms[..k] && fs[..k + 1][..k] == fs[..k];
    }
    hide Pass;
  }

  class HoldStore {
    var movements: map<nat, Movement>

    // One call of the store that writes what it makes of the movement.
    method Exec(id: nat, after: Movement, fault: Fault) returns (ok: bool)
      requires id in movements
      modifies this
      ensures movements == old(movements)[id := if fault == Error then old(movements)[id] else after]
      ensures ok == (fault == Ok)
    {
      assert movements[id := movements[id]] == movements;
      if fault != Error {
        movements := movements[id := after];
      }
      ok := fault == Ok;
    }

    // ---------- the request ----------

    method HoldPayoutForScreen(id: nat, f: Faults) returns (verdict: Verdict)
      requires id in movements
      modifies this
      ensures id in movements && movements == old(movements)[id := movements[id]]
      ensures movements[id].row == old(movements)[id].row
      ensures (movements[id], verdict) == Alone(old(movements)[id], AtHold, f)
    {
      hide Alone;
      var m := movements[id];
      AloneStep(m, AtHold, f);
      var ok := Exec(id, if m.status == Queued then m.(status := Held) else m, f.enforce);
      verdict := if ok then StillHeld else Broken;
    }

    // None: the payout passes.
    method ApplyPayoutScreenDecision(id: nat, decision: string, outcome: Outcome, f: Faults) returns (verdict: Option<Verdict>)
      requires id in movements
      modifies this
      ensures id in movements && movements == old(movements)[id := movements[id]]
      ensures movements[id].row == old(movements)[id].row
      ensures verdict.None? <==> decision == R.CLEAR || decision == R.MANUALLY_CLEARED
      ensures Alone(old(movements)[id], Enforce(decision, outcome), f)
              == if verdict.None? then Alone(movements[id], AtClaim(outcome), f) else (movements[id], verdict.value)
    {
      hide Alone;
      assert movements[id := movements[id]] == movements;
      if decision == R.CLEAR || decision == R.MANUALLY_CLEARED {
        return None;
      }
      if decision == R.POSSIBLE || decision == R.STRONG {
        var held := HoldPayoutForScreen(id, f);
        return Some(held);
      }
      if decision == R.BLOCKED {
        var m := movements[id];
        AloneStep(m, AtInterdict, f);
        var ok := Exec(id, if m.status == Queued then m.(status := Failed) else m, f.enforce);
        return Some(if ok then Interdicted else Broken);
      }
      AloneStep(movements[id], Gone(Broken), f);
      verdict := Some(Broken);
    }

    // The gate: the decision on record, or else a fresh screen that is recorded first; an outage holds the payout.
    method ScreenPayout(id: nat, answer: Option<Row>, outcome: Outcome, f: Faults) returns (verdict: Option<Verdict>)
      requires id in movements
      modifies this
      ensures id in movements && movements == old(movements)[id := movements[id]]
      ensures verdict.None? ==> Cleared(movements[id].row)
      ensures Alone(old(movements)[id], AtLook(answer, outcome), f)
              == if verdict.None? then Alone(movements[id], AtClaim(outcome), f) else (movements[id], verdict.value)
    {
      hide Alone;
      assert movements[id := movements[id]] == movements;
      var m := movements[id];
      AloneStep(m, AtLook(answer, outcome), f);
      if f.look != Ok {
        return Some(Broken);
      }
      if m.row.Some? {
        AloneStep(m, Enforce(m.row.value.decision, outcome), f);
        verdict := ApplyPayoutScreenDecision(id, m.row.value.decision, outcome, f);
        return;
      }
      if answer.None? {
        var held := HoldPayoutForScreen(id, f);
        return Some(held);
      }
      AloneStep(m, AtRecord(answer.value, outcome), f);
      if !R.Recordable(answer.value.decision) {
        return Some(Broken);
      }
      var ok := Exec(id, m.(row := answer), f.record);
      if !ok {
        return Some(Broken);
      }
      AloneStep(movements[id], Enforce(answer.value.decision, outcome), f);
      verdict := ApplyPayoutScreenDecision(id, answer.value.decision, outcome, f);
    }

    // What the bank said is recorded: completed with its batch, failed, or nothing while it is pending.
    method RecordOutcome(id: nat, outcome: Outcome, f: Faults) returns (verdict: Verdict)
      requires id in movements && movements[id].status == Processing
      modifies this
      ensures id in movements && movements == old(movements)[id := movements[id]]
      ensures (movements[id], verdict) == Alone(old(movements)[id], AtSettle(outcome), f)
    {
      hide Alone;
      assert movements[id := movements[id]] == movements;
      var m := movements[id];
      AloneStep(m, AtSettle(outcome), f);
      if outcome == Declined {
        var recorded := Exec(id, m.(status := Failed), f.settle);
      } else if outcome == Paid {
        var ok := Exec(id, m.(status := Completed, batch := L.Processed), f.settle);
        if !ok {
          return Broken;
        }
      }
      AloneStep(movements[id], AtReread(Done), f);
      verdict := if f.reread == Ok then Done else Broken;
    }

    // Claim, ask the bank, record what it said; its silence is a refusal.
    method Dispatch(id: nat, outcome: Outcome, f: Faults) returns (verdict: Verdict)
      requires id in movements
      modifies this
      ensures id in movements && movements == old(movements)[id := movements[id]]
      ensures (movements[id], verdict) == Alone(old(movements)[id], AtClaim(outcome), f)
    {
      hide Alone;
      assert movements[id := movements[id]] == movements;
      var m := movements[id];
      AloneStep(m, AtClaim(outcome), f);
      if m.status != Queued {
        AloneStep(m, AtReread(Done), f);
        return if f.claim == Ok && f.reread == Ok then Done else Broken;
      }
      var claimed := m.(status := Processing, attempts := m.attempts + 1, batch := L.Scheduled);
      var ok := Exec(id, claimed, f.claim);
      if !ok {
        return Broken;
      }
      AloneStep(claimed, AtBank(outcome), f);
      ok := Exec(id, claimed.(sent := claimed.sent || outcome == Paid), f.bank);
      verdict := RecordOutcome(id, if ok then outcome else Declined, f);
    }

    // RequestPayout, for the payout CreatePayout hands it: one that is not reversed.
    method RequestPayout(id: nat, answer: Option<Row>, outcome: Outcome, f: Faults) returns (verdict: Verdict)
      requires id in movements && movements[id].status != Reversed
      modifies this
      ensures id in movements && movements == old(movements)[id := movements[id]]
      ensures (movements[id], verdict)
              == var m := old(movements)[id]; if m.status == Completed then (m, Done) else Alone(m, AtReserve(answer, outcome), f)
    {
      hide Alone;
      assert movements[id := movements[id]] == movements;
      var m := movements[id];
      if m.status == Completed {
        return Done;
      }
      AloneStep(m, AtReserve(answer, outcome), f);
      var ok := Exec(id, m.(reserved := true), f.reserve);
      if !ok {
        return Broken;
      }
      var stopped := ScreenPayout(id, answer, outcome, f);
      if stopped.Some? {
        return stopped.value;
      }
      verdict := Dispatch(id, outcome, f);
    }

    // ---------- the reviewer ----------

    // ReleaseHeldPayout.
    method ReleaseHeldPayout(id: nat, approve: bool, f: Facts) returns (verdict: Verdict)
      requires id in movements
      modifies this
      ensures id in movements && movements == old(movements)[id := movements[id]]
      ensures (movements[id], verdict) == Disposed(old(movements)[id], approve, f)
    {
      hide Alone;
      assert movements[id := movements[id]] == movements;
      if !f.lookups || movements[id].status != Held {
        return Broken;
      }
      if approve {
        verdict := Release(id, f.faults);
      } else {
        verdict := TurnDown(id, f.faults);
      }
    }

    // Its approval: an open row is cleared, or nothing is done, and the payout queued.
    method Release(id: nat, f: Faults) returns (verdict: Verdict)
      requires id in movements && movements[id].status == Held
      modifies this
      ensures id in movements && movements == old(movements)[id := movements[id]]
      ensures (movements[id], verdict) == Alone(old(movements)[id], AtClear, f)
    {
      hide Alone;
      assert movements[id := movements[id]] == movements;
      var m := movements[id];
      AloneStep(m, AtClear, f);
      if !OpenHold(m.row) {
        return Broken;
      }
      var cleared := m.(row := Some(m.row.value.(decision := R.MANUALLY_CLEARED)));
      var ok := Exec(id, cleared, f.decide);
      if !ok {
        return Broken;
      }
      AloneStep(cleared, AtQueue, f);
      ok := Exec(id, cleared.(status := Queued), f.payout);
      if !ok {
        return Broken;
      }
      AloneStep(movements[id], AtReread(Done), f);
      verdict := if f.reread == Ok then Done else Broken;
    }

    // Its rejection: the payout is reversed, its reservation deleted and its batch reopened, in this order.
    method TurnDown(id: nat, f: Faults) returns (verdict: Verdict)
      requires id in movements
      modifies this
      ensures id in movements && movements == old(movements)[id := movements[id]]
      ensures (movements[id], verdict) == Alone(old(movements)[id], AtReverse, f)
    {
      hide Alone;
      assert movements[id := movements[id]] == movements;
      var m := movements[id];
      AloneStep(m, AtReverse, f);
      var reversed := m.(status := Reversed);
      var ok := Exec(id, reversed, f.payout);
      if !ok {
        return Broken;
      }
      AloneStep(reversed, AtRelease, f);
      var released := reversed.(reserved := false);
      ok := Exec(id, released, f.release);
      if !ok {
        return Broken;
      }
      AloneStep(released, AtReopen, f);
      ok := Exec(id, if released.batch == L.Scheduled then released.(batch := L.Open) else released, f.reopen);
      if !ok {
        return Broken;
      }
      AloneStep(movements[id], AtReread(Done), f);
      verdict := if f.reread == Ok then Done else Broken;
    }

    // ---------- the pass ----------

    // A clear or blocking verdict: the row is decided, whether or not it is still open, and the payout follows.
    method ApplyVerdict(id: nat, decision: string, f: Faults) returns (verdict: Verdict)
      requires id in movements && (decision == R.CLEAR || decision == R.BLOCKED)
      modifies this
      ensures id in movements && movements == old(movements)[id := movements[id]]
      ensures (movements[id], verdict) == Alone(old(movements)[id], AtDecide(decision), f)
    {
      hide Alone;
      assert movements[id := movements[id]] == movements;
      var m := movements[id];
      AloneStep(m, AtDecide(decision), f);
      var decided := if OpenHold(m.row) then m.(row := Some(m.row.value.(decision := decision))) else m;
      var ok := Exec(id, decided, f.decide);
      if !ok {
        return Broken;
      }
      AloneStep(decided, AtApply(decision), f);
      if decision == R.BLOCKED {
        ok := Exec(id, if decided.status == Held then decided.(status := Failed) else decided, f.payout);
        return if ok then Interdicted else Broken;
      }
      ok := Exec(id, if decided.status == Held then decided.(status := Queued) else decided, f.payout);
      if !ok || decided.status != Held {
        return Broken;
      }
      AloneStep(movements[id], AtReread(Released), f);
      verdict := if f.reread == Ok then Released else Broken;
    }

    // One listed movement: the lookups, the screen, and ReevaluateHeldPayout.
    method ReevaluateMovement(id: nat, f: Facts) returns (verdict: Verdict)
      requires id in movements
      modifies this
      ensures movements == old(movements)[id := PassLeaves(old(movements)[id], f)] && verdict == Pass(old(movements)[id], f).1
    {
      hide Alone;
      assert movements[id := movements[id]] == movements;
      var m := movements[id];
      if !f.lookups {
        return NotReached;
      }
      if f.answer.Some? { AloneStep(m, AtRefresh(f.answer.value), f.faults); }
      if f.answer.None? || !OpenHold(m.row) {
        return Broken;
      }
      var refreshed := m.(row := Some(m.row.value.(version := f.answer.value.version)));
      var ok := Exec(id, refreshed, f.faults.refresh);
      if !ok {
        return Broken;
      }
      var decision := f.answer.value.decision;
      if decision == R.POSSIBLE || decision == R.STRONG {
        return StillHeld;
      }
      if decision != R.CLEAR && decision != R.BLOCKED {
        return Broken;
      }
      assert Pass(m, f) == Alone(refreshed, AtDecide(decision), f.faults);
      var decided := refreshed.(row := Some(refreshed.row.value.(decision := decision)));
      verdict := ApplyVerdict(id, decision, f.faults);
    }
    /** The loop over the stale holds: every movement ends as Pass says of it alone, and the counters account for every
        movement that was re-screened. */
    method ReevaluateStaleHeldMovements(held: seq<nat>, fs: seq<Facts>)
      returns (screened: nat, released: nat, interdicted: nat, stillHeld: nat)
      requires |fs| == |held| && Distinct(held) && forall i :: 0 <= i < |held| ==> held[i] in movements
      modifies this
      ensures movements.Keys == old(movements.Keys)
      ensures forall i :: 0 <= i < |held| ==> movements[held[i]] == Pass(old(movements)[held[i]], fs[i]).0
      ensures forall id :: id in movements && id !in held ==> movements[id] == old(movements)[id]
      ensures var ms := old(Named(movements, held));
              && screened == |held| - Count(ms, fs, NotReached)
              && released == Count(ms, fs, Released) && interdicted == Count(ms, fs, Interdicted)
              && stillHeld == Count(ms, fs, StillHeld)
      ensures released + interdicted + stillHeld <= screened <= |held|
    {
      screened, released, interdicted, stillHeld := 0, 0, 0, 0;
      ghost var ms := Named(movements, held);
      for k := 0 to |held|
        invariant movements.Keys == old(movements.Keys)
        invariant Progress(old(movements), movements, held, fs, PassLeaves, k)
        invariant screened + Count(ms[..k], fs[..k], NotReached) == k
        invariant released == Count(ms[..k], fs[..k], Released) && interdicted == Count(ms[..k], fs[..k], Interdicted)
        invariant stillHeld == Count(ms[..k], fs[..k], StillHeld)
      {
        var id, f := held[k], fs[k];
        ProgressStep(old(movements), movements, held, fs, PassLeaves, k);
        CountsStep(ms, fs, k);
        hide Count, Pass, Progress;
        var verdict := ReevaluateMovement(id, f);
        if verdict == NotReached {
          continue;
        }
        screened := screened + 1;
        match verdict {
          case Released => released := released + 1;
          case StillHeld => stillHeld := stillHeld + 1;
          case Interdicted => interdicted := interdicted + 1;
          case _ =>
        }
      }
      assert ms[..|held|] == ms && fs[..|held|] == fs;
      VerdictsPartition(ms, fs);
    }
  }

  // ---------- the reviewer's route ----------

  const PREFIX := "payout:"

  // payoutMovementRef: what the screening row is filed under.
  function PayoutMovementRef(batchNo: string, destination: string): string {
    PREFIX + batchNo + ":" + destination
  }

  // movementRefBatchNo: the batch number the disposition route looks the payout up by.
  function MovementRefBatchNo(ref: string): string {
    if PREFIX <= ref then ref[|PREFIX|..] else ref
  }

  // It keeps the destination, so the route never looks up the batch of the hold it was opened on, but the one, if there is one,
  // whose number is that batch's with the destination behind it.
  lemma {:induction false} DispositionMissesItsBatch(batchNo: string, destination: string)
    ensures MovementRefBatchNo(PayoutMovementRef(batchNo, destination)) == batchNo + ":" + destination
    ensures MovementRefBatchNo(PayoutMovementRef(batchNo, destination)) != batchNo
  {
    var ref := PayoutMovementRef(batchNo, destination);
    assert ref == PREFIX + (batchNo + ":" + destination);
    assert ref[|PREFIX|..] == batchNo + ":" + destination;
    assert |batchNo + ":" + destination| > |batchNo|;
  }
}
