/**
 What the screening hold keeps, and exactly when it does not. Every statement is about runs from the payout's creation, with any
 requests, worker ticks, passes, approvals, rejections and operator actions interleaved call by call, any of which may fail.
 */
module HeldPayoutLaws {
  import opened HeldPayouts
  import opened StoreCalls
  import opened Wrappers
  import L = Ledger
  import R = Rescreen

  // The call that takes effect at this event, if one does.
  function Landing(w: World, e: Event): Option<Pc> {
    if e.Move? && e.proc < |w.procs| && e.fault != Error then Some(w.procs[e.proc]) else None
  }

  // What every process has seen: a pass that decides has found a row, one that goes on to the payout leaves it closed, and
  // an approval has cleared it.
  predicate Informed(pc: Pc, row: Option<Row>) {
    match pc
    case AtDecide(d) => row.Some? && (d == R.CLEAR || d == R.BLOCKED)
    case AtApply(d) => Closed(row) && (d == R.CLEAR || d == R.BLOCKED)
    case AtQueue => Closed(row) && Cleared(row)
    case _ => true
  }

  predicate Sound(w: World) {
    && (w.movement.row.Some? ==> R.Recordable(w.movement.row.value.decision))
    && (forall p :: 0 <= p < |w.procs| ==> Informed(w.procs[p], w.movement.row))
  }

  // Rows appear and close, and a closed row never changes again.
  predicate RowFollows(was: Option<Row>, now: Option<Row>) {
    (was.Some? ==> now.Some?) && (Closed(was) ==> now == was)
  }

  lemma {:induction false} LandedIsSound(m: Movement, pc: Pc)
    requires Informed(pc, m.row) && (m.row.Some? ==> R.Recordable(m.row.value.decision))
    ensures var (m', pc') := Landed(m, pc);
            && RowFollows(m.row, m'.row) && Informed(pc', m'.row)
            && (m'.row.Some? ==> R.Recordable(m'.row.value.decision))
  {
  }

  lemma {:induction false} NextIsSound(w: World, e: Event)
    requires Sound(w)
    ensures Sound(Next(w, e)) && RowFollows(w.movement.row, Next(w, e).movement.row)
  {
    if e.Move? && e.proc < |w.procs| {
      LandedIsSound(w.movement, w.procs[e.proc]);
      var w' := Next(w, e);
      forall p | 0 <= p < |w'.procs| ensures Informed(w'.procs[p], w'.movement.row) {
        if p != e.proc { assert Informed(w.procs[p], w.movement.row); }
      }
    }
  }

  lemma {:induction false} RunIsSound(w: World, events: seq<Event>)
    requires Sound(w)
    ensures Sound(Run(w, events)) && RowFollows(w.movement.row, Run(w, events).movement.row)
    decreases |events|
  {
    if events != [] {
      NextIsSound(w, events[0]);
      RunIsSound(Next(w, events[0]), events[1..]);
    }
    hide Sound, Next;
  }

  // ---------- dispatched only past a clear decision ----------

  // A claim would send it, and the row does not say it was cleared.
  predicate Exposed(w: World) {
    w.movement.status == Queued && !Cleared(w.movement.row)
  }

  // It enters the queue uncleared: an operator retries it, a stale claim goes back, or a pass queues it although the row was
  // closed otherwise meanwhile. An approval never does this.
  predicate Exposes(w: World, e: Event) {
    && !Cleared(w.movement.row)
    && match e
       case Retry => w.movement.status == Failed && w.movement.attempts < MAX_ATTEMPTS
       case Requeue => w.movement.status == Processing
       case _ => w.movement.status == Held && Landing(w, e) == Some(AtApply(R.CLEAR))
  }

  // It is cleared, or leaves the queue.
  predicate Vets(w: World, e: Event) {
    match Landing(w, e)
    case Some(AtRecord(found, _)) =>
      w.movement.row.None? && R.Recordable(found.decision) && !R.BlockedByScreening(found.decision)
    case Some(AtDecide(d)) => OpenHold(w.movement.row) && d == R.CLEAR
    case Some(AtClear) => OpenHold(w.movement.row)
    case Some(AtHold) => true
    case Some(AtInterdict) => true
    case Some(AtClaim(_)) => true
    case Some(AtReverse) => true
    case _ => false
  }

  lemma {:induction false} ExposedStep(w: World, e: Event)
    requires Sound(w)
    ensures Sound(Next(w, e)) && (Exposed(Next(w, e)) <==> Exposes(w, e) || (Exposed(w) && !Vets(w, e)))
  {
    NextIsSound(w, e);
    if e.Move? && e.proc < |w.procs| { assert Informed(w.procs[e.proc], w.movement.row); }
  }

  // The claim that sends the payout to the bank, while its row does not say cleared.
  predicate SendsUncleared(w: World, e: Event) {
    Claims(w, e) && !Cleared(w.movement.row)
  }

  predicate Claims(w: World, e: Event) {
    w.movement.status == Queued && Landing(w, e).Some? && Landing(w, e).value.AtClaim?
  }

  /**
   Payouts are to be dispatched only past a clear decision. A claim takes one that was not cleared exactly when nothing has
   vetted it since it was created, retried or requeued, or since a pass queued it against its row.
   */
  lemma {:induction false} SentUnclearedIff(events: seq<Event>, e: Event)
    ensures var w := Run(START, events);
            SendsUncleared(w, e) <==> Claims(w, e) && (Never(Vets, START, events) || Since(Exposes, Vets, START, events))
  {
    forall x, y | Sound(x) ensures Sound(Next(x, y)) && (Exposed(Next(x, y)) <==> Exposes(x, y) || (Exposed(x) && !Vets(x, y))) {
      ExposedStep(x, y);
    }
    HoldsIffSetSince(Exposed, Exposes, Vets, Sound, START, events);
  }

  // Once cleared it stays cleared, whatever the screening list says later: no claim after that is uncleared.
  lemma {:induction false} ClearedForGood(events: seq<Event>, later: seq<Event>, e: Event)
    requires Cleared(Run(START, events).movement.row)
    ensures !SendsUncleared(Run(Run(START, events), later), e)
  {
    RunIsSound(START, events);
    RunIsSound(Run(START, events), later);
  }

  // ---------- how a hold ends ----------

  // The verdicts that lead to a status: a clear screen or an approval, a blocking screen, a rejection.
  predicate Decides(e: Event, status: PayoutStatus) {
    match status
    case Queued => e.Approve? || Answers(e, R.CLEAR)
    case Failed => Answers(e, R.BLOCKED)
    case Reversed => e.Reject?
    case _ => false
  }

  predicate Answers(e: Event, decision: string) {
    e.Rescreen? && e.answer.Some? && e.answer.value.decision == decision
  }

  ghost predicate Answered(past: seq<Event>, decision: string) {
    exists k :: 0 <= k < |past| && Answers(past[k], decision)
  }

  // Every process that carries a verdict was started with it.
  ghost predicate Granted(pc: Pc, past: seq<Event>) {
    match pc
    case AtRefresh(found) => Answered(past, found.decision)
    case AtDecide(d) => Answered(past, d)
    case AtApply(d) => Answered(past, d)
    case AtClear => Approve in past
    case AtQueue => Approve in past
    case AtReverse => Reject in past
    case _ => true
  }

  ghost predicate AllGranted(w: World, past: seq<Event>) {
    forall p :: 0 <= p < |w.procs| ==> Granted(w.procs[p], past)
  }

  lemma {:induction false} GrantedLater(pc: Pc, past: seq<Event>, e: Event)
    requires Granted(pc, past)
    ensures Granted(pc, past + [e])
  {
    forall d | Answered(past, d) ensures Answered(past + [e], d) {
      var k :| 0 <= k < |past| && Answers(past[k], d);
      assert Answers((past + [e])[k], d);
    }
  }

  lemma {:induction false} GrantedStep(w: World, past: seq<Event>, e: Event)
    requires AllGranted(w, past)
    ensures AllGranted(Next(w, e), past + [e])
  {
    var w' := Next(w, e);
    assert (past + [e])[|past|] == e;
    forall p | 0 <= p < |w'.procs| ensures Granted(w'.procs[p], past + [e]) {
      if p < |w.procs| { GrantedLater(w.procs[p], past, e); }
      if e.Rescreen? && e.answer.Some? { assert Answers((past + [e])[|past|], e.answer.value.decision); }
    }
  }

  lemma {:induction false} RunIsGranted(w: World, past: seq<Event>, events: seq<Event>)
    requires AllGranted(w, past)
    ensures AllGranted(Run(w, events), past + events)
    decreases |events|
  {
    if events == [] {
      assert past + events == past;
    } else {
      GrantedStep(w, past, events[0]);
      RunIsGranted(Next(w, events[0]), past + [events[0]], events[1..]);
      assert past + [events[0]] + events[1..] == past + events;
    }
    hide AllGranted, Next;
  }

  // The calls that end a hold, and what each makes of it.
  predicate Brings(pc: Pc, status: PayoutStatus) {
    match status
    case Queued => pc == AtQueue || pc == AtApply(R.CLEAR)
    case Failed => pc == AtApply(R.BLOCKED)
    case Reversed => pc == AtReverse
    case _ => false
  }

  lemma {:induction false} HoldEndsAtACall(w: World, e: Event)
    requires Sound(w) && w.movement.status == Held
    ensures var after := Next(w, e).movement.status;
            after != Held ==> e.Move? && e.proc < |w.procs| && Brings(w.procs[e.proc], after)
  {
    if e.Move? && e.proc < |w.procs| { assert Informed(w.procs[e.proc], w.movement.row); }
  }

  lemma {:induction false} BringsWhatWasDecided(pc: Pc, events: seq<Event>, status: PayoutStatus)
    requires Brings(pc, status) && Granted(pc, events)
    ensures exists k :: 0 <= k < |events| && Decides(events[k], status)
  {
    var k :| 0 <= k < |events| && Decides(events[k], status);
  }

  /**
   Whatever runs at once and whatever fails, a held payout leaves its hold only on a verdict for where it goes: to the queue
   after a clear screen or an approval, to failed after a blocking screen, to reversed after a rejection.
   */
  lemma {:induction false} HoldsLeaveOnlyOnAVerdict(events: seq<Event>, e: Event)
    requires Run(START, events).movement.status == Held
    ensures var after := Next(Run(START, events), e).movement.status;
            after != Held ==> exists k :: 0 <= k < |events| && Decides(events[k], after)
  {
    var w := Run(START, events);
    var after := Next(w, e).movement.status;
    RunIsSound(START, events);
    RunIsGranted(START, [], events);
    assert [] + events == events;
    HoldEndsAtACall(w, e);
    hide Brings, Granted, Decides, Sound, Next;
    if after != Held {
      assert Granted(w.procs[e.proc], events);
      BringsWhatWasDecided(w.procs[e.proc], events, after);
    }
  }

  // ---------- whether the row says so ----------

  // A queued payout's row says it was cleared, a failed one's that it was blocked.
  predicate RowAgrees(m: Movement) {
    && (m.status == Queued ==> Cleared(m.row))
    && (m.status == Failed ==> m.row.Some? && m.row.value.decision == R.BLOCKED)
  }

  // The row was closed the other way.
  predicate Against(row: Option<Row>, decision: string) {
    Closed(row) && (decision == R.CLEAR) != Cleared(row)
  }

  // A verdict is on its way to the payout while the row was closed the other way.
  predicate Crossed(w: World, p: nat) {
    p < |w.procs|
    && match w.procs[p]
       case AtDecide(d) => Against(w.movement.row, d)
       case AtApply(d) => Against(w.movement.row, d)
       case _ => false
  }

  // Another pass or an approval closes the row the other way while pass p, having refreshed it, is about to record its verdict.
  predicate Crosses(w: World, e: Event, p: nat) {
    && p < |w.procs| && w.procs[p].AtDecide? && OpenHold(w.movement.row)
    && e.Move? && e.proc != p
    && match Landing(w, e)
       case Some(AtDecide(d)) => (d == R.CLEAR) != (w.procs[p].decision == R.CLEAR)
       case Some(AtClear) => w.procs[p].decision != R.CLEAR
       case _ => false
  }

  // Pass p ends: at its update of the payout, or at a failure before it.
  predicate Ends(w: World, e: Event, p: nat) {
    p < |w.procs| && e.Move? && e.proc == p && (e.fault != Ok || !w.procs[p].AtDecide?)
  }

  function CrossedOf(p: nat): World -> bool {
    w => Crossed(w, p)
  }

  function CrossesOf(p: nat): (World, Event) -> bool {
    (w, e) => Crosses(w, e, p)
  }

  function EndsOf(p: nat): (World, Event) -> bool {
    (w, e) => Ends(w, e, p)
  }

  lemma {:induction false} CrossedByItself(w: World, p: nat, fault: Fault)
    requires Sound(w)
    ensures Crossed(Next(w, Move(p, fault)), p) <==> Crossed(w, p) && !Ends(w, Move(p, fault), p)
  {
    if p < |w.procs| { assert Informed(w.procs[p], w.movement.row); }
  }

  lemma {:induction false} CrossedByAnother(w: World, p: nat, q: nat, fault: Fault)
    requires Sound(w) && p < |w.procs| && q < |w.procs| && p != q
    ensures Crossed(Next(w, Move(q, fault)), p) <==> Crosses(w, Move(q, fault), p) || Crossed(w, p)
  {
    assert Informed(w.procs[p], w.movement.row) && Informed(w.procs[q], w.movement.row);
  }

  lemma {:induction false} CrossedStep(w: World, e: Event, p: nat)
    requires Sound(w)
    ensures Crossed(Next(w, e), p) <==> Crosses(w, e, p) || (Crossed(w, p) && !Ends(w, e, p))
  {
    if e.Move? && e.proc == p {
      CrossedByItself(w, p, e.fault);
    } else if p < |w.procs| && e.Move? && e.proc < |w.procs| {
      CrossedByAnother(w, p, e.proc, e.fault);
      hide Next, Crossed, Crosses;
    }
  }

  // A call that takes the payout out of its hold, to the queue or to failed.
  predicate Leaves(w: World, e: Event) {
    && w.movement.status == Held && Landing(w, e).Some?
    && (Landing(w, e).value.AtApply? || Landing(w, e).value.AtQueue?)
  }

  /**
   The two updates of a verdict are not one transaction, and a pass does not count the rows its first one closed. A hold is
   left with its row saying otherwise exactly when, between that pass's refresh of the row and its decision, another pass or
   an approval closed the row the other way. Approvals always agree with their row.
   */
  lemma {:induction false} LeavesAgainstTheRowIff(events: seq<Event>, p: nat, fault: Fault)
    requires Leaves(Run(START, events), Move(p, fault))
    ensures !RowAgrees(Next(Run(START, events), Move(p, fault)).movement) <==> Since(CrossesOf(p), EndsOf(p), START, events)
  {
    forall x, y | Sound(x)
      ensures Sound(Next(x, y))
      ensures CrossedOf(p)(Next(x, y)) <==> CrossesOf(p)(x, y) || (CrossedOf(p)(x) && !EndsOf(p)(x, y))
    {
      NextIsSound(x, y);
      CrossedStep(x, y, p);
    }
    HoldsIffSetSince(CrossedOf(p), CrossesOf(p), EndsOf(p), Sound, START, events);
    var w := Run(START, events);
    assert Informed(w.procs[p], w.movement.row);
  }

  // ---------- how one is stranded ----------

  // Held with no open row: no pass lists it and no approval can clear it.
  predicate Stranded(w: World) {
    w.movement.status == Held && !OpenHold(w.movement.row)
  }

  // The row of a held payout is closed, or the payout is held without an open row: the screener was down, or the row has been
  // closed since it was read.
  predicate Strands(w: World, e: Event) {
    match Landing(w, e)
    case Some(AtDecide(_)) => w.movement.status == Held && OpenHold(w.movement.row)
    case Some(AtClear) => w.movement.status == Held && OpenHold(w.movement.row)
    case Some(AtHold) => w.movement.status == Queued && !OpenHold(w.movement.row)
    case _ => false
  }

  // The payout follows its row, or is rejected, or a request gets it an open row at last.
  predicate Frees(w: World, e: Event) {
    match Landing(w, e)
    case Some(AtApply(_)) => true
    case Some(AtQueue) => true
    case Some(AtReverse) => true
    case Some(AtRecord(found, _)) => w.movement.row.None? && OpenHold(Some(found))
    case _ => false
  }

  lemma {:induction false} StrandedStep(w: World, e: Event)
    requires Sound(w)
    ensures Stranded(Next(w, e)) <==> Strands(w, e) || (Stranded(w) && !Frees(w, e))
  {
    if e.Move? && e.proc < |w.procs| { assert Informed(w.procs[e.proc], w.movement.row); }
  }

  // A payout is held with no open row exactly when one of its calls left it so and none has freed it since.
  lemma {:induction false} StrandedIff(events: seq<Event>)
    ensures Stranded(Run(START, events)) <==> Since(Strands, Frees, START, events)
  {
    forall x, y | Sound(x) ensures Sound(Next(x, y)) && (Stranded(Next(x, y)) <==> Strands(x, y) || (Stranded(x) && !Frees(x, y))) {
      NextIsSound(x, y);
      StrandedStep(x, y);
    }
    HoldsIffSetSince(Stranded, Strands, Frees, Sound, START, events);
  }

  // No pass or approval that has closed the row is still on its way to the payout.
  predicate Quiet(w: World) {
    forall p :: 0 <= p < |w.procs| ==> !w.procs[p].AtDecide? && !w.procs[p].AtApply? && !w.procs[p].AtQueue?
  }

  predicate Stuck(w: World) {
    Quiet(w) && Closed(w.movement.row) && (w.movement.status == Held || w.movement.status == Reversed)
  }

  predicate Reverses(w: World, e: Event) {
    Landing(w, e) == Some(AtReverse)
  }

  predicate Nothing(w: World, e: Event) {
    false
  }

  lemma {:induction false} StuckStep(w: World, e: Event)
    requires Stuck(w)
    ensures Stuck(Next(w, e)) && (Stranded(Next(w, e)) <==> Stranded(w) && !Reverses(w, e))
  {
    var w' := Next(w, e);
    forall p | 0 <= p < |w'.procs| ensures !w'.procs[p].AtDecide? && !w'.procs[p].AtApply? && !w'.procs[p].AtQueue? {
      if p < |w.procs| { assert !w.procs[p].AtDecide? && !w.procs[p].AtApply? && !w.procs[p].AtQueue?; }
    }
  }

  // From then on nothing but a rejection frees it: no pass lists it, no approval finds an open row, no request moves it.
  lemma {:induction false} StrandedUntilRejected(w: World, events: seq<Event>)
    requires Stranded(w) && w.movement.row.Some? && Quiet(w)
    ensures Stranded(Run(w, events)) <==> Never(Reverses, w, events)
  {
    forall x, y | Stuck(x) ensures Stuck(Next(x, y)) && (Stranded(Next(x, y)) <==> Nothing(x, y) || (Stranded(x) && !Reverses(x, y))) {
      StuckStep(x, y);
    }
    HoldsIffSetSince(Stranded, Nothing, Reverses, Stuck, w, events);
    NothingIsNeverSet(Reverses, w, events);
  }

  lemma {:induction false} NothingIsNeverSet(unsets: (World, Event) -> bool, w: World, events: seq<Event>)
    ensures !Since(Nothing, unsets, w, events) && Never(Nothing, w, events)
    decreases |events|
  {
    if events != [] { NothingIsNeverSet(unsets, Next(w, events[0]), events[1..]); }
  }

  // ---------- what a rejection leaves behind ----------

  predicate Any(w: World) {
    true
  }

  predicate LeftScheduled(w: World) {
    w.movement.status == Reversed && w.movement.batch == L.Scheduled
  }

  predicate ReversesScheduled(w: World, e: Event) {
    Reverses(w, e) && w.movement.batch == L.Scheduled
  }

  predicate Reopens(w: World, e: Event) {
    Landing(w, e) == Some(AtReopen)
  }

  lemma {:induction false} LeftScheduledStep(w: World, e: Event)
    ensures LeftScheduled(Next(w, e)) <==> ReversesScheduled(w, e) || (LeftScheduled(w) && !Reopens(w, e))
  {
    if e.Move? && e.proc < |w.procs| {
      var m := Landed(w.movement, w.procs[e.proc]).0;
      assert Next(w, e).movement == if e.fault == Error then w.movement else m;
      hide Next, Statement;
    }
  }

  // A batch stays scheduled with no payout on it exactly when a rejection reversed its payout and none has reopened it since.
  lemma {:induction false} LeftScheduledIff(events: seq<Event>)
    ensures LeftScheduled(Run(START, events)) <==> Since(ReversesScheduled, Reopens, START, events)
  {
    forall x, y | Any(x)
      ensures Any(Next(x, y)) && (LeftScheduled(Next(x, y)) <==> ReversesScheduled(x, y) || (LeftScheduled(x) && !Reopens(x, y)))
    {
      LeftScheduledStep(x, y);
    }
    HoldsIffSetSince(LeftScheduled, ReversesScheduled, Reopens, Any, START, events);
  }

  predicate LeftReserved(w: World) {
    w.movement.status == Reversed && w.movement.reserved
  }

  // A reserved payout is reversed, or one that is reversed is reserved by a request that was already under way.
  predicate KeepsReserved(w: World, e: Event) {
    || (Reverses(w, e) && w.movement.reserved)
    || (w.movement.status == Reversed && Landing(w, e).Some? && Landing(w, e).value.AtReserve?)
  }

  predicate Releases(w: World, e: Event) {
    Landing(w, e) == Some(AtRelease)
  }

  lemma {:induction false} LeftReservedStep(w: World, e: Event)
    ensures LeftReserved(Next(w, e)) <==> KeepsReserved(w, e) || (LeftReserved(w) && !Releases(w, e))
  {
  }

  // Likewise for its reservation, which counts against the merchant's ceilings.
  lemma {:induction false} LeftReservedIff(events: seq<Event>)
    ensures LeftReserved(Run(START, events)) <==> Since(KeepsReserved, Releases, START, events)
  {
    forall x, y | Any(x)
      ensures Any(Next(x, y)) && (LeftReserved(Next(x, y)) <==> KeepsReserved(x, y) || (LeftReserved(x) && !Releases(x, y)))
    {
      LeftReservedStep(x, y);
    }
    HoldsIffSetSince(LeftReserved, KeepsReserved, Releases, Any, START, events);
  }

  predicate IsReserved(w: World) {
    w.movement.reserved
  }

  predicate RequestReserves(w: World, e: Event) {
    Landing(w, e).Some? && Landing(w, e).value.AtReserve?
  }

  predicate Unreserves(w: World, e: Event) {
    Releases(w, e) || (e == Cancel && w.movement.status in {Failed, Processing})
  }

  lemma {:induction false} ReservedStep(w: World, e: Event)
    ensures IsReserved(Next(w, e)) <==> RequestReserves(w, e) || (IsReserved(w) && !Unreserves(w, e))
  {
  }

  // A payout is reserved exactly when a request has reserved it and neither a rejection nor a cancellation released it since.
  lemma {:induction false} ReservedIff(events: seq<Event>)
    ensures Run(START, events).movement.reserved <==> Since(RequestReserves, Unreserves, START, events)
  {
    forall x, y | Any(x)
      ensures Any(Next(x, y)) && (IsReserved(Next(x, y)) <==> RequestReserves(x, y) || (IsReserved(x) && !Unreserves(x, y)))
    {
      ReservedStep(x, y);
    }
    HoldsIffSetSince(IsReserved, RequestReserves, Unreserves, Any, START, events);
  }

  // Reversed with no rejection under way.
  predicate Over(w: World) {
    && w.movement.status == Reversed
    && forall p :: 0 <= p < |w.procs| ==> !w.procs[p].AtReverse? && !w.procs[p].AtRelease? && !w.procs[p].AtReopen?
  }

  lemma {:induction false} OverStep(w: World, e: Event)
    requires Over(w)
    ensures Over(Next(w, e)) && Next(w, e).movement.batch == w.movement.batch
    ensures w.movement.reserved ==> Next(w, e).movement.reserved
  {
    var w' := Next(w, e);
    forall p | 0 <= p < |w'.procs| ensures !w'.procs[p].AtReverse? && !w'.procs[p].AtRelease? && !w'.procs[p].AtReopen? {
      if p < |w.procs| { assert !w.procs[p].AtReverse? && !w.procs[p].AtRelease? && !w.procs[p].AtReopen?; }
    }
  }

  // A rejection cannot be repeated: once it has ended, what it left behind stays, whatever is tried on this payout.
  lemma {:induction false} ARejectionIsNotRepeated(w: World, events: seq<Event>)
    requires Over(w)
    ensures Run(w, events).movement.status == Reversed && Run(w, events).movement.batch == w.movement.batch
    ensures w.movement.reserved ==> Run(w, events).movement.reserved
    decreases |events|
  {
    if events != [] {
      OverStep(w, events[0]);
      ARejectionIsNotRepeated(Next(w, events[0]), events[1..]);
    }
    hide Over, Next;
  }

  // ---------- paid and reversed ----------

  // The bank has paid a payout that counts as cancelled, so that its batch may be paid out again.
  predicate SentAndReversed(w: World) {
    w.movement.status == Reversed && w.movement.sent
  }

  // A payout the bank has paid is rejected or cancelled, or one that was rejected or cancelled is paid by the bank: a claim
  // had been made before, or is on its way.
  predicate ReversesSent(w: World, e: Event) {
    || (w.movement.sent && (Reverses(w, e) || Cancels(w, e)))
    || (w.movement.status == Reversed && Landing(w, e) == Some(AtBank(Paid)))
  }

  predicate Cancels(w: World, e: Event) {
    e.Cancel? && (w.movement.status == Failed || w.movement.status == Processing)
  }

  lemma {:induction false} SentAndReversedStep(w: World, e: Event)
    ensures SentAndReversed(Next(w, e)) <==> ReversesSent(w, e) || SentAndReversed(w)
  {
  }

  /**
   A reversed payout is to be one whose money never left the bank. It is not exactly when a rejection, which tests that the
   payout is held and then reverses it whatever it is by then, or an operator's cancellation, which accepts one in processing,
   has come after the bank's payment or before a payment already claimed.
   */
  lemma {:induction false} SentAndReversedIff(events: seq<Event>)
    ensures SentAndReversed(Run(START, events)) <==> Since(ReversesSent, Nothing, START, events)
  {
    forall x, y | Any(x)
      ensures Any(Next(x, y)) && (SentAndReversed(Next(x, y)) <==> ReversesSent(x, y) || (SentAndReversed(x) && !Nothing(x, y)))
    {
      SentAndReversedStep(x, y);
    }
    HoldsIffSetSince(SentAndReversed, ReversesSent, Nothing, Any, START, events);
  }

  // ---------- what the bank said ----------

  // A process is about to record a refusal.
  predicate Refused(w: World, p: nat) {
    p < |w.procs| && w.procs[p] == AtSettle(Declined)
  }

  // The bank declines the payment the process asked for, or does not answer.
  predicate Refuses(w: World, e: Event, p: nat) {
    p < |w.procs| && w.procs[p].AtBank? && e.Move? && e.proc == p && (e.fault != Ok || w.procs[p].outcome == Declined)
  }

  predicate Moves(w: World, e: Event, p: nat) {
    p < |w.procs| && e.Move? && e.proc == p
  }

  function RefusedOf(p: nat): World -> bool {
    w => Refused(w, p)
  }

  function RefusesOf(p: nat): (World, Event) -> bool {
    (w, e) => Refuses(w, e, p)
  }

  function MovesOf(p: nat): (World, Event) -> bool {
    (w, e) => Moves(w, e, p)
  }

  lemma {:induction false} RefusedStep(w: World, e: Event, p: nat)
    ensures Refused(Next(w, e), p) <==> Refuses(w, e, p) || (Refused(w, p) && !Moves(w, e, p))
  {
  }

  // A payout in processing fails exactly when a refusal is recorded by a process whose last call was to a bank that declined or
  // did not answer; a pending answer changes nothing.
  lemma {:induction false} FailsIffTheBankRefused(events: seq<Event>, e: Event)
    ensures var w := Run(START, events);
            && (Landing(w, e) == Some(AtSettle(Pending)) ==> Next(w, e).movement == w.movement)
            && (w.movement.status == Processing ==>
                  (Next(w, e).movement.status == Failed <==>
                     Landing(w, e).Some? && Since(RefusesOf(e.proc), MovesOf(e.proc), START, events)))
  {
    var w := Run(START, events);
    if e.Move? && e.proc < |w.procs| {
      forall x, y | Any(x)
        ensures Any(Next(x, y))
        ensures RefusedOf(e.proc)(Next(x, y)) <==> RefusesOf(e.proc)(x, y) || (RefusedOf(e.proc)(x) && !MovesOf(e.proc)(x, y))
      {
        RefusedStep(x, y, e.proc);
      }
      HoldsIffSetSince(RefusedOf(e.proc), RefusesOf(e.proc), MovesOf(e.proc), Any, START, events);
    }
    FailureIsARefusal(w, e);
    hide Run, Next, Since, Refuses, Moves;
  }

  lemma {:induction false} FailureIsARefusal(w: World, e: Event)
    ensures Landing(w, e) == Some(AtSettle(Pending)) ==> Next(w, e).movement == w.movement
    ensures w.movement.status == Processing ==>
              (Next(w, e).movement.status == Failed <==> Landing(w, e).Some? && Refused(w, e.proc))
  {
  }

  predicate Sent(w: World) {
    w.movement.sent
  }

  predicate BankPays(w: World, e: Event) {
    Landing(w, e) == Some(AtBank(Paid))
  }

  // What is recorded as paid was paid.
  predicate PaidIsSent(w: World) {
    && (w.movement.status == Completed || w.movement.batch == L.Processed ==> w.movement.sent)
    && forall p :: 0 <= p < |w.procs| && w.procs[p] == AtSettle(Paid) ==> w.movement.sent
  }

  lemma {:induction false} PaidIsSentStep(w: World, e: Event)
    requires PaidIsSent(w)
    ensures PaidIsSent(Next(w, e)) && (Sent(Next(w, e)) <==> BankPays(w, e) || Sent(w))
  {
    if e.Move? && e.proc < |w.procs| {
      LandedIsSent(w.movement, w.procs[e.proc]);
      var w' := Next(w, e);
      forall p | 0 <= p < |w'.procs| && w'.procs[p] == AtSettle(Paid) ensures w'.movement.sent {
        if p != e.proc { assert w.procs[p] == AtSettle(Paid); }
      }
      hide Landed;
    }
  }

  lemma {:induction false} LandedIsSent(m: Movement, pc: Pc)
    requires m.status == Completed || m.batch == L.Processed || pc == AtSettle(Paid) ==> m.sent
    ensures var (m', pc') := Landed(m, pc);
            && (m'.status == Completed || m'.batch == L.Processed || pc' == AtSettle(Paid) ==> m'.sent)
            && (m'.sent <==> m.sent || pc == AtBank(Paid))
  {
  }

  // A completed payout, like a processed batch, is one the bank has paid, and nothing is paid but by the bank.
  lemma {:induction false} CompletedWasPaid(events: seq<Event>)
    ensures var w := Run(START, events);
            && (w.movement.status == Completed || w.movement.batch == L.Processed ==> w.movement.sent)
            && (w.movement.sent <==> Since(BankPays, Nothing, START, events))
  {
    forall x, y | PaidIsSent(x) ensures PaidIsSent(Next(x, y)) && (Sent(Next(x, y)) <==> BankPays(x, y) || (Sent(x) && !Nothing(x, y))) {
      PaidIsSentStep(x, y);
    }
    HoldsIffSetSince(Sent, BankPays, Nothing, PaidIsSent, START, events);
  }
}
