/**
 When each event of the ledger goes through and what it changes, in terms of the tables: a refused one changes nothing at all.
 A payout is claimed three times at most, counted over the run.
 */
module LedgerEvents {
  import opened Sums
  import opened Wrappers
  import opened Ledger
  import opened LedgerLaws

  // ---------- collections ----------

  // A draft needs an amount, a success an awaiting payment, and a split one that was paid and not split, whatever came of it.
  lemma {:induction false} CollectionsAdvance(w: World, user: nat, merchant: nat, amount: nat, fee: int, p: nat)
    requires Lawful(w)
    ensures Step(w, Draft(user, merchant, amount, fee)) ==
            if amount == 0 then w
            else w.(payments := w.payments + [Payment(user, merchant, amount, fee, amount - fee, Awaiting, NotPosted, None, 0, NoRequest, false, false)])
    ensures var w' := Step(w, Succeed(p));
            if p < |w.payments| && w.payments[p].status == Awaiting
            then w' == w.(payments := w.payments[p := w.payments[p].(status := Succeeded)], journal := w'.journal) else w' == w
    ensures var w' := Step(w, Split(p));
            if p < |w.payments| && w.payments[p].status != Awaiting && w.payments[p].accrual == NotPosted
            then w' == w.(payments := w.payments[p := w.payments[p].(accrual := Posted)], journal := w'.journal) else w' == w
  {
    assert forall j: seq<Entry> :: j + [] == j;
    hide Lawful, MoneyIn, SplitLegs;
  }

  // ---------- refunds ----------

  predicate InClosedBatch(w: World, p: nat)
    requires p < |w.payments|
  {
    var line := w.payments[p].line;
    line.Some? && line.value < |w.batches| && w.batches[line.value].status != Open
  }

  // The payment's line goes, and its batch is the less by its amount.
  ghost predicate OffItsLine(w: World, w': World, p: nat, q: Payment)
    requires p < |w.payments|
  {
    && w'.payments == w.payments[p := q.(line := None)] && w'.transfers == w.transfers && |w'.batches| == |w.batches|
    && forall b :: 0 <= b < |w.batches| ==>
         w'.batches[b] == w.batches[b].(total := w'.batches[b].total)
         && w'.batches[b].total == w.batches[b].total - if w.payments[p].line == Some(b) then w.payments[p].amount else 0
  }

  // The payment as a refund leaves it: its own entries are reversed, and with them its split, if it had one.
  function AfterRefund(q: Payment): Payment {
    q.(status := Refunded, request := Done, reversed := true, accrual := if q.accrual == Posted then Reversed else q.accrual)
  }

  lemma {:induction false} UnlinedIsOff(w: World, p: nat, q: Payment)
    requires Lawful(w) && p < |w.payments| && q.amount == w.payments[p].amount
    ensures OffItsLine(w, Unlined(w, p, q), p, q)
  {
    assert PaymentOk(w.payments[p], w.batches);
    var w' := Unlined(w, p, q);
    forall b | 0 <= b < |w.batches|
      ensures w'.batches[b].total == w.batches[b].total - if w.payments[p].line == Some(b) then w.payments[p].amount else 0
    {
      LinesUpdate(w.payments, p, q.(line := None), b);
      assert w.batches[b].total == LinesTotal(w.payments, b);
    }
    hide LinesTotal, Recorded, Balanced, Raw, WalletBalance, Sum;
  }

  // A refund made at once needs a succeeded payment that no request is open for, no scheduled or processed batch holds, and
  // no operator has reversed.
  lemma {:induction false} ADirectRefund(w: World, p: nat)
    requires Lawful(w)
    ensures var w' := Step(w, Refund(p));
            if p < |w.payments| && w.payments[p].status == Succeeded && w.payments[p].request == NoRequest && !InClosedBatch(w, p)
               && !w.payments[p].reversed
            then OffItsLine(w, w', p, AfterRefund(w.payments[p]))
            else w' == w
  {
    assert w.journal + [] == w.journal;
    if p < |w.payments| {
      assert PaymentOk(w.payments[p], w.batches);
      ReversibleIff(w, OfPayment(p));
      UnlinedIsOff(w, p, AfterRefund(w.payments[p]));
      assert w.payments[p].status == Succeeded ==> Original(w, OfPayment(p)) != [];
    }
    hide Reversible, RefundPostings, Unlined, Lawful, Under;
  }

  // A request needs the same but for the reversal, and takes the payment off its line; an approval comes from another
  // operator than asked, for a payment still succeeded and not reversed, and does not look at lines.
  lemma {:induction false} ARequestedRefund(w: World, p: nat, admin: nat)
    requires Lawful(w)
    ensures var w' := Step(w, RequestRefund(p, admin));
            if p < |w.payments| && w.payments[p].status == Succeeded && w.payments[p].request == NoRequest && !InClosedBatch(w, p)
            then OffItsLine(w, w', p, w.payments[p].(request := AwaitingApproval(admin))) && w'.journal == w.journal
            else w' == w
    ensures var w' := Step(w, ApproveRefund(p, admin));
            if p < |w.payments| && w.payments[p].request.AwaitingApproval? && w.payments[p].request.admin != admin
               && w.payments[p].status == Succeeded && !w.payments[p].reversed
            then w' == w.(payments := w.payments[p := AfterRefund(w.payments[p])], journal := w'.journal)
            else w' == w
  {
    assert w.journal + [] == w.journal;
    if p < |w.payments| {
      assert PaymentOk(w.payments[p], w.batches);
      ReversibleIff(w, OfPayment(p));
      UnlinedIsOff(w, p, w.payments[p].(request := AwaitingApproval(admin)));
      assert w.payments[p].status == Succeeded ==> Original(w, OfPayment(p)) != [];
    }
    hide Reversible, RefundPostings, Unlined, Lawful, Under;
  }

  // Only an open request is rejected, and only a rejected one can be asked for again.
  lemma {:induction false} ARefundIsRejected(w: World, p: nat)
    requires Lawful(w)
    ensures Step(w, RejectRefund(p)) ==
            if p < |w.payments| && w.payments[p].request.AwaitingApproval?
            then w.(payments := w.payments[p := w.payments[p].(request := Rejected)]) else w
    ensures Step(w, FailRefund(p)) ==
            if p < |w.payments| && w.payments[p].request == Rejected
            then w.(payments := w.payments[p := w.payments[p].(request := NoRequest)]) else w
  {
    assert w.journal + [] == w.journal;
    hide Lawful;
  }

  // ---------- settlement ----------

  // Paid, on no line, not locked by another cut.
  predicate Settles(w: World, e: Event, i: nat)
    requires e.Cut?
  {
    i < |w.payments| && w.payments[i].status == Succeeded && w.payments[i].merchant == e.merchant && w.payments[i].line.None? && i !in e.locked
  }

  lemma {:induction false} DueTotalIff(ps: seq<Payment>, from: nat, merchant: nat, locked: set<nat>)
    requires forall i :: 0 <= i < |ps| ==> ps[i].amount > 0
    ensures DueTotal(ps, from, merchant, locked) > 0 <==> exists i :: 0 <= i < |ps| && Due(ps[i], from + i, merchant, locked)
  {
    if ps != [] {
      DueTotalIff(ps[1..], from + 1, merchant, locked);
      if i :| 0 <= i < |ps| && Due(ps[i], from + i, merchant, locked) {
        if i > 0 { assert ps[1..][i - 1] == ps[i] && Due(ps[1..][i - 1], from + 1 + (i - 1), merchant, locked); }
      }
      if i :| 0 <= i < |ps[1..]| && Due(ps[1..][i], from + 1 + i, merchant, locked) {
        assert ps[1..][i] == ps[i + 1] && Due(ps[i + 1], from + (i + 1), merchant, locked);
      }
    }
  }

  // The whole kobo of so many basis points, dropping the fraction whatever the sign.
  predicate Truncates(fee: int, total: nat, bps: int) {
    if bps >= 0 then 10_000 * fee <= total * bps < 10_000 * (fee + 1)
    else 10_000 * (fee - 1) < total * bps <= 10_000 * fee
  }

  lemma {:induction false} FeeTruncates(total: nat, bps: int)
    ensures Truncates(FeeOf(total, bps), total, bps)
  {
    if bps < 0 { assert total * -bps == -(total * bps); }
  }

  lemma {:induction false} CutPostsIff(w: World, e: Event)
    requires Lawful(w) && e.Cut?
    ensures CutPosts(w, e) <==> (forall c :: 0 <= c < |w.batches| ==> w.batches[c].number != e.number) && exists i :: Settles(w, e, i)
    ensures forall i :: 0 <= i < |w.payments| ==> (Due(w.payments[i], i, e.merchant, e.locked) <==> Settles(w, e, i))
  {
    forall i | 0 <= i < |w.payments| ensures w.payments[i].amount > 0 { assert PaymentOk(w.payments[i], w.batches); }
    DueTotalIff(w.payments, 0, e.merchant, e.locked);
    forall i | 0 <= i < |w.payments| ensures Due(w.payments[i], 0 + i, e.merchant, e.locked) <==> Settles(w, e, i) { }
    hide Lawful, DueTotal, Due;
  }

  /**
   A cut under a number not used before takes exactly the merchant's paid and unlocked payments that are on no line, if there
   are any, onto one open batch whose total is the sum of its lines, less a fee in basis points.
   */
  lemma {:induction false} ACutTakesWhatIsDue(w: World, e: Event)
    requires Lawful(w) && e.Cut?
    ensures var w' := Step(w, e);
            var b := |w.batches|;
            if (forall c :: 0 <= c < b ==> w.batches[c].number != e.number) && exists i :: Settles(w, e, i) then
              && |w'.payments| == |w.payments| && |w'.batches| == b + 1 && w'.batches[..b] == w.batches && w'.transfers == w.transfers
              && (forall i :: 0 <= i < |w.payments| ==>
                    w'.payments[i] == if Settles(w, e, i) then w.payments[i].(line := Some(b), settled := w.payments[i].settled + w.payments[i].amount)
                                      else w.payments[i])
              && w'.batches[b].total == LinesTotal(w'.payments, b) && Truncates(w'.batches[b].fee, w'.batches[b].total, e.bps)
              && w'.batches[b] == Batch(e.merchant, e.number, Open, w'.batches[b].total, w'.batches[b].total, w'.batches[b].fee, None, {})
            else w' == w
  {
    CutPostsIff(w, e);
    assert w.journal + [] == w.journal;
    if CutPosts(w, e) {
      CutShaped(w, e);
      FeeTruncates(DueTotal(w.payments, 0, e.merchant, e.locked), e.bps);
    }
    hide CutPosts, Lawful, DueTotal, FeeOf, CutPostings, LinesTotal, Truncates;
  }

  // ---------- payouts ----------

  // The batch's payout, while it is not reversed, has this status.
  predicate Stands(w: World, b: nat, status: PayoutStatus) {
    b < |w.batches| && w.batches[b].payout.Some? && w.batches[b].payout.value.status == status
  }

  // Only this batch's payout and status change, and the journal as the payout posts.
  predicate OnlyItsPayout(w: World, w': World, b: nat, payout: Option<Payout>, status: BatchStatus)
    requires b < |w.batches|
  {
    w' == w.(batches := w.batches[b := w.batches[b].(payout := payout, status := status)], journal := w'.journal)
  }

  // A payout is made for what its batch has left, if that is something; a claim schedules the batch.
  lemma {:induction false} APayoutIsMadeAndClaimed(w: World, b: nat)
    requires Lawful(w)
    ensures var w' := Step(w, Pay(b, Create));
            if b < |w.batches| && w.batches[b].payout.None? && w.batches[b].total > w.batches[b].fee
            then OnlyItsPayout(w, w', b, Some(Payout(w.batches[b].total - w.batches[b].fee, Queued, 0)), w.batches[b].status)
                 && w'.journal == w.journal
            else w' == w
    ensures var w' := Step(w, Pay(b, Claim));
            if Stands(w, b, Queued)
            then var p := w.batches[b].payout.value;
                 OnlyItsPayout(w, w', b, Some(Payout(p.amount, Processing, p.attempts + 1)), Scheduled) && w'.journal == w.journal
            else w' == w
  {
    assert w.journal + [] == w.journal;
    hide Lawful;
  }

  // A claim fails or is queued again; a failure is queued again while fewer than three claims were made, or cancelled, which
  // opens its batch; a claim that is not cancelled completes with its batch, and then nothing moves it.
  lemma {:induction false} AClaimEnds(w: World, b: nat)
    requires Lawful(w)
    ensures var w' := Step(w, Pay(b, Fail));
            if Stands(w, b, Processing)
            then OnlyItsPayout(w, w', b, Some(w.batches[b].payout.value.(status := Failed)), w.batches[b].status) && w'.journal == w.journal
            else w' == w
    ensures var w' := Step(w, Pay(b, Requeue));
            if Stands(w, b, Processing)
            then OnlyItsPayout(w, w', b, Some(w.batches[b].payout.value.(status := Queued)), w.batches[b].status) && w'.journal == w.journal
            else w' == w
    ensures var w' := Step(w, Pay(b, Retry));
            if Stands(w, b, Failed) && w.batches[b].payout.value.attempts < 3
            then OnlyItsPayout(w, w', b, Some(w.batches[b].payout.value.(status := Queued)), w.batches[b].status) && w'.journal == w.journal
            else w' == w
    ensures var w' := Step(w, Pay(b, Complete));
            if Stands(w, b, Processing)
            then OnlyItsPayout(w, w', b, Some(w.batches[b].payout.value.(status := Completed)), Processed)
            else w' == w
    ensures var w' := Step(w, Pay(b, Cancel));
            if Stands(w, b, Failed) || Stands(w, b, Processing)
            then OnlyItsPayout(w, w', b, None, if w.batches[b].status == Scheduled then Open else w.batches[b].status) && w'.journal == w.journal
            else w' == w
  {
    PayStep(w, b, Fail);
    PayStep(w, b, Requeue);
    PayStep(w, b, Retry);
    PayStep(w, b, Complete);
    PayStep(w, b, Cancel);
    hide Lawful, Step;
  }

  // Only a completion posts.
  lemma {:induction false} PayStep(w: World, b: nat, move: PayoutMove)
    ensures var w' := Step(w, Pay(b, move)); w' == StepPayout(w, b, move).(journal := w'.journal)
    ensures move != Complete || !Stands(w, b, Processing) ==> Step(w, Pay(b, move)).journal == w.journal
  {
    assert w.journal + [] == w.journal;
    hide PartPostings;
  }

  // The claims made of a batch's payout since it was created.
  ghost function Claims(events: seq<Event>, b: nat): nat {
    if events == [] then 0
    else
      var before, e := Run(EMPTY, events[..|events| - 1]), events[|events| - 1];
      if b >= |before.batches| || before.batches[b].payout.None? then 0
      else Claims(events[..|events| - 1], b) + if e == Pay(b, Claim) && Stands(before, b, Queued) then 1 else 0
  }

  lemma {:induction false} RunLast(events: seq<Event>)
    requires events != []
    ensures Run(EMPTY, events) == Step(Run(EMPTY, events[..|events| - 1]), events[|events| - 1])
  {
    var front, last := events[..|events| - 1], events[|events| - 1];
    assert events == front + [last];
    RunAppend(EMPTY, front, [last]);
    assert [last][1..] == [];
  }

  // An event leaves a payout's count alone, but for a claim; one that appears has none.
  lemma {:induction false} AttemptsStep(w: World, e: Event, b: nat)
    requires Lawful(w) && b < |Step(w, e).batches| && Step(w, e).batches[b].payout.Some?
    ensures Step(w, e).batches[b].payout.value.attempts ==
            if b >= |w.batches| || w.batches[b].payout.None? then 0
            else w.batches[b].payout.value.attempts + if e == Pay(b, Claim) && Stands(w, b, Queued) then 1 else 0
  {
    hide Postings, Lawful, StepPayout;
    if e.Pay? {
      PaidAttempts(w, e.b, e.move, b);
    } else if OnPayment(e) {
      if e.p < |w.payments| { PaymentShape(w, e, e.p); } else { NoSuchPayment(w, e); }
      hide StepState, LinesTotal;
    } else {
      hide Reversible, NewTransfer, CutPosts, DueTotal, FeeOf, Enlist;
    }
  }

  lemma {:induction false} PaidAttempts(w: World, c: nat, move: PayoutMove, b: nat)
    ensures var w' := StepPayout(w, c, move);
            && |w'.batches| == |w.batches|
            && (b < |w.batches| && w'.batches[b].payout.Some? ==>
                  w'.batches[b].payout.value.attempts ==
                  if w.batches[b].payout.None? then 0
                  else w.batches[b].payout.value.attempts + if c == b && move == Claim && Stands(w, b, Queued) then 1 else 0)
  {
  }

  lemma {:induction false} AttemptsAreClaims(events: seq<Event>, b: nat)
    ensures var w := Run(EMPTY, events);
            b < |w.batches| && w.batches[b].payout.Some? ==> w.batches[b].payout.value.attempts == Claims(events, b)
    decreases |events|
  {
    if events != [] {
      var front, last := events[..|events| - 1], events[|events| - 1];
      RunLast(events);
      AttemptsAreClaims(front, b);
      EmptyIsLawful();
      EveryRunIsLawful(EMPTY, front);
      var w := Run(EMPTY, front);
      if b < |Step(w, last).batches| && Step(w, last).batches[b].payout.Some? { AttemptsStep(w, last, b); }
      hide Run, Step, Lawful;
    }
  }

  /** Over any run: a failed payout is queued again by a retry exactly when it has been claimed fewer than three times. */
  lemma {:induction false} RetriedIffClaimedFewerThanThreeTimes(events: seq<Event>, b: nat)
    requires Stands(Run(EMPTY, events), b, Failed)
    ensures Stands(Step(Run(EMPTY, events), Pay(b, Retry)), b, Queued) <==> Claims(events, b) < 3
    ensures Claims(events, b) >= 3 ==> Step(Run(EMPTY, events), Pay(b, Retry)) == Run(EMPTY, events)
  {
    AttemptsAreClaims(events, b);
    EmptyIsLawful();
    EveryRunIsLawful(EMPTY, events);
    AClaimEnds(Run(EMPTY, events), b);
    hide Run, Step, Claims, Lawful;
  }

  // ---------- spends, returns and operator reversals ----------

  // A spend needs an amount its check found covered; a purse returns all it holds, if anything.
  lemma {:induction false} WalletsAreSpent(w: World, merchant: nat, kobo: nat, outlet: Outlet, seen: int, purse: nat)
    requires Lawful(w)
    ensures var w' := Step(w, Spend(merchant, kobo, outlet, seen));
            if 0 < kobo <= seen then w' == w.(transfers := w.transfers + [Transfer(merchant, kobo, outlet, false, false)], journal := w'.journal)
            else w' == w
    ensures var w' := Step(w, ReturnPurse(merchant, purse));
            var left := PurseBalance(w.journal, merchant, purse);
            && (if left > 0 then w' == w.(transfers := w.transfers + [Transfer(merchant, left, ToPurse(purse), true, false)], journal := w'.journal)
                else w' == w)
            && (left > 0 ==> PurseBalance(w'.journal, merchant, purse) == 0)
  {
    assert w.journal + [] == w.journal;
    var left := PurseBalance(w.journal, merchant, purse);
    if left > 0 {
      var t, i := Transfer(merchant, left, ToPurse(purse), true, false), |w.transfers|;
      NetAppend(w.journal, TransferPostings(t, i), Single(ProgramPurse(merchant, purse)));
      PairNet(OfTransfer(i), ProgramPurse(merchant, purse), BusinessWallet(merchant), left, None);
    }
    hide Lawful, Net, TransferPostings;
  }

  // An operator's reversal goes through for anything posted that has not been reversed, and marks that alone.
  lemma {:induction false} AnOperatorReverses(w: World, ref: Ref)
    requires Lawful(w)
    ensures var w' := Step(w, Reverse(ref));
            if Under(w.journal, ref) == [] || IsReversed(w, ref) then w' == w
            else w'.journal == w.journal + Flip(Under(w.journal, ref)) && MarksAlone(w, w', ref)
  {
    ReversibleIff(w, ref);
    assert Under(w.journal, ref) == Expected(w, ref);
    PostedIffOriginal(w, ref);
    ReverseStep(w, ref);
    hide Lawful, Under, Flip, Expected, Original, Reversible, Step, Struck, MarksAlone;
    var w' := Step(w, Reverse(ref));
    if Reversible(w, ref) { StruckMarksAlone(w, w', ref); }
  }

  // Only the mark of what the reference stands for is set: a payment's entries with its split, a refund's credit, a part of a
  // cut, a transfer.
  predicate MarksAlone(w: World, w': World, ref: Ref) {
    match ref
    case OfPayment(p) =>
      p < |w.payments|
      && var q := w.payments[p];
         w' == w.(payments := w.payments[p := q.(reversed := true, accrual := if q.accrual == Posted then Reversed else q.accrual)],
                  journal := w'.journal)
    case OfRefund(p) =>
      p < |w.payments| && w' == w.(payments := w.payments[p := w.payments[p].(creditReversed := true)], journal := w'.journal)
    case OfBatch(b, part) =>
      b < |w.batches|
      && w' == w.(batches := w.batches[b := w.batches[b].(struck := w.batches[b].struck + {part})], journal := w'.journal)
    case OfTransfer(i) =>
      i < |w.transfers| && w' == w.(transfers := w.transfers[i := w.transfers[i].(struck := true)], journal := w'.journal)
  }

  lemma {:induction false} ReverseStep(w: World, ref: Ref)
    ensures Step(w, Reverse(ref)) ==
            if Reversible(w, ref) then Struck(w, ref).(journal := w.journal + Flip(Under(w.journal, ref))) else w
  {
    assert w.journal + [] == w.journal;
    hide Struck, Flip, Under, Reversible;
  }

  lemma {:induction false} StruckMarksAlone(w: World, w': World, ref: Ref)
    requires InTables(w, ref) && w' == Struck(w, ref).(journal := w'.journal)
    ensures MarksAlone(w, w', ref)
  {
  }

  lemma {:induction false} PostedIffOriginal(w: World, ref: Ref)
    requires Lawful(w)
    ensures Expected(w, ref) == [] <==> Original(w, ref) == []
    ensures Original(w, ref) != [] ==> InTables(w, ref)
  {
    match ref {
      case OfPayment(id) =>
        if id < |w.payments| {
          assert PaymentOk(w.payments[id], w.batches);
          if w.payments[id].status != Awaiting { HistoryReversed(w.payments[id], id); }
        }
      case OfRefund(id) => if id < |w.payments| { OnceReversed(WalletCredit(w.payments[id], id), w.payments[id].creditReversed); }
      case OfBatch(b, part) => if b < |w.batches| { OnceReversed(PartPostings(w.batches[b], b, part), part in w.batches[b].struck); }
      case OfTransfer(i) => if i < |w.transfers| { OnceReversed(TransferPostings(w.transfers[i], i), w.transfers[i].struck); }
    }
    hide Lawful, Under, Flip, Once, PaymentOk;
  }
}
