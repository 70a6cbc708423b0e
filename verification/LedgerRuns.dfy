/**
 Runs from an empty database on which a promise of the ledger fails: the available balance, the refunds, the settlement
 lines and the business wallet.
 */
module LedgerRuns {
  import opened Sums
  import opened Wrappers
  import opened Ledger
  import opened LedgerLaws
  import opened AvailableBalance
  import opened BusinessWallets

  // ---------- the clamp does fire ----------

  // One collection of 100 kobo with a surcharge of 1, settled; then a second one like it.
  function Collected(m: nat, p: nat): seq<Event> {
    [Draft(7, m, 100, 1), Succeed(p), Split(p)]
  }

  function SettledOnce(m: nat): seq<Event> {
    Collected(m, 0) + [Cut(m, "A", 250, {})]
  }

  // The standing of one such collection: paid, credited, on no line.
  function Fresh(m: nat): Payment {
    Payment(7, m, 100, 1, 99, Succeeded, Posted, None, 0, NoRequest, false, false)
  }

  function Frozen(m: nat): Payment {
    Fresh(m).(line := Some(0), settled := 100)
  }

  function FirstCut(m: nat): Batch {
    Batch(m, "A", Open, 100, 100, 2, None, {})
  }

  lemma {:induction false} CollectingAppends(m: nat, w: World)
    ensures var w' := Run(w, Collected(m, |w.payments|)); w'.payments == w.payments + [Fresh(m)] && w'.batches == w.batches && w'.transfers == w.transfers
  {
    var p := |w.payments|;
    var w1 := Step(w, Draft(7, m, 100, 1));
    var w2 := Step(w1, Succeed(p));
    var w3 := Step(w2, Split(p));
    assert w3.payments == w.payments + [Fresh(m)];
    assert Collected(m, p)[1..] == [Succeed(p), Split(p)] && Collected(m, p)[2..] == [Split(p)];
    assert Run(w, Collected(m, p)) == Run(w1, Collected(m, p)[1..]) == Run(w2, Collected(m, p)[2..]) == Run(w3, []);
  }

  /**
   After the cut the merchant's raw balance is -1 and the endpoint says 0, as promised; after the next collection it says
   98 where 99 has been collected, unsettled and unreversed.
   */
  lemma {:induction false} ClampFiresAndHidesTheFee(m: nat)
    ensures var w := Run(EMPTY, SettledOnce(m)); Raw(w.journal, m) == -1 && Promised(w, m) == 0
    ensures var w := Run(EMPTY, SettledOnce(m) + Collected(m, 1)); Raw(w.journal, m) == 98 && Promised(w, m) == 99
  {
    AfterTheCut(m);
    AfterTheNext(m);
    assert StandingOf(m)(Frozen(m)) == -1 && PromiseOf(m)(Frozen(m)) == 0 && StandingOf(m)(Fresh(m)) == PromiseOf(m)(Fresh(m)) == 99;
    EmptyIsLawful();
    EveryRunIsLawful(EMPTY, SettledOnce(m));
    EveryRunIsLawful(EMPTY, SettledOnce(m) + Collected(m, 1));
    hide *;
    FigureOf(m, Run(EMPTY, SettledOnce(m)), [Frozen(m)]);
    FigureOf(m, Run(EMPTY, SettledOnce(m) + Collected(m, 1)), [Frozen(m)] + [Fresh(m)]);
    SumOne(Frozen(m), StandingOf(m));
    SumOne(Frozen(m), PromiseOf(m));
    SumAppend([Frozen(m)], Fresh(m), StandingOf(m));
    SumAppend([Frozen(m)], Fresh(m), PromiseOf(m));
  }

  lemma {:induction false} AfterTheNext(m: nat)
    ensures var w := Run(EMPTY, SettledOnce(m) + Collected(m, 1));
            w.payments == [Frozen(m)] + [Fresh(m)] && w.batches == [FirstCut(m)]
  {
    AfterTheCut(m);
    RunAppend(EMPTY, SettledOnce(m), Collected(m, 1));
    var w := Run(EMPTY, SettledOnce(m));
    assert |w.payments| == 1;
    hide *;
    CollectingAppends(m, w);
  }

  lemma {:induction false} FigureOf(m: nat, w: World, ps: seq<Payment>)
    requires Lawful(w) && w.payments == ps && w.batches == [FirstCut(m)]
    ensures Raw(w.journal, m) == Sum(ps, StandingOf(m)) && Promised(w, m) == Sum(ps, PromiseOf(m))
  {
    SumOne(w.batches[0], LeakOf(m));
    hide Raw, Net, Under, History;
  }

  lemma {:induction false} AfterTheCut(m: nat)
    ensures var w := Run(EMPTY, SettledOnce(m));
            w.payments == [Frozen(m)] && w.batches == [FirstCut(m)] && w.transfers == []
  {
    CollectingAppends(m, EMPTY);
    var cut := Cut(m, "A", 250, {});
    RunAppend(EMPTY, Collected(m, 0), [cut]);
    var w := Run(EMPTY, Collected(m, 0));
    assert w.payments == [Fresh(m)] && w.batches == [];
    CutOnce(m, w);
    var w' := Step(w, cut);
    assert [cut][1..] == [] && [cut][0] == cut;
    assert Run(w, [cut]) == Run(w', []);
    hide Step, Collected;
  }

  lemma {:induction false} CutOnce(m: nat, w: World)
    requires w.payments == [Fresh(m)] && w.batches == []
    ensures var w' := Step(w, Cut(m, "A", 250, {}));
            w'.payments == [Frozen(m)] && w'.batches == [FirstCut(m)] && w'.transfers == w.transfers
  {
    hide Postings;
    assert w.payments[1..] == [];
    assert DueTotal(w.payments, 0, m, {}) == 100;
  }

  // ---------- an approval can find its payment on a line ----------

  function CutWhileAsking(m: nat): seq<Event> {
    [RequestRefund(0, 1), Cut(m, "A", 250, {}), ApproveRefund(0, 2)]
  }

  function Asked(m: nat): Payment {
    Fresh(m).(request := AwaitingApproval(1))
  }

  lemma {:induction false} CutWhileAsked(m: nat, w: World)
    requires Lawful(w) && w.payments == [Fresh(m)] && w.batches == []
    ensures var w2 := Step(Step(w, CutWhileAsking(m)[0]), CutWhileAsking(m)[1]);
            Lawful(w2) && w2.payments == [Frozen(m).(request := AwaitingApproval(1))]
  {
    StepKeepsLaw(w, CutWhileAsking(m)[0]);
    var w1 := Step(w, CutWhileAsking(m)[0]);
    StepKeepsLaw(w1, CutWhileAsking(m)[1]);
    AskOnce(m, w);
    CutAsked(m, w1);
    hide *;
  }

  lemma {:induction false} AskOnce(m: nat, w: World)
    requires w.payments == [Fresh(m)] && w.batches == []
    ensures var w' := Step(w, RequestRefund(0, 1)); w'.payments == [Asked(m)] && w'.batches == []
  {
    hide Postings;
  }

  lemma {:induction false} CutAsked(m: nat, w: World)
    requires w.payments == [Asked(m)] && w.batches == []
    ensures Step(w, Cut(m, "A", 250, {})).payments == [Frozen(m).(request := AwaitingApproval(1))]
  {
    hide Postings;
    assert w.payments[1..] == [];
    assert DueTotal(w.payments, 0, m, {}) == 100;
  }

  lemma {:induction false} ApproveOnLine(m: nat, w: World)
    requires Lawful(w) && w.payments == [Frozen(m).(request := AwaitingApproval(1))]
    ensures !RefundedAreOffLine(Step(w, ApproveRefund(0, 2)))
  {
    ReversibleIff(w, OfPayment(0));
    assert Original(w, OfPayment(0)) == MoneyIn(w.payments[0], 0) != [];
    hide Postings, Reversible, Lawful, MoneyIn;
    var p := Step(w, ApproveRefund(0, 2)).payments[0];
    assert p.status == Refunded && p.line.Some?;
  }

  // Asking for a refund, cutting a batch and approving the refund leaves a refunded payment in the batch.
  lemma {:induction false} ApprovalCanLeaveALine(m: nat)
    ensures !RefundedAreOffLine(Run(EMPTY, Collected(m, 0) + CutWhileAsking(m)))
  {
    CollectingAppends(m, EMPTY);
    EmptyIsLawful();
    EveryRunIsLawful(EMPTY, Collected(m, 0));
    RunAppend(EMPTY, Collected(m, 0), CutWhileAsking(m));
    var w := Run(EMPTY, Collected(m, 0));
    CutWhileAsked(m, w);
    var w2 := Step(Step(w, CutWhileAsking(m)[0]), CutWhileAsking(m)[1]);
    ApproveOnLine(m, w2);
    RunThree(w, CutWhileAsking(m)[0], CutWhileAsking(m)[1], CutWhileAsking(m)[2]);
    hide Run, Step, Collected, Lawful, RefundedAreOffLine;
  }

  lemma {:induction false} RunThree(w: World, a: Event, b: Event, c: Event)
    ensures Run(w, [a, b, c]) == Step(Step(Step(w, a), b), c)
  {
    hide Step;
    assert [a, b, c][1..] == [b, c] && [b, c][1..] == [c] && [c][1..] == [];
    assert Run(Step(w, a), [b, c]) == Run(Step(Step(w, a), b), [c]);
  }

  // ---------- an operator's reversal stops a refund ----------

  function StruckThenRefused(m: nat): seq<Event> {
    Collected(m, 0) + [Reverse(OfPayment(0)), Refund(0)]
  }

  /**
   The operator reverses a succeeded payment's reference: the payment stays succeeded, the figure drops from 99 to 0, and
   the refund asked for afterwards changes nothing.
   */
  lemma {:induction false} AReversalStopsTheRefund(m: nat)
    ensures var w0, w := Run(EMPTY, Collected(m, 0)), Run(EMPTY, StruckThenRefused(m));
            && w0.payments == [Fresh(m)] && Raw(w0.journal, m) == 99
            && w.payments == [Fresh(m).(accrual := Reversed, reversed := true)] && Raw(w.journal, m) == 0
            && !Reversible(w, OfPayment(0))
  {
    CollectingAppends(m, EMPTY);
    EmptyIsLawful();
    EveryRunIsLawful(EMPTY, Collected(m, 0));
    var w := Run(EMPTY, Collected(m, 0));
    var strike := Reverse(OfPayment(0));
    StruckOnce(m, w);
    StepKeepsLaw(w, strike);
    RefusedOnce(m, Step(w, strike));
    RunTwo(w, strike, Refund(0));
    RunAppend(EMPTY, Collected(m, 0), [strike, Refund(0)]);
    hide Run, Step, Collected, Lawful, Raw, Reversible;
  }

  lemma {:induction false} StruckOnce(m: nat, w: World)
    requires Lawful(w) && w.payments == [Fresh(m)] && w.batches == []
    ensures Step(w, Reverse(OfPayment(0))).payments == [Fresh(m).(accrual := Reversed, reversed := true)]
    ensures Raw(w.journal, m) == 99 && Raw(Step(w, Reverse(OfPayment(0))).journal, m) == 0
  {
    ReversibleIff(w, OfPayment(0));
    assert Original(w, OfPayment(0)) == MoneyIn(w.payments[0], 0) != [];
    ReversalMoves(w, OfPayment(0), m);
    SumOne(w.payments[0], StandingOf(m));
    hide Lawful, Raw, WalletBalance, Reversible, Postings, MoneyIn, Sum;
  }

  lemma {:induction false} RefusedOnce(m: nat, w: World)
    requires Lawful(w) && w.payments == [Fresh(m).(accrual := Reversed, reversed := true)]
    ensures !Reversible(w, OfPayment(0)) && Step(w, Refund(0)) == w
  {
    ReversibleIff(w, OfPayment(0));
    assert StepState(w, Refund(0)) == w && Postings(w, Refund(0)) == [] && w.journal + [] == w.journal;
    hide Lawful, Reversible;
  }

  lemma {:induction false} RunTwo(w: World, a: Event, b: Event)
    ensures Run(w, [a, b]) == Step(Step(w, a), b)
  {
    hide Step;
    assert [a, b][1..] == [b] && [b][1..] == [];
    assert Run(Step(w, a), [b]) == Run(Step(Step(w, a), b), []);
  }

  // ---------- a spend can take what a payout is about to take ----------

  // One settled collection, its payout of 98 queued, then a spend of 98 that passes its check.
  function SpendsThePayout(m: nat): seq<Event> {
    SettledOnce(m) + [Pay(0, Create), Spend(m, 98, ToBank, 98), Pay(0, Claim), Pay(0, Complete)]
  }

  function PaidBatch(m: nat, status: BatchStatus, payout: Option<Payout>): Batch {
    FirstCut(m).(status := status, payout := payout)
  }

  lemma {:induction false} QueuedAndSpent(m: nat, w: World)
    requires Lawful(w) && w.batches == [FirstCut(m)] && w.transfers == []
    ensures WalletBalance(w.journal, m) == WalletBalance(Step(w, Pay(0, Create)).journal, m) == 98
    ensures var w1 := Step(w, Pay(0, Create));
            var w2 := Step(w1, Spend(m, 98, ToBank, 98));
            && Lawful(w2) && w2.batches == [PaidBatch(m, Open, Some(Payout(98, Queued, 0)))]
            && w2.transfers == [Transfer(m, 98, ToBank, false, false)]
  {
    var w1 := Step(w, Pay(0, Create));
    StepKeepsLaw(w, Pay(0, Create));
    StepKeepsLaw(w1, Spend(m, 98, ToBank, 98));
    QueuesOnce(m, w);
    SpendsOnce(m, w1);
    WalletHolds(m, w, w.batches[0]);
    WalletHolds(m, w1, w1.batches[0]);
    hide Lawful, Step, WalletBalance;
  }

  lemma {:induction false} QueuesOnce(m: nat, w: World)
    requires w.batches == [FirstCut(m)]
    ensures var w1 := Step(w, Pay(0, Create));
            w1.batches == [PaidBatch(m, Open, Some(Payout(98, Queued, 0)))] && w1.transfers == w.transfers
  {
    hide Postings;
  }

  lemma {:induction false} SpendsOnce(m: nat, w: World)
    ensures var w1 := Step(w, Spend(m, 98, ToBank, 98));
            w1.batches == w.batches && w1.transfers == w.transfers + [Transfer(m, 98, ToBank, false, false)]
  {
    hide Postings;
  }

  lemma {:induction false} WalletHolds(m: nat, w: World, b: Batch)
    requires Lawful(w) && w.batches == [b] && w.transfers == [] && b.merchant == m
    ensures WalletBalance(w.journal, m) == Held(b)
  {
    SumOne(b, HeldOf(m));
    assert Sum<Transfer>([], BroughtOf(m)) == 0;
    hide WalletBalance, Sum, Held, Recorded, Balanced, Shaped, Raw;
  }

  lemma {:induction false} ClaimedAndPaid(m: nat, w: World)
    requires Lawful(w) && w.batches == [PaidBatch(m, Open, Some(Payout(98, Queued, 0)))]
    requires w.transfers == [Transfer(m, 98, ToBank, false, false)]
    ensures var w' := Step(Step(w, Pay(0, Claim)), Pay(0, Complete)); Lawful(w') && WalletBalance(w'.journal, m) == -98
  {
    var w1 := Step(w, Pay(0, Claim));
    var w2 := Step(w1, Pay(0, Complete));
    StepKeepsLaw(w, Pay(0, Claim));
    StepKeepsLaw(w1, Pay(0, Complete));
    assert w1.batches == [PaidBatch(m, Scheduled, Some(Payout(98, Processing, 1)))];
    assert w2.batches == [PaidBatch(m, Processed, Some(Payout(98, Completed, 1)))] && w2.transfers == w.transfers;
    SumOne(w2.batches[0], HeldOf(m));
    SumOne(w2.transfers[0], BroughtOf(m));
    hide Lawful, Postings, WalletBalance, Sum;
  }

  lemma {:induction false} SpentAndPaid(m: nat, w: World)
    requires Lawful(w) && w.batches == [FirstCut(m)] && w.transfers == []
    ensures WalletBalance(Run(w, [Pay(0, Create)]).journal, m) == 98
    ensures WalletBalance(Run(w, [Pay(0, Create), Spend(m, 98, ToBank, 98), Pay(0, Claim), Pay(0, Complete)]).journal, m) == -98
  {
    QueuedAndSpent(m, w);
    var w2 := Step(Step(w, Pay(0, Create)), Spend(m, 98, ToBank, 98));
    assert [Pay(0, Create)][1..] == [] && Run(w, [Pay(0, Create)]) == Run(Step(w, Pay(0, Create)), []) by { hide Step; }
    hide *;
    ClaimedAndPaid(m, w2);
    RunFour(w, Pay(0, Create), Spend(m, 98, ToBank, 98), Pay(0, Claim), Pay(0, Complete));
  }

  // The wallet holds the 98 kobo the spend takes when it is made, and ends 98 kobo below zero.
  lemma {:induction false} ASpendCanOverdraw(m: nat)
    ensures WalletBalance(Run(Run(EMPTY, SettledOnce(m)), [Pay(0, Create)]).journal, m) == 98
    ensures WalletBalance(Run(EMPTY, SpendsThePayout(m)).journal, m) == -98
    ensures !Prudent(EMPTY, SpendsThePayout(m), m)
  {
    AfterTheCut(m);
    EmptyIsLawful();
    EveryRunIsLawful(EMPTY, SettledOnce(m));
    SpentAndPaid(m, Run(EMPTY, SettledOnce(m)));
    RunAppend(EMPTY, SettledOnce(m), [Pay(0, Create), Spend(m, 98, ToBank, 98), Pay(0, Claim), Pay(0, Complete)]);
    OverdrawnIsImprudent(SpendsThePayout(m), m);
    hide Run, Prudent, AlwaysSecure, Secure, Lawful, WalletBalance, SettledOnce;
  }

  // Two spends that both read the balance before either has posted.
  function SpendsTwice(m: nat): seq<Event> {
    SettledOnce(m) + [Spend(m, 98, ToBank, 98), Spend(m, 98, ToUser(0), 98)]
  }

  lemma {:induction false} TwoSpendsCanOverdraw(m: nat)
    ensures WalletBalance(Run(EMPTY, SettledOnce(m)).journal, m) == 98
    ensures WalletBalance(Run(EMPTY, SpendsTwice(m)).journal, m) == -98
    ensures !Prudent(EMPTY, SpendsTwice(m), m)
  {
    AfterTheCut(m);
    EmptyIsLawful();
    EveryRunIsLawful(EMPTY, SettledOnce(m));
    SpentTwice(m, Run(EMPTY, SettledOnce(m)));
    RunTwo(Run(EMPTY, SettledOnce(m)), Spend(m, 98, ToBank, 98), Spend(m, 98, ToUser(0), 98));
    RunAppend(EMPTY, SettledOnce(m), [Spend(m, 98, ToBank, 98), Spend(m, 98, ToUser(0), 98)]);
    OverdrawnIsImprudent(SpendsTwice(m), m);
    hide Run, Prudent, Lawful, WalletBalance, SettledOnce, Step;
  }

  lemma {:induction false} SpentTwice(m: nat, w: World)
    requires Lawful(w) && w.batches == [FirstCut(m)] && w.transfers == []
    ensures WalletBalance(w.journal, m) == 98
    ensures WalletBalance(Step(Step(w, Spend(m, 98, ToBank, 98)), Spend(m, 98, ToUser(0), 98)).journal, m) == -98
  {
    var w1 := Step(w, Spend(m, 98, ToBank, 98));
    var w2 := Step(w1, Spend(m, 98, ToUser(0), 98));
    StepKeepsLaw(w, Spend(m, 98, ToBank, 98));
    StepKeepsLaw(w1, Spend(m, 98, ToUser(0), 98));
    var t1, t2 := Transfer(m, 98, ToBank, false, false), Transfer(m, 98, ToUser(0), false, false);
    assert w1.transfers == [t1] && w1.batches == w.batches;
    assert w2.transfers == [t1] + [t2] && w2.batches == w.batches;
    SumOne(w.batches[0], HeldOf(m));
    SumOne(t1, BroughtOf(m));
    SumAppend([t1], t2, BroughtOf(m));
    hide Lawful, Postings, WalletBalance, Sum;
  }

  lemma {:induction false} RunFour(w: World, a: Event, b: Event, c: Event, d: Event)
    ensures Run(w, [a, b, c, d]) == Step(Step(Step(Step(w, a), b), c), d)
  {
    RunThree(Step(w, a), b, c, d);
    assert [a, b, c, d][1..] == [b, c, d];
    hide Step;
  }


  // ---------- a late split, and a reversed wallet credit, overstate the balance ----------

  // The split hook is retried after the refund.
  function SplitAfterRefund(m: nat): seq<Event> {
    [Draft(7, m, 100, 1), Succeed(0), Refund(0), Split(0)]
  }

  function RefundedUnsplit(m: nat): Payment {
    Payment(7, m, 100, 1, 99, Refunded, NotPosted, None, 0, Done, true, false)
  }

  lemma {:induction false} DraftsAndSucceeds(m: nat)
    ensures var w := Step(Step(EMPTY, Draft(7, m, 100, 1)), Succeed(0));
            && Lawful(w) && w.batches == [] && w.transfers == []
            && w.payments == [RefundedUnsplit(m).(status := Succeeded, request := NoRequest, reversed := false)]
  {
    EmptyIsLawful();
    StepKeepsLaw(EMPTY, Draft(7, m, 100, 1));
    StepKeepsLaw(Step(EMPTY, Draft(7, m, 100, 1)), Succeed(0));
    hide Lawful, Postings;
  }

  lemma {:induction false} RefundsUnsplit(m: nat, w: World)
    requires Lawful(w) && w.batches == [] && w.transfers == []
    requires w.payments == [RefundedUnsplit(m).(status := Succeeded, request := NoRequest, reversed := false)]
    ensures var w' := Step(w, Refund(0)); Lawful(w') && w'.batches == [] && w'.payments == [RefundedUnsplit(m)]
  {
    StepKeepsLaw(w, Refund(0));
    ReversibleIff(w, OfPayment(0));
    assert Original(w, OfPayment(0)) == MoneyIn(w.payments[0], 0) != [];
    hide Lawful, Postings, Reversible, MoneyIn;
  }

  lemma {:induction false} SplitsLateOnce(m: nat, w: World)
    requires Lawful(w) && w.batches == [] && w.payments == [RefundedUnsplit(m)]
    ensures var w' := Step(w, Split(0)); Raw(w'.journal, m) == 99 && Promised(w', m) == 0 && w'.payments == [RefundedUnsplit(m).(accrual := Posted)]
  {
    var w' := Step(w, Split(0));
    StepKeepsLaw(w, Split(0));
    assert w'.payments == [RefundedUnsplit(m).(accrual := Posted)] && w'.batches == [];
    SumOne(w'.payments[0], StandingOf(m));
    SumOne(w'.payments[0], PromiseOf(m));
    hide Lawful, Postings, Raw, Sum;
  }

  // The merchant is shown 99 kobo of a payment that has been refunded.
  lemma {:induction false} ALateSplitOverstates(m: nat)
    ensures var w := Run(EMPTY, SplitAfterRefund(m));
            && w.payments == [RefundedUnsplit(m).(accrual := Posted)]
            && Raw(w.journal, m) == 99 && Promised(w, m) == 0
  {
    var e := SplitAfterRefund(m);
    DraftsAndSucceeds(m);
    var w2 := Step(Step(EMPTY, e[0]), e[1]);
    RefundsUnsplit(m, w2);
    SplitsLateOnce(m, Step(w2, e[2]));
    hide Step, Lawful, Raw, Promised;
    RunFour(EMPTY, e[0], e[1], e[2], e[3]);
  }

  // A collection is settled, and an operator reverses the batch's wallet credit.
  function CreditStruck(m: nat): seq<Event> {
    SettledOnce(m) + [Reverse(OfBatch(0, Credit))]
  }

  lemma {:induction false} StrikesTheCredit(m: nat, w: World)
    requires Lawful(w) && w.payments == [Frozen(m)] && w.batches == [FirstCut(m)] && w.transfers == []
    ensures var w' := Step(w, Reverse(OfBatch(0, Credit))); Raw(w'.journal, m) == 97 && Promised(w', m) == 0
  {
    var w' := Step(w, Reverse(OfBatch(0, Credit)));
    StepKeepsLaw(w, Reverse(OfBatch(0, Credit)));
    ReversibleIff(w, OfBatch(0, Credit));
    assert PartPostings(w.batches[0], 0, Credit) != [];
    assert {} + {Credit} == {Credit} && FirstCut(m).struck == {};
    assert w'.payments == [Frozen(m)] && w'.batches == [FirstCut(m).(struck := {Credit})];
    SumOne(w'.batches[0], LeakOf(m));
    SumOne(w'.payments[0], StandingOf(m));
    SumOne(w'.payments[0], PromiseOf(m));
    hide Lawful, Postings, Reversible, Raw, Sum, PartPostings;
  }

  // The wallet loses the 98 kobo it was credited, and the balance shows 97 of money that has been settled.
  lemma {:induction false} AStruckCreditOverstates(m: nat)
    ensures var w := Run(EMPTY, CreditStruck(m)); Raw(w.journal, m) == 97 && Promised(w, m) == 0
  {
    AfterTheCut(m);
    EmptyIsLawful();
    EveryRunIsLawful(EMPTY, SettledOnce(m));
    var w, strike := Run(EMPTY, SettledOnce(m)), Reverse(OfBatch(0, Credit));
    StrikesTheCredit(m, w);
    RunAppend(EMPTY, SettledOnce(m), [strike]);
    hide Step, Lawful, Raw, Promised, SettledOnce;
    assert [strike][1..] == [] && Run(w, [strike]) == Run(Step(w, strike), []);
  }
}
