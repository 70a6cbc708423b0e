/**
 GET /api/v1/balance: the loop that adds up the two payable accounts, and how the figure it returns compares with the
 documented one, the merchant's collections that are succeeded, unsettled and not refunded.

 The two differ both ways. A cut moves a payment's full charge (base plus collection fee) out of 3100, which was credited
 with the base alone, so every cut with fees pulls the figure below the documented one, and the clamp at zero hides part of
 it. A split posted late, after its payment was refunded or reversed, credits 3100 with money that is no longer the
 merchant's, and an operator's reversal of a cut's fee or wallet credit gives that amount back to 3200: each lifts the
 figure above the documented one.
 */
module AvailableBalance {
  import opened Sums
  import opened Wrappers
  import opened Ledger
  import opened LedgerLaws

  // ---------- the handler ----------

  // One row of MerchantLedgerBalance: an account the merchant has entries on, with its net.
  datatype Row = Row(account: Account, net: int)

  predicate HasEntries(j: seq<Entry>, m: nat, account: Account) {
    exists i :: 0 <= i < |j| && InView(j[i], Tagged(m, account))
  }

  // One row per account the merchant has entries on.
  ghost predicate Groups(rows: seq<Row>, j: seq<Entry>, m: nat) {
    && (forall i, k :: 0 <= i < k < |rows| ==> rows[i].account != rows[k].account)
    && (forall i :: 0 <= i < |rows| ==> rows[i].net == Net(j, Tagged(m, rows[i].account)))
    && (forall account :: HasEntries(j, m, account) ==> HasRow(rows, account))
  }

  predicate HasRow(rows: seq<Row>, account: Account) {
    exists i :: 0 <= i < |rows| && rows[i].account == account
  }

  function Counted(row: Row): int {
    if row.account == MerchantPayable || row.account == SettlementPayable then -row.net else 0
  }

  function CountedSum(rows: seq<Row>): int {
    if rows == [] then 0 else Counted(rows[|rows| - 1]) + CountedSum(rows[..|rows| - 1])
  }

  function AccountSum(rows: seq<Row>, account: Account): int {
    if rows == [] then 0
    else (if rows[|rows| - 1].account == account then rows[|rows| - 1].net else 0) + AccountSum(rows[..|rows| - 1], account)
  }

  lemma {:induction false} CountedSplits(rows: seq<Row>)
    ensures CountedSum(rows) == -AccountSum(rows, MerchantPayable) - AccountSum(rows, SettlementPayable)
  {
    if rows != [] { CountedSplits(rows[..|rows| - 1]); }
  }

  lemma {:induction false} AccountSumOnce(rows: seq<Row>, account: Account)
    requires forall i, k :: 0 <= i < k < |rows| ==> rows[i].account != rows[k].account
    ensures !HasRow(rows, account) ==> AccountSum(rows, account) == 0
    ensures forall i :: 0 <= i < |rows| && rows[i].account == account ==> AccountSum(rows, account) == rows[i].net
  {
    if rows != [] {
      var front := rows[..|rows| - 1];
      AccountSumOnce(front, account);
      if HasRow(front, account) {
        var i :| 0 <= i < |front| && front[i].account == account;
        assert rows[i].account == account;
      }
    }
  }

  lemma {:induction false} NoEntriesNoNet(j: seq<Entry>, m: nat, account: Account)
    requires !HasEntries(j, m, account)
    ensures Net(j, Tagged(m, account)) == 0
  {
    if j != [] {
      assert !InView(j[0], Tagged(m, account));
      forall i | 0 <= i < |j[1..]| ensures !InView(j[1..][i], Tagged(m, account)) {
        assert !InView(j[i + 1], Tagged(m, account));
      }
      NoEntriesNoNet(j[1..], m, account);
    }
  }

  lemma {:induction false} GroupedNet(rows: seq<Row>, j: seq<Entry>, m: nat, account: Account)
    requires Groups(rows, j, m)
    ensures AccountSum(rows, account) == Net(j, Tagged(m, account))
  {
    AccountSumOnce(rows, account);
    if HasRow(rows, account) {
      var i :| 0 <= i < |rows| && rows[i].account == account;
      assert AccountSum(rows, account) == rows[i].net;
    } else {
      NoEntriesNoNet(j, m, account);
    }
  }

  // The value of available_balance, for any order the rows come in.
  method ApiBalance(rows: seq<Row>, ghost j: seq<Entry>, ghost m: nat) returns (available: int)
    requires Groups(rows, j, m)
    ensures available == Max0(Raw(j, m))
  {
    available := 0;
    for i := 0 to |rows|
      invariant available == CountedSum(rows[..i])
    {
      assert rows[..i + 1][..i] == rows[..i];
      if rows[i].account == MerchantPayable || rows[i].account == SettlementPayable {
        available := available + -rows[i].net;
      }
    }
    assert rows[..|rows|] == rows;
    CountedSplits(rows);
    GroupedNet(rows, j, m, MerchantPayable);
    GroupedNet(rows, j, m, SettlementPayable);
    if available < 0 {
      available := 0;
    }
  }

  // ---------- the documented figure ----------

  // "Money collected on the merchant's behalf that has not been settled out or reversed."
  function Promise(p: Payment): nat {
    if p.status == Succeeded && p.line.None? && !p.reversed then Max0(p.recv) else 0
  }

  ghost function PromiseOf(m: nat): Payment -> int { (p: Payment) => if p.merchant == m then Promise(p) else 0 }

  ghost function Promised(w: World, m: nat): int { Sum(w.payments, PromiseOf(m)) }

  // ---------- shortfall, payment by payment ----------

  // The kobo by which one payment's standing on the ledger falls short of its promise.
  function Shortfall(p: Payment): int { Promise(p) - Standing(p) }

  // Nothing is short on this payment, nor is anything over.
  predicate InStep(p: Payment) {
    if p.status == Succeeded && p.line.None? && !p.reversed then p.settled == 0 && (p.accrual == Posted || p.recv <= 0)
    else (if p.accrual == Posted then Max0(p.recv) else 0) == p.settled
  }

  /**
   The split's credit stands although the payment is reversed, or in a batch that took less than the credit. The latter
   needs a negative surcharge; the former a split posted after the reversal, for entries reversed earlier take the credit
   with them.
   */
  predicate Overstated(p: Payment) {
    p.accrual == Posted && p.recv > p.settled && (p.reversed || p.line.Some?)
  }

  lemma {:induction false} ShortfallSign(p: Payment, bs: seq<Batch>)
    requires PaymentOk(p, bs)
    ensures Shortfall(p) < 0 <==> Overstated(p)
    ensures Shortfall(p) == 0 <==> InStep(p)
    ensures p.fee >= 0 ==> (Overstated(p) <==> p.reversed && p.accrual == Posted && p.recv > p.settled)
  {
  }

  // What the ledger falls short of the promise by on some payments, and what it goes over it by on others.
  ghost function ShortOf(m: nat): Payment -> int { (p: Payment) => if p.merchant == m then Max0(Shortfall(p)) else 0 }

  ghost function OverOf(m: nat): Payment -> int { (p: Payment) => if p.merchant == m then Max0(-Shortfall(p)) else 0 }

  ghost function Short(w: World, m: nat): int { Sum(w.payments, ShortOf(m)) }

  // Over by payments, and by what cuts have left on 3200.
  ghost function Over(w: World, m: nat): int { Sum(w.payments, OverOf(m)) + Sum(w.batches, LeakOf(m)) }

  lemma {:induction false} ShortLessOver(ps: seq<Payment>, m: nat)
    ensures Sum(ps, StandingOf(m)) == Sum(ps, PromiseOf(m)) - Sum(ps, ShortOf(m)) + Sum(ps, OverOf(m))
    ensures Sum(ps, PromiseOf(m)) >= 0 && Sum(ps, ShortOf(m)) >= 0 && Sum(ps, OverOf(m)) >= 0
  {
    if ps != [] { ShortLessOver(ps[1..], m); }
  }

  /**
   After any run, the figure is the documented one less what is short and more what is over. So what the endpoint reports
   exceeds the documented figure exactly when more is over than short, and equals it exactly when as much is, or when
   nothing is promised and no more is over than short.
   */
  lemma {:induction false} AvailableAgainstPromise(events: seq<Event>, m: nat)
    ensures var w := Run(EMPTY, events);
            var raw, promised := Raw(w.journal, m), Promised(w, m);
            && raw == promised - Short(w, m) + Over(w, m) && promised >= 0 && Short(w, m) >= 0
            && (Max0(raw) > promised <==> Over(w, m) > Short(w, m))
            && (Max0(raw) == promised <==> Over(w, m) == Short(w, m) || (promised == 0 && Over(w, m) <= Short(w, m)))
  {
    EmptyIsLawful();
    EveryRunIsLawful(EMPTY, events);
    ShortLessOver(Run(EMPTY, events).payments, m);
    hide Run, Raw, Sum;
  }

  // ---------- when anything is over ----------

  // No surcharge is negative and every fee rate is between 0 and 100%, as the configuration has them.
  predicate Priced(e: Event) {
    match e
    case Draft(_, _, _, fee) => fee >= 0
    case Cut(_, _, bps, _) => 0 <= bps <= 10_000
    case _ => true
  }

  predicate AllPriced(events: seq<Event>) {
    forall k :: 0 <= k < |events| ==> Priced(events[k])
  }

  ghost predicate WellPriced(w: World) {
    && (forall i :: 0 <= i < |w.payments| ==> w.payments[i].fee >= 0)
    && (forall b :: 0 <= b < |w.batches| ==> 0 <= w.batches[b].fee <= w.batches[b].cut)
  }

  lemma {:induction false} CutStaysPriced(w: World, e: Event)
    requires WellPriced(w) && e.Cut? && Priced(e)
    ensures WellPriced(Step(w, e))
  {
    FeeInRange(DueTotal(w.payments, 0, e.merchant, e.locked), e.bps);
    hide Postings, DueTotal, FeeOf;
  }

  lemma {:induction false} PayStaysPriced(w: World, e: Event)
    requires WellPriced(w) && e.Pay?
    ensures WellPriced(Step(w, e))
  {
    hide Postings;
    if e.b < |w.batches| {
      var w' := StepPayout(w, e.b, e.move);
      assert w'.batches[e.b].fee == w.batches[e.b].fee && w'.batches[e.b].cut == w.batches[e.b].cut;
    }
  }

  lemma {:induction false} PaymentStaysPriced(w: World, e: Event)
    requires Lawful(w) && WellPriced(w) && OnPayment(e) && e.p < |w.payments|
    ensures WellPriced(Step(w, e))
  {
    PaymentShape(w, e, e.p);
    PaymentChange(w, e);
    var w' := StepState(w, e);
    assert Step(w, e).payments == w'.payments && Step(w, e).batches == w'.batches by { hide StepState, Postings; }
    assert w'.payments[e.p].fee == w.payments[e.p].fee;
    hide StepState, Postings, Lawful, LinesTotal, ChangeOf, Reversible, Step;
  }

  lemma {:induction false} StepStaysPriced(w: World, e: Event)
    requires Lawful(w) && WellPriced(w) && Priced(e)
    ensures WellPriced(Step(w, e))
  {
    if e.Cut? {
      CutStaysPriced(w, e);
    } else if e.Pay? {
      PayStaysPriced(w, e);
    } else if OnPayment(e) {
      if e.p < |w.payments| { PaymentStaysPriced(w, e); } else { NoSuchPayment(w, e); }
      hide Lawful, StepState, Postings;
    } else {
      hide Postings, Reversible, NewTransfer, Lawful;
    }
  }

  lemma {:induction false} RunStaysPriced(w: World, events: seq<Event>)
    requires Lawful(w) && WellPriced(w) && AllPriced(events)
    ensures Lawful(Run(w, events)) && WellPriced(Run(w, events))
    decreases |events|
  {
    if events != [] {
      StepKeepsLaw(w, events[0]);
      StepStaysPriced(w, events[0]);
      assert forall k :: 0 <= k < |events[1..]| ==> events[1..][k] == events[k + 1];
      RunStaysPriced(Step(w, events[0]), events[1..]);
    }
    hide Lawful, WellPriced, Step, Priced;
  }

  // The one event that makes a payment overstated: its split is posted although its entries have been reversed.
  predicate SplitsLate(w: World, e: Event, p: nat) {
    e == Split(p) && SplitPosts(w, p) && w.payments[p].reversed && w.payments[p].recv > w.payments[p].settled
  }

  lemma {:induction false} ReversalsOverstateNothing(w: World, e: Event, p: nat)
    requires Lawful(w) && WellPriced(w) && p < |w.payments| && !Overstated(w.payments[p]) && e.Reverse?
    ensures p < |Step(w, e).payments| && !Overstated(Step(w, e).payments[p])
  {
    assert PaymentOk(w.payments[p], w.batches);
    if Reversible(w, e.ref) { ReversibleIff(w, e.ref); }
    hide Lawful, Postings, Reversible, Original;
  }

  lemma {:induction false} OverstatedByALateSplit(w: World, e: Event, p: nat)
    requires Lawful(w) && WellPriced(w) && p < |w.payments| && !Overstated(w.payments[p])
    ensures p < |Step(w, e).payments|
    ensures Overstated(Step(w, e).payments[p]) <==> SplitsLate(w, e, p)
  {
    assert PaymentOk(w.payments[p], w.batches);
    if e.Reverse? {
      ReversalsOverstateNothing(w, e, p);
      hide Step, Overstated, Lawful, WellPriced;
    } else if OnPayment(e) {
      if e.p < |w.payments| {
        PaymentShape(w, e, e.p);
        PaymentChange(w, e);
        if e.p == p { ChangesOverstate(w, e); }
      } else {
        NoSuchPayment(w, e);
      }
      hide StepState, Postings, Lawful, LinesTotal, ChangeOf, Reversible, Overstated, SplitPosts;
    } else if e.Pay? {
      PayKeepsPayments(w, e.b, e.move);
      hide Lawful, StepPayout, Postings;
    } else {
      hide Lawful, Postings, NewTransfer, CutPosts, DueTotal, Reversible;
    }
  }

  lemma {:induction false} ChangesOverstate(w: World, e: Event)
    requires Lawful(w) && WellPriced(w) && OnPayment(e) && e.p < |w.payments| && !Overstated(w.payments[e.p])
    ensures e.p < |StepState(w, e).payments|
    ensures Overstated(StepState(w, e).payments[e.p]) <==> SplitsLate(w, e, e.p)
  {
    assert PaymentOk(w.payments[e.p], w.batches);
    PaymentChange(w, e);
    PaymentShape(w, e, e.p);
    if ChangeOf(w, e) == TakenBack { ReversibleIff(w, OfPayment(e.p)); }
    hide StepState, Postings, Lawful, LinesTotal, Reversible, RefundPosts, SplitPosts, Original;
  }

  // A cut leaves kobo on 3200 exactly when an operator has reversed its fee or its wallet credit.
  lemma {:induction false} LeakIff(b: Batch)
    requires 0 <= b.fee <= b.cut
    ensures Leak(b) >= 0
    ensures Leak(b) > 0 <==> (Fee in b.struck && b.fee > 0) || (Credit in b.struck && b.cut > b.fee)
  {
  }

  ghost predicate NothingOver(w: World, m: nat) {
    && (forall i :: 0 <= i < |w.payments| && w.payments[i].merchant == m ==> !Overstated(w.payments[i]))
    && (forall b :: 0 <= b < |w.batches| && w.batches[b].merchant == m ==> Leak(w.batches[b]) <= 0)
  }

  lemma {:induction false} NoneOver(ps: seq<Payment>, bs: seq<Batch>, m: nat)
    requires forall i :: 0 <= i < |ps| ==> PaymentOk(ps[i], bs)
    ensures Sum(ps, OverOf(m)) >= 0
    ensures Sum(ps, OverOf(m)) == 0 <==> forall i :: 0 <= i < |ps| && ps[i].merchant == m ==> !Overstated(ps[i])
  {
    if ps != [] {
      ShortfallSign(ps[0], bs);
      NoneOver(ps[1..], bs, m);
      assert forall i :: 0 <= i < |ps| ==> i == 0 || ps[i] == ps[1..][i - 1];
    }
    hide Overstated, Shortfall, PaymentOk;
  }

  lemma {:induction false} NoneLeak(bs: seq<Batch>, m: nat)
    requires forall b :: 0 <= b < |bs| ==> 0 <= bs[b].fee <= bs[b].cut
    ensures Sum(bs, LeakOf(m)) >= 0
    ensures Sum(bs, LeakOf(m)) == 0 <==> forall b :: 0 <= b < |bs| && bs[b].merchant == m ==> Leak(bs[b]) <= 0
  {
    if bs != [] {
      LeakIff(bs[0]);
      NoneLeak(bs[1..], m);
      assert forall b :: 0 <= b < |bs| ==> b == 0 || bs[b] == bs[1..][b - 1];
    }
    hide Leak;
  }

  /**
   After any run with configured prices: nothing is over exactly when no payment's split was posted after its reversal and
   still stands, and no operator has reversed a fee or a wallet credit of a cut; and then the figure never exceeds the
   documented one, and equals it exactly when nothing is short or nothing is promised.
   */
  lemma {:induction false} NothingIsOverIff(events: seq<Event>, m: nat)
    requires AllPriced(events)
    ensures var w := Run(EMPTY, events);
            && Over(w, m) >= 0 && (Over(w, m) == 0 <==> NothingOver(w, m))
            && (NothingOver(w, m) ==> Max0(Raw(w.journal, m)) <= Promised(w, m)
                                      && (Max0(Raw(w.journal, m)) == Promised(w, m) <==> Short(w, m) == 0 || Promised(w, m) == 0))
  {
    EmptyIsLawful();
    RunStaysPriced(EMPTY, events);
    AvailableAgainstPromise(events, m);
    var w := Run(EMPTY, events);
    NoneOver(w.payments, w.batches, m);
    NoneLeak(w.batches, m);
    hide Run, Raw, Sum, Leak, Overstated;
  }

  // ---------- what one cut costs ----------

  // What a cut moves beyond what was promised: the collection fees, and the whole of a payment whose entries an operator has
  // reversed.
  function DueFees(ps: seq<Payment>, from: nat, merchant: nat, locked: set<nat>): int {
    if ps == [] then 0
    else (if Due(ps[0], from, merchant, locked) then ps[0].amount - Promise(ps[0]) else 0)
         + DueFees(ps[1..], from + 1, merchant, locked)
  }

  lemma {:induction false} EnlistPromises(ps: seq<Payment>, from: nat, merchant: nat, locked: set<nat>, b: nat)
    ensures Sum(Enlist(ps, from, merchant, locked, b), PromiseOf(merchant)) ==
            Sum(ps, PromiseOf(merchant)) - DueTotal(ps, from, merchant, locked) + DueFees(ps, from, merchant, locked)
  {
    if ps != [] {
      assert Enlist(ps, from, merchant, locked, b)[1..] == Enlist(ps[1..], from + 1, merchant, locked, b);
      EnlistPromises(ps[1..], from + 1, merchant, locked, b);
    }
  }

  lemma {:induction false} FeeInRange(total: nat, bps: int)
    requires 0 <= bps <= 10_000
    ensures 0 <= FeeOf(total, bps) <= total
  {
    assert 0 <= total * bps <= total * 10_000;
  }

  // A cut in range takes the collection fees of the payments it freezes out of the merchant's available balance.
  lemma {:induction false} ACutCostsItsCollectionFees(w: World, e: Event)
    requires Lawful(w) && e.Cut? && CutPosts(w, e) && 0 <= e.bps <= 10_000
    ensures var w', m := Step(w, e), e.merchant;
            Promised(w', m) - Raw(w'.journal, m) ==
            Promised(w, m) - Raw(w.journal, m) + DueFees(w.payments, 0, m, e.locked)
  {
    var w', m := Step(w, e), e.merchant;
    var total := DueTotal(w.payments, 0, m, e.locked);
    StepTracks(w, e, m);
    JoinWeighs(w.journal, Postings(w, e), m);
    EnlistPromises(w.payments, 0, m, e.locked, |w.batches|);
    SumAppend(w.batches, NewBatch(w, e), LeakOf(m));
    EnlistSums(w.payments, 0, m, e.locked, |w.batches|, m);
    FeeInRange(total, e.bps);
    hide Raw, Postings, DueTotal, FeeOf, Sum, Lawful, CutPosts;
  }
}
