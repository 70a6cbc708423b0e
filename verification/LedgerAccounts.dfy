/**
 What every account holds after any run, in terms of the tables alone: first what stands under each journal reference, then the
 balance of the account as a sum over payments, batches and transfers.
 */
module LedgerAccounts {
  import opened Sums
  import opened Wrappers
  import opened Ledger
  import opened LedgerLaws

  // ---------- what each row has moved ----------

  // The customer's money, held while nothing has reversed the payment.
  function Received(p: Payment): nat {
    if p.status != Awaiting && !p.reversed then p.amount else 0
  }

  // The platform's and the merchant's shares of it, once split.
  function PlatformShare(p: Payment): nat {
    if p.accrual == Posted then Max0(p.fee) else 0
  }

  function MerchantShare(p: Payment): nat {
    if p.accrual == Posted then Max0(p.recv) else 0
  }

  // What a refund has credited to the customer's wallet.
  function Refunded(p: Payment): nat {
    if p.status == Status.Refunded && !p.creditReversed then p.amount else 0
  }

  function CutOf(b: Batch): nat {
    if Total in b.struck then 0 else b.cut
  }

  function FeeTaken(b: Batch): nat {
    if Fee in b.struck then 0 else Max0(b.fee)
  }

  function CreditedTo(b: Batch): nat {
    if Credit in b.struck then 0 else Max0(b.cut - b.fee)
  }

  function PaidFrom(b: Batch): nat {
    if b.payout.Some? && b.payout.value.status == Completed && PaidOut !in b.struck then b.payout.value.amount else 0
  }

  // What a transfer takes out of the business wallet; a returned purse brings it back.
  function Spent(t: Transfer): int {
    if t.struck then 0 else if t.returned then -(t.amount as int) else t.amount
  }

  // ---------- credits less debits on an account, by what moved them ----------

  function PaymentCredits(p: Payment, a: Account): int {
    match a
    case OperatingBank => -(Received(p) as int)
    case CustomerFloat => Received(p) - PlatformShare(p) - MerchantShare(p)
    case XegoPayable => PlatformShare(p)
    case MerchantPayable => MerchantShare(p)
    case _ => 0
  }

  function RefundCredits(p: Payment, a: Account): int {
    match a
    case CustomerFloat => -(Refunded(p) as int)
    case UserWallet(user) => if user == p.user then Refunded(p) else 0
    case _ => 0
  }

  function PartCredits(b: Batch, part: Part, a: Account): int {
    match part
    case Total => if a == SettlementPayable then CutOf(b) else if a == MerchantPayable then -(CutOf(b) as int) else 0
    case Fee => if a == SettlementFees then FeeTaken(b) else if a == SettlementPayable then -(FeeTaken(b) as int) else 0
    case Credit =>
      if a == BusinessWallet(b.merchant) then CreditedTo(b) else if a == SettlementPayable then -(CreditedTo(b) as int) else 0
    case PaidOut =>
      if a == OperatingBank then PaidFrom(b) else if a == BusinessWallet(b.merchant) then -(PaidFrom(b) as int) else 0
  }

  function TransferCredits(t: Transfer, a: Account): int {
    match a
    case BusinessWallet(m) => if m == t.merchant then -Spent(t) else 0
    case OperatingBank => if t.outlet == ToBank then Spent(t) else 0
    case UserWallet(user) => if t.outlet == ToUser(user) then Spent(t) else 0
    case ProgramPurse(sponsor, purse) => if t.outlet == ToPurse(purse) && sponsor == t.merchant then Spent(t) else 0
    case _ => 0
  }

  function CreditsUnder(w: World, ref: Ref, a: Account): int {
    match ref
    case OfPayment(p) => if p < |w.payments| then PaymentCredits(w.payments[p], a) else 0
    case OfRefund(p) => if p < |w.payments| then RefundCredits(w.payments[p], a) else 0
    case OfBatch(b, part) => if b < |w.batches| then PartCredits(w.batches[b], part, a) else 0
    case OfTransfer(i) => if i < |w.transfers| then TransferCredits(w.transfers[i], a) else 0
  }

  // ---------- under each reference ----------

  lemma {:induction false} PairCredits(ref: Ref, debit: Account, credit: Account, amount: int, tag: Option<nat>, a: Account)
    ensures -Net(Pair(ref, debit, credit, amount, tag), Single(a)) ==
            (if a == credit then Max0(amount) else 0) - (if a == debit then Max0(amount) else 0)
  {
    PairNet(ref, debit, credit, amount, tag);
  }

  // Postings and their offset come to nothing.
  lemma {:induction false} OnceNet(k: seq<Entry>, struck: bool, v: View)
    ensures Net(Once(k, struck), v) == if struck then 0 else Net(k, v)
  {
    NetAppend(k, Flip(k), v);
    FlipNegates(k, v);
    hide Net, Flip;
  }

  lemma {:induction false} SplitCredits(p: Payment, id: nat, a: Account)
    ensures -Net(SplitLegs(p, id), Single(a)) ==
            (if a == XegoPayable then Max0(p.fee) else 0) + (if a == MerchantPayable then Max0(p.recv) else 0)
            - if a == CustomerFloat then Max0(p.fee) + Max0(p.recv) else 0
  {
    PairCredits(OfPayment(id), CustomerFloat, XegoPayable, p.fee, None, a);
    PairCredits(OfPayment(id), CustomerFloat, MerchantPayable, p.recv, Some(p.merchant), a);
    NetAppend(Pair(OfPayment(id), CustomerFloat, XegoPayable, p.fee, None),
              Pair(OfPayment(id), CustomerFloat, MerchantPayable, p.recv, Some(p.merchant)), Single(a));
    hide Net, Pair;
  }

  lemma {:induction false} HistoryCredits(p: Payment, id: nat, a: Account)
    requires p.status == Awaiting ==> p.accrual == NotPosted
    requires p.accrual == Reversed ==> p.reversed
    ensures -Net(History(p, id), Single(a)) == PaymentCredits(p, a)
  {
    var received, split := MoneyIn(p, id), SplitLegs(p, id);
    var v := Single(a);
    HistoryForms(p, id);
    assert Net([], v) == 0;
    PairCredits(OfPayment(id), OperatingBank, CustomerFloat, p.amount, Some(p.merchant), a);
    SplitCredits(p, id, a);
    NetAppend(received, split, v);
    NetAppend(received, Flip(received), v);
    NetAppend(received + Flip(received), split, v);
    NetAppend(received + split, Flip(received + split), v);
    FlipNegates(received, v);
    FlipNegates(received + split, v);
    hide Net, Flip, History, SplitLegs, Pair;
  }

  lemma {:induction false} PartHolds(batch: Batch, b: nat, part: Part, a: Account)
    ensures -Net(Once(PartPostings(batch, b, part), part in batch.struck), Single(a)) == PartCredits(batch, part, a)
  {
    OnceNet(PartPostings(batch, b, part), part in batch.struck, Single(a));
    match part {
      case Total => PairCredits(OfBatch(b, Total), MerchantPayable, SettlementPayable, batch.cut, Some(batch.merchant), a);
      case Fee => PairCredits(OfBatch(b, Fee), SettlementPayable, SettlementFees, batch.fee, Some(batch.merchant), a);
      case Credit =>
        PairCredits(OfBatch(b, Credit), SettlementPayable, BusinessWallet(batch.merchant), batch.cut - batch.fee, Some(batch.merchant), a);
      case PaidOut =>
        assert Net([], Single(a)) == 0;
        if batch.payout.Some? {
          PairCredits(OfBatch(b, PaidOut), BusinessWallet(batch.merchant), OperatingBank, batch.payout.value.amount, Some(batch.merchant), a);
        }
    }
    hide Net, Pair, Once;
  }

  lemma {:induction false} TransferHolds(t: Transfer, i: nat, a: Account)
    ensures -Net(Once(TransferPostings(t, i), t.struck), Single(a)) == TransferCredits(t, a)
  {
    OnceNet(TransferPostings(t, i), t.struck, Single(a));
    if t.returned {
      PairCredits(OfTransfer(i), OutletAccount(t), BusinessWallet(t.merchant), t.amount, None, a);
    } else {
      PairCredits(OfTransfer(i), BusinessWallet(t.merchant), OutletAccount(t), t.amount, if t.outlet.ToBank? then Some(t.merchant) else None, a);
    }
    hide Net, Pair, Once;
  }

  // Credits less debits of every account under every reference, in every lawful state.
  lemma {:induction false} StandsUnder(w: World, ref: Ref, a: Account)
    requires Lawful(w)
    ensures -Net(Under(w.journal, ref), Single(a)) == CreditsUnder(w, ref, a)
  {
    assert Under(w.journal, ref) == Expected(w, ref);
    assert Net([], Single(a)) == 0;
    match ref {
      case OfPayment(p) =>
        if p < |w.payments| {
          assert PaymentOk(w.payments[p], w.batches);
          HistoryCredits(w.payments[p], p, a);
        }
      case OfRefund(p) =>
        if p < |w.payments| {
          OnceNet(WalletCredit(w.payments[p], p), w.payments[p].creditReversed, Single(a));
          PairCredits(OfRefund(p), CustomerFloat, UserWallet(w.payments[p].user), w.payments[p].amount, None, a);
        }
      case OfBatch(b, part) => if b < |w.batches| { PartHolds(w.batches[b], b, part, a); }
      case OfTransfer(i) => if i < |w.transfers| { TransferHolds(w.transfers[i], i, a); }
    }
    hide Net, Under, History, Once, PartPostings, TransferPostings, Pair, Lawful, PaymentOk;
  }

  // ---------- an account over the whole journal ----------

  // The sum over distinct references of what stands under each.
  function OverRefs(j: seq<Entry>, refs: seq<Ref>, v: View): int {
    if refs == [] then 0 else Net(Under(j, refs[0]), v) + OverRefs(j, refs[1..], v)
  }

  predicate Apart(refs: seq<Ref>) {
    forall i, k :: 0 <= i < k < |refs| ==> refs[i] != refs[k]
  }

  lemma {:induction false} OneMore(x: Entry, j: seq<Entry>, refs: seq<Ref>, v: View)
    requires Apart(refs)
    ensures OverRefs([x] + j, refs, v) == OverRefs(j, refs, v) + if x.ref in refs then Weight(x, v) else 0
  {
    if refs != [] {
      OneMore(x, j, refs[1..], v);
      assert ([x] + j)[1..] == j;
      assert Under([x] + j, refs[0]) == (if x.ref == refs[0] then [x] else []) + Under(j, refs[0]);
      NetAppend(if x.ref == refs[0] then [x] else [], Under(j, refs[0]), v);
      assert [x][1..] == [] && Net([x], v) == Weight(x, v) && Net([], v) == 0;
      assert x.ref in refs <==> x.ref == refs[0] || x.ref in refs[1..];
      if x.ref == refs[0] { assert x.ref !in refs[1..]; }
    }
  }

  lemma {:induction false} RefsCoverAll(j: seq<Entry>, refs: seq<Ref>, v: View)
    requires Apart(refs) && forall i :: 0 <= i < |j| ==> j[i].ref in refs
    ensures OverRefs(j, refs, v) == Net(j, v)
    decreases |j|
  {
    if j == [] {
      NothingOverRefs(refs, v);
    } else {
      assert j == [j[0]] + j[1..];
      OneMore(j[0], j[1..], refs, v);
      RefsCoverAll(j[1..], refs, v);
    }
  }

  lemma {:induction false} NothingOverRefs(refs: seq<Ref>, v: View)
    ensures OverRefs([], refs, v) == 0
  {
    if refs != [] { NothingOverRefs(refs[1..], v); }
  }

  lemma {:induction false} NoRefs(j: seq<Entry>, v: View)
    ensures OverRefs(j, [], v) == 0
  {
  }

  lemma {:induction false} RefsSplit(j: seq<Entry>, ref: Ref, rest: seq<Ref>, v: View)
    ensures OverRefs(j, [ref] + rest, v) == Net(Under(j, ref), v) + OverRefs(j, rest, v)
  {
    assert ([ref] + rest)[1..] == rest;
  }

  lemma {:induction false} RefsJoin(j: seq<Entry>, a: seq<Ref>, b: seq<Ref>, v: View)
    ensures OverRefs(j, a + b, v) == OverRefs(j, a, v) + OverRefs(j, b, v)
  {
    if a == [] {
      assert a + b == b;
    } else {
      assert (a + b)[1..] == a[1..] + b;
      RefsJoin(j, a[1..], b, v);
    }
  }

  function PaymentRefs(n: nat): seq<Ref> {
    if n == 0 then [] else PaymentRefs(n - 1) + [OfPayment(n - 1), OfRefund(n - 1)]
  }

  function PartRefs(b: nat): seq<Ref> {
    [OfBatch(b, Total), OfBatch(b, Fee), OfBatch(b, Credit), OfBatch(b, PaidOut)]
  }

  function BatchRefs(n: nat): seq<Ref> {
    if n == 0 then [] else BatchRefs(n - 1) + PartRefs(n - 1)
  }

  function TransferRefs(n: nat): seq<Ref> {
    if n == 0 then [] else TransferRefs(n - 1) + [OfTransfer(n - 1)]
  }

  function AllRefs(w: World): seq<Ref> {
    PaymentRefs(|w.payments|) + BatchRefs(|w.batches|) + TransferRefs(|w.transfers|)
  }

  lemma {:induction false} JoinApart(a: seq<Ref>, b: seq<Ref>)
    requires Apart(a) && Apart(b) && forall ref :: ref in a ==> ref !in b
    ensures Apart(a + b)
  {
    forall i, k | 0 <= i < k < |a + b| ensures (a + b)[i] != (a + b)[k] {
      if i < |a| <= k { assert a[i] in a && b[k - |a|] in b; }
    }
  }

  lemma {:induction false} PaymentRefsApart(n: nat)
    ensures Apart(PaymentRefs(n))
    ensures forall ref :: ref in PaymentRefs(n) <==> (ref.OfPayment? || ref.OfRefund?) && ref.payment < n
  {
    assert Apart([]);
    hide Apart;
    if n > 0 {
      PaymentRefsApart(n - 1);
      JoinApart(PaymentRefs(n - 1), [OfPayment(n - 1), OfRefund(n - 1)]);
    }
  }

  lemma {:induction false} PartRefsApart(b: nat)
    ensures Apart(PartRefs(b))
    ensures forall ref :: ref in PartRefs(b) <==> ref.OfBatch? && ref.batch == b
  {
    forall ref: Ref | ref.OfBatch? && ref.batch == b ensures ref in PartRefs(b) {
      assert ref == OfBatch(b, ref.part);
      match ref.part {
        case Total => assert PartRefs(b)[0] == ref;
        case Fee => assert PartRefs(b)[1] == ref;
        case Credit => assert PartRefs(b)[2] == ref;
        case PaidOut => assert PartRefs(b)[3] == ref;
      }
    }
  }

  lemma {:induction false} BatchRefsApart(n: nat)
    ensures Apart(BatchRefs(n))
    ensures forall ref :: ref in BatchRefs(n) <==> ref.OfBatch? && ref.batch < n
  {
    assert Apart([]);
    hide Apart, PartRefs;
    if n > 0 {
      BatchRefsApart(n - 1);
      PartRefsApart(n - 1);
      JoinApart(BatchRefs(n - 1), PartRefs(n - 1));
    }
  }

  lemma {:induction false} TransferRefsApart(n: nat)
    ensures Apart(TransferRefs(n))
    ensures forall ref :: ref in TransferRefs(n) <==> ref.OfTransfer? && ref.transfer < n
  {
    if n > 0 {
      TransferRefsApart(n - 1);
      var front := TransferRefs(n - 1);
      forall i | 0 <= i < |front| ensures front[i] != OfTransfer(n - 1) { assert front[i] in front; }
    }
  }

  lemma {:induction false} AllRefsApart(w: World)
    ensures Apart(AllRefs(w))
    ensures forall ref :: ref in AllRefs(w) <==> InTables(w, ref)
  {
    var paid, cut, sent := PaymentRefs(|w.payments|), BatchRefs(|w.batches|), TransferRefs(|w.transfers|);
    PaymentRefsApart(|w.payments|);
    BatchRefsApart(|w.batches|);
    TransferRefsApart(|w.transfers|);
    hide Apart, PaymentRefs, BatchRefs, TransferRefs;
    JoinApart(paid, cut);
    JoinApart(paid + cut, sent);
    forall ref ensures ref in AllRefs(w) <==> InTables(w, ref) {
      assert ref in AllRefs(w) <==> ref in paid || ref in cut || ref in sent;
    }
  }

  lemma {:induction false} UnderHas(j: seq<Entry>, i: nat)
    requires i < |j|
    ensures Under(j, j[i].ref) != []
  {
    if i > 0 { UnderHas(j[1..], i - 1); }
  }

  lemma {:induction false} AllRefsCover(w: World)
    requires Lawful(w)
    ensures forall i :: 0 <= i < |w.journal| ==> w.journal[i].ref in AllRefs(w)
  {
    AllRefsApart(w);
    forall i | 0 <= i < |w.journal| ensures w.journal[i].ref in AllRefs(w) {
      UnderHas(w.journal, i);
      assert Under(w.journal, w.journal[i].ref) == Expected(w, w.journal[i].ref);
      hide AllRefs, History, Once, PartPostings, TransferPostings, WalletCredit, Under;
    }
  }

  // ---------- balances as sums over the tables ----------

  ghost function PaymentsOn(a: Account): Payment -> int { (p: Payment) => PaymentCredits(p, a) + RefundCredits(p, a) }

  ghost function BatchesOn(a: Account): Batch -> int {
    (b: Batch) => PartCredits(b, Total, a) + PartCredits(b, Fee, a) + PartCredits(b, Credit, a) + PartCredits(b, PaidOut, a)
  }

  ghost function TransfersOn(a: Account): Transfer -> int { (t: Transfer) => TransferCredits(t, a) }

  lemma {:induction false} FirstPayments(w: World, n: nat, a: Account)
    requires Lawful(w) && n <= |w.payments|
    ensures -OverRefs(w.journal, PaymentRefs(n), Single(a)) == Sum(w.payments[..n], PaymentsOn(a))
  {
    hide Net, Under, Lawful, PaymentCredits, RefundCredits, OverRefs;
    if n > 0 {
      FirstPayments(w, n - 1, a);
      var paid, refund := OfPayment(n - 1), OfRefund(n - 1);
      StandsUnder(w, paid, a);
      StandsUnder(w, refund, a);
      assert PaymentRefs(n) == PaymentRefs(n - 1) + ([paid] + [refund]) by { assert [paid] + [refund] == [paid, refund]; }
      assert w.payments[..n] == w.payments[..n - 1] + [w.payments[n - 1]];
      SumAppend(w.payments[..n - 1], w.payments[n - 1], PaymentsOn(a));
      OnePlusOne(w.journal, PaymentRefs(n - 1), paid, refund, Single(a));
    } else {
      NoRefs(w.journal, Single(a));
    }
  }

  lemma {:induction false} OnePlusOne(j: seq<Entry>, refs: seq<Ref>, a: Ref, b: Ref, v: View)
    ensures OverRefs(j, refs + ([a] + [b]), v) == OverRefs(j, refs, v) + Net(Under(j, a), v) + Net(Under(j, b), v)
  {
    RefsJoin(j, refs, [a] + [b], v);
    RefsSplit(j, a, [b], v);
    RefsSplit(j, b, [], v);
    NoRefs(j, v);
    assert [b] + [] == [b];
    hide OverRefs, Net, Under;
  }

  lemma {:induction false} FirstBatches(w: World, n: nat, a: Account)
    requires Lawful(w) && n <= |w.batches|
    ensures -OverRefs(w.journal, BatchRefs(n), Single(a)) == Sum(w.batches[..n], BatchesOn(a))
  {
    hide Net, Under, Lawful, OverRefs, PartCredits;
    if n > 0 {
      FirstBatches(w, n - 1, a);
      FourParts(w, n - 1, a);
      RefsJoin(w.journal, BatchRefs(n - 1), PartRefs(n - 1), Single(a));
      assert w.batches[..n] == w.batches[..n - 1] + [w.batches[n - 1]];
      SumAppend(w.batches[..n - 1], w.batches[n - 1], BatchesOn(a));
      assert BatchRefs(n) == BatchRefs(n - 1) + PartRefs(n - 1);
    } else {
      NoRefs(w.journal, Single(a));
    }
  }

  lemma {:induction false} FourParts(w: World, b: nat, a: Account)
    requires Lawful(w) && b < |w.batches|
    ensures -OverRefs(w.journal, PartRefs(b), Single(a)) == BatchesOn(a)(w.batches[b])
  {
    var j, refs, v := w.journal, PartRefs(b), Single(a);
    StandsUnder(w, OfBatch(b, Total), a);
    StandsUnder(w, OfBatch(b, Fee), a);
    StandsUnder(w, OfBatch(b, Credit), a);
    StandsUnder(w, OfBatch(b, PaidOut), a);
    hide Net, Under, Lawful, PartCredits, OverRefs;
    RefsSplit(j, OfBatch(b, PaidOut), [], v);
    RefsSplit(j, OfBatch(b, Credit), [OfBatch(b, PaidOut)], v);
    RefsSplit(j, OfBatch(b, Fee), [OfBatch(b, Credit)] + [OfBatch(b, PaidOut)], v);
    RefsSplit(j, OfBatch(b, Total), [OfBatch(b, Fee)] + ([OfBatch(b, Credit)] + [OfBatch(b, PaidOut)]), v);
    assert [OfBatch(b, PaidOut)] + [] == [OfBatch(b, PaidOut)];
    assert refs == [OfBatch(b, Total)] + ([OfBatch(b, Fee)] + ([OfBatch(b, Credit)] + [OfBatch(b, PaidOut)]));
    assert OverRefs(j, [], v) == 0 by { NoRefs(j, v); }
  }

  lemma {:induction false} FirstTransfers(w: World, n: nat, a: Account)
    requires Lawful(w) && n <= |w.transfers|
    ensures -OverRefs(w.journal, TransferRefs(n), Single(a)) == Sum(w.transfers[..n], TransfersOn(a))
  {
    hide Net, Under, Lawful, TransferCredits, OverRefs;
    if n > 0 {
      FirstTransfers(w, n - 1, a);
      var last := OfTransfer(n - 1);
      StandsUnder(w, last, a);
      RefsJoin(w.journal, TransferRefs(n - 1), [last] + [], Single(a));
      RefsSplit(w.journal, last, [], Single(a));
      NoRefs(w.journal, Single(a));
      assert [last] + [] == [last];
      assert w.transfers[..n] == w.transfers[..n - 1] + [w.transfers[n - 1]];
      SumAppend(w.transfers[..n - 1], w.transfers[n - 1], TransfersOn(a));
    } else {
      NoRefs(w.journal, Single(a));
    }
  }

  /**
   After any run, credits less debits of every account are a sum over the tables: the bank, whose balance is a debit, holds what
   was received and not reversed less what was paid out, the customer float what was received and neither split nor refunded, a
   customer's wallet the refunds credited to it and the transfers made to it, and so for the platform, the merchants, their
   settlements, the fees, the business wallets and the purses.
   */
  lemma {:induction false} EveryAccountAddsUp(events: seq<Event>, a: Account)
    ensures var w := Run(EMPTY, events);
            -Net(w.journal, Single(a)) ==
            Sum(w.payments, PaymentsOn(a)) + Sum(w.batches, BatchesOn(a)) + Sum(w.transfers, TransfersOn(a))
  {
    EmptyIsLawful();
    EveryRunIsLawful(EMPTY, events);
    var w := Run(EMPTY, events);
    AllRefsApart(w);
    AllRefsCover(w);
    hide Run, Lawful, Net, Sum, OverRefs, Under, PaymentRefs, BatchRefs, TransferRefs;
    RefsCoverAll(w.journal, AllRefs(w), Single(a));
    RefsJoin(w.journal, PaymentRefs(|w.payments|), BatchRefs(|w.batches|), Single(a));
    RefsJoin(w.journal, PaymentRefs(|w.payments|) + BatchRefs(|w.batches|), TransferRefs(|w.transfers|), Single(a));
    FirstPayments(w, |w.payments|, a);
    FirstBatches(w, |w.batches|, a);
    FirstTransfers(w, |w.transfers|, a);
    assert w.payments[..|w.payments|] == w.payments && w.batches[..|w.batches|] == w.batches && w.transfers[..|w.transfers|] == w.transfers;
  }
}
