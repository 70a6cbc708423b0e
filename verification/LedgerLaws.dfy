/**
 What the journal says after any run of events, operator reversals included, in terms of the other tables alone: the books
 balance, the rows under every reference are the ones those tables call for, and each merchant's payable accounts and
 business wallet are sums over payments, batches and transfers.
 */
module LedgerLaws {
  import opened Sums
  import opened Wrappers
  import opened Ledger

  // ---------- what a payment and a batch contribute ----------

  // What the split hook has credited to 3100 and no refund has taken back, less what cuts have moved out of it.
  function Standing(p: Payment): int {
    (if p.accrual == Posted then Max0(p.recv) else 0) - p.settled
  }

  ghost function StandingOf(m: nat): Payment -> int { (p: Payment) => if p.merchant == m then Standing(p) else 0 }

  // Kobo a cut leaves as a debit on 3200: none unless its fee is negative or exceeds its total. An operator's reversal of the
  // fee or of the wallet credit gives the amount back to 3200.
  function Leak(b: Batch): int {
    b.cut - (if Fee in b.struck then 0 else Max0(b.fee)) - if Credit in b.struck then 0 else Max0(b.cut - b.fee)
  }

  ghost function LeakOf(m: nat): Batch -> int { (b: Batch) => if b.merchant == m then Leak(b) else 0 }

  // Credited to the business wallet at the cut, less what a completed payout has taken, less what operators have reversed.
  function Held(b: Batch): int {
    (if Credit in b.struck then 0 else Max0(b.cut - b.fee))
    - if b.payout.Some? && b.payout.value.status == Completed && PaidOut !in b.struck then b.payout.value.amount else 0
  }

  ghost function HeldOf(m: nat): Batch -> int { (b: Batch) => if b.merchant == m then Held(b) else 0 }

  // What a transfer has brought to the business wallet.
  function Brought(t: Transfer): int {
    if t.struck then 0 else if t.returned then t.amount else -(t.amount as int)
  }

  ghost function BroughtOf(m: nat): Transfer -> int { (t: Transfer) => if t.merchant == m then Brought(t) else 0 }

  // ---------- the entries under each reference ----------

  function History(p: Payment, id: nat): seq<Entry> {
    var received := MoneyIn(p, id);
    var split := SplitLegs(p, id);
    if p.status == Awaiting then []
    else if !p.reversed then if p.accrual == NotPosted then received else received + split
    else
      match p.accrual
      case NotPosted => received + Flip(received)
      case Posted => received + Flip(received) + split
      case Reversed => received + split + Flip(received + split)
  }

  // Postings made once, with their offset if an operator has reversed them.
  function Once(k: seq<Entry>, struck: bool): seq<Entry> {
    if struck then k + Flip(k) else k
  }

  function Expected(w: World, ref: Ref): seq<Entry> {
    match ref
    case OfPayment(id) => if id < |w.payments| then History(w.payments[id], id) else []
    case OfRefund(id) =>
      if id < |w.payments| && w.payments[id].status == Refunded
      then Once(WalletCredit(w.payments[id], id), w.payments[id].creditReversed) else []
    case OfBatch(b, part) =>
      if b < |w.batches| then Once(PartPostings(w.batches[b], b, part), part in w.batches[b].struck) else []
    case OfTransfer(i) =>
      if i < |w.transfers| then Once(TransferPostings(w.transfers[i], i), w.transfers[i].struck) else []
  }

  // The row a reference stands for.
  predicate InTables(w: World, ref: Ref) {
    match ref
    case OfPayment(p) => p < |w.payments|
    case OfRefund(p) => p < |w.payments|
    case OfBatch(b, _) => b < |w.batches|
    case OfTransfer(i) => i < |w.transfers|
  }

  predicate PaymentOk(p: Payment, bs: seq<Batch>) {
    && p.amount > 0
    && p.recv + p.fee == p.amount
    && (p.status == Awaiting ==> p.accrual == NotPosted && p.line == None && p.settled == 0 && !p.reversed)
    && (p.accrual == Reversed ==> p.reversed)
    && (p.status == Refunded ==> p.reversed)
    && (p.creditReversed ==> p.status == Refunded)
    && (p.line.Some? ==> p.status != Awaiting && p.settled >= p.amount
                         && p.line.value < |bs| && bs[p.line.value].merchant == p.merchant)
  }

  predicate BatchOk(b: Batch) {
    && b.total <= b.cut
    && (b.payout.Some? ==> 0 < b.payout.value.amount <= Max0(b.cut - b.fee))
    && (b.payout.Some? && b.payout.value.status != Completed ==> b.total - b.fee <= b.payout.value.amount)
    && (PaidOut in b.struck ==> b.payout.Some? && b.payout.value.status == Completed)
  }

  // Total debits equal total credits, and so they do under every journal reference.
  ghost predicate Balanced(j: seq<Entry>) {
    Net(j, WholeBook) == 0 && forall ref :: Net(j, Journal(ref)) == 0
  }

  ghost predicate Recorded(w: World) {
    forall ref :: Under(w.journal, ref) == Expected(w, ref)
  }

  ghost predicate Shaped(w: World) {
    && (forall i :: 0 <= i < |w.payments| ==> PaymentOk(w.payments[i], w.batches))
    && (forall b :: 0 <= b < |w.batches| ==> BatchOk(w.batches[b]) && w.batches[b].total == LinesTotal(w.payments, b))
  }

  ghost predicate Lawful(w: World) {
    && Shaped(w)
    && Recorded(w)
    && Balanced(w.journal)
    && (forall m: nat :: Raw(w.journal, m) == Sum(w.payments, StandingOf(m)) + Sum(w.batches, LeakOf(m)))
    && (forall m: nat :: WalletBalance(w.journal, m) == Sum(w.batches, HeldOf(m)) + Sum(w.transfers, BroughtOf(m)))
  }

  // ---------- what the postings weigh ----------

  lemma {:induction false} SplitWeighs(p: Payment, id: nat, m: nat)
    ensures Raw(SplitLegs(p, id), m) == if p.merchant == m then Max0(p.recv) else 0
    ensures WalletBalance(SplitLegs(p, id), m) == 0
  {
    var a := Pair(OfPayment(id), CustomerFloat, XegoPayable, p.fee, None);
    var b := Pair(OfPayment(id), CustomerFloat, MerchantPayable, p.recv, Some(p.merchant));
    PairNet(OfPayment(id), CustomerFloat, XegoPayable, p.fee, None);
    PairNet(OfPayment(id), CustomerFloat, MerchantPayable, p.recv, Some(p.merchant));
    JoinWeighs(a, b, m);
  }

  lemma {:induction false} JoinWeighs(j: seq<Entry>, k: seq<Entry>, m: nat)
    ensures Raw(j + k, m) == Raw(j, m) + Raw(k, m)
    ensures WalletBalance(j + k, m) == WalletBalance(j, m) + WalletBalance(k, m)
  {
    forall v ensures Net(j + k, v) == Net(j, v) + Net(k, v) { NetAppend(j, k, v); }
  }

  lemma {:induction false} FlipWeighs(j: seq<Entry>, m: nat)
    ensures Raw(Flip(j), m) == -Raw(j, m) && WalletBalance(Flip(j), m) == -WalletBalance(j, m)
  {
    forall v ensures Net(Flip(j), v) == -Net(j, v) { FlipNegates(j, v); }
  }

  lemma {:induction false} MoneyInWeighs(p: Payment, id: nat, m: nat)
    ensures Raw(MoneyIn(p, id), m) == WalletBalance(MoneyIn(p, id), m) == 0
    ensures Raw(WalletCredit(p, id), m) == WalletBalance(WalletCredit(p, id), m) == 0
  {
    PairNet(OfPayment(id), OperatingBank, CustomerFloat, p.amount, Some(p.merchant));
    PairNet(OfRefund(id), CustomerFloat, UserWallet(p.user), p.amount, None);
  }

  lemma {:induction false} HistoryWeighs(p: Payment, id: nat, m: nat)
    requires p.status == Awaiting ==> p.accrual == NotPosted
    requires p.accrual == Reversed ==> p.reversed
    ensures Raw(History(p, id), m) == if p.merchant == m && p.accrual == Posted then Max0(p.recv) else 0
    ensures WalletBalance(History(p, id), m) == 0
  {
    var received, split := MoneyIn(p, id), SplitLegs(p, id);
    HistoryForms(p, id);
    assert Raw([], m) == WalletBalance([], m) == 0;
    SplitWeighs(p, id, m);
    MoneyInWeighs(p, id, m);
    JoinWeighs(received, split, m);
    CancelWeighs(received, m);
    CancelWeighs(received + split, m);
    JoinWeighs(received + Flip(received), split, m);
    hide Raw, WalletBalance, MoneyIn, SplitLegs, Flip, Net, Pair, History;
  }

  lemma {:induction false} HistoryForms(p: Payment, id: nat)
    ensures var h, received, split := History(p, id), MoneyIn(p, id), SplitLegs(p, id);
            && (p.status == Awaiting ==> h == [])
            && (p.status != Awaiting && !p.reversed ==> h == if p.accrual == NotPosted then received else received + split)
            && (p.status != Awaiting && p.reversed ==>
                  h == match p.accrual
                       case NotPosted => received + Flip(received)
                       case Posted => received + Flip(received) + split
                       case Reversed => received + split + Flip(received + split))
  {
  }

  // A history and its reversal weigh nothing together.
  lemma {:induction false} CancelWeighs(j: seq<Entry>, m: nat)
    ensures Raw(j + Flip(j), m) == WalletBalance(j + Flip(j), m) == 0
  {
    FlipWeighs(j, m);
    JoinWeighs(j, Flip(j), m);
    hide Flip, Raw, WalletBalance;
  }

  lemma {:induction false} PartWeighs(batch: Batch, b: nat, part: Part, m: nat)
    ensures var k := PartPostings(batch, b, part);
            && Raw(k, m) == (if batch.merchant != m then 0
                             else match part
                                  case Total => 0
                                  case Fee => -(Max0(batch.fee) as int)
                                  case Credit => -(Max0(batch.cut - batch.fee) as int)
                                  case PaidOut => 0)
            && WalletBalance(k, m) == (if batch.merchant != m then 0
                                       else match part
                                            case Total => 0
                                            case Fee => 0
                                            case Credit => Max0(batch.cut - batch.fee)
                                            case PaidOut => if batch.payout.Some? && batch.payout.value.status == Completed
                                                            then -(batch.payout.value.amount as int) else 0)
  {
    match part
    case Total => PairNet(OfBatch(b, Total), MerchantPayable, SettlementPayable, batch.cut, Some(batch.merchant));
    case Fee => PairNet(OfBatch(b, Fee), SettlementPayable, SettlementFees, batch.fee, Some(batch.merchant));
    case Credit =>
      PairNet(OfBatch(b, Credit), SettlementPayable, BusinessWallet(batch.merchant), batch.cut - batch.fee, Some(batch.merchant));
    case PaidOut =>
      if batch.payout.Some? {
        PairNet(OfBatch(b, PaidOut), BusinessWallet(batch.merchant), OperatingBank, batch.payout.value.amount, Some(batch.merchant));
      }
  }

  lemma {:induction false} CutWeighs(batch: Batch, b: nat, m: nat)
    ensures var k := CutPostings(batch, b);
            && Raw(k, m) == -(if batch.merchant == m then Max0(batch.fee) + Max0(batch.cut - batch.fee) else 0)
            && WalletBalance(k, m) == if batch.merchant == m then Max0(batch.cut - batch.fee) else 0
  {
    PartWeighs(batch, b, Total, m);
    PartWeighs(batch, b, Fee, m);
    PartWeighs(batch, b, Credit, m);
    JoinWeighs(PartPostings(batch, b, Total), PartPostings(batch, b, Fee), m);
    JoinWeighs(PartPostings(batch, b, Total) + PartPostings(batch, b, Fee), PartPostings(batch, b, Credit), m);
    hide Raw, WalletBalance, PartPostings;
  }

  lemma {:induction false} TransferWeighs(t: Transfer, i: nat, m: nat)
    ensures var k := TransferPostings(t, i);
            && Raw(k, m) == 0
            && WalletBalance(k, m) == if t.merchant != m then 0 else if t.returned then t.amount else -(t.amount as int)
  {
    if t.returned {
      PairNet(OfTransfer(i), OutletAccount(t), BusinessWallet(t.merchant), t.amount, None);
    } else {
      PairNet(OfTransfer(i), BusinessWallet(t.merchant), OutletAccount(t), t.amount, if t.outlet.ToBank? then Some(t.merchant) else None);
    }
  }

  // ---------- balance: per reference and overall ----------

  lemma {:induction false} JoinBalanced(j: seq<Entry>, k: seq<Entry>)
    requires Balanced(j) && Balanced(k)
    ensures Balanced(j + k)
  {
    forall v ensures Net(j + k, v) == Net(j, v) + Net(k, v) { NetAppend(j, k, v); }
  }

  lemma {:induction false} PairBalanced(ref: Ref, debit: Account, credit: Account, amount: int, tag: Option<nat>)
    ensures Balanced(Pair(ref, debit, credit, amount, tag))
  {
    PairNet(ref, debit, credit, amount, tag);
  }

  lemma {:induction false} UnderNet(j: seq<Entry>, ref: Ref, other: Ref)
    ensures Net(Under(j, ref), WholeBook) == Net(j, Journal(ref))
    ensures Net(Under(j, ref), Journal(other)) == if other == ref then Net(j, Journal(ref)) else 0
  {
    if j != [] {
      UnderNet(j[1..], ref, other);
      NetAppend(if j[0].ref == ref then [j[0]] else [], Under(j[1..], ref), WholeBook);
      NetAppend(if j[0].ref == ref then [j[0]] else [], Under(j[1..], ref), Journal(other));
    }
  }

  lemma {:induction false} ReversalBalanced(j: seq<Entry>, ref: Ref)
    requires Balanced(j)
    ensures Balanced(Flip(Under(j, ref)))
  {
    var taken := Under(j, ref);
    UnderNet(j, ref, ref);
    FlipNegates(taken, WholeBook);
    forall other ensures Net(Flip(taken), Journal(other)) == 0 {
      UnderNet(j, ref, other);
      FlipNegates(taken, Journal(other));
    }
  }

  lemma {:induction false} PartBalanced(batch: Batch, b: nat, part: Part)
    ensures Balanced(PartPostings(batch, b, part))
  {
    match part
    case Total => PairBalanced(OfBatch(b, Total), MerchantPayable, SettlementPayable, batch.cut, Some(batch.merchant));
    case Fee => PairBalanced(OfBatch(b, Fee), SettlementPayable, SettlementFees, batch.fee, Some(batch.merchant));
    case Credit =>
      PairBalanced(OfBatch(b, Credit), SettlementPayable, BusinessWallet(batch.merchant), batch.cut - batch.fee, Some(batch.merchant));
    case PaidOut =>
      if batch.payout.Some? && batch.payout.value.status == Completed {
        PairBalanced(OfBatch(b, PaidOut), BusinessWallet(batch.merchant), OperatingBank, batch.payout.value.amount, Some(batch.merchant));
      }
  }

  lemma {:induction false} CutBalanced(batch: Batch, b: nat)
    ensures Balanced(CutPostings(batch, b))
  {
    PartBalanced(batch, b, Total);
    PartBalanced(batch, b, Fee);
    PartBalanced(batch, b, Credit);
    JoinBalanced(PartPostings(batch, b, Total), PartPostings(batch, b, Fee));
    JoinBalanced(PartPostings(batch, b, Total) + PartPostings(batch, b, Fee), PartPostings(batch, b, Credit));
  }

  lemma {:induction false} TransferBalanced(t: Transfer, i: nat)
    ensures Balanced(TransferPostings(t, i))
  {
    if t.returned {
      PairBalanced(OfTransfer(i), OutletAccount(t), BusinessWallet(t.merchant), t.amount, None);
    } else {
      PairBalanced(OfTransfer(i), BusinessWallet(t.merchant), OutletAccount(t), t.amount, if t.outlet.ToBank? then Some(t.merchant) else None);
    }
  }

  lemma {:induction false} SplitBalanced(p: Payment, id: nat)
    ensures Balanced(SplitLegs(p, id))
  {
    PairBalanced(OfPayment(id), CustomerFloat, XegoPayable, p.fee, None);
    PairBalanced(OfPayment(id), CustomerFloat, MerchantPayable, p.recv, Some(p.merchant));
    JoinBalanced(Pair(OfPayment(id), CustomerFloat, XegoPayable, p.fee, None),
                 Pair(OfPayment(id), CustomerFloat, MerchantPayable, p.recv, Some(p.merchant)));
  }

  lemma {:induction false} PostingsBalanced(w: World, e: Event)
    requires Balanced(w.journal)
    ensures Balanced(Postings(w, e))
  {
    assert Balanced([]);
    match e
    case Succeed(p) =>
      if p < |w.payments| { PairBalanced(OfPayment(p), OperatingBank, CustomerFloat, w.payments[p].amount, Some(w.payments[p].merchant)); }
    case Split(p) => if SplitPosts(w, p) { SplitBalanced(w.payments[p], p); }
    case Refund(p) => if RefundPosts(w, e) { RefundBalanced(w, p); }
    case ApproveRefund(p, _) => if RefundPosts(w, e) { RefundBalanced(w, p); }
    case Cut(_, _, _, _) => CutBalanced(NewBatch(w, e), |w.batches|);
    case Pay(b, move) => if b < |w.batches| { PartBalanced(StepPayout(w, b, move).batches[b], b, PaidOut); }
    case Spend(_, _, _, _) => if NewTransfer(w, e).Some? { TransferBalanced(NewTransfer(w, e).value, |w.transfers|); }
    case ReturnPurse(_, _) => if NewTransfer(w, e).Some? { TransferBalanced(NewTransfer(w, e).value, |w.transfers|); }
    case Reverse(ref) => ReversalBalanced(w.journal, ref);
    case _ =>
  }

  lemma {:induction false} RefundBalanced(w: World, p: nat)
    requires Balanced(w.journal) && p < |w.payments|
    ensures Balanced(RefundPostings(w, p))
  {
    ReversalBalanced(w.journal, OfPayment(p));
    PairBalanced(OfRefund(p), CustomerFloat, UserWallet(w.payments[p].user), w.payments[p].amount, None);
    JoinBalanced(Flip(Under(w.journal, OfPayment(p))), WalletCredit(w.payments[p], p));
  }

  // ---------- what each reference gains by an event ----------

  predicate OnPayment(e: Event) {
    e.Succeed? || e.Split? || e.Refund? || e.RequestRefund? || e.ApproveRefund? || e.RejectRefund? || e.FailRefund?
  }

  lemma {:induction false} UnderAll(j: seq<Entry>, ref: Ref)
    ensures AllUnder(Under(j, ref), ref)
  {
    if j != [] { UnderAll(j[1..], ref); }
  }

  lemma {:induction false} FlipUnder(j: seq<Entry>, own: Ref, ref: Ref)
    ensures Under(Flip(Under(j, own)), ref) == if ref == own then Flip(Under(j, own)) else []
  {
    UnderAll(j, own);
    FlipKeepsRef(Under(j, own), own);
    UnderUniform(Flip(Under(j, own)), own, ref);
  }

  lemma {:induction false} RefundUnder(w: World, p: nat, ref: Ref)
    requires p < |w.payments|
    ensures Under(RefundPostings(w, p), ref) ==
            if ref == OfPayment(p) then Flip(Under(w.journal, OfPayment(p)))
            else if ref == OfRefund(p) then WalletCredit(w.payments[p], p) else []
  {
    var taken := Flip(Under(w.journal, OfPayment(p)));
    FlipUnder(w.journal, OfPayment(p), ref);
    UnderUniform(WalletCredit(w.payments[p], p), OfRefund(p), ref);
    UnderAppend(taken, WalletCredit(w.payments[p], p), ref);
  }

  lemma {:induction false} PartUnder(batch: Batch, b: nat, part: Part, ref: Ref)
    ensures Under(PartPostings(batch, b, part), ref) == if ref == OfBatch(b, part) then PartPostings(batch, b, part) else []
  {
    UnderUniform(PartPostings(batch, b, part), OfBatch(b, part), ref);
  }

  lemma {:induction false} CutUnder(batch: Batch, b: nat, ref: Ref)
    requires batch.payout == None
    ensures Under(CutPostings(batch, b), ref) ==
            if ref.OfBatch? && ref.batch == b then PartPostings(batch, b, ref.part) else []
  {
    PartUnder(batch, b, Total, ref);
    PartUnder(batch, b, Fee, ref);
    PartUnder(batch, b, Credit, ref);
    UnderAppend(PartPostings(batch, b, Total), PartPostings(batch, b, Fee), ref);
    UnderAppend(PartPostings(batch, b, Total) + PartPostings(batch, b, Fee), PartPostings(batch, b, Credit), ref);
  }

  // Only status, accrual and the reversal decide which of a payment's entries exist.
  predicate SameMoney(p: Payment, q: Payment) {
    p.user == q.user && p.merchant == q.merchant && p.amount == q.amount && p.fee == q.fee && p.recv == q.recv
  }

  lemma {:induction false} HistoryGrows(p: Payment, q: Payment, id: nat)
    requires SameMoney(p, q)
    ensures q.status == p.status && q.accrual == p.accrual && q.reversed == p.reversed ==> History(q, id) == History(p, id)
    ensures p.status != Awaiting && q.status != Awaiting && q.accrual == p.accrual && q.reversed == p.reversed
            ==> History(q, id) == History(p, id)
    ensures p.status == Awaiting && q.status == Succeeded && q.accrual == NotPosted && !q.reversed
            ==> History(q, id) == History(p, id) + MoneyIn(p, id)
    ensures p.status != Awaiting && p.accrual == NotPosted && q.status == p.status && q.accrual == Posted && q.reversed == p.reversed
            ==> History(q, id) == History(p, id) + SplitLegs(p, id)
    ensures p.status != Awaiting && !p.reversed && p.accrual != Reversed && q.status != Awaiting && q.reversed
            && q.accrual == MarkReversed(p).accrual
            ==> History(q, id) == History(p, id) + Flip(History(p, id))
  {
    assert MoneyIn(q, id) == MoneyIn(p, id) && SplitLegs(q, id) == SplitLegs(p, id);
    HistoryForms(p, id);
    HistoryForms(q, id);
    hide History, MoneyIn, SplitLegs, Flip;
  }

  // ---------- which references can be reversed ----------

  lemma {:induction false} FlipMarks(k: seq<Entry>)
    ensures k != [] ==> AlreadyReversed(Flip(k))
  {
    if k != [] { assert Flip(k)[0].reversal; }
  }

  lemma {:induction false} JoinReversed(j: seq<Entry>, k: seq<Entry>)
    ensures AlreadyReversed(j + k) <==> AlreadyReversed(j) || AlreadyReversed(k)
  {
    if AlreadyReversed(k) {
      var i :| 0 <= i < |k| && k[i].reversal;
      assert (j + k)[|j| + i].reversal;
    }
    if AlreadyReversed(j) {
      var i :| 0 <= i < |j| && j[i].reversal;
      assert (j + k)[i].reversal;
    }
  }

  // What was posted under a reference before any reversal, and whether it has been reversed.
  function Original(w: World, ref: Ref): seq<Entry> {
    match ref
    case OfPayment(id) =>
      if id < |w.payments| && w.payments[id].status != Awaiting then MoneyIn(w.payments[id], id) else []
    case OfRefund(id) =>
      if id < |w.payments| && w.payments[id].status == Refunded then WalletCredit(w.payments[id], id) else []
    case OfBatch(b, part) => if b < |w.batches| then PartPostings(w.batches[b], b, part) else []
    case OfTransfer(i) => if i < |w.transfers| then TransferPostings(w.transfers[i], i) else []
  }

  predicate IsReversed(w: World, ref: Ref) {
    match ref
    case OfPayment(id) => id < |w.payments| && w.payments[id].reversed
    case OfRefund(id) => id < |w.payments| && w.payments[id].creditReversed
    case OfBatch(b, part) => b < |w.batches| && part in w.batches[b].struck
    case OfTransfer(i) => i < |w.transfers| && w.transfers[i].struck
  }

  lemma {:induction false} OnceReversed(k: seq<Entry>, struck: bool)
    requires !AlreadyReversed(k)
    ensures Once(k, struck) == [] <==> k == []
    ensures k != [] ==> (AlreadyReversed(Once(k, struck)) <==> struck)
  {
    FlipMarks(k);
    JoinReversed(k, Flip(k));
  }

  lemma {:induction false} HistoryReversed(p: Payment, id: nat)
    requires p.status != Awaiting && p.amount > 0 && (p.accrual == Reversed ==> p.reversed)
    ensures History(p, id) != [] && (AlreadyReversed(History(p, id)) <==> p.reversed)
  {
    var received, split := MoneyIn(p, id), SplitLegs(p, id);
    HistoryForms(p, id);
    assert |received| == 2 && !AlreadyReversed(received);
    JoinReversed(Pair(OfPayment(id), CustomerFloat, XegoPayable, p.fee, None),
                 Pair(OfPayment(id), CustomerFloat, MerchantPayable, p.recv, Some(p.merchant)));
    assert !AlreadyReversed(split);
    FlipMarks(received);
    FlipMarks(received + split);
    JoinReversed(received, split);
    JoinReversed(received, Flip(received));
    JoinReversed(received + Flip(received), split);
    JoinReversed(received + split, Flip(received + split));
    hide History, MoneyIn, SplitLegs, Flip, AlreadyReversed;
  }

  // The ledger reverses a reference exactly when something was posted under it and it has not been reversed before.
  lemma {:induction false} ReversibleIff(w: World, ref: Ref)
    requires Recorded(w) && Shaped(w)
    ensures Reversible(w, ref) <==> Original(w, ref) != [] && !IsReversed(w, ref)
  {
    assert Under(w.journal, ref) == Expected(w, ref);
    match ref
    case OfPayment(id) =>
      if id < |w.payments| {
        assert PaymentOk(w.payments[id], w.batches);
        if w.payments[id].status != Awaiting { HistoryReversed(w.payments[id], id); }
      }
    case OfRefund(id) =>
      if id < |w.payments| {
        OnceReversed(WalletCredit(w.payments[id], id), w.payments[id].creditReversed);
      }
    case OfBatch(b, part) =>
      if b < |w.batches| { OnceReversed(PartPostings(w.batches[b], b, part), part in w.batches[b].struck); }
    case OfTransfer(i) =>
      if i < |w.transfers| { OnceReversed(TransferPostings(w.transfers[i], i), w.transfers[i].struck); }
  }

  // ---------- the rows under each reference, kept by every event ----------

  ghost predicate Gains(w: World, w': World, k: seq<Entry>) {
    forall ref :: Expected(w', ref) == Expected(w, ref) + Under(k, ref)
  }

  // What an event about a payment means for its entries.
  datatype Change = Received | Accrued | TakenBack | Quiet

  function ChangeOf(w: World, e: Event): Change
    requires OnPayment(e) && e.p < |w.payments|
  {
    if e.Succeed? && w.payments[e.p].status == Awaiting then Received
    else if e.Split? && SplitPosts(w, e.p) then Accrued
    else if (e.Refund? || e.ApproveRefund?) && RefundPosts(w, e) then TakenBack
    else Quiet
  }

  lemma {:induction false} PaymentChange(w: World, e: Event)
    requires OnPayment(e) && e.p < |w.payments|
    ensures e.p < |StepState(w, e).payments|
    ensures var q, q', c := w.payments[e.p], StepState(w, e).payments[e.p], ChangeOf(w, e);
            && SameMoney(q, q') && q'.settled == q.settled && q'.creditReversed == q.creditReversed
            && (c == Received ==> q.status == Awaiting && q'.status == Succeeded && q'.accrual == q.accrual && q'.reversed == q.reversed)
            && (c == Accrued ==> q.status != Awaiting && q.accrual == NotPosted && q'.status == q.status && q'.accrual == Posted
                                 && q'.reversed == q.reversed)
            && (c == TakenBack ==> q.status == Succeeded && q'.status == Refunded && q'.accrual == MarkReversed(q).accrual
                                   && q'.reversed && Reversible(w, OfPayment(e.p)))
            && (c == Quiet ==> q'.status == q.status && q'.accrual == q.accrual && q'.reversed == q.reversed)
            && Postings(w, e) == match c
                                 case Received => MoneyIn(q, e.p)
                                 case Accrued => SplitLegs(q, e.p)
                                 case TakenBack => RefundPostings(w, e.p)
                                 case Quiet => []
  {
    hide Under, Flip, MoneyIn, SplitLegs, RefundPostings, Reversible, LinesTotal, LineAllowsRefund;
  }

  // Events about payments leave what other references expect alone.
  lemma {:induction false} OtherExpected(w: World, w': World, p: nat, ref: Ref)
    requires Rewritten(w, w', p) && ref != OfPayment(p) && ref != OfRefund(p)
    ensures Expected(w', ref) == Expected(w, ref)
  {
    hide History, Once, TransferPostings, WalletCredit, LinesTotal;
  }

  lemma {:induction false} PaymentGains(w: World, e: Event)
    requires Lawful(w) && OnPayment(e) && e.p < |w.payments|
    ensures Gains(w, StepState(w, e), Postings(w, e))
  {
    var w' := StepState(w, e);
    PaymentShape(w, e, e.p);
    forall ref ensures Expected(w', ref) == Expected(w, ref) + Under(Postings(w, e), ref) {
      PaymentUnder(w, e, ref);
      if ref == OfPayment(e.p) {
        OwnGains(w, e);
      } else if ref == OfRefund(e.p) {
        RefundGains(w, e);
      } else {
        OtherExpected(w, w', e.p, ref);
      }
      hide Expected, Under, Postings, StepState, ChangeOf, Flip, MoneyIn, SplitLegs, WalletCredit, Rewritten, Lawful;
    }
  }

  // What the event appends under each reference.
  lemma {:induction false} PaymentUnder(w: World, e: Event, ref: Ref)
    requires OnPayment(e) && e.p < |w.payments|
    ensures Under(Postings(w, e), ref) ==
            var q, c := w.payments[e.p], ChangeOf(w, e);
            if ref == OfPayment(e.p) then
              match c
              case Received => MoneyIn(q, e.p)
              case Accrued => SplitLegs(q, e.p)
              case TakenBack => Flip(Under(w.journal, ref))
              case Quiet => []
            else if ref == OfRefund(e.p) && c == TakenBack then WalletCredit(q, e.p)
            else []
  {
    var q := w.payments[e.p];
    PaymentChange(w, e);
    UnderUniform(MoneyIn(q, e.p), OfPayment(e.p), ref);
    SplitUnder(q, e.p, ref);
    RefundUnder(w, e.p, ref);
    assert Under([], ref) == [];
    hide Under, Postings, StepState, ChangeOf, Flip, MoneyIn, SplitLegs, RefundPostings, WalletCredit;
  }

  lemma {:induction false} OwnGains(w: World, e: Event)
    requires Lawful(w) && OnPayment(e) && e.p < |w.payments|
    ensures Expected(StepState(w, e), OfPayment(e.p)) ==
            Expected(w, OfPayment(e.p)) + match ChangeOf(w, e)
                                          case Received => MoneyIn(w.payments[e.p], e.p)
                                          case Accrued => SplitLegs(w.payments[e.p], e.p)
                                          case TakenBack => Flip(Under(w.journal, OfPayment(e.p)))
                                          case Quiet => []
  {
    var q, q' := w.payments[e.p], StepState(w, e).payments[e.p];
    assert PaymentOk(q, w.batches);
    assert Under(w.journal, OfPayment(e.p)) == Expected(w, OfPayment(e.p)) == History(q, e.p);
    PaymentChange(w, e);
    if ChangeOf(w, e) == TakenBack { ReversibleIff(w, OfPayment(e.p)); }
    HistoryGrows(q, q', e.p);
    assert Expected(StepState(w, e), OfPayment(e.p)) == History(q', e.p);
    hide Expected, History, Under, Postings, StepState, ChangeOf, Flip, MoneyIn, SplitLegs, Reversible, Lawful, Original;
  }

  lemma {:induction false} RefundGains(w: World, e: Event)
    requires Lawful(w) && OnPayment(e) && e.p < |w.payments|
    ensures Expected(StepState(w, e), OfRefund(e.p)) ==
            Expected(w, OfRefund(e.p)) + if ChangeOf(w, e) == TakenBack then WalletCredit(w.payments[e.p], e.p) else []
  {
    assert PaymentOk(w.payments[e.p], w.batches);
    PaymentShape(w, e, e.p);
    PaymentChange(w, e);
    RefundExpected(w, StepState(w, e), e.p, ChangeOf(w, e));
    hide *;
  }

  lemma {:induction false} SplitUnder(q: Payment, p: nat, ref: Ref)
    ensures Under(SplitLegs(q, p), ref) == if ref == OfPayment(p) then SplitLegs(q, p) else []
  {
    var a := Pair(OfPayment(p), CustomerFloat, XegoPayable, q.fee, None);
    var b := Pair(OfPayment(p), CustomerFloat, MerchantPayable, q.recv, Some(q.merchant));
    UnderUniform(a, OfPayment(p), ref);
    UnderUniform(b, OfPayment(p), ref);
    UnderAppend(a, b, ref);
  }

  lemma {:induction false} RefundExpected(w: World, w': World, p: nat, c: Change)
    requires p < |w.payments| == |w'.payments| && SameMoney(w.payments[p], w'.payments[p])
    requires w'.payments[p].creditReversed == w.payments[p].creditReversed
    requires c == TakenBack ==> w.payments[p].status == Succeeded && w'.payments[p].status == Refunded && !w.payments[p].creditReversed
    requires c != TakenBack ==> (w'.payments[p].status == Refunded <==> w.payments[p].status == Refunded)
    ensures Expected(w', OfRefund(p)) ==
            Expected(w, OfRefund(p)) + if c == TakenBack then WalletCredit(w.payments[p], p) else []
  {
    assert WalletCredit(w'.payments[p], p) == WalletCredit(w.payments[p], p);
  }

  lemma {:induction false} DraftGains(w: World, e: Event)
    requires e.Draft?
    ensures Gains(w, StepState(w, e), Postings(w, e))
  {
    assert forall ref :: Under([], ref) == [];
  }

  lemma {:induction false} CutGains(w: World, e: Event)
    requires e.Cut?
    ensures Gains(w, StepState(w, e), Postings(w, e))
  {
    var w' := StepState(w, e);
    assert forall ref :: Under([], ref) == [];
    if CutPosts(w, e) {
      forall ref ensures Expected(w', ref) == Expected(w, ref) + Under(Postings(w, e), ref) {
        CutUnder(NewBatch(w, e), |w.batches|, ref);
        if ref.OfPayment? && ref.payment < |w.payments| {
          HistoryGrows(w.payments[ref.payment], w'.payments[ref.payment], ref.payment);
        }
        hide History, CutPostings, PartPostings, TransferPostings, DueTotal, FeeOf, Under;
      }
    }
  }

  lemma {:induction false} PayGains(w: World, b: nat, move: PayoutMove)
    requires Shaped(w)
    ensures Gains(w, StepPayout(w, b, move), Postings(w, Pay(b, move)))
  {
    GainsNothing(w);
    if b < |w.batches| {
      var w' := StepPayout(w, b, move);
      var k := if move == Complete && Completes(w, b) then PartPostings(w'.batches[b], b, PaidOut) else [];
      MoveStaysOk(w, b, move);
      MoveParts(w, b, move);
      PayKeepsPayments(w, b, move);
      assert Postings(w, Pay(b, move)) == k;
      hide History, PartPostings, TransferPostings, WalletCredit, StepPayout, Under, Shaped, Gains, Completes;
      forall ref ensures Under(k, ref) == if ref == OfBatch(b, PaidOut) then k else [] {
        PartUnder(w'.batches[b], b, PaidOut, ref);
        assert Under([], ref) == [] by { UnderUniform([], ref, ref); }
      }
      RebatchedGains(w, w', b, k);
    }
  }

  lemma {:induction false} RebatchedGains(w: World, w': World, b: nat, k: seq<Entry>)
    requires b < |w.batches| == |w'.batches| && w'.batches == w.batches[b := w'.batches[b]]
    requires w'.payments == w.payments && w'.transfers == w.transfers && w'.batches[b].struck == w.batches[b].struck
    requires forall ref :: Under(k, ref) == if ref == OfBatch(b, PaidOut) then k else []
    requires forall part :: part != PaidOut ==> PartPostings(w'.batches[b], b, part) == PartPostings(w.batches[b], b, part)
    requires PartPostings(w'.batches[b], b, PaidOut) == PartPostings(w.batches[b], b, PaidOut) + k
    requires k != [] ==> PaidOut !in w.batches[b].struck
    ensures Gains(w, w', k)
  {
    forall ref ensures Expected(w', ref) == Expected(w, ref) + Under(k, ref) {
      if ref == OfBatch(b, PaidOut) {
        PaidOutGains(w, w', b, k);
      } else {
        OthersExpectTheSame(w, w', b, ref);
      }
      hide *;
    }
  }

  lemma {:induction false} PaidOutGains(w: World, w': World, b: nat, k: seq<Entry>)
    requires b < |w.batches| == |w'.batches| && w'.batches[b].struck == w.batches[b].struck
    requires PartPostings(w'.batches[b], b, PaidOut) == PartPostings(w.batches[b], b, PaidOut) + k
    requires k != [] ==> PaidOut !in w.batches[b].struck
    ensures Expected(w', OfBatch(b, PaidOut)) == Expected(w, OfBatch(b, PaidOut)) + k
  {
    hide PartPostings;
    if k == [] { assert PartPostings(w'.batches[b], b, PaidOut) == PartPostings(w.batches[b], b, PaidOut); }
  }

  lemma {:induction false} OthersExpectTheSame(w: World, w': World, b: nat, ref: Ref)
    requires b < |w.batches| == |w'.batches| && w'.batches == w.batches[b := w'.batches[b]] && ref != OfBatch(b, PaidOut)
    requires w'.payments == w.payments && w'.transfers == w.transfers && w'.batches[b].struck == w.batches[b].struck
    requires forall part :: part != PaidOut ==> PartPostings(w'.batches[b], b, part) == PartPostings(w.batches[b], b, part)
    ensures Expected(w', ref) == Expected(w, ref)
  {
    hide History, Once, PartPostings, TransferPostings, WalletCredit;
  }

  // Which of a batch's postings a payout move adds to.
  lemma {:induction false} MoveParts(w: World, b: nat, move: PayoutMove)
    requires b < |w.batches| && Shaped(w)
    ensures var batch, batch' := w.batches[b], StepPayout(w, b, move).batches[b];
            && batch'.struck == batch.struck
            && (forall part :: part != PaidOut ==> PartPostings(batch', b, part) == PartPostings(batch, b, part))
            && (move == Complete && Completes(w, b) ==> PartPostings(batch, b, PaidOut) == [] && PaidOut !in batch.struck)
            && (!(move == Complete && Completes(w, b)) ==> PartPostings(batch', b, PaidOut) == PartPostings(batch, b, PaidOut))
  {
    assert BatchOk(w.batches[b]);
    hide Shaped, Pair;
  }

  lemma {:induction false} TransferShape(w: World, e: Event)
    requires e.Spend? || e.ReturnPurse?
    ensures var t := NewTransfer(w, e);
            if t.None? then StepState(w, e) == w && Postings(w, e) == []
            else !t.value.struck && StepState(w, e) == w.(transfers := w.transfers + [t.value])
                 && Postings(w, e) == TransferPostings(t.value, |w.transfers|)
  {
    hide PurseBalance, TransferPostings;
  }

  lemma {:induction false} TransferGains(w: World, e: Event)
    requires e.Spend? || e.ReturnPurse?
    ensures Gains(w, StepState(w, e), Postings(w, e))
  {
    TransferShape(w, e);
    GainsNothing(w);
    var t := NewTransfer(w, e);
    hide *;
    if t.Some? { NewTransferGains(w, t.value); }
  }

  lemma {:induction false} GainsNothing(w: World)
    ensures Gains(w, w, [])
  {
    assert forall ref :: Under([], ref) == [];
    hide Expected;
  }

  lemma {:induction false} NewTransferGains(w: World, t: Transfer)
    requires !t.struck
    ensures Gains(w, w.(transfers := w.transfers + [t]), TransferPostings(t, |w.transfers|))
  {
    var w', k := w.(transfers := w.transfers + [t]), TransferPostings(t, |w.transfers|);
    forall ref ensures Expected(w', ref) == Expected(w, ref) + Under(k, ref) {
      UnderUniform(k, OfTransfer(|w.transfers|), ref);
      hide History, PartPostings, TransferPostings, WalletCredit, Under;
    }
  }

  lemma {:induction false} ReverseGains(w: World, own: Ref)
    requires Recorded(w) && Shaped(w) && Reversible(w, own)
    ensures Gains(w, Struck(w, own), Flip(Under(w.journal, own)))
  {
    ReversibleIff(w, own);
    var w' := Struck(w, own);
    if own.OfPayment? {
      assert PaymentOk(w.payments[own.payment], w.batches);
      HistoryGrows(w.payments[own.payment], w'.payments[own.payment], own.payment);
    }
    forall ref ensures Expected(w', ref) == Expected(w, ref) + Under(Flip(Under(w.journal, own)), ref) {
      FlipUnder(w.journal, own, ref);
      StruckExpected(w, own, ref);
      assert Under(w.journal, own) == Expected(w, own);
      hide History, Expected, Struck, Under, Flip, Reversible, Shaped;
    }
  }

  lemma {:induction false} StruckExpected(w: World, own: Ref, ref: Ref)
    requires Shaped(w) && Original(w, own) != [] && !IsReversed(w, own)
    ensures Expected(Struck(w, own), ref) == Expected(w, ref) + if ref == own then Flip(Expected(w, own)) else []
  {
    var w' := Struck(w, own);
    match own {
      case OfPayment(p) =>
        assert PaymentOk(w.payments[p], w.batches);
        HistoryGrows(w.payments[p], w'.payments[p], p);
        assert WalletCredit(w'.payments[p], p) == WalletCredit(w.payments[p], p);
      case OfRefund(p) =>
        HistoryGrows(w.payments[p], w'.payments[p], p);
        assert WalletCredit(w'.payments[p], p) == WalletCredit(w.payments[p], p);
      case OfBatch(b, part) =>
        assert forall q :: PartPostings(w'.batches[b], b, q) == PartPostings(w.batches[b], b, q);
      case OfTransfer(i) =>
        assert TransferPostings(w'.transfers[i], i) == TransferPostings(w.transfers[i], i);
    }
    hide History, PartPostings, TransferPostings, WalletCredit, Flip, Shaped, Original;
  }

  lemma {:induction false} StepRecords(w: World, e: Event)
    requires Lawful(w)
    ensures Recorded(Step(w, e))
  {
    StepGains(w, e);
    var w1, k := StepState(w, e), Postings(w, e);
    hide StepState, Postings;
    AppendRecords(w, w1, k);
  }

  lemma {:induction false} AppendRecords(w: World, w': World, k: seq<Entry>)
    requires Recorded(w) && Gains(w, w', k)
    ensures Recorded(w'.(journal := w.journal + k))
  {
    var w1 := w'.(journal := w.journal + k);
    forall ref ensures Under(w1.journal, ref) == Expected(w1, ref) {
      UnderAppend(w.journal, k, ref);
      assert Expected(w1, ref) == Expected(w', ref);
      hide Under, History, Once, PartPostings, TransferPostings, WalletCredit;
    }
  }

  lemma {:induction false} StepGains(w: World, e: Event)
    requires Lawful(w)
    ensures Gains(w, StepState(w, e), Postings(w, e))
  {
    assert forall ref :: Under([], ref) == [];
    if e.Draft? {
      DraftGains(w, e);
    } else if e.Cut? {
      CutGains(w, e);
    } else if e.Pay? {
      PayGains(w, e.b, e.move);
    } else if e.Spend? || e.ReturnPurse? {
      TransferGains(w, e);
    } else if e.Reverse? {
      if Reversible(w, e.ref) { ReverseGains(w, e.ref); }
    } else if e.p < |w.payments| {
      PaymentGains(w, e);
    }
    hide Expected, Under, StepPayout, Struck, Reversible, Lawful, Flip;
  }

  // ---------- sums after an event ----------

  lemma {:induction false} EnlistSums(ps: seq<Payment>, from: nat, merchant: nat, locked: set<nat>, b: nat, m: nat)
    ensures Sum(Enlist(ps, from, merchant, locked, b), StandingOf(m)) ==
            Sum(ps, StandingOf(m)) - if m == merchant then DueTotal(ps, from, merchant, locked) else 0
  {
    if ps != [] {
      var r := Enlist(ps, from, merchant, locked, b);
      assert r[1..] == Enlist(ps[1..], from + 1, merchant, locked, b);
      EnlistSums(ps[1..], from + 1, merchant, locked, b, m);
    }
  }

  lemma {:induction false} EnlistLines(ps: seq<Payment>, from: nat, merchant: nat, locked: set<nat>, b: nat, c: nat)
    requires forall i :: 0 <= i < |ps| ==> ps[i].line != Some(b)
    ensures LinesTotal(Enlist(ps, from, merchant, locked, b), c) ==
            if c == b then DueTotal(ps, from, merchant, locked) else LinesTotal(ps, c)
  {
    if ps != [] {
      var r := Enlist(ps, from, merchant, locked, b);
      assert r[1..] == Enlist(ps[1..], from + 1, merchant, locked, b);
      EnlistLines(ps[1..], from + 1, merchant, locked, b, c);
    }
  }

  lemma {:induction false} LinesUpdate(ps: seq<Payment>, i: nat, p: Payment, b: nat)
    requires i < |ps|
    ensures LinesTotal(ps[i := p], b) == LinesTotal(ps, b) - LineAmount(ps[i], b) + LineAmount(p, b)
  {
    if i == 0 {
      assert ps[i := p][1..] == ps[1..];
    } else {
      assert ps[i := p][1..] == ps[1..][i - 1 := p];
      LinesUpdate(ps[1..], i - 1, p, b);
    }
  }

  lemma {:induction false} LinesAppend(ps: seq<Payment>, p: Payment, b: nat)
    ensures LinesTotal(ps + [p], b) == LinesTotal(ps, b) + LineAmount(p, b)
  {
    if ps == [] {
      assert ps + [p] == [p];
    } else {
      assert (ps + [p])[1..] == ps[1..] + [p];
      LinesAppend(ps[1..], p, b);
    }
  }

  // The raw balance and the wallet move by exactly what the sums over the tables move by.
  ghost predicate Tracks(w: World, w': World, k: seq<Entry>, m: nat) {
    && Raw(k, m) == Sum(w'.payments, StandingOf(m)) - Sum(w.payments, StandingOf(m))
                    + Sum(w'.batches, LeakOf(m)) - Sum(w.batches, LeakOf(m))
    && WalletBalance(k, m) == Sum(w'.batches, HeldOf(m)) - Sum(w.batches, HeldOf(m))
                              + Sum(w'.transfers, BroughtOf(m)) - Sum(w.transfers, BroughtOf(m))
  }

  lemma {:induction false} StepTracks(w: World, e: Event, m: nat)
    requires Lawful(w)
    ensures Tracks(w, StepState(w, e), Postings(w, e), m)
  {
    if e.Draft? {
      DraftTracks(w, e, m);
    } else if e.Cut? {
      CutTracks(w, e, m);
    } else if e.Pay? {
      assert StepState(w, e) == StepPayout(w, e.b, e.move);
      PayTracks(w, e.b, e.move, m);
    } else if e.Spend? || e.ReturnPurse? {
      TransferTracks(w, e, m);
    } else if e.Reverse? {
      ReverseTracks(w, e.ref, m);
    } else {
      PaymentTracks(w, e, e.p, m);
    }
    hide *;
  }

  lemma {:induction false} DraftTracks(w: World, e: Event, m: nat)
    requires e.Draft?
    ensures Tracks(w, StepState(w, e), Postings(w, e), m)
  {
    SumAppend(w.payments, Drafted(e.user, e.merchant, e.amount, e.fee), StandingOf(m));
  }

  lemma {:induction false} CutTracks(w: World, e: Event, m: nat)
    requires e.Cut?
    ensures Tracks(w, StepState(w, e), Postings(w, e), m)
  {
    if CutPosts(w, e) {
      EnlistSums(w.payments, 0, e.merchant, e.locked, |w.batches|, m);
      SumAppend(w.batches, NewBatch(w, e), LeakOf(m));
      SumAppend(w.batches, NewBatch(w, e), HeldOf(m));
      CutWeighs(NewBatch(w, e), |w.batches|, m);
      hide Raw, WalletBalance, CutPostings, Sum, DueTotal, FeeOf, CutPosts, Enlist;
    }
  }

  lemma {:induction false} TransferTracks(w: World, e: Event, m: nat)
    requires e.Spend? || e.ReturnPurse?
    ensures Tracks(w, StepState(w, e), Postings(w, e), m)
  {
    TransferShape(w, e);
    assert Raw([], m) == WalletBalance([], m) == 0;
    if NewTransfer(w, e).Some? {
      var t := NewTransfer(w, e).value;
      SumAppend(w.transfers, t, BroughtOf(m));
      TransferWeighs(t, |w.transfers|, m);
    }
    hide TransferPostings, Sum, Raw, WalletBalance, NewTransfer, StepState, Postings;
  }

  lemma {:induction false} PayTracks(w: World, b: nat, move: PayoutMove, m: nat)
    requires Lawful(w)
    ensures Tracks(w, StepPayout(w, b, move), Postings(w, Pay(b, move)), m)
  {
    assert Raw([], m) == WalletBalance([], m) == 0;
    if b < |w.batches| {
      var w' := StepPayout(w, b, move);
      assert Shaped(w);
      MoveStaysOk(w, b, move);
      MoveHolds(w, b, move);
      PayKeepsPayments(w, b, move);
      PartWeighs(w'.batches[b], b, PaidOut, m);
      assert Postings(w, Pay(b, move)) == if move == Complete && Completes(w, b) then PartPostings(w'.batches[b], b, PaidOut) else [];
      hide StepPayout, Held, Leak, Sum, Lawful, Shaped, Raw, WalletBalance, Pair, BatchOk, PartPostings, Completes, Tracks;
      RebatchedTracks(w, w', b, Postings(w, Pay(b, move)), m);
    }
  }

  lemma {:induction false} RebatchedTracks(w: World, w': World, b: nat, k: seq<Entry>, m: nat)
    requires b < |w.batches| == |w'.batches| && w'.batches == w.batches[b := w'.batches[b]]
    requires w'.payments == w.payments && w'.transfers == w.transfers && w'.batches[b].merchant == w.batches[b].merchant
    requires Raw(k, m) == LeakOf(m)(w'.batches[b]) - LeakOf(m)(w.batches[b])
    requires WalletBalance(k, m) == HeldOf(m)(w'.batches[b]) - HeldOf(m)(w.batches[b])
    ensures Tracks(w, w', k, m)
  {
    SumUpdate(w.batches, b, w'.batches[b], LeakOf(m));
    SumUpdate(w.batches, b, w'.batches[b], HeldOf(m));
    hide Held, Leak, Sum, Raw, WalletBalance;
  }

  // A payout move changes what a batch holds only when it completes the payout.
  lemma {:induction false} MoveHolds(w: World, b: nat, move: PayoutMove)
    requires b < |w.batches| && Shaped(w)
    ensures var batch, batch' := w.batches[b], StepPayout(w, b, move).batches[b];
            && batch'.merchant == batch.merchant && Leak(batch') == Leak(batch)
            && Held(batch') == Held(batch) - (if move == Complete && Completes(w, b) then batch.payout.value.amount else 0)
            && (move == Complete && Completes(w, b) ==>
                  batch'.payout.Some? && batch'.payout.value.status == Completed && batch'.payout.value.amount == batch.payout.value.amount)
  {
    assert BatchOk(w.batches[b]);
    hide Shaped;
  }

  // Going from w to w' takes back what k did to the raw balance and the wallet.
  ghost predicate Undoes(w: World, w': World, k: seq<Entry>, m: nat) {
    && -Raw(k, m) == Sum(w'.payments, StandingOf(m)) - Sum(w.payments, StandingOf(m))
                     + Sum(w'.batches, LeakOf(m)) - Sum(w.batches, LeakOf(m))
    && -WalletBalance(k, m) == Sum(w'.batches, HeldOf(m)) - Sum(w.batches, HeldOf(m))
                               + Sum(w'.transfers, BroughtOf(m)) - Sum(w.transfers, BroughtOf(m))
  }

  lemma {:induction false} UndoneTracks(w: World, w': World, k: seq<Entry>, m: nat)
    requires Undoes(w, w', k, m)
    ensures Tracks(w, w', Flip(k), m)
  {
    FlipWeighs(k, m);
    hide Raw, WalletBalance, Sum, Flip, StandingOf, LeakOf, HeldOf, BroughtOf;
  }

  // What a reversal of one reference changes in the sums.
  lemma {:induction false} ReverseTracks(w: World, ref: Ref, m: nat)
    requires Lawful(w)
    ensures Tracks(w, StepState(w, Reverse(ref)), Postings(w, Reverse(ref)), m)
  {
    assert Raw([], m) == WalletBalance([], m) == 0;
    if Reversible(w, ref) {
      assert StepState(w, Reverse(ref)) == Struck(w, ref) && Postings(w, Reverse(ref)) == Flip(Expected(w, ref)) by {
        assert Under(w.journal, ref) == Expected(w, ref);
        hide Expected, Struck, Under, Flip, Reversible;
      }
      ReversalUndoes(w, ref, m);
      UndoneTracks(w, Struck(w, ref), Expected(w, ref), m);
    }
    hide Expected, Struck, Under, Flip, Sum, Raw, WalletBalance, Lawful, Undoes, Reversible;
  }

  lemma {:induction false} ReversalUndoes(w: World, ref: Ref, m: nat)
    requires Lawful(w) && Reversible(w, ref)
    ensures Undoes(w, Struck(w, ref), Expected(w, ref), m)
  {
    ReversibleIff(w, ref);
    match ref {
      case OfPayment(p) => StruckPaymentTracks(w, p, m);
      case OfRefund(p) => StruckRefundTracks(w, p, m);
      case OfBatch(b, part) => StruckPartTracks(w, b, part, m);
      case OfTransfer(i) => StruckTransferTracks(w, i, m);
    }
    hide Expected, Under, Flip, Sum, Raw, WalletBalance, Lawful, Reversible, StandingOf, LeakOf, HeldOf, BroughtOf, PartPostings;
  }

  lemma {:induction false} StruckPaymentTracks(w: World, p: nat, m: nat)
    requires Lawful(w) && p < |w.payments| && !w.payments[p].reversed
    ensures var w', k := Struck(w, OfPayment(p)), Expected(w, OfPayment(p));
            && -Raw(k, m) == Sum(w'.payments, StandingOf(m)) - Sum(w.payments, StandingOf(m)) && WalletBalance(k, m) == 0
  {
    var q := w.payments[p];
    assert PaymentOk(q, w.batches);
    HistoryWeighs(q, p, m);
    SumUpdate(w.payments, p, MarkReversed(q), StandingOf(m));
    hide History, Raw, WalletBalance, Sum, Lawful;
  }

  lemma {:induction false} StruckRefundTracks(w: World, p: nat, m: nat)
    requires p < |w.payments| && w.payments[p].status == Refunded && !w.payments[p].creditReversed
    ensures var w', k := Struck(w, OfRefund(p)), Expected(w, OfRefund(p));
            Raw(k, m) == WalletBalance(k, m) == 0 && Sum(w'.payments, StandingOf(m)) == Sum(w.payments, StandingOf(m))
  {
    MoneyInWeighs(w.payments[p], p, m);
    SumUpdate(w.payments, p, w.payments[p].(creditReversed := true), StandingOf(m));
  }

  lemma {:induction false} StruckPartTracks(w: World, b: nat, part: Part, m: nat)
    requires Lawful(w) && b < |w.batches| && part !in w.batches[b].struck && PartPostings(w.batches[b], b, part) != []
    ensures var w', k := Struck(w, OfBatch(b, part)), Expected(w, OfBatch(b, part));
            && -Raw(k, m) == Sum(w'.batches, LeakOf(m)) - Sum(w.batches, LeakOf(m))
            && -WalletBalance(k, m) == Sum(w'.batches, HeldOf(m)) - Sum(w.batches, HeldOf(m))
  {
    var batch := w.batches[b];
    var batch' := batch.(struck := batch.struck + {part});
    PartWeighs(batch, b, part, m);
    SumUpdate(w.batches, b, batch', LeakOf(m));
    SumUpdate(w.batches, b, batch', HeldOf(m));
    StruckHeld(batch, b, part);
    hide Raw, WalletBalance, Sum, Lawful, Leak, Held, PartPostings;
  }

  lemma {:induction false} StruckHeld(batch: Batch, b: nat, part: Part)
    requires part !in batch.struck && PartPostings(batch, b, part) != []
    ensures var batch' := batch.(struck := batch.struck + {part});
            && Leak(batch') == Leak(batch) + (match part
                                              case Fee => Max0(batch.fee)
                                              case Credit => Max0(batch.cut - batch.fee)
                                              case _ => 0)
            && Held(batch') == Held(batch) - (if part == Credit then Max0(batch.cut - batch.fee) else 0)
                               + (if part == PaidOut then batch.payout.value.amount else 0)
  {
  }

  lemma {:induction false} StruckTransferTracks(w: World, i: nat, m: nat)
    requires i < |w.transfers| && !w.transfers[i].struck
    ensures var w', k := Struck(w, OfTransfer(i)), Expected(w, OfTransfer(i));
            && Raw(k, m) == 0
            && -WalletBalance(k, m) == Sum(w'.transfers, BroughtOf(m)) - Sum(w.transfers, BroughtOf(m))
  {
    TransferWeighs(w.transfers[i], i, m);
    SumUpdate(w.transfers, i, w.transfers[i].(struck := true), BroughtOf(m));
    hide Raw, WalletBalance, Sum, TransferPostings;
  }

  lemma {:induction false} PaymentTracks(w: World, e: Event, p: nat, m: nat)
    requires Lawful(w)
    requires OnPayment(e) && p == e.p
    ensures Tracks(w, StepState(w, e), Postings(w, e), m)
  {
    assert Raw([], m) == WalletBalance([], m) == 0;
    if p >= |w.payments| {
      NoSuchPayment(w, e);
      assert Postings(w, e) == [];
    } else {
      PaymentShape(w, e, p);
      PaymentWeighs(w, e, p, m);
      var w' := StepState(w, e);
      hide *;
      RewrittenSums(w, w', p, m);
      assert Tracks(w, w', Postings(w, e), m) by { TracksFrom(w, w', Postings(w, e), p, m); }
    }
  }

  lemma {:induction false} TracksFrom(w: World, w': World, k: seq<Entry>, p: nat, m: nat)
    requires p < |w.payments| == |w'.payments|
    requires Raw(k, m) == StandingOf(m)(w'.payments[p]) - StandingOf(m)(w.payments[p]) && WalletBalance(k, m) == 0
    requires Sum(w'.payments, StandingOf(m)) == Sum(w.payments, StandingOf(m)) - StandingOf(m)(w.payments[p]) + StandingOf(m)(w'.payments[p])
    requires Sum(w'.batches, LeakOf(m)) == Sum(w.batches, LeakOf(m)) && Sum(w'.batches, HeldOf(m)) == Sum(w.batches, HeldOf(m))
    requires w'.transfers == w.transfers
    ensures Tracks(w, w', k, m)
  {
    hide Raw, WalletBalance, Sum, StandingOf, LeakOf, HeldOf;
  }

  lemma {:induction false} RewrittenSums(w: World, w': World, p: nat, m: nat)
    requires Rewritten(w, w', p)
    ensures p < |w.payments| == |w'.payments| && w'.transfers == w.transfers
    ensures Sum(w'.payments, StandingOf(m)) == Sum(w.payments, StandingOf(m)) - StandingOf(m)(w.payments[p]) + StandingOf(m)(w'.payments[p])
    ensures Sum(w'.batches, LeakOf(m)) == Sum(w.batches, LeakOf(m)) && Sum(w'.batches, HeldOf(m)) == Sum(w.batches, HeldOf(m))
  {
    hide Sum, Standing, LinesTotal;
    SumUpdate(w.payments, p, w'.payments[p], StandingOf(m));
    if w'.payments[p].line != w.payments[p].line {
      var c := w.payments[p].line.value;
      SumUpdate(w.batches, c, w'.batches[c], LeakOf(m));
      SumUpdate(w.batches, c, w'.batches[c], HeldOf(m));
    }
  }

  // One payment rewritten, with the recount of the batch it left.
  ghost predicate Rewritten(w: World, w': World, p: nat) {
    && p < |w.payments| && |w'.payments| == |w.payments| && w'.payments == w.payments[p := w'.payments[p]]
    && w'.transfers == w.transfers
    && w'.payments[p].amount == w.payments[p].amount
    && var line := w.payments[p].line;
       if w'.payments[p].line == line then w'.batches == w.batches
       else
         && w'.payments[p].line.None? && line.Some? && line.value < |w.batches|
         && w'.batches == w.batches[line.value := w.batches[line.value].(total := LinesTotal(w'.payments, line.value))]
  }

  // An event about a payment changes that payment and at most the recount of the batch it was in.
  lemma {:induction false} PaymentShape(w: World, e: Event, p: nat)
    requires Lawful(w) && p < |w.payments|
    requires OnPayment(e) && p == e.p
    ensures Rewritten(w, StepState(w, e), p)
  {
    var q := w.payments[p];
    assert PaymentOk(q, w.batches);
    hide Lawful;
    UntouchedIsRewritten(w, p);
    if e.Refund? {
      UnlinedIsRewritten(w, p, MarkRefunded(q));
      hide Rewritten, Unlined, RefundPosts;
    } else if e.RequestRefund? {
      UnlinedIsRewritten(w, p, q.(request := AwaitingApproval(e.admin)));
      hide Rewritten, Unlined, Refundable;
    } else {
      PlainShape(w, e, p);
      hide StepState, Rewritten;
    }
  }

  lemma {:induction false} PlainShape(w: World, e: Event, p: nat)
    requires p < |w.payments| && OnPayment(e) && p == e.p && !e.Refund? && !e.RequestRefund?
    ensures Rewritten(w, StepState(w, e), p)
  {
    hide RefundPosts, SplitPosts, LinesTotal;
    var q' := StepState(w, e).payments[p];
    assert q'.amount == w.payments[p].amount && q'.line == w.payments[p].line;
    assert StepState(w, e) == w.(payments := w.payments[p := q']);
  }

  lemma {:induction false} UntouchedIsRewritten(w: World, p: nat)
    requires p < |w.payments|
    ensures Rewritten(w, w, p)
  {
  }

  lemma {:induction false} UnlinedIsRewritten(w: World, p: nat, q: Payment)
    requires p < |w.payments| && q.amount == w.payments[p].amount && PaymentOk(w.payments[p], w.batches)
    ensures Rewritten(w, Unlined(w, p, q), p)
  {
  }

  lemma {:induction false} PaymentWeighs(w: World, e: Event, p: nat, m: nat)
    requires Lawful(w) && p < |w.payments|
    requires OnPayment(e) && p == e.p
    ensures Raw(Postings(w, e), m) == StandingOf(m)(StepState(w, e).payments[p]) - StandingOf(m)(w.payments[p])
    ensures WalletBalance(Postings(w, e), m) == 0
  {
    var q := w.payments[p];
    assert PaymentOk(q, w.batches);
    PaymentChange(w, e);
    MoneyInWeighs(q, p, m);
    SplitWeighs(q, p, m);
    if ChangeOf(w, e) == TakenBack {
      ReversibleIff(w, OfPayment(p));
      assert Under(w.journal, OfPayment(p)) == Expected(w, OfPayment(p)) == History(q, p);
      HistoryWeighs(q, p, m);
      FlipWeighs(History(q, p), m);
      JoinWeighs(Flip(History(q, p)), WalletCredit(q, p), m);
    }
    assert Raw([], m) == 0 && WalletBalance([], m) == 0;
    hide Raw, WalletBalance, Postings, StepState, History, Under, Flip, MoneyIn, SplitLegs, WalletCredit, ChangeOf, Expected, Lawful;
  }

  // ---------- the invariant ----------

  lemma {:induction false} RewrittenIsShaped(w: World, w': World, p: nat)
    requires Shaped(w) && Rewritten(w, w', p) && PaymentOk(w'.payments[p], w.batches)
    ensures Shaped(w')
  {
    assert |w'.batches| == |w.batches| && forall c :: 0 <= c < |w'.batches| ==> w'.batches[c].merchant == w.batches[c].merchant;
    forall i | 0 <= i < |w'.payments| ensures PaymentOk(w'.payments[i], w'.batches) {
      assert PaymentOk(if i == p then w'.payments[p] else w.payments[i], w.batches);
    }
    forall b | 0 <= b < |w'.batches| ensures BatchOk(w'.batches[b]) && w'.batches[b].total == LinesTotal(w'.payments, b) {
      LinesUpdate(w.payments, p, w'.payments[p], b);
      assert BatchOk(w.batches[b]) && w.batches[b].total == LinesTotal(w.payments, b);
    }
  }

  lemma {:induction false} PaymentStepShaped(w: World, e: Event, p: nat)
    requires Lawful(w) && p < |w.payments|
    requires OnPayment(e) && p == e.p
    ensures Shaped(StepState(w, e))
  {
    PaymentShape(w, e, p);
    PaymentStepOk(w, e, p);
    assert Shaped(w);
    hide *;
    RewrittenIsShaped(w, StepState(w, e), p);
  }

  lemma {:induction false} PaymentStepOk(w: World, e: Event, p: nat)
    requires Lawful(w) && p < |w.payments|
    requires OnPayment(e) && p == e.p
    ensures p < |StepState(w, e).payments| && PaymentOk(StepState(w, e).payments[p], w.batches)
    ensures StepState(w, e).payments[p].amount == w.payments[p].amount
  {
    assert PaymentOk(w.payments[p], w.batches);
    PaymentChange(w, e);
    PaymentShape(w, e, p);
    hide StepState, Postings, ChangeOf, Lawful, LinesTotal, RefundPostings, MoneyIn, SplitLegs;
  }

  lemma {:induction false} CutShaped(w: World, e: Event)
    requires Lawful(w) && e.Cut? && CutPosts(w, e)
    ensures Shaped(StepState(w, e))
  {
    var w' := StepState(w, e);
    forall i | 0 <= i < |w.payments| ensures PaymentOk(w'.payments[i], w'.batches) && w.payments[i].line != Some(|w.batches|) {
      assert PaymentOk(w.payments[i], w.batches);
    }
    forall b | 0 <= b < |w'.batches| ensures BatchOk(w'.batches[b]) && w'.batches[b].total == LinesTotal(w'.payments, b) {
      EnlistLines(w.payments, 0, e.merchant, e.locked, |w.batches|, b);
      if b < |w.batches| { assert BatchOk(w.batches[b]); }
    }
  }

  lemma {:induction false} StepShaped(w: World, e: Event)
    requires Lawful(w)
    ensures Shaped(StepState(w, e))
  {
    if e.Draft? {
      forall b: nat ensures LinesTotal(StepState(w, e).payments, b) == LinesTotal(w.payments, b) {
        LinesAppend(w.payments, Drafted(e.user, e.merchant, e.amount, e.fee), b);
      }
    } else if e.Cut? {
      if CutPosts(w, e) { CutShaped(w, e); }
    } else if e.Pay? {
      PayShaped(w, e.b, e.move);
    } else if e.Reverse? {
      if Reversible(w, e.ref) { StruckShaped(w, e.ref); }
    } else if OnPayment(e) {
      if e.p < |w.payments| { PaymentStepShaped(w, e, e.p); }
    }
  }

  lemma {:induction false} PayShaped(w: World, b: nat, move: PayoutMove)
    requires Lawful(w)
    ensures Shaped(StepPayout(w, b, move))
  {
    assert Shaped(w);
    if b < |w.batches| {
      var w' := StepPayout(w, b, move);
      MoveStaysOk(w, b, move);
      hide *;
      RebatchedIsShaped(w, w', b);
    }
  }

  lemma {:induction false} MoveStaysOk(w: World, b: nat, move: PayoutMove)
    requires b < |w.batches| && Shaped(w)
    ensures var w' := StepPayout(w, b, move);
            && w'.payments == w.payments && |w'.batches| == |w.batches| && w'.batches == w.batches[b := w'.batches[b]]
            && BatchOk(w'.batches[b]) && w'.batches[b].merchant == w.batches[b].merchant && w'.batches[b].total == w.batches[b].total
  {
    assert BatchOk(w.batches[b]);
    hide Shaped;
  }

  lemma {:induction false} StruckShaped(w: World, ref: Ref)
    requires Lawful(w) && Reversible(w, ref)
    ensures Shaped(Struck(w, ref))
  {
    ReversibleIff(w, ref);
    assert Shaped(w);
    match ref {
      case OfPayment(p) =>
        assert PaymentOk(w.payments[p], w.batches);
        StruckPaymentShaped(w, p, MarkReversed(w.payments[p]));
      case OfRefund(p) =>
        assert PaymentOk(w.payments[p], w.batches);
        StruckPaymentShaped(w, p, w.payments[p].(creditReversed := true));
      case OfBatch(b, part) =>
        assert BatchOk(w.batches[b]);
        RebatchedIsShaped(w, Struck(w, ref), b);
      case OfTransfer(i) =>
    }
    hide Lawful, Reversible, Under, BatchOk, LinesTotal;
  }

  lemma {:induction false} StruckPaymentShaped(w: World, p: nat, q: Payment)
    requires Shaped(w) && p < |w.payments| && PaymentOk(q, w.batches)
    requires q.amount == w.payments[p].amount && q.line == w.payments[p].line
    ensures Shaped(w.(payments := w.payments[p := q]))
  {
    RewrittenIsShaped(w, w.(payments := w.payments[p := q]), p);
  }

  lemma {:induction false} RebatchedIsShaped(w: World, w': World, b: nat)
    requires b < |w.batches| == |w'.batches| && Shaped(w)
    requires w'.payments == w.payments && w'.batches == w.batches[b := w'.batches[b]]
    requires BatchOk(w'.batches[b]) && w'.batches[b].merchant == w.batches[b].merchant && w'.batches[b].total == w.batches[b].total
    ensures Shaped(w')
  {
    hide BatchOk, LinesTotal;
    forall i | 0 <= i < |w'.payments| ensures PaymentOk(w'.payments[i], w'.batches) {
      assert PaymentOk(w.payments[i], w.batches);
    }
  }

  lemma {:induction false} StepKeepsLaw(w: World, e: Event)
    requires Lawful(w)
    ensures Lawful(Step(w, e))
  {
    StepShaped(w, e);
    StepRecords(w, e);
    PostingsBalanced(w, e);
    JoinBalanced(w.journal, Postings(w, e));
    var w' := Step(w, e);
    forall m: nat
      ensures Raw(w'.journal, m) == Sum(w'.payments, StandingOf(m)) + Sum(w'.batches, LeakOf(m))
      ensures WalletBalance(w'.journal, m) == Sum(w'.batches, HeldOf(m)) + Sum(w'.transfers, BroughtOf(m))
    {
      StepTracks(w, e, m);
      JoinWeighs(w.journal, Postings(w, e), m);
    }
    hide Under, Net, History, PaymentOk, BatchOk, Raw, WalletBalance;
  }

  /**
   Over any run of events: debits equal credits overall and under every reference; the rows under each reference are those
   the tables and its reversals call for; and for every merchant the payable accounts and the business wallet are the
   stated sums over its payments, batches and transfers.
   */
  lemma {:induction false} EveryRunIsLawful(w: World, events: seq<Event>)
    requires Lawful(w)
    ensures Lawful(Run(w, events))
    decreases |events|
  {
    if events != [] {
      StepKeepsLaw(w, events[0]);
      EveryRunIsLawful(Step(w, events[0]), events[1..]);
    }
  }

  lemma {:induction false} RunAppend(w: World, a: seq<Event>, b: seq<Event>)
    ensures Run(w, a + b) == Run(Run(w, a), b)
    decreases |a|
  {
    if a == [] {
      assert a + b == b;
    } else {
      assert (a + b)[1..] == a[1..] + b;
      RunAppend(Step(w, a[0]), a[1..], b);
    }
  }

  lemma {:induction false} EmptyIsLawful()
    ensures Lawful(EMPTY)
  {
  }

  // ---------- consequences ----------

  // A reversal by the operator that goes through.
  predicate Strikes(w: World, e: Event, ref: Ref) {
    e == Reverse(ref) && Reversible(w, ref)
  }

  predicate EverStruck(w: World, events: seq<Event>, ref: Ref)
    decreases |events|
  {
    events != [] && (Strikes(w, events[0], ref) || EverStruck(Step(w, events[0]), events[1..], ref))
  }

  lemma {:induction false} ReversedByStep(w: World, e: Event, p: nat)
    requires Lawful(w)
    requires p < |StepState(w, e).payments| && StepState(w, e).payments[p].status == Succeeded
    ensures StepState(w, e).payments[p].reversed <==>
              (p < |w.payments| && w.payments[p].status == Succeeded && w.payments[p].reversed) || Strikes(w, e, OfPayment(p))
  {
    if p < |w.payments| { assert PaymentOk(w.payments[p], w.batches); }
    if e.Reverse? {
      if Reversible(w, e.ref) { ReversibleIff(w, e.ref); }
      hide Reversible, Lawful, Postings, Original;
    } else if OnPayment(e) {
      if e.p < |w.payments| {
        PaymentChange(w, e);
        PaymentShape(w, e, e.p);
      }
      hide Lawful, Postings, LinesTotal, Refundable, SplitPosts, RefundPosts, StepState, ChangeOf, Reversible;
      if e.p >= |w.payments| { NoSuchPayment(w, e); }
    } else if e.Pay? {
      PayKeepsPayments(w, e.b, e.move);
      hide Lawful, StepPayout, Reversible;
    } else {
      hide Lawful, Postings, NewTransfer, CutPosts, DueTotal, Reversible;
    }
  }

  lemma {:induction false} NoSuchPayment(w: World, e: Event)
    requires OnPayment(e) && e.p >= |w.payments|
    ensures StepState(w, e) == w
  {
  }

  // A payment that has succeeded does not go back, and one that is refunded stays so.
  lemma {:induction false} StartedStays(w: World, e: Event, p: nat)
    ensures |StepState(w, e).payments| >= |w.payments|
    ensures p < |w.payments| && w.payments[p].status != Awaiting ==> StepState(w, e).payments[p].status != Awaiting
    ensures p < |w.payments| && w.payments[p].status == Refunded ==> StepState(w, e).payments[p].status == Refunded
  {
    if e.Pay? {
      PayKeepsPayments(w, e.b, e.move);
      hide StepPayout;
    } else if OnPayment(e) {
      if e.p == p < |w.payments| { PaymentChange(w, e); }
      hide RefundPosts, SplitPosts, LinesTotal, Refundable, Postings;
    } else {
      hide Reversible, Postings, NewTransfer, CutPosts, DueTotal;
    }
  }

  lemma {:induction false} PayKeepsPayments(w: World, b: nat, move: PayoutMove)
    ensures StepPayout(w, b, move).payments == w.payments && StepPayout(w, b, move).transfers == w.transfers
  {
  }

  lemma {:induction false} RefundedStays(w: World, events: seq<Event>, p: nat)
    requires p < |w.payments| && w.payments[p].status == Refunded
    ensures p < |Run(w, events).payments| && Run(w, events).payments[p].status == Refunded
    decreases |events|
  {
    if events != [] {
      StartedStays(w, events[0], p);
      RefundedStays(Step(w, events[0]), events[1..], p);
    }
  }

  lemma {:induction false} ReversedIffStruck(w: World, events: seq<Event>, p: nat)
    requires Lawful(w)
    requires p < |Run(w, events).payments| && Run(w, events).payments[p].status == Succeeded
    ensures Run(w, events).payments[p].reversed <==>
              (p < |w.payments| && w.payments[p].status == Succeeded && w.payments[p].reversed) || EverStruck(w, events, OfPayment(p))
    decreases |events|
  {
    if events != [] {
      var w1 := Step(w, events[0]);
      StepKeepsLaw(w, events[0]);
      ReversedIffStruck(w1, events[1..], p);
      if p < |w1.payments| {
        if w1.payments[p].status == Refunded {
          RefundedStays(w1, events[1..], p);
        } else if w1.payments[p].status == Succeeded {
          ReversedByStep(w, events[0], p);
        } else {
          AwaitingIsUntouched(w, events[0], p);
        }
      } else {
        AbsentIsUntouched(w, events[0], p);
      }
    }
  }

  lemma {:induction false} AwaitingIsUntouched(w: World, e: Event, p: nat)
    requires Lawful(w) && p < |Step(w, e).payments| && Step(w, e).payments[p].status == Awaiting
    ensures !(p < |w.payments| && w.payments[p].status == Succeeded) && !Strikes(w, e, OfPayment(p))
  {
    StartedStays(w, e, p);
    ReversibleIff(w, OfPayment(p));
    hide Reversible, Lawful, Postings, StepState;
  }

  lemma {:induction false} AbsentIsUntouched(w: World, e: Event, p: nat)
    requires Lawful(w) && p >= |Step(w, e).payments|
    ensures p >= |w.payments| && !Strikes(w, e, OfPayment(p))
  {
    StartedStays(w, e, p);
    ReversibleIff(w, OfPayment(p));
    hide Reversible, Lawful, Postings, StepState;
  }

  /**
   Over every run a succeeded payment's refund stops at the ledger in one case only: an operator has reversed the
   payment's own reference.
   */
  lemma {:induction false} RefundStopsIffStruck(events: seq<Event>, p: nat)
    requires p < |Run(EMPTY, events).payments| && Run(EMPTY, events).payments[p].status == Succeeded
    ensures Reversible(Run(EMPTY, events), OfPayment(p)) <==> !EverStruck(EMPTY, events, OfPayment(p))
  {
    EmptyIsLawful();
    EveryRunIsLawful(EMPTY, events);
    var w := Run(EMPTY, events);
    assert PaymentOk(w.payments[p], w.batches);
    ReversedIffStruck(EMPTY, events, p);
    ReversibleIff(w, OfPayment(p));
    hide Run, EverStruck, Reversible, Lawful;
  }

  // Once a payment's entries are reversed, by its refund or by an operator, they add up to nothing in any view, unless its
  // split is posted afterwards.
  lemma {:induction false} ReversalCancelsThePayment(events: seq<Event>, p: nat, v: View)
    requires p < |Run(EMPTY, events).payments| && Run(EMPTY, events).payments[p].reversed
    ensures var w := Run(EMPTY, events);
            Net(Under(w.journal, OfPayment(p)), v) == if w.payments[p].accrual == Posted then Net(SplitLegs(w.payments[p], p), v) else 0
  {
    EmptyIsLawful();
    EveryRunIsLawful(EMPTY, events);
    var w := Run(EMPTY, events);
    var q := w.payments[p];
    assert PaymentOk(q, w.batches);
    assert Under(w.journal, OfPayment(p)) == Expected(w, OfPayment(p)) == History(q, p);
    var received, split := MoneyIn(q, p), SplitLegs(q, p);
    HistoryForms(q, p);
    NetAppend(received, Flip(received), v);
    NetAppend(received + Flip(received), split, v);
    NetAppend(received + split, Flip(received + split), v);
    FlipNegates(received, v);
    FlipNegates(received + split, v);
    hide Under, Flip, MoneyIn, SplitLegs, Net, Run, History, Lawful, PaymentOk, Expected;
  }

  /**
   What an operator's reversal does to a merchant's figures: of a payment it takes back the standing its split gave, of a
   batch's fee or wallet credit it gives 3200 that amount back, and it undoes what the reference brought to the wallet.
   */
  lemma {:induction false} ReversalMoves(w: World, ref: Ref, m: nat)
    requires Lawful(w) && Reversible(w, ref)
    ensures var w' := Step(w, Reverse(ref));
            && Raw(w'.journal, m) - Raw(w.journal, m) ==
               (match ref
                case OfPayment(p) => if w.payments[p].merchant == m && w.payments[p].accrual == Posted then -(Max0(w.payments[p].recv) as int) else 0
                case OfBatch(b, Fee) => if w.batches[b].merchant == m then Max0(w.batches[b].fee) else 0
                case OfBatch(b, Credit) => if w.batches[b].merchant == m then Max0(w.batches[b].cut - w.batches[b].fee) else 0
                case _ => 0)
            && WalletBalance(w'.journal, m) - WalletBalance(w.journal, m) ==
               (match ref
                case OfBatch(b, Credit) => if w.batches[b].merchant == m then -(Max0(w.batches[b].cut - w.batches[b].fee) as int) else 0
                case OfBatch(b, PaidOut) => if w.batches[b].merchant == m then w.batches[b].payout.value.amount else 0
                case OfTransfer(i) => if w.transfers[i].merchant == m then -Brought(w.transfers[i]) else 0
                case _ => 0)
  {
    ReversibleIff(w, ref);
    var k := Under(w.journal, ref);
    assert k == Expected(w, ref);
    FlipWeighs(k, m);
    JoinWeighs(w.journal, Flip(k), m);
    match ref {
      case OfPayment(p) =>
        assert PaymentOk(w.payments[p], w.batches);
        HistoryWeighs(w.payments[p], p, m);
      case OfRefund(p) => MoneyInWeighs(w.payments[p], p, m);
      case OfBatch(b, part) => PartWeighs(w.batches[b], b, part, m);
      case OfTransfer(i) => TransferWeighs(w.transfers[i], i, m);
    }
    hide Raw, WalletBalance, Under, Flip, History, PartPostings, TransferPostings, WalletCredit, Lawful, Struck;
  }

  // ---------- refunded payments and settlement lines ----------

  // "The payment must not be in a scheduled or processed batch": a refunded payment should be on no line at all.
  ghost predicate RefundedAreOffLine(w: World) {
    forall p :: 0 <= p < |w.payments| && w.payments[p].status == Refunded ==> w.payments[p].line.None?
  }

  // An approval that goes through while the payment, cut again since the request, is on a line. ApproveRefund never looks.
  predicate ApprovesLined(w: World, e: Event) {
    e.ApproveRefund? && RefundPosts(w, e) && w.payments[e.p].line.Some?
  }

  predicate NeverApprovesLined(w: World, events: seq<Event>)
    decreases |events|
  {
    events == [] || (!ApprovesLined(w, events[0]) && NeverApprovesLined(Step(w, events[0]), events[1..]))
  }

  lemma {:induction false} StepOffLine(w: World, e: Event)
    requires Lawful(w)
    ensures RefundedAreOffLine(w) ==> (RefundedAreOffLine(Step(w, e)) <==> !ApprovesLined(w, e))
    ensures !RefundedAreOffLine(w) ==> !RefundedAreOffLine(Step(w, e))
  {
    hide Postings, Under, LinesTotal, Recorded, Balanced, Raw, WalletBalance, Sum;
    var w' := Step(w, e);
    forall p | 0 <= p < |w.payments| && w.payments[p].status == Refunded
      ensures p < |w'.payments| && w'.payments[p].status == Refunded && w'.payments[p].line == w.payments[p].line
    {
      assert PaymentOk(w.payments[p], w.batches);
    }
    if ApprovesLined(w, e) {
      assert w'.payments[e.p].status == Refunded && w'.payments[e.p].line.Some?;
    }
  }

  // Over any run: no refunded payment is left on a settlement line if and only if no approval found its payment on one.
  lemma {:induction false} RefundedOffLineIffNeverApprovedOnOne(w: World, events: seq<Event>)
    requires Lawful(w)
    ensures RefundedAreOffLine(Run(w, events)) <==> RefundedAreOffLine(w) && NeverApprovesLined(w, events)
    decreases |events|
  {
    if events != [] {
      StepKeepsLaw(w, events[0]);
      StepOffLine(w, events[0]);
      RefundedOffLineIffNeverApprovedOnOne(Step(w, events[0]), events[1..]);
    }
  }
}
