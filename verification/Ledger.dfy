/**
 The double-entry journal behind GET /api/v1/balance: the postings of collections, settlement cuts, payouts, refunds,
 spends of the business wallet and operator reversals.

 An event that the store refuses leaves the world as it was. Every event is one database transaction.
 */
module Ledger {
  import opened Wrappers

  datatype Account =
    | OperatingBank
    | CustomerFloat
    | XegoPayable
    | MerchantPayable
    | SettlementPayable
    | SettlementFees
    | UserWallet(user: nat)
    | BusinessWallet(merchant: nat)
    | ProgramPurse(sponsor: nat, purse: nat)

  // A settlement batch posts under four references: its total, its fee, its wallet credit and its payout.
  datatype Part = Total | Fee | Credit | PaidOut

  // Journal references: a payment's own, its refund's wallet credit, a batch's four, and that of a transfer.
  datatype Ref = OfPayment(payment: nat) | OfRefund(payment: nat) | OfBatch(batch: nat, part: Part) | OfTransfer(transfer: nat)

  datatype Entry = Entry(ref: Ref, debit: bool, account: Account, amount: nat, tag: Option<nat>, reversal: bool)

  // ---------- sums over the journal ----------

  datatype View = WholeBook | Journal(ref: Ref) | Tagged(merchant: nat, account: Account) | Single(account: Account)

  predicate InView(e: Entry, v: View) {
    match v
    case WholeBook => true
    case Journal(ref) => e.ref == ref
    case Tagged(merchant, account) => e.tag == Some(merchant) && e.account == account
    case Single(account) => e.account == account
  }

  function Weight(e: Entry, v: View): int {
    var amount: int := e.amount;
    if !InView(e, v) then 0 else if e.debit then amount else -amount
  }

  // Debits less credits.
  function Net(j: seq<Entry>, v: View): int {
    if j == [] then 0 else Weight(j[0], v) + Net(j[1..], v)
  }

  lemma {:induction false} NetAppend(j: seq<Entry>, k: seq<Entry>, v: View)
    ensures Net(j + k, v) == Net(j, v) + Net(k, v)
  {
    if j == [] {
      assert j + k == k;
    } else {
      assert (j + k)[1..] == j[1..] + k;
      NetAppend(j[1..], k, v);
    }
  }

  // The rows of one journal reference, in the order they were appended.
  function Under(j: seq<Entry>, ref: Ref): seq<Entry> {
    if j == [] then [] else (if j[0].ref == ref then [j[0]] else []) + Under(j[1..], ref)
  }

  lemma {:induction false} UnderAppend(j: seq<Entry>, k: seq<Entry>, ref: Ref)
    ensures Under(j + k, ref) == Under(j, ref) + Under(k, ref)
  {
    if j == [] {
      assert j + k == k;
    } else {
      var first := if j[0].ref == ref then [j[0]] else [];
      assert (j + k)[0] == j[0] && (j + k)[1..] == j[1..] + k;
      UnderAppend(j[1..], k, ref);
      assert Under(j + k, ref) == first + Under(j[1..] + k, ref);
      assert Under(j, ref) == first + Under(j[1..], ref);
    }
  }

  // Nothing of another reference is picked out, everything of this one is.
  lemma {:induction false} UnderUniform(j: seq<Entry>, own: Ref, ref: Ref)
    requires AllUnder(j, own)
    ensures Under(j, ref) == if ref == own then j else []
  {
    if j != [] { UnderUniform(j[1..], own, ref); }
  }

  // postLedgerReversalTx: one opposite entry per row, in row order, under the same reference and tag.
  function Flip(j: seq<Entry>): (r: seq<Entry>)
    ensures |r| == |j|
  {
    if j == [] then [] else [j[0].(debit := !j[0].debit, reversal := true)] + Flip(j[1..])
  }

  lemma {:induction false} FlipNegates(j: seq<Entry>, v: View)
    ensures Net(Flip(j), v) == -Net(j, v)
  {
    if j != [] {
      assert Flip(j)[1..] == Flip(j[1..]);
      FlipNegates(j[1..], v);
    }
  }

  lemma {:induction false} FlipKeepsRef(j: seq<Entry>, ref: Ref)
    requires AllUnder(j, ref)
    ensures AllUnder(Flip(j), ref)
  {
    if j != [] { FlipKeepsRef(j[1..], ref); }
  }

  predicate AllUnder(j: seq<Entry>, ref: Ref) {
    forall i :: 0 <= i < |j| ==> j[i].ref == ref
  }

  predicate AlreadyReversed(j: seq<Entry>) {
    exists i :: 0 <= i < |j| && j[i].reversal
  }

  // postLedgerPair refuses a non-positive amount; every caller below tests for one first.
  function Pair(ref: Ref, debit: Account, credit: Account, amount: int, tag: Option<nat>): (r: seq<Entry>)
    ensures AllUnder(r, ref) && !AlreadyReversed(r)
  {
    if amount <= 0 then []
    else [Entry(ref, true, debit, amount, tag, false), Entry(ref, false, credit, amount, tag, false)]
  }

  // What a pair weighs in a view: nothing when both of its sides are in it.
  function PairWeight(ref: Ref, debit: Account, credit: Account, amount: int, tag: Option<nat>, v: View): int {
    if amount <= 0 then 0
    else Weight(Entry(ref, true, debit, amount, tag, false), v) + Weight(Entry(ref, false, credit, amount, tag, false), v)
  }

  lemma {:induction false} PairNet(ref: Ref, debit: Account, credit: Account, amount: int, tag: Option<nat>)
    ensures forall v :: Net(Pair(ref, debit, credit, amount, tag), v) == PairWeight(ref, debit, credit, amount, tag, v)
  {
    var r := Pair(ref, debit, credit, amount, tag);
    if amount > 0 {
      forall v ensures Net(r, v) == PairWeight(ref, debit, credit, amount, tag, v) {
        assert Net(r[1..], v) == Weight(r[1], v) + Net(r[2..], v);
      }
    }
  }

  // ---------- payments, batches and events ----------

  datatype Status = Awaiting | Succeeded | Refunded

  // Whether payment_splits holds rows, and whether their entries have been reversed since.
  datatype Accrual = NotPosted | Posted | Reversed

  datatype Request = NoRequest | AwaitingApproval(admin: nat) | Rejected | Done

  /**
   A merchant collection. `fee` and `recv` are the split amounts the payment's hook will post; `line` is the batch whose
   settlement_lines row holds the payment. The rest is history: `settled` is the kobo that cuts have moved out of 3100 for
   it, `reversed` says that the entries under its own reference have been reversed, by a refund or by an operator, and
   `creditReversed` that an operator has reversed its refund's wallet credit.
   */
  datatype Payment = Payment(user: nat, merchant: nat, amount: nat, fee: int, recv: int,
                             status: Status, accrual: Accrual, line: Option<nat>, settled: nat, request: Request,
                             reversed: bool, creditReversed: bool)

  datatype PayoutStatus = Queued | Processing | Failed | Completed

  datatype Payout = Payout(amount: nat, status: PayoutStatus, attempts: nat)

  datatype BatchStatus = Open | Scheduled | Processed

  /**
   A settlement batch; `payout` is its one payout that is not reversed. The rest is history: `cut` is the total moved at
   the cut, which the recomputed `total` may later fall below, and `struck` the parts an operator has reversed.
   */
  datatype Batch = Batch(merchant: nat, number: string, status: BatchStatus, cut: nat, total: nat, fee: int,
                         payout: Option<Payout>, struck: set<Part>)

  // Where a merchant's business wallet is spent: a bulk item to a bank or to a user's wallet, or a programme purse.
  datatype Outlet = ToBank | ToUser(user: nat) | ToPurse(purse: nat)

  // A spend of a business wallet, or what an expired purse returns to it; `struck` when an operator has reversed it.
  datatype Transfer = Transfer(merchant: nat, amount: nat, outlet: Outlet, returned: bool, struck: bool)

  datatype World = World(payments: seq<Payment>, batches: seq<Batch>, transfers: seq<Transfer>, journal: seq<Entry>)

  datatype Event =
    | Draft(user: nat, merchant: nat, amount: nat, fee: int)
    | Succeed(p: nat)
    | Split(p: nat)
    | Refund(p: nat)
    | RequestRefund(p: nat, admin: nat)
    | ApproveRefund(p: nat, admin: nat)
    | RejectRefund(p: nat)
    | FailRefund(p: nat)
    | Cut(merchant: nat, number: string, bps: int, locked: set<nat>)
    | Pay(b: nat, move: PayoutMove)
    // `seen` is the balance its check read, without a lock: another transaction may have spent it since.
    | Spend(merchant: nat, kobo: nat, outlet: Outlet, seen: int)
    | ReturnPurse(merchant: nat, purse: nat)
    | Reverse(ref: Ref)

  // CreatePayout, ClaimPayoutForDispatch, FailPayout, RetryPayout, RequeueStalePayouts, CompletePayout, ReversePayout
  datatype PayoutMove = Create | Claim | Fail | Retry | Requeue | Complete | Cancel

  const EMPTY := World([], [], [], [])
  const PAYOUT_MAX_ATTEMPTS := 3

  function Max0(n: int): nat { if n < 0 then 0 else n }

  // The sign the API reports: credits less debits over 3100 and 3200.
  function Raw(j: seq<Entry>, m: nat): int {
    -Net(j, Tagged(m, MerchantPayable)) - Net(j, Tagged(m, SettlementPayable))
  }

  function WalletBalance(j: seq<Entry>, m: nat): int {
    -Net(j, Single(BusinessWallet(m)))
  }

  function PurseBalance(j: seq<Entry>, sponsor: nat, purse: nat): int {
    -Net(j, Single(ProgramPurse(sponsor, purse)))
  }

  // C16 money-in, the split legs, and the refund's wallet credit.
  function MoneyIn(p: Payment, id: nat): seq<Entry> {
    Pair(OfPayment(id), OperatingBank, CustomerFloat, p.amount, Some(p.merchant))
  }

  function SplitLegs(p: Payment, id: nat): seq<Entry> {
    Pair(OfPayment(id), CustomerFloat, XegoPayable, p.fee, None)
    + Pair(OfPayment(id), CustomerFloat, MerchantPayable, p.recv, Some(p.merchant))
  }

  function WalletCredit(p: Payment, id: nat): seq<Entry> {
    Pair(OfRefund(id), CustomerFloat, UserWallet(p.user), p.amount, None)
  }

  // ---------- a settlement cut ----------

  predicate Due(p: Payment, id: nat, merchant: nat, locked: set<nat>) {
    p.status == Succeeded && p.merchant == merchant && p.line.None? && id !in locked
  }

  function DueTotal(ps: seq<Payment>, from: nat, merchant: nat, locked: set<nat>): nat {
    if ps == [] then 0
    else (if Due(ps[0], from, merchant, locked) then ps[0].amount else 0) + DueTotal(ps[1..], from + 1, merchant, locked)
  }

  function Enlisted(p: Payment, id: nat, merchant: nat, locked: set<nat>, b: nat): Payment {
    if Due(p, id, merchant, locked) then p.(line := Some(b), settled := p.settled + p.amount) else p
  }

  function Enlist(ps: seq<Payment>, from: nat, merchant: nat, locked: set<nat>, b: nat): (r: seq<Payment>)
    ensures |r| == |ps|
    ensures forall i :: 0 <= i < |ps| ==> r[i] == Enlisted(ps[i], from + i, merchant, locked, b)
  {
    if ps == [] then [] else [Enlisted(ps[0], from, merchant, locked, b)] + Enlist(ps[1..], from + 1, merchant, locked, b)
  }

  // The basis points of the total, truncated towards zero.
  function FeeOf(total: nat, bps: int): int {
    if bps >= 0 then total * bps / 10_000 else -(total * -bps / 10_000)
  }

  // What a batch posts under each of its references; the payout only once it is completed.
  function PartPostings(batch: Batch, b: nat, part: Part): seq<Entry> {
    match part
    case Total => Pair(OfBatch(b, Total), MerchantPayable, SettlementPayable, batch.cut, Some(batch.merchant))
    case Fee => Pair(OfBatch(b, Fee), SettlementPayable, SettlementFees, batch.fee, Some(batch.merchant))
    case Credit =>
      Pair(OfBatch(b, Credit), SettlementPayable, BusinessWallet(batch.merchant), batch.cut - batch.fee, Some(batch.merchant))
    case PaidOut =>
      if batch.payout.Some? && batch.payout.value.status == Completed
      then Pair(OfBatch(b, PaidOut), BusinessWallet(batch.merchant), OperatingBank, batch.payout.value.amount, Some(batch.merchant))
      else []
  }

  function CutPostings(batch: Batch, b: nat): seq<Entry> {
    PartPostings(batch, b, Total) + PartPostings(batch, b, Fee) + PartPostings(batch, b, Credit)
  }

  // The batch a cut inserts.
  function NewBatch(w: World, e: Event): Batch
    requires e.Cut?
  {
    var total := DueTotal(w.payments, 0, e.merchant, e.locked);
    Batch(e.merchant, e.number, Open, total, total, FeeOf(total, e.bps), None, {})
  }

  predicate KnownNumber(bs: seq<Batch>, number: string) {
    exists i :: 0 <= i < |bs| && bs[i].number == number
  }

  // ---------- refunds ----------

  // The line goes and the batch is recounted from the lines that remain.
  function LinesTotal(ps: seq<Payment>, b: nat): nat {
    if ps == [] then 0 else LineAmount(ps[0], b) + LinesTotal(ps[1..], b)
  }

  function LineAmount(p: Payment, b: nat): nat {
    if p.line == Some(b) then p.amount else 0
  }

  predicate LineAllowsRefund(w: World, p: Payment) {
    p.line.Some? ==> p.line.value < |w.batches| && w.batches[p.line.value].status == Open
  }

  predicate Refundable(w: World, p: nat) {
    && p < |w.payments|
    && w.payments[p].status == Succeeded
    && w.payments[p].request == NoRequest
    && LineAllowsRefund(w, w.payments[p])
  }

  function Unlined(w: World, p: nat, p': Payment): World
    requires p < |w.payments|
  {
    var ps := w.payments[p := p'.(line := None)];
    var line := w.payments[p].line;
    w.(payments := ps,
       batches := if line.Some? && line.value < |w.batches|
                  then w.batches[line.value := w.batches[line.value].(total := LinesTotal(ps, line.value))] else w.batches)
  }

  // The reversal fails when nothing was posted under the reference or something there was already reversed.
  predicate Reversible(w: World, ref: Ref) {
    Under(w.journal, ref) != [] && !AlreadyReversed(Under(w.journal, ref))
  }

  function MarkReversed(p: Payment): Payment {
    p.(reversed := true, accrual := if p.accrual == Posted then Reversed else p.accrual)
  }

  function MarkRefunded(p: Payment): Payment {
    MarkReversed(p).(status := Refunded, request := Done)
  }

  function RefundPostings(w: World, p: nat): seq<Entry>
    requires p < |w.payments|
  {
    Flip(Under(w.journal, OfPayment(p))) + WalletCredit(w.payments[p], p)
  }

  // ---------- spends, returns and operator reversals ----------

  function OutletAccount(t: Transfer): Account {
    match t.outlet
    case ToBank => OperatingBank
    case ToUser(user) => UserWallet(user)
    case ToPurse(purse) => ProgramPurse(t.merchant, purse)
  }

  // Only the bank rail tags the merchant.
  function TransferPostings(t: Transfer, i: nat): seq<Entry> {
    if t.returned then Pair(OfTransfer(i), OutletAccount(t), BusinessWallet(t.merchant), t.amount, None)
    else Pair(OfTransfer(i), BusinessWallet(t.merchant), OutletAccount(t), t.amount, if t.outlet.ToBank? then Some(t.merchant) else None)
  }

  // A spend is checked against the balance it read; a purse returns all it holds.
  function NewTransfer(w: World, e: Event): Option<Transfer>
    requires e.Spend? || e.ReturnPurse?
  {
    if e.Spend? then
      if e.kobo == 0 || e.seen < e.kobo then None
      else Some(Transfer(e.merchant, e.kobo, e.outlet, false, false))
    else if PurseBalance(w.journal, e.merchant, e.purse) <= 0 then None
    else Some(Transfer(e.merchant, PurseBalance(w.journal, e.merchant, e.purse), ToPurse(e.purse), true, false))
  }

  /**
   PostLedgerReversal, which the operator's ledger page calls with any reference: the rows are offset and no other table
   changes. What changes here is history alone.
   */
  function Struck(w: World, ref: Ref): World {
    match ref
    case OfPayment(p) => if p < |w.payments| then w.(payments := w.payments[p := MarkReversed(w.payments[p])]) else w
    case OfRefund(p) => if p < |w.payments| then w.(payments := w.payments[p := w.payments[p].(creditReversed := true)]) else w
    case OfBatch(b, part) =>
      if b < |w.batches| then w.(batches := w.batches[b := w.batches[b].(struck := w.batches[b].struck + {part})]) else w
    case OfTransfer(i) => if i < |w.transfers| then w.(transfers := w.transfers[i := w.transfers[i].(struck := true)]) else w
  }

  // ---------- one event ----------

  function WithPayout(w: World, b: nat, payout: Option<Payout>, status: BatchStatus): World
    requires b < |w.batches|
  {
    w.(batches := w.batches[b := w.batches[b].(payout := payout, status := status)])
  }

  predicate Completes(w: World, b: nat) {
    b < |w.batches| && w.batches[b].payout.Some? && w.batches[b].payout.value.status == Processing
  }

  function MovePayout(w: World, b: nat, move: PayoutMove): World
    requires b < |w.batches| && w.batches[b].payout.Some?
  {
    var batch := w.batches[b];
    var payout := batch.payout.value;
    match move
    case Create => w
    case Claim =>
      if payout.status != Queued then w
      else WithPayout(w, b, Some(payout.(status := Processing, attempts := payout.attempts + 1)), Scheduled)
    case Fail =>
      if payout.status != Processing then w else WithPayout(w, b, Some(payout.(status := Failed)), batch.status)
    case Retry =>
      if payout.status != Failed || payout.attempts >= PAYOUT_MAX_ATTEMPTS then w
      else WithPayout(w, b, Some(payout.(status := Queued)), batch.status)
    case Requeue =>
      if payout.status != Processing then w else WithPayout(w, b, Some(payout.(status := Queued)), batch.status)
    case Complete =>
      if payout.status != Processing then w else WithPayout(w, b, Some(payout.(status := Completed)), Processed)
    case Cancel =>
      if payout.status !in {Failed, Processing} then w
      else WithPayout(w, b, None, if batch.status == Scheduled then Open else batch.status)
  }

  // A payout is created for total - fee; the table refuses one that is not positive.
  function StepPayout(w: World, b: nat, move: PayoutMove): World {
    if b >= |w.batches| then w
    else if w.batches[b].payout.Some? then MovePayout(w, b, move)
    else
      var due := w.batches[b].total - w.batches[b].fee;
      if move != Create || due <= 0 then w else WithPayout(w, b, Some(Payout(due, Queued, 0)), w.batches[b].status)
  }

  function Drafted(user: nat, merchant: nat, amount: nat, fee: int): Payment {
    Payment(user, merchant, amount, fee, amount - fee, Awaiting, NotPosted, None, 0, NoRequest, false, false)
  }

  // Domain state after an event, journal aside.
  function StepState(w: World, e: Event): World {
    match e
    case Draft(user, merchant, amount, fee) =>
      if amount == 0 then w
      else w.(payments := w.payments + [Drafted(user, merchant, amount, fee)])
    case Succeed(p) =>
      if p >= |w.payments| || w.payments[p].status != Awaiting then w
      else w.(payments := w.payments[p := w.payments[p].(status := Succeeded)])
    case Split(p) =>
      if !SplitPosts(w, p) then w else w.(payments := w.payments[p := w.payments[p].(accrual := Posted)])
    case Refund(p) =>
      if !RefundPosts(w, e) then w else Unlined(w, p, MarkRefunded(w.payments[p]))
    case RequestRefund(p, admin) =>
      if !Refundable(w, p) then w else Unlined(w, p, w.payments[p].(request := AwaitingApproval(admin)))
    case ApproveRefund(p, _) =>
      if !RefundPosts(w, e) then w else w.(payments := w.payments[p := MarkRefunded(w.payments[p])])
    case RejectRefund(p) =>
      if p >= |w.payments| || !w.payments[p].request.AwaitingApproval? then w
      else w.(payments := w.payments[p := w.payments[p].(request := Rejected)])
    case FailRefund(p) =>
      if p >= |w.payments| || w.payments[p].request != Rejected then w
      else w.(payments := w.payments[p := w.payments[p].(request := NoRequest)])
    case Cut(merchant, number, bps, locked) =>
      if !CutPosts(w, e) then w
      else w.(payments := Enlist(w.payments, 0, merchant, locked, |w.batches|), batches := w.batches + [NewBatch(w, e)])
    case Pay(b, move) => StepPayout(w, b, move)
    case Spend(_, _, _, _) => Transferred(w, e)
    case ReturnPurse(_, _) => Transferred(w, e)
    case Reverse(ref) => if Reversible(w, ref) then Struck(w, ref) else w
  }

  function Transferred(w: World, e: Event): World
    requires e.Spend? || e.ReturnPurse?
  {
    if NewTransfer(w, e).Some? then w.(transfers := w.transfers + [NewTransfer(w, e).value]) else w
  }

  // ApplyPaymentSplits asks only whether split rows exist; the hook is queued by the success transition.
  predicate SplitPosts(w: World, p: nat) {
    p < |w.payments| && w.payments[p].status != Awaiting && w.payments[p].accrual == NotPosted
  }

  predicate RefundPosts(w: World, e: Event)
    requires e.Refund? || e.ApproveRefund?
  {
    if e.Refund? then Refundable(w, e.p) && Reversible(w, OfPayment(e.p))
    else
      && e.p < |w.payments|
      && w.payments[e.p].request.AwaitingApproval?
      && w.payments[e.p].request.admin != e.admin
      && w.payments[e.p].status == Succeeded
      && Reversible(w, OfPayment(e.p))
  }

  predicate CutPosts(w: World, e: Event)
    requires e.Cut?
  {
    !KnownNumber(w.batches, e.number) && DueTotal(w.payments, 0, e.merchant, e.locked) > 0
  }

  // The entries an event appends.
  function Postings(w: World, e: Event): seq<Entry> {
    match e
    case Succeed(p) =>
      if p >= |w.payments| || w.payments[p].status != Awaiting then [] else MoneyIn(w.payments[p], p)
    case Split(p) =>
      if SplitPosts(w, p) then SplitLegs(w.payments[p], p) else []
    case Refund(p) =>
      if RefundPosts(w, e) then RefundPostings(w, p) else []
    case ApproveRefund(p, _) =>
      if RefundPosts(w, e) then RefundPostings(w, p) else []
    case Cut(_, _, _, _) => if CutPosts(w, e) then CutPostings(NewBatch(w, e), |w.batches|) else []
    case Pay(b, move) =>
      if move == Complete && Completes(w, b) then PartPostings(StepPayout(w, b, move).batches[b], b, PaidOut) else []
    case Spend(_, _, _, _) =>
      if NewTransfer(w, e).Some? then TransferPostings(NewTransfer(w, e).value, |w.transfers|) else []
    case ReturnPurse(_, _) =>
      if NewTransfer(w, e).Some? then TransferPostings(NewTransfer(w, e).value, |w.transfers|) else []
    case Reverse(ref) => if Reversible(w, ref) then Flip(Under(w.journal, ref)) else []
    case _ => []
  }

  function Step(w: World, e: Event): World {
    StepState(w, e).(journal := w.journal + Postings(w, e))
  }

  function Run(w: World, events: seq<Event>): World
    decreases |events|
  {
    if events == [] then w else Run(Step(w, events[0]), events[1..])
  }
}
