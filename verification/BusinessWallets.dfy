/**
 The business wallet that settlement cuts credit and payouts, bulk items and programme disbursements share. A spend is
 checked against a balance read without a lock; the completion of a payout is not checked at all. So a spend can take what
 a queued payout is about to take, or what another spend has just taken, and the wallet then goes below zero.

 The wallet is secure when no sequence of payout moves alone can overdraw it. It stays secure over a run exactly when
 each spend, and each operator reversal that takes money out of it, leaves what the merchant's batches are still owed.
 */
module BusinessWallets {
  import opened Sums
  import opened Wrappers
  import opened Ledger
  import opened LedgerLaws

  // ---------- what a batch can still take ----------

  // The most its payouts can still take: nothing once one is completed, and only a new payout when a failed one is spent.
  function Owed(b: Batch): nat {
    if b.payout.None? then Max0(b.total - b.fee)
    else
      var payout := b.payout.value;
      if payout.status == Completed then 0
      else if payout.status == Failed && payout.attempts >= PAYOUT_MAX_ATTEMPTS then Max0(b.total - b.fee)
      else payout.amount
  }

  ghost function OwedOf(m: nat): Batch -> int { (b: Batch) => if b.merchant == m then Owed(b) else 0 }

  // The part of the balance that is not owed to the merchant's payouts: what a caller could check before a spend.
  ghost function Free(w: World, m: nat): int {
    WalletBalance(w.journal, m) - Sum(w.batches, OwedOf(m))
  }

  predicate OnlyPayouts(events: seq<Event>) {
    forall i :: 0 <= i < |events| ==> events[i].Pay?
  }

  // No sequence of payout moves overdraws the wallet.
  ghost predicate Secure(w: World, m: nat) {
    forall payouts :: OnlyPayouts(payouts) ==> WalletBalance(Run(w, payouts).journal, m) >= 0
  }

  // What an event takes out of the wallet other than by a payout.
  function Takes(w: World, e: Event, m: nat): nat {
    match e
    case Spend(merchant, kobo, _, _) => if merchant == m && NewTransfer(w, e).Some? then kobo else 0
    case Reverse(OfBatch(b, Credit)) =>
      if Reversible(w, e.ref) && b < |w.batches| && w.batches[b].merchant == m then Max0(w.batches[b].cut - w.batches[b].fee) else 0
    case Reverse(OfTransfer(i)) =>
      if Reversible(w, e.ref) && i < |w.transfers| && w.transfers[i].merchant == m && w.transfers[i].returned then w.transfers[i].amount else 0
    case _ => 0
  }

  // No spend, and no reversal that takes money out, takes more than the balance less what is owed.
  ghost predicate Prudent(w: World, events: seq<Event>, m: nat)
    decreases |events|
  {
    events == [] || ((Takes(w, events[0], m) > 0 ==> Takes(w, events[0], m) <= Free(w, m)) && Prudent(Step(w, events[0]), events[1..], m))
  }

  ghost predicate AlwaysSecure(w: World, events: seq<Event>, m: nat)
    decreases |events|
  {
    Secure(w, m) && (events != [] ==> AlwaysSecure(Step(w, events[0]), events[1..], m))
  }

  // ---------- main results ----------

  /**
   The wallet is secure exactly when its balance covers what the merchant's batches are owed: less, and some payout moves
   overdraw it; as much, and none do.
   */
  lemma {:induction false} SecureIffCovered(w: World, m: nat)
    requires Lawful(w)
    ensures Secure(w, m) <==> WalletBalance(w.journal, m) >= Sum(w.batches, OwedOf(m))
  {
    if Free(w, m) >= 0 {
      forall payouts | OnlyPayouts(payouts) ensures WalletBalance(Run(w, payouts).journal, m) >= 0 {
        PayoutsFree(w, payouts, m);
        OwedSum(Run(w, payouts).batches, m);
      }
    } else {
      var moves := [Retry, Claim, Complete, Cancel, Create, Claim, Complete];
      var payouts := AllThrough(moves, 0, |w.batches|);
      AllThroughRun(w, moves, 0, m);
      ThroughByPayouts(moves, 0, |w.batches|);
      NothingOwed(Run(w, payouts).batches, m);
      assert OnlyPayouts(payouts) && WalletBalance(Run(w, payouts).journal, m) < 0;
    }
    hide Run, WalletBalance, Sum, Lawful, AllThrough;
  }

  /**
   From an empty database, the wallet is secure after every event if and only if each spend and each operator reversal
   takes from it at most what it holds beyond the sum its batches are still owed.
   */
  lemma {:induction false} AlwaysSecureIffPrudent(events: seq<Event>, m: nat)
    ensures AlwaysSecure(EMPTY, events, m) <==> Prudent(EMPTY, events, m)
  {
    EmptyIsLawful();
    assert Free(EMPTY, m) == 0;
    SecureIffCovered(EMPTY, m);
    AlwaysSecureFrom(EMPTY, events, m);
  }

  // ---------- sums over batches and transfers ----------

  function Spare(b: Batch): int { Held(b) - Owed(b) }

  ghost function SpareOf(m: nat): Batch -> int { (b: Batch) => if b.merchant == m then Spare(b) else 0 }

  lemma {:induction false} SpareSum(bs: seq<Batch>, m: nat)
    ensures Sum(bs, SpareOf(m)) == Sum(bs, HeldOf(m)) - Sum(bs, OwedOf(m))
  {
    if bs != [] { SpareSum(bs[1..], m); }
  }

  lemma {:induction false} OwedSum(bs: seq<Batch>, m: nat)
    ensures Sum(bs, OwedOf(m)) >= 0
  {
    if bs != [] { OwedSum(bs[1..], m); }
  }

  lemma {:induction false} FreeIsSpare(w: World, m: nat)
    requires Lawful(w)
    ensures Free(w, m) == Sum(w.batches, SpareOf(m)) + Sum(w.transfers, BroughtOf(m))
  {
    SpareSum(w.batches, m);
    hide Sum, WalletBalance, Raw;
  }

  // ---------- payout moves, batch by batch ----------

  // What a payout move makes of one batch.
  function Moved(b: Batch, move: PayoutMove): Batch {
    StepPayout(World([], [b], [], []), 0, move).batches[0]
  }

  lemma {:induction false} StepMoves(w: World, b: nat, move: PayoutMove)
    requires b < |w.batches|
    ensures StepPayout(w, b, move) == w.(batches := w.batches[b := Moved(w.batches[b], move)])
  {
  }

  lemma {:induction false} MoveSpares(b: Batch, move: PayoutMove)
    requires BatchOk(b)
    ensures BatchOk(Moved(b, move)) && Moved(b, move).merchant == b.merchant
    ensures Spare(Moved(b, move)) >= Spare(b)
  {
  }

  function MovedAll(b: Batch, moves: seq<PayoutMove>): Batch
    decreases |moves|
  {
    if moves == [] then b else MovedAll(Moved(b, moves[0]), moves[1..])
  }

  // Whatever state a batch is in, these moves see its payout through: retried or taken as it is, else cancelled and made anew.
  predicate SeesThrough(moves: seq<PayoutMove>) {
    moves == [Retry, Claim, Complete, Cancel, Create, Claim, Complete]
  }

  lemma {:induction false} MovedThree(b: Batch, moves: seq<PayoutMove>)
    requires |moves| >= 3
    ensures MovedAll(b, moves) == MovedAll(Moved(Moved(Moved(b, moves[0]), moves[1]), moves[2]), moves[3..])
  {
    hide Moved;
    assert moves[1..][1..] == moves[2..] && moves[2..][1..] == moves[3..];
    assert MovedAll(Moved(b, moves[0]), moves[1..]) == MovedAll(Moved(Moved(b, moves[0]), moves[1]), moves[2..]);
  }

  lemma {:induction false} MovedSeven(b: Batch, moves: seq<PayoutMove>)
    requires |moves| == 7
    ensures MovedAll(b, moves) ==
            Moved(Moved(Moved(Moved(Moved(Moved(Moved(b, moves[0]), moves[1]), moves[2]), moves[3]), moves[4]), moves[5]), moves[6])
  {
    MovedThree(b, moves);
    var c := Moved(Moved(Moved(b, moves[0]), moves[1]), moves[2]);
    MovedThree(c, moves[3..]);
    hide Moved;
    assert moves[3..][3..] == moves[6..] && moves[6..][1..] == [];
  }

  // The payout is seen through in three moves, or there is none and the first three do nothing, or it is beyond retrying.
  lemma {:induction false} FirstMoves(b: Batch)
    requires BatchOk(b)
    ensures var c := Moved(Moved(Moved(Moved(b, Retry), Claim), Complete), Cancel);
            && BatchOk(c) && c.merchant == b.merchant
            && Spare(c) == Spare(b) && (c.payout.None? || c.payout.value.status == Completed)
  {
  }

  lemma {:induction false} LastMoves(b: Batch)
    requires BatchOk(b) && (b.payout.None? || b.payout.value.status == Completed)
    ensures var c := Moved(Moved(Moved(b, Create), Claim), Complete);
            c.merchant == b.merchant && Spare(c) == Spare(b) && Owed(c) == 0
  {
  }

  lemma {:induction false} SeenThrough(b: Batch, moves: seq<PayoutMove>)
    requires BatchOk(b) && SeesThrough(moves)
    ensures var c := MovedAll(b, moves); c.merchant == b.merchant && Spare(c) == Spare(b) && Owed(c) == 0
  {
    MovedSeven(b, moves);
    FirstMoves(b);
    LastMoves(Moved(Moved(Moved(Moved(b, Retry), Claim), Complete), Cancel));
    hide MovedAll, Moved, Spare, Owed, BatchOk;
  }

  // ---------- no sequence of payout moves uses up more than is owed ----------

  lemma {:induction false} PayFrees(w: World, b: nat, move: PayoutMove, m: nat)
    requires Lawful(w)
    ensures Free(Step(w, Pay(b, move)), m) >= Free(w, m)
  {
    var w' := Step(w, Pay(b, move));
    StepKeepsLaw(w, Pay(b, move));
    FreeIsSpare(w, m);
    FreeIsSpare(w', m);
    if b < |w.batches| {
      assert BatchOk(w.batches[b]);
      StepMoves(w, b, move);
      MoveSpares(w.batches[b], move);
      SumUpdate(w.batches, b, Moved(w.batches[b], move), SpareOf(m));
    }
    hide Lawful, Free, Sum, Moved, StepPayout, Postings, Spare, BatchOk;
  }

  lemma {:induction false} PayoutsFree(w: World, payouts: seq<Event>, m: nat)
    requires Lawful(w) && OnlyPayouts(payouts)
    ensures Lawful(Run(w, payouts)) && Free(Run(w, payouts), m) >= Free(w, m)
    decreases |payouts|
  {
    if payouts != [] {
      StepKeepsLaw(w, payouts[0]);
      PayFrees(w, payouts[0].b, payouts[0].move, m);
      PayoutsFree(Step(w, payouts[0]), payouts[1..], m);
    }
  }

  // ---------- seeing every payout through uses up all that is owed ----------

  function Moves(b: nat, moves: seq<PayoutMove>): seq<Event> {
    seq(|moves|, i requires 0 <= i < |moves| => Pay(b, moves[i]))
  }

  lemma {:induction false} MovesRun(w: World, b: nat, moves: seq<PayoutMove>)
    requires b < |w.batches|
    ensures var w' := Run(w, Moves(b, moves));
            w'.payments == w.payments && w'.transfers == w.transfers && w'.batches == w.batches[b := MovedAll(w.batches[b], moves)]
    decreases |moves|
  {
    if moves == [] {
      assert Run(w, []) == w;
    } else {
      var w1 := Step(w, Pay(b, moves[0]));
      StepMoves(w, b, moves[0]);
      assert Moves(b, moves)[1..] == Moves(b, moves[1..]);
      MovesRun(w1, b, moves[1..]);
      hide Moved, StepPayout, Postings;
    }
  }

  // Every batch from `from` on has its payout seen through.
  function AllThrough(moves: seq<PayoutMove>, from: nat, n: nat): seq<Event>
    decreases n - from
  {
    if from >= n then [] else Moves(from, moves) + AllThrough(moves, from + 1, n)
  }

  lemma {:induction false} ThroughByPayouts(moves: seq<PayoutMove>, from: nat, n: nat)
    ensures OnlyPayouts(AllThrough(moves, from, n))
    decreases n - from
  {
    if from < n { ThroughByPayouts(moves, from + 1, n); }
  }

  lemma {:induction false} OneThroughRun(w: World, moves: seq<PayoutMove>, b: nat, m: nat)
    requires Lawful(w) && SeesThrough(moves) && b < |w.batches|
    ensures var w' := Run(w, Moves(b, moves));
            && Lawful(w') && Free(w', m) == Free(w, m)
            && |w'.batches| == |w.batches| && Owed(w'.batches[b]) == 0
            && forall c :: 0 <= c < |w.batches| && c != b ==> w'.batches[c] == w.batches[c]
  {
    var w' := Run(w, Moves(b, moves));
    MovesRun(w, b, moves);
    EveryRunIsLawful(w, Moves(b, moves));
    assert BatchOk(w.batches[b]);
    SeenThrough(w.batches[b], moves);
    FreeIsSpare(w, m);
    FreeIsSpare(w', m);
    SumUpdate(w.batches, b, w'.batches[b], SpareOf(m));
    hide Lawful, Free, Sum, Moved, MovedAll, Moves, Spare, BatchOk, Owed, Run;
  }

  lemma {:induction false} AllThroughRun(w: World, moves: seq<PayoutMove>, from: nat, m: nat)
    requires Lawful(w) && SeesThrough(moves) && from <= |w.batches|
    requires forall b :: 0 <= b < from ==> Owed(w.batches[b]) == 0
    ensures var w' := Run(w, AllThrough(moves, from, |w.batches|));
            Lawful(w') && Free(w', m) == Free(w, m) && forall b :: 0 <= b < |w'.batches| ==> Owed(w'.batches[b]) == 0
    decreases |w.batches| - from
  {
    assert Run(w, []) == w;
    if from < |w.batches| {
      RunAppend(w, Moves(from, moves), AllThrough(moves, from + 1, |w.batches|));
      OneThroughRun(w, moves, from, m);
      AllThroughRun(Run(w, Moves(from, moves)), moves, from + 1, m);
    }
    hide Lawful, Free, Moves, Owed, Run;
  }

  lemma {:induction false} NothingOwed(bs: seq<Batch>, m: nat)
    requires forall b :: 0 <= b < |bs| ==> Owed(bs[b]) == 0
    ensures Sum(bs, OwedOf(m)) == 0
  {
    if bs != [] { NothingOwed(bs[1..], m); }
  }

  // ---------- what each event leaves free ----------

  lemma {:induction false} TransferFrees(w: World, e: Event, m: nat)
    requires Lawful(w) && (e.Spend? || e.ReturnPurse?)
    ensures Free(Step(w, e), m) >= Free(w, m) - Takes(w, e, m)
    ensures Takes(w, e, m) > 0 ==> Free(Step(w, e), m) == Free(w, m) - Takes(w, e, m)
  {
    StepKeepsLaw(w, e);
    FreeIsSpare(w, m);
    FreeIsSpare(Step(w, e), m);
    if NewTransfer(w, e).Some? {
      SumAppend(w.transfers, NewTransfer(w, e).value, BroughtOf(m));
    }
    hide Lawful, Free, Sum, Postings, WalletBalance, PurseBalance;
  }

  lemma {:induction false} ReversalFrees(w: World, e: Event, m: nat)
    requires Lawful(w) && e.Reverse?
    ensures Free(Step(w, e), m) >= Free(w, m) - Takes(w, e, m)
    ensures Takes(w, e, m) > 0 ==> Free(Step(w, e), m) == Free(w, m) - Takes(w, e, m)
  {
    StepKeepsLaw(w, e);
    FreeIsSpare(w, m);
    FreeIsSpare(Step(w, e), m);
    if Reversible(w, e.ref) {
      ReversibleIff(w, e.ref);
      match e.ref {
        case OfPayment(p) =>
        case OfRefund(p) =>
        case OfBatch(b, part) => StruckSpares(w, b, part, m);
        case OfTransfer(i) => SumUpdate(w.transfers, i, w.transfers[i].(struck := true), BroughtOf(m));
      }
    }
    hide Lawful, Free, Sum, Postings, Reversible, SpareOf, PartPostings, TransferPostings;
  }

  lemma {:induction false} StruckSpares(w: World, b: nat, part: Part, m: nat)
    requires b < |w.batches| && part !in w.batches[b].struck && PartPostings(w.batches[b], b, part) != []
    ensures var batch, bs := w.batches[b], Struck(w, OfBatch(b, part)).batches;
            Sum(bs, SpareOf(m)) == Sum(w.batches, SpareOf(m))
            + (if batch.merchant != m then 0
               else match part
                    case Credit => -(Max0(batch.cut - batch.fee) as int)
                    case PaidOut => batch.payout.value.amount
                    case _ => 0)
  {
    var batch' := w.batches[b].(struck := w.batches[b].struck + {part});
    SumUpdate(w.batches, b, batch', SpareOf(m));
    StruckHeld(w.batches[b], b, part);
    assert Owed(batch') == Owed(w.batches[b]);
    assert part == PaidOut ==> w.batches[b].payout.Some?;
    hide Sum, Held, Owed, PartPostings;
  }

  // A batch only loses lines between its cut and its payout, so its total only falls.
  lemma {:induction false} PaymentFrees(w: World, e: Event, m: nat)
    requires Lawful(w) && OnPayment(e)
    ensures Free(Step(w, e), m) >= Free(w, m)
  {
    StepKeepsLaw(w, e);
    FreeIsSpare(w, m);
    FreeIsSpare(Step(w, e), m);
    assert Step(w, e).batches == StepState(w, e).batches && Step(w, e).transfers == StepState(w, e).transfers by {
      hide StepState, Postings;
    }
    if e.p < |w.payments| {
      PaymentShape(w, e, e.p);
      RecountSpares(w, StepState(w, e), e.p, m);
    } else {
      NoSuchPayment(w, e);
    }
    hide *;
  }

  lemma {:induction false} RecountSpares(w: World, w': World, p: nat, m: nat)
    requires Shaped(w) && Rewritten(w, w', p)
    ensures Sum(w'.batches, SpareOf(m)) >= Sum(w.batches, SpareOf(m)) && w'.transfers == w.transfers
  {
    if w'.payments[p].line != w.payments[p].line {
      var c := w.payments[p].line.value;
      LinesUpdate(w.payments, p, w'.payments[p], c);
      assert w.batches[c].total == LinesTotal(w.payments, c);
      SumUpdate(w.batches, c, w'.batches[c], SpareOf(m));
      assert Held(w'.batches[c]) == Held(w.batches[c]) && Owed(w'.batches[c]) <= Owed(w.batches[c]);
    }
    hide Sum, Shaped, LinesTotal, Held, Owed;
  }

  // A cut credits the wallet with what its batch is then owed.
  lemma {:induction false} CutFrees(w: World, e: Event, m: nat)
    requires Lawful(w) && e.Cut?
    ensures Free(Step(w, e), m) == Free(w, m)
  {
    StepKeepsLaw(w, e);
    FreeIsSpare(w, m);
    FreeIsSpare(Step(w, e), m);
    CutSpares(w, e, m);
    hide *;
  }

  lemma {:induction false} CutSpares(w: World, e: Event, m: nat)
    requires e.Cut?
    ensures Sum(Step(w, e).batches, SpareOf(m)) == Sum(w.batches, SpareOf(m)) && Step(w, e).transfers == w.transfers
  {
    if CutPosts(w, e) {
      SumAppend(w.batches, NewBatch(w, e), SpareOf(m));
      assert Spare(NewBatch(w, e)) == 0;
    }
    hide Sum, Postings, DueTotal, FeeOf, CutPosts, Spare, NewBatch, Enlist;
  }

  lemma {:induction false} StepFrees(w: World, e: Event, m: nat)
    requires Lawful(w)
    ensures Free(Step(w, e), m) >= Free(w, m) - Takes(w, e, m)
    ensures Takes(w, e, m) > 0 ==> Free(Step(w, e), m) == Free(w, m) - Takes(w, e, m)
  {
    if e.Pay? {
      PayFrees(w, e.b, e.move, m);
    } else if e.Cut? {
      CutFrees(w, e, m);
    } else if e.Spend? || e.ReturnPurse? {
      TransferFrees(w, e, m);
    } else if e.Reverse? {
      ReversalFrees(w, e, m);
    } else if OnPayment(e) {
      PaymentFrees(w, e, m);
    } else {
      DraftFrees(w, e, m);
    }
    hide Step, Free, Lawful;
  }

  lemma {:induction false} DraftFrees(w: World, e: Event, m: nat)
    requires Lawful(w) && e.Draft?
    ensures Free(Step(w, e), m) == Free(w, m)
  {
    assert Postings(w, e) == [] && w.journal + [] == w.journal;
    hide Lawful, Sum, WalletBalance;
  }

  lemma {:induction false} AlwaysSecureFrom(w: World, events: seq<Event>, m: nat)
    requires Lawful(w) && Secure(w, m)
    ensures AlwaysSecure(w, events, m) <==> Prudent(w, events, m)
    decreases |events|
  {
    SecureIffCovered(w, m);
    if events != [] {
      var w1 := Step(w, events[0]);
      StepKeepsLaw(w, events[0]);
      StepFrees(w, events[0], m);
      SecureIffCovered(w1, m);
      if Secure(w1, m) { AlwaysSecureFrom(w1, events[1..], m); }
    }
    hide Secure, Lawful, Step, Takes, WalletBalance, Sum;
  }

  lemma {:induction false} SecureAtTheEnd(w: World, events: seq<Event>, m: nat)
    requires AlwaysSecure(w, events, m)
    ensures Secure(Run(w, events), m)
    decreases |events|
  {
    if events != [] { SecureAtTheEnd(Step(w, events[0]), events[1..], m); }
    hide Secure, Step;
  }

  lemma {:induction false} NeverBelow(w: World, m: nat)
    requires Secure(w, m)
    ensures WalletBalance(w.journal, m) >= 0
  {
    assert OnlyPayouts([]) && Run(w, []) == w;
    hide WalletBalance;
  }

  // A run that ends below zero was not prudent.
  lemma {:induction false} OverdrawnIsImprudent(events: seq<Event>, m: nat)
    requires WalletBalance(Run(EMPTY, events).journal, m) < 0
    ensures !Prudent(EMPTY, events, m)
  {
    AlwaysSecureIffPrudent(events, m);
    if Prudent(EMPTY, events, m) {
      SecureAtTheEnd(EMPTY, events, m);
      NeverBelow(Run(EMPTY, events), m);
    }
    hide Run, Prudent, AlwaysSecure, Secure, WalletBalance;
  }
}
