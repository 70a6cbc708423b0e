/**
 Whether a user's wallet can go below zero. A debit is checked against a balance that nothing locks until it is posted, and
 a reversal is not checked at all: so two debits may each be covered by one balance, and the reversal of a credit may take
 what has been spent.

 Over a run, no wallet goes below zero exactly when each debit finds, of what its check read, enough left by what moved in
 the meantime, and each reversed credit is still there.
 */
module UserWallets {
  import opened Calendar
  import opened StoreCalls
  import opened Wrappers
  import opened Withdrawals
  import opened WithdrawalLaws

  // ---------- what one event moves ----------

  function SubjectBalance(w: World, subject: nat): int {
    Balance(w.tables.postings, subject)
  }

  // A debit that is posted.
  predicate Posts(jobs: seq<Job>, w: World, e: Event, subject: nat)
    requires |w.stages| == |jobs|
  {
    match e
    case Move(i, f) =>
      && i < |jobs| && w.stages[i].AtPost? && w.stages[i].ref < |w.tables.entries| && f.fault != Error && jobs[i].subject == subject
    case PostOther(c) => c < |w.checks| && !w.checks[c].posted && w.checks[c].subject == subject
    case _ => false
  }

  // A credit that is reversed, for the first time.
  predicate TakesBack(w: World, e: Event, subject: nat) {
    && e.Undo? && e.posting < |w.tables.postings|
    && w.tables.postings[e.posting].subject == subject && w.tables.postings[e.posting].credit && !w.tables.postings[e.posting].reversed
  }

  // What the event takes from the wallet.
  function Taken(jobs: seq<Job>, w: World, e: Event, subject: nat): int
    requires |w.stages| == |jobs|
  {
    if Posts(jobs, w, e, subject) then if e.Move? then jobs[e.job].amount else w.checks[e.check].kobo
    else if TakesBack(w, e, subject) then w.tables.postings[e.posting].kobo
    else 0
  }

  // What it brings: a credit, or the reversal of a debit.
  function Brought(w: World, e: Event, subject: nat): int {
    match e
    case Deposit(s, kobo) => if s == subject then kobo else 0
    case Undo(p) =>
      if p < |w.tables.postings| && w.tables.postings[p].subject == subject && !w.tables.postings[p].credit && !w.tables.postings[p].reversed
      then w.tables.postings[p].kobo else 0
    case _ => 0
  }

  // Every amount posted is positive or nothing.
  ghost predicate Amounts(w: World) {
    forall p :: 0 <= p < |w.tables.postings| ==> w.tables.postings[p].kobo >= 0
  }

  lemma {:induction false} StepMoves(screener: bool, jobs: seq<Job>, w: World, e: Event, subject: nat)
    requires Sound(screener, jobs, w) && Amounts(w)
    ensures var w' := Step(screener, jobs, w, e);
            && SubjectBalance(w', subject) == SubjectBalance(w, subject) + Brought(w, e, subject) - Taken(jobs, w, e, subject)
            && Amounts(w')
    ensures Brought(w, e, subject) >= 0 && Taken(jobs, w, e, subject) >= 0
  {
    var ps := w.tables.postings;
    if e.Move? {
      if e.job < |jobs| {
        assert StageOk(screener, w.tables, jobs[e.job], w.stages[e.job]);
        BalanceAppend(ps, Posting(jobs[e.job].subject, false, jobs[e.job].amount, false), subject);
      }
    } else if e.Deposit? {
      BalanceAppend(ps, Posting(e.subject, true, e.kobo, false), subject);
    } else if e.PostOther? && e.check < |w.checks| {
      BalanceAppend(ps, Posting(w.checks[e.check].subject, false, w.checks[e.check].kobo, false), subject);
    } else if e.Undo? && e.posting < |ps| {
      BalanceUpdate(ps, e.posting, ps[e.posting].(reversed := true), subject);
    }
    hide Balance, Reserves, Sound, PaysOut;
  }

  // ---------- a run, state by state ----------

  // The state before event k of a run from empty tables.
  ghost function Before(screener: bool, jobs: seq<Job>, events: seq<Event>, k: nat): (w: World)
    requires k <= |events|
    ensures |w.stages| == |jobs|
  {
    Run(screener, jobs, Start(jobs), events[..k])
  }

  lemma {:induction false} RunSnoc(screener: bool, jobs: seq<Job>, w: World, events: seq<Event>, e: Event)
    requires |w.stages| == |jobs|
    ensures Run(screener, jobs, w, events + [e]) == Step(screener, jobs, Run(screener, jobs, w, events), e)
    decreases |events|
  {
    if events == [] {
      assert events + [e] == [e] && [e][1..] == [];
      assert Run(screener, jobs, w, [e]) == Run(screener, jobs, Step(screener, jobs, w, e), []);
    } else {
      assert (events + [e])[1..] == events[1..] + [e];
      RunSnoc(screener, jobs, Step(screener, jobs, w, events[0]), events[1..], e);
    }
    hide Step;
  }

  lemma {:induction false} BeforeNext(screener: bool, jobs: seq<Job>, events: seq<Event>, k: nat)
    requires k < |events|
    ensures Before(screener, jobs, events, k + 1) == Step(screener, jobs, Before(screener, jobs, events, k), events[k])
  {
    assert events[..k + 1] == events[..k] + [events[k]];
    RunSnoc(screener, jobs, Start(jobs), events[..k], events[k]);
  }

  lemma {:induction false} BeforeIsSound(screener: bool, jobs: seq<Job>, events: seq<Event>, k: nat)
    requires k <= |events|
    ensures Sound(screener, jobs, Before(screener, jobs, events, k)) && Amounts(Before(screener, jobs, events, k))
    decreases k
  {
    if k == 0 {
      StartIsSound(screener, jobs);
      assert events[..0] == [] && Before(screener, jobs, events, 0) == Start(jobs) && Amounts(Start(jobs));
    } else {
      BeforeIsSound(screener, jobs, events, k - 1);
      BeforeNext(screener, jobs, events, k - 1);
      hide *;
      StepIsSound(screener, jobs, Before(screener, jobs, events, k - 1), events[k - 1]);
      StepMoves(screener, jobs, Before(screener, jobs, events, k - 1), events[k - 1], 0);
    }
  }

  // What the events from number `since` up to number `until` brought to the wallet, less what they took from it.
  ghost function Flow(screener: bool, jobs: seq<Job>, events: seq<Event>, since: nat, until: nat, subject: nat): int
    requires since <= until <= |events|
    decreases until
  {
    if since == until then 0
    else
      var w := Before(screener, jobs, events, until - 1);
      Flow(screener, jobs, events, since, until - 1, subject) + Brought(w, events[until - 1], subject) - Taken(jobs, w, events[until - 1], subject)
  }

  lemma {:induction false} FlowIsTheChange(screener: bool, jobs: seq<Job>, events: seq<Event>, since: nat, until: nat, subject: nat)
    requires since <= until <= |events|
    ensures SubjectBalance(Before(screener, jobs, events, until), subject) ==
            SubjectBalance(Before(screener, jobs, events, since), subject) + Flow(screener, jobs, events, since, until, subject)
    decreases until
  {
    if since < until {
      FlowIsTheChange(screener, jobs, events, since, until - 1, subject);
      BeforeNext(screener, jobs, events, until - 1);
      BeforeIsSound(screener, jobs, events, until - 1);
      StepMoves(screener, jobs, Before(screener, jobs, events, until - 1), events[until - 1], subject);
    }
    hide Before, Step, Sound, SubjectBalance, Brought, Taken, Amounts, Posts, TakesBack, Start;
  }

  // ---------- a debit and the check it was made on ----------

  // Event j is the check that the debit posted by event k was made on.
  ghost predicate Checks(screener: bool, jobs: seq<Job>, events: seq<Event>, j: nat, k: nat)
    requires j < k < |events|
  {
    var w, w', w'' := Before(screener, jobs, events, j), Before(screener, jobs, events, j + 1), Before(screener, jobs, events, k);
    match events[k]
    case Move(i, _) =>
      && i < |jobs| && w.stages[i].AtDebit? && w'.stages[i].AtPost? && w'.stages[i] == w''.stages[i]
      && w'.stages[i].seen == SubjectBalance(w, jobs[i].subject)
    case PostOther(c) =>
      && |w.checks| <= c < |w'.checks| && c < |w''.checks| && w'.checks[c] == w''.checks[c]
      && w'.checks[c].seen == SubjectBalance(w, w'.checks[c].subject)
    case _ => false
  }

  // What the check read is the balance then, and covers the debit.
  lemma {:induction false} ChecksCover(screener: bool, jobs: seq<Job>, events: seq<Event>, j: nat, k: nat, subject: nat)
    requires j < k < |events| && Checks(screener, jobs, events, j, k) && Posts(jobs, Before(screener, jobs, events, k), events[k], subject)
    ensures Taken(jobs, Before(screener, jobs, events, k), events[k], subject) <= SubjectBalance(Before(screener, jobs, events, j), subject)
    ensures SubjectBalance(Before(screener, jobs, events, j + 1), subject) == SubjectBalance(Before(screener, jobs, events, j), subject)
  {
    var w := Before(screener, jobs, events, j);
    BeforeNext(screener, jobs, events, j);
    BeforeIsSound(screener, jobs, events, j);
    if events[k].Move? { assert StageOk(screener, w.tables, jobs[events[k].job], w.stages[events[k].job]); }
    hide Before, Sound, Balance, Reserves;
  }

  // How one step can leave a job, or another debit, between its check and its posting.
  lemma {:induction false} PendingStep(screener: bool, jobs: seq<Job>, w: World, e: Event)
    requires |w.stages| == |jobs|
    ensures var w' := Step(screener, jobs, w, e);
            && (forall i :: 0 <= i < |jobs| && w'.stages[i].AtPost? ==>
                  w'.stages[i] == w.stages[i] || (w.stages[i].AtDebit? && w'.stages[i].seen == SubjectBalance(w, jobs[i].subject)))
            && |w.checks| <= |w'.checks|
            && (forall c :: 0 <= c < |w'.checks| && !w'.checks[c].posted ==>
                  if c < |w.checks| then w'.checks[c] == w.checks[c] else w'.checks[c].seen == SubjectBalance(w, w'.checks[c].subject))
  {
    hide Balance, Reserves;
  }

  lemma {:induction false} DebitWasChecked(screener: bool, jobs: seq<Job>, events: seq<Event>, k: nat, n: nat, subject: nat)
    requires n <= k < |events| && Posts(jobs, Before(screener, jobs, events, k), events[k], subject)
    requires SamePending(Before(screener, jobs, events, n), Before(screener, jobs, events, k), events[k])
    ensures exists j :: 0 <= j < k && Checks(screener, jobs, events, j, k)
    decreases n
  {
    var w'' := Before(screener, jobs, events, k);
    NothingPendsAtStart(screener, jobs, events);
    if n > 0 {
      var w := Before(screener, jobs, events, n - 1);
      BeforeNext(screener, jobs, events, n - 1);
      PendingStep(screener, jobs, w, events[n - 1]);
      if SamePending(w, w'', events[k]) {
        DebitWasChecked(screener, jobs, events, k, n - 1, subject);
      } else {
        assert Checks(screener, jobs, events, n - 1, k);
      }
    }
    hide Before, Step, Balance;
  }

  lemma {:induction false} NothingPendsAtStart(screener: bool, jobs: seq<Job>, events: seq<Event>)
    ensures var w := Before(screener, jobs, events, 0);
            w.checks == [] && forall i :: 0 <= i < |jobs| ==> !w.stages[i].AtPost?
  {
    assert events[..0] == [];
  }

  // What event e is about to post is pending alike in both states.
  predicate SamePending(w: World, w'': World, e: Event) {
    match e
    case Move(i, _) => i < |w.stages| == |w''.stages| && w.stages[i] == w''.stages[i]
    case PostOther(c) => c < |w.checks| && c < |w''.checks| && w.checks[c] == w''.checks[c]
    case _ => false
  }

  // ---------- the exact condition ----------

  // The debit takes more than is left of what its check read, after what moved since.
  ghost predicate OutrunsItsCheck(screener: bool, jobs: seq<Job>, events: seq<Event>, k: nat, subject: nat)
    requires k < |events|
  {
    var w := Before(screener, jobs, events, k);
    && Posts(jobs, w, events[k], subject)
    && exists j :: 0 <= j < k && Checks(screener, jobs, events, j, k)
                   && Taken(jobs, w, events[k], subject) >
                      SubjectBalance(Before(screener, jobs, events, j), subject) + Flow(screener, jobs, events, j + 1, k, subject)
  }

  // The reversed credit is more than what was brought to the wallet and not taken since.
  ghost predicate TakesBackMore(screener: bool, jobs: seq<Job>, events: seq<Event>, k: nat, subject: nat)
    requires k < |events|
  {
    var w := Before(screener, jobs, events, k);
    TakesBack(w, events[k], subject) && Taken(jobs, w, events[k], subject) > Flow(screener, jobs, events, 0, k, subject)
  }

  ghost predicate NeverBelowZero(screener: bool, jobs: seq<Job>, events: seq<Event>, subject: nat) {
    forall k :: 0 <= k <= |events| ==> SubjectBalance(Before(screener, jobs, events, k), subject) >= 0
  }

  ghost predicate EveryTakeIsCovered(screener: bool, jobs: seq<Job>, events: seq<Event>, subject: nat) {
    forall k :: 0 <= k < |events| ==>
      !OutrunsItsCheck(screener, jobs, events, k, subject) && !TakesBackMore(screener, jobs, events, k, subject)
  }

  lemma {:induction false} StartIsEmpty(screener: bool, jobs: seq<Job>, events: seq<Event>, subject: nat)
    ensures SubjectBalance(Before(screener, jobs, events, 0), subject) == 0
  {
    assert events[..0] == [];
  }

  // An event takes more than there is exactly when it outruns its check or takes back more than is left.
  lemma {:induction false} TakesTooMuchIff(screener: bool, jobs: seq<Job>, events: seq<Event>, k: nat, subject: nat)
    requires k < |events|
    ensures var w := Before(screener, jobs, events, k);
            Posts(jobs, w, events[k], subject) || TakesBack(w, events[k], subject) ==>
              (Taken(jobs, w, events[k], subject) > SubjectBalance(w, subject) <==>
                 OutrunsItsCheck(screener, jobs, events, k, subject) || TakesBackMore(screener, jobs, events, k, subject))
  {
    var w := Before(screener, jobs, events, k);
    FlowIsTheChange(screener, jobs, events, 0, k, subject);
    StartIsEmpty(screener, jobs, events, subject);
    if Posts(jobs, w, events[k], subject) {
      DebitWasChecked(screener, jobs, events, k, k, subject);
      forall j | 0 <= j < k && Checks(screener, jobs, events, j, k)
        ensures SubjectBalance(w, subject) ==
                SubjectBalance(Before(screener, jobs, events, j), subject) + Flow(screener, jobs, events, j + 1, k, subject)
      {
        ChecksCover(screener, jobs, events, j, k, subject);
        FlowIsTheChange(screener, jobs, events, j + 1, k, subject);
      }
    }
    hide Before, Flow, Checks, SubjectBalance, Taken;
  }

  /**
   Over every run from empty tables, a wallet is below zero at some point if and only if some debit took more than what
   its check had read less what moved since, or some reversed credit was more than what was left.
   */
  lemma {:induction false} NeverBelowZeroIff(screener: bool, jobs: seq<Job>, events: seq<Event>, subject: nat)
    ensures NeverBelowZero(screener, jobs, events, subject) <==> EveryTakeIsCovered(screener, jobs, events, subject)
  {
    if EveryTakeIsCovered(screener, jobs, events, subject) {
      forall k | 0 <= k <= |events| ensures SubjectBalance(Before(screener, jobs, events, k), subject) >= 0 {
        CoveredUpTo(screener, jobs, events, k, subject);
      }
    } else {
      var k :| 0 <= k < |events|
               && (OutrunsItsCheck(screener, jobs, events, k, subject) || TakesBackMore(screener, jobs, events, k, subject));
      OneStep(screener, jobs, events, k, subject);
      assert SubjectBalance(Before(screener, jobs, events, k + 1), subject) < 0;
    }
    hide Before, SubjectBalance, OutrunsItsCheck, TakesBackMore;
  }

  lemma {:induction false} OneStep(screener: bool, jobs: seq<Job>, events: seq<Event>, k: nat, subject: nat)
    requires k < |events|
    ensures var b, b' := SubjectBalance(Before(screener, jobs, events, k), subject), SubjectBalance(Before(screener, jobs, events, k + 1), subject);
            && (OutrunsItsCheck(screener, jobs, events, k, subject) || TakesBackMore(screener, jobs, events, k, subject) ==> b' < 0)
            && (b >= 0 && !OutrunsItsCheck(screener, jobs, events, k, subject) && !TakesBackMore(screener, jobs, events, k, subject) ==> b' >= 0)
  {
    var w := Before(screener, jobs, events, k);
    BeforeNext(screener, jobs, events, k);
    BeforeIsSound(screener, jobs, events, k);
    StepMoves(screener, jobs, w, events[k], subject);
    TakesTooMuchIff(screener, jobs, events, k, subject);
    hide Before, Flow, Checks, SubjectBalance, Sound, Step;
  }

  lemma {:induction false} CoveredUpTo(screener: bool, jobs: seq<Job>, events: seq<Event>, k: nat, subject: nat)
    requires k <= |events| && EveryTakeIsCovered(screener, jobs, events, subject)
    ensures SubjectBalance(Before(screener, jobs, events, k), subject) >= 0
    decreases k
  {
    if k == 0 {
      StartIsEmpty(screener, jobs, events, subject);
    } else {
      CoveredUpTo(screener, jobs, events, k - 1, subject);
      OneStep(screener, jobs, events, k - 1, subject);
    }
    hide Before, SubjectBalance, OutrunsItsCheck, TakesBackMore;
  }

  // Nothing is taken from the wallet between the check of a debit and its posting.
  ghost predicate Serialised(screener: bool, jobs: seq<Job>, events: seq<Event>, subject: nat) {
    forall j, h, k :: 0 <= j < h < k < |events| && Checks(screener, jobs, events, j, k)
                      && Posts(jobs, Before(screener, jobs, events, k), events[k], subject) ==>
      Taken(jobs, Before(screener, jobs, events, h), events[h], subject) == 0
  }

  lemma {:induction false} QuietFlow(screener: bool, jobs: seq<Job>, events: seq<Event>, since: nat, until: nat, subject: nat)
    requires since <= until <= |events|
    requires forall h :: since <= h < until ==> Taken(jobs, Before(screener, jobs, events, h), events[h], subject) == 0
    ensures Flow(screener, jobs, events, since, until, subject) >= 0
    decreases until
  {
    if since < until {
      QuietFlow(screener, jobs, events, since, until - 1, subject);
      BeforeIsSound(screener, jobs, events, until - 1);
      StepMoves(screener, jobs, Before(screener, jobs, events, until - 1), events[until - 1], subject);
    }
    hide Before, Step, Sound, SubjectBalance, Brought, Taken, Amounts;
  }

  // What a lock held from the check to the posting would give: then only the reversal of a spent credit can overdraw.
  lemma {:induction false} SerialisedOverdrawsOnlyByReversal(screener: bool, jobs: seq<Job>, events: seq<Event>, subject: nat)
    requires Serialised(screener, jobs, events, subject)
    ensures NeverBelowZero(screener, jobs, events, subject) <==>
              forall k :: 0 <= k < |events| ==> !TakesBackMore(screener, jobs, events, k, subject)
  {
    NeverBelowZeroIff(screener, jobs, events, subject);
    forall k | 0 <= k < |events| ensures !OutrunsItsCheck(screener, jobs, events, k, subject) {
      forall j | 0 <= j < k && Posts(jobs, Before(screener, jobs, events, k), events[k], subject) && Checks(screener, jobs, events, j, k)
        ensures Taken(jobs, Before(screener, jobs, events, k), events[k], subject) <=
                SubjectBalance(Before(screener, jobs, events, j), subject) + Flow(screener, jobs, events, j + 1, k, subject)
      {
        ChecksCover(screener, jobs, events, j, k, subject);
        QuietFlow(screener, jobs, events, j + 1, k, subject);
      }
      hide Before, Flow, Checks, SubjectBalance, Taken, NeverBelowZero, Posts;
    }
  }

  // ---------- runs on which a wallet goes below zero ----------

  function Uncapped(fault: Fault): Facts {
    Facts(fault, 0, 0, Limits(0, 0, 0), None)
  }

  // A top-up of 5, a withdrawal of 5, and then the refund of the top-up.
  function RefundedTopUp(): seq<Event> {
    [Deposit(0, 5), SetActive(0, true), Move(0, Uncapped(Ok)), Move(0, Uncapped(Ok)), Move(0, Uncapped(Ok)), Undo(0)]
  }

  lemma {:induction false} AReversedTopUpOverdraws()
    ensures var w := Run(false, OneWithdrawal(), Start(OneWithdrawal()), RefundedTopUp());
            w.stages == [Finished(Some(0), Paid)] && SubjectBalance(w, 0) == -5
  {
    hide MonthStart;
    var jobs, e := OneWithdrawal(), RefundedTopUp();
    Funds();
    FiveIn();
    var entry := Entry(0, 0, 5, true, None, false);
    var w3 := World(Tables([entry], map[0 := true], {}, [TOP_UP]), [AtDebit(0)], []);
    assert Step(false, jobs, Funded(), e[2]) == w3;
    var w4 := World(Tables([entry], map[0 := true], {}, [TOP_UP]), [AtPost(0, 5)], []);
    assert Step(false, jobs, w3, e[3]) == w4;
    assert [TOP_UP] + [DEBIT] == [TOP_UP, DEBIT];
    var w5 := Step(false, jobs, w4, e[4]);
    assert w5.tables.postings == [TOP_UP, DEBIT] && w5.stages == [Finished(Some(0), Paid)];
    BalanceUpdate([TOP_UP, DEBIT], 0, TOP_UP.(reversed := true), 0);
    hide Step, Start, Uncapped, Funded, Balance;
    RunSix(false, jobs, Start(jobs), e[0], e[1], e[2], e[3], e[4], e[5]);
  }

  // Two withdrawals of 5 from a balance of 5, each checked before either is posted.
  function TwoAtOnce(): seq<Event> {
    [Deposit(0, 5), SetActive(0, true), Move(0, Uncapped(Ok)), Move(1, Uncapped(Ok)), Move(0, Uncapped(Ok)), Move(1, Uncapped(Ok)),
     Move(0, Uncapped(Ok)), Move(1, Uncapped(Ok))]
  }

  function TwoWithdrawals(): seq<Job> { [Job(0, 5), Job(0, 5)] }

  function BothChecked(): World {
    World(Tables([Entry(0, 0, 5, true, None, false), Entry(0, 0, 5, true, None, false)], map[0 := true], {}, [TOP_UP]),
          [AtPost(0, 5), AtPost(1, 5)], [])
  }

  lemma {:induction false} BothAreChecked()
    ensures Run(false, TwoWithdrawals(), Start(TwoWithdrawals()), TwoAtOnce()[..6]) == BothChecked()
  {
    hide MonthStart;
    var jobs, e := TwoWithdrawals(), TwoAtOnce();
    FiveIn();
    var entry := Entry(0, 0, 5, true, None, false);
    var w2 := World(Tables([], map[0 := true], {}, [TOP_UP]), [AtReserve, AtReserve], []);
    assert Step(false, jobs, Step(false, jobs, Start(jobs), e[0]), e[1]) == w2;
    var w4 := World(Tables([entry, entry], map[0 := true], {}, [TOP_UP]), [AtDebit(0), AtDebit(1)], []);
    assert [entry] + [entry] == [entry, entry] && Step(false, jobs, Step(false, jobs, w2, e[2]), e[3]) == w4;
    assert Step(false, jobs, Step(false, jobs, w4, e[4]), e[5]) == BothChecked();
    hide Step, Start, Uncapped, Balance;
    assert TwoAtOnce()[..6] == [e[0], e[1], e[2], e[3], e[4], e[5]];
    RunSix(false, jobs, Start(jobs), e[0], e[1], e[2], e[3], e[4], e[5]);
  }

  lemma {:induction false} TwoWithdrawalsCanOverdraw()
    ensures var w := Run(false, TwoWithdrawals(), Start(TwoWithdrawals()), TwoAtOnce());
            w.stages == [Finished(Some(0), Paid), Finished(Some(1), Paid)] && SubjectBalance(w, 0) == -5
  {
    var jobs, e := TwoWithdrawals(), TwoAtOnce();
    BothAreChecked();
    FiveIn();
    var w7 := Step(false, jobs, BothChecked(), e[6]);
    var w8 := Step(false, jobs, w7, e[7]);
    assert [TOP_UP] + [DEBIT] == [TOP_UP, DEBIT] && w7.tables.postings == [TOP_UP, DEBIT];
    assert w8.tables.postings == [TOP_UP, DEBIT] + [DEBIT];
    BalanceAppend([TOP_UP, DEBIT], DEBIT, 0);
    hide Step, Start, Uncapped, Balance, BothChecked;
    RunSnoc(false, jobs, Start(jobs), e[..6], e[6]);
    RunSnoc(false, jobs, Start(jobs), e[..6] + [e[6]], e[7]);
    assert e[..6] + [e[6]] + [e[7]] == e;
  }
}
