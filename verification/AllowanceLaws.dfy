/**
 When an allowance is reserved and when a withdrawal is paid, in terms of the tables: the freeze, the three ceilings against sums
 over the reservations, the screen and the wallet.
 */
module AllowanceLaws {
  import opened Calendar
  import opened StoreCalls
  import opened Sums
  import opened Wrappers
  import opened Withdrawals
  import opened WithdrawalHandler

  // ---------- sums over the rows ----------

  // A subject's live reservations stamped at or after an instant.
  ghost function LiveSince(subject: nat, since: int): Entry -> int {
    (e: Entry) => if e.live && e.subject == subject && since <= e.at then e.amount else 0
  }

  // Credits count for a wallet and debits against it, unless they were reversed.
  ghost function Counting(subject: nat): Posting -> int {
    (p: Posting) => if p.subject != subject || p.reversed then 0 else if p.credit then p.kobo else -p.kobo
  }

  lemma {:induction false} UsedIsTheSum(entries: seq<Entry>, subject: nat, since: int)
    ensures Used(entries, subject, since) == Sum(entries, LiveSince(subject, since))
  {
    if entries != [] { UsedIsTheSum(entries[1..], subject, since); }
  }

  lemma {:induction false} BalanceIsTheSum(postings: seq<Posting>, subject: nat)
    ensures Balance(postings, subject) == Sum(postings, Counting(subject))
  {
    if postings != [] { BalanceIsTheSum(postings[1..], subject); }
  }

  // ---------- reserving ----------

  // A ceiling of zero is none.
  predicate UpTo(total: int, ceiling: int) {
    ceiling <= 0 || total <= ceiling
  }

  ghost predicate WithinCeilings(t: Tables, subject: nat, amount: int, f: Facts) {
    && UpTo(amount, f.limits.single)
    && UpTo(Sum(t.entries, LiveSince(subject, DayStart(f.now))) + amount, f.limits.daily)
    && UpTo(Sum(t.entries, LiveSince(subject, MonthStart(f.now))) + amount, f.limits.monthly)
  }

  /**
   A positive amount of a subject who is not frozen is reserved exactly when it is within the single ceiling and, added to
   the subject's live reservations since the day and the month began, within the other two; otherwise nothing is recorded.
   */
  lemma {:induction false} ReservedIffWithinCeilings(screener: bool, t: Tables, job: Job, f: Facts)
    ensures var t' := Advance(screener, t, job, AtReserve, f).0;
            t' == if f.fault != Error && job.subject !in t.frozen && job.amount > 0 && WithinCeilings(t, job.subject, job.amount, f)
                  then t.(entries := t.entries + [Entry(job.subject, f.began, job.amount, true, None, false)])
                  else t
  {
    UsedIsTheSum(t.entries, job.subject, DayStart(f.now));
    UsedIsTheSum(t.entries, job.subject, MonthStart(f.now));
    hide Used, DayStart, MonthStart, Sum;
  }

  ghost predicate ReservesOnlyUnfrozen(w: World, w': World) {
    && |w.tables.entries| <= |w'.tables.entries|
    && forall r :: |w.tables.entries| <= r < |w'.tables.entries| ==> w'.tables.entries[r].subject !in w.tables.frozen
  }

  // At no point of any run is anything reserved, of this or another kind, for a subject who is frozen then.
  lemma {:induction false} NothingIsReservedWhileFrozen(screener: bool, jobs: seq<Job>, events: seq<Event>, e: Event)
    ensures var w := Run(screener, jobs, Start(jobs), events); ReservesOnlyUnfrozen(w, Step(screener, jobs, w, e))
  {
    var w := Run(screener, jobs, Start(jobs), events);
    if e.Move? && e.job < |jobs| { MovesReserveUnfrozen(screener, w.tables, jobs[e.job], w.stages[e.job], e.facts); }
    hide Run, Used, DayStart, MonthStart, Balance, Advance;
  }

  lemma {:induction false} MovesReserveUnfrozen(screener: bool, t: Tables, job: Job, stage: Stage, f: Facts)
    ensures var t' := Advance(screener, t, job, stage, f).0;
            && |t.entries| <= |t'.entries|
            && forall r :: |t.entries| <= r < |t'.entries| ==> t'.entries[r].subject !in t.frozen
  {
    hide Used, DayStart, MonthStart, Balance;
  }

  // ---------- what else reaches the tables ----------

  // Another debit is checked against the balance of an active wallet, and posted once for each check, whatever is left by then.
  lemma {:induction false} AnotherDebitIsPostedOnce(screener: bool, jobs: seq<Job>, w: World, subject: nat, kobo: nat, c: nat)
    requires |w.stages| == |jobs|
    ensures var balance := Sum(w.tables.postings, Counting(subject));
            Step(screener, jobs, w, CheckOther(subject, kobo)) ==
            if subject in w.tables.wallets && w.tables.wallets[subject] && kobo <= balance
            then w.(checks := w.checks + [Check(subject, kobo, balance, false)]) else w
    ensures var w' := Step(screener, jobs, w, PostOther(c));
            if c < |w.checks| && !w.checks[c].posted
            then w'.tables == w.tables.(postings := w.tables.postings + [Posting(w.checks[c].subject, false, w.checks[c].kobo, false)])
                 && w'.stages == w.stages && w'.checks == w.checks[c := w.checks[c].(posted := true)]
                 && Step(screener, jobs, w', PostOther(c)) == w'
            else w' == w
  {
    BalanceIsTheSum(w.tables.postings, subject);
    hide Sum, Balance;
  }

  // A reservation of another kind follows the same rule as a withdrawal's, and is released unless a withdrawal holds it.
  lemma {:induction false} OtherReservationsFollowTheRule(screener: bool, jobs: seq<Job>, w: World, subject: nat, amount: int, f: Facts, ref: nat)
    requires |w.stages| == |jobs|
    ensures Step(screener, jobs, w, ReserveOther(subject, amount, f)) ==
            if f.fault != Error && subject !in w.tables.frozen && amount > 0 && WithinCeilings(w.tables, subject, amount, f)
            then w.(tables := w.tables.(entries := w.tables.entries + [Entry(subject, f.began, amount, true, None, false)])) else w
    ensures Step(screener, jobs, w, ReleaseOther(ref)) ==
            if ref < |w.tables.entries| && forall i :: 0 <= i < |w.stages| ==> RefOf(w.stages[i]) != Some(ref)
            then w.(tables := w.tables.(entries := w.tables.entries[ref := w.tables.entries[ref].(live := false)])) else w
  {
    UsedIsTheSum(w.tables.entries, subject, DayStart(f.now));
    UsedIsTheSum(w.tables.entries, subject, MonthStart(f.now));
    hide Used, DayStart, MonthStart, Sum;
  }

  // What the last of the events about a subject's freeze said, if there was one.
  ghost predicate LastSaid(events: seq<Event>, subject: nat, before: bool) {
    if events == [] then before
    else LastSaid(events[1..], subject, if events[0].Freeze? && events[0].subject == subject then events[0].frozen else before)
  }

  // A subject is frozen exactly when an operator froze them and has not lifted it since.
  lemma {:induction false} FrozenUntilLifted(screener: bool, jobs: seq<Job>, w: World, events: seq<Event>, subject: nat)
    requires |w.stages| == |jobs|
    ensures subject in Run(screener, jobs, w, events).tables.frozen <==> LastSaid(events, subject, subject in w.tables.frozen)
    decreases |events|
  {
    if events != [] {
      var e := events[0];
      FrozenUntilLifted(screener, jobs, Step(screener, jobs, w, e), events[1..], subject);
    }
    hide Used, Balance, DayStart, MonthStart;
  }

  // ---------- a withdrawal by itself ----------

  predicate NothingFails(f: SagaFacts) {
    f.reserve.fault == f.wallet.fault == f.screen.fault == f.debit.fault == f.post.fault == f.release.fault == Ok
  }

  // The wallet can pay: active, and with the money in it.
  ghost predicate CanPay(t: Tables, job: Job) {
    job.subject in t.wallets && t.wallets[job.subject] && Sum(t.postings, Counting(job.subject)) >= job.amount
  }

  // What a withdrawal comes to: the row it leaves, if any, and its outcome.
  ghost function ComesTo(screener: bool, t: Tables, job: Job, f: SagaFacts): (Option<Entry>, Outcome) {
    var row := Entry(job.subject, f.reserve.began, job.amount, true, None, false);
    var answer := if screener then f.screen.answer else None;
    if job.amount <= 0 || job.subject in t.frozen || !WithinCeilings(t, job.subject, job.amount, f.reserve) then (None, Refused)
    else if screener && job.subject !in t.wallets then (Some(row.(live := false)), Failed)
    else if screener && (answer.None? || answer.value == Unrecognised) then (Some(row.(live := false)), Failed)
    else if screener && answer.value != Clear then (Some(row.(screening := answer)), UnderReview)
    else if !CanPay(t, job) then (Some(row.(screening := answer, live := false)), Failed)
    else (Some(row.(screening := answer, debited := true)), Paid)
  }

  /**
   With everything working, a withdrawal is refused without a trace when it is not positive, the subject is frozen or a ceiling
   would be passed; is under review, its reservation kept, on a decision that is not clear; fails, its reservation released,
   when there is no decision or the wallet cannot pay; and is paid, with one debit of its amount, in every other case.
   */
  lemma {:induction false} AWithdrawalIsPaidIff(screener: bool, t: Tables, job: Job, f: SagaFacts)
    requires NothingFails(f)
    ensures var (row, outcome) := ComesTo(screener, t, job, f);
            RunAlone(screener, t, job, Begin(job), f) ==
            (t.(entries := if row.Some? then t.entries + [row.value] else t.entries,
                postings := if outcome == Paid then t.postings + [Posting(job.subject, false, job.amount, false)] else t.postings),
             outcome)
  {
    OneStepAlone(screener, t, job, Begin(job), f);
    if job.amount > 0 {
      ReservedIffWithinCeilings(screener, t, job, f.reserve);
      var (t1, stage1) := Advance(screener, t, job, AtReserve, f.reserve);
      OneStepAlone(screener, t1, job, stage1, f);
      if job.subject !in t.frozen && WithinCeilings(t, job.subject, job.amount, f.reserve) {
        OnceReserved(screener, t, job, f);
      } else {
        assert (t1, stage1) == (t, Finished(None, Refused)) by { NotReserved(screener, t, job, f.reserve); }
      }
    }
    hide RunAlone, Advance, WithinCeilings;
  }

  lemma {:induction false} NotReserved(screener: bool, t: Tables, job: Job, f: Facts)
    requires Advance(screener, t, job, AtReserve, f).0 == t
    ensures Advance(screener, t, job, AtReserve, f).1 == Finished(None, Refused)
  {
    hide Used, DayStart, MonthStart;
  }

  lemma {:induction false} LastReplaced(s: seq<Entry>, x: Entry, y: Entry)
    ensures (s + [x])[|s| := y] == s + [y]
  {
  }

  // The rest of a withdrawal whose allowance is reserved.
  lemma {:induction false} OnceReserved(screener: bool, t: Tables, job: Job, f: SagaFacts)
    requires NothingFails(f) && job.amount > 0 && job.subject !in t.frozen && WithinCeilings(t, job.subject, job.amount, f.reserve)
    ensures var (row, outcome) := ComesTo(screener, t, job, f);
            var (t1, stage1) := Advance(screener, t, job, AtReserve, f.reserve);
            row.Some? && RunAlone(screener, t1, job, stage1, f) ==
            (t.(entries := t.entries + [row.value],
                postings := if outcome == Paid then t.postings + [Posting(job.subject, false, job.amount, false)] else t.postings),
             outcome)
  {
    var n, row := |t.entries|, Entry(job.subject, f.reserve.began, job.amount, true, None, false);
    var answer := f.screen.answer;
    var seen := row.(screening := answer);
    var t1 := t.(entries := t.entries + [row]);
    ReservedIffWithinCeilings(screener, t, job, f.reserve);
    assert Advance(screener, t, job, AtReserve, f.reserve) == (t1, if screener then AtWallet(n) else AtDebit(n)) by {
      hide Used, DayStart, MonthStart, WithinCeilings;
    }
    hide RunAlone, Advance, WithinCeilings, Sum;
    LastReplaced(t.entries, row, row.(live := false));
    if screener {
      ScreenedAlone(t1, job, n, f);
      var t2 := t.(entries := t.entries + [seen]);
      LastReplaced(t.entries, row, seen);
      LastReplaced(t.entries, seen, seen.(live := false));
      LastReplaced(t.entries, seen, seen.(debited := true));
      DebitedAlone(screener, t2, job, n, f);
    } else {
      LastReplaced(t.entries, row, row.(debited := true));
      DebitedAlone(screener, t1, job, n, f);
    }
  }

  lemma {:induction false} DebitedAlone(screener: bool, t: Tables, job: Job, ref: nat, f: SagaFacts)
    requires NothingFails(f) && ref < |t.entries|
    ensures RunAlone(screener, t, job, AtDebit(ref), f) ==
            if CanPay(t, job)
            then (t.(entries := t.entries[ref := t.entries[ref].(debited := true)],
                     postings := t.postings + [Posting(job.subject, false, job.amount, false)]), Paid)
            else (t.(entries := t.entries[ref := t.entries[ref].(live := false)]), Failed)
  {
    BalanceIsTheSum(t.postings, job.subject);
    DebitAlone(screener, t, job, ref, f);
    ReleaseAlone(screener, t, job, ref, f);
    if CanPay(t, job) {
      var paid := t.(entries := t.entries[ref := t.entries[ref].(debited := true)],
                     postings := t.postings + [Posting(job.subject, false, job.amount, false)]);
      OneStepAlone(screener, paid, job, Finished(Some(ref), Paid), f);
    }
    hide RunAlone, Balance, Sum, Used;
  }

  lemma {:induction false} ScreenedAlone(t: Tables, job: Job, ref: nat, f: SagaFacts)
    requires NothingFails(f) && ref < |t.entries|
    ensures var answer := f.screen.answer;
            var released := t.(entries := t.entries[ref := t.entries[ref].(live := false)]);
            var screened := t.(entries := t.entries[ref := t.entries[ref].(screening := answer)]);
            RunAlone(true, t, job, AtWallet(ref), f) ==
            if job.subject !in t.wallets || answer.None? || answer.value == Unrecognised then (released, Failed)
            else if answer.value != Clear then (screened, UnderReview)
            else RunAlone(true, screened, job, AtDebit(ref), f)
  {
    var screened := t.(entries := t.entries[ref := t.entries[ref].(screening := f.screen.answer)]);
    OneStepAlone(true, t, job, AtWallet(ref), f);
    OneStepAlone(true, t, job, AtScreen(ref), f);
    ReleaseAlone(true, t, job, ref, f);
    OneStepAlone(true, screened, job, Finished(Some(ref), UnderReview), f);
    hide RunAlone, Balance, Used;
  }

  // ---------- failing calls ----------

  /**
   A reservation that fails, or whose acknowledgement is lost, refuses the withdrawal; every later call that fails leads to the
   release, the debit also when it was posted and only its acknowledgement lost; and the release ends the withdrawal as failed.
   */
  lemma {:induction false} AFailedCallStopsTheWithdrawal(screener: bool, t: Tables, job: Job, stage: Stage, f: Facts)
    requires f.fault != Ok && !stage.Finished? && (RefOf(stage).Some? ==> RefOf(stage).value < |t.entries|)
    ensures var (t', stage') := Advance(screener, t, job, stage, f);
            && (stage.AtReserve? ==> stage'.Finished? && stage'.outcome == Refused)
            && (stage.AtRelease? ==> stage' == Finished(Some(stage.ref), Failed))
            && (!stage.AtReserve? && !stage.AtRelease? ==> stage' == AtRelease(stage.ref))
            && (f.fault == Error || stage.AtWallet? || stage.AtDebit? ==> t' == t)
            && (stage.AtPost? && f.fault == LostAck ==>
                  t' == t.(entries := t.entries[stage.ref := t.entries[stage.ref].(debited := true)],
                           postings := t.postings + [Posting(job.subject, false, job.amount, false)]))
            && (stage.AtRelease? && f.fault == LostAck ==> t' == t.(entries := t.entries[stage.ref := t.entries[stage.ref].(live := false)]))
  {
    hide Used, Balance, DayStart, MonthStart;
  }
}
