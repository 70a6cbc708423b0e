/**
 WalletWithdraw over mutable tables: run without interference it leaves them, and answers, as its job does in the machine
 of Withdrawals. `lookups` says whether the user and the KYC profile were found.
 */
module WithdrawalHandler {
  import opened Calendar
  import opened StoreCalls
  import opened Wrappers
  import opened Withdrawals
  import opened WithdrawalLaws

  datatype SagaFacts = SagaFacts(reserve: Facts, wallet: Facts, screen: Facts, debit: Facts, post: Facts, release: Facts)

  function FactsOf(stage: Stage, f: SagaFacts): Facts {
    match stage
    case AtWallet(_) => f.wallet
    case AtScreen(_) => f.screen
    case AtDebit(_) => f.debit
    case AtPost(_, _) => f.post
    case AtRelease(_) => f.release
    case _ => f.reserve
  }

  function Left(stage: Stage): nat {
    match stage
    case AtReserve => 6
    case AtWallet(_) => 5
    case AtScreen(_) => 4
    case AtDebit(_) => 3
    case AtPost(_, _) => 2
    case AtRelease(_) => 1
    case Finished(_, _) => 0
  }

  function RunAlone(screener: bool, t: Tables, job: Job, stage: Stage, f: SagaFacts): (Tables, Outcome)
    decreases Left(stage)
  {
    if stage.Finished? then (t, stage.outcome)
    else
      var (t', stage') := Advance(screener, t, job, stage, FactsOf(stage, f));
      RunAlone(screener, t', job, stage', f)
  }

  lemma {:induction false} OneStepAlone(screener: bool, t: Tables, job: Job, stage: Stage, f: SagaFacts)
    ensures RunAlone(screener, t, job, stage, f) ==
            if stage.Finished? then (t, stage.outcome)
            else
              var (t', stage') := Advance(screener, t, job, stage, FactsOf(stage, f));
              RunAlone(screener, t', job, stage', f)
  {
    hide Advance;
  }

  // The reading and the posting of a debit, one after the other.
  lemma {:induction false} DebitAlone(screener: bool, t: Tables, job: Job, ref: nat, f: SagaFacts)
    ensures var (read, stage) := Advance(screener, t, job, AtDebit(ref), f.debit);
            RunAlone(screener, t, job, AtDebit(ref), f) ==
            if stage.AtPost? then
              var (posted, after) := Advance(screener, read, job, stage, f.post);
              RunAlone(screener, posted, job, after, f)
            else RunAlone(screener, read, job, stage, f)
  {
    var (read, stage) := Advance(screener, t, job, AtDebit(ref), f.debit);
    OneStepAlone(screener, t, job, AtDebit(ref), f);
    OneStepAlone(screener, read, job, stage, f);
    hide RunAlone, Advance;
  }

  // The release, after which the withdrawal is over.
  lemma {:induction false} ReleaseAlone(screener: bool, t: Tables, job: Job, ref: nat, f: SagaFacts)
    ensures RunAlone(screener, t, job, AtRelease(ref), f) == (Advance(screener, t, job, AtRelease(ref), f.release).0, Failed)
  {
  }

  lemma {:induction false} ReleaseTables(screener: bool, t: Tables, job: Job, ref: nat, f: Facts)
    requires ref < |t.entries|
    ensures Advance(screener, t, job, AtRelease(ref), f).0 ==
            if f.fault == Error then t else t.(entries := t.entries[ref := t.entries[ref].(live := false)])
  {
  }

  lemma {:induction false} DebitKeepsEntries(screener: bool, t: Tables, job: Job, ref: nat, f: SagaFacts)
    requires ref < |t.entries|
    ensures var (read, stage) := Advance(screener, t, job, AtDebit(ref), f.debit);
            |read.entries| == |t.entries| && (stage.AtPost? ==> |Advance(screener, read, job, stage, f.post).0.entries| == |t.entries|)
  {
  }

  class WithdrawalStore {
    var tables: Tables
    const screener: bool

    // kyc.Validate: the ceilings in the order they are checked.
    method Validate(limits: Limits, amount: int, usedDay: int, usedMonth: int) returns (ok: bool)
      ensures ok == Within(limits, amount, usedDay, usedMonth)
    {
      if amount <= 0 {
        return false;
      }
      if limits.single > 0 && amount > limits.single {
        return false;
      }
      if limits.daily > 0 && usedDay + amount > limits.daily {
        return false;
      }
      if limits.monthly > 0 && usedMonth + amount > limits.monthly {
        return false;
      }
      ok := true;
    }

    // sumAllowanceUsageTx
    method SumUsage(subject: nat, since: int) returns (total: int)
      ensures total == Used(tables.entries, subject, since)
    {
      total := 0;
      for k := 0 to |tables.entries|
        invariant total + Used(tables.entries[k..], subject, since) == Used(tables.entries, subject, since)
      {
        var e := tables.entries[k];
        assert tables.entries[k..][1..] == tables.entries[k + 1..];
        if e.live && e.subject == subject && e.at >= since {
          total := total + e.amount;
        }
      }
    }

    method ReserveAllowance(subject: nat, amount: int, f: Facts) returns (ref: Option<nat>)
      modifies this
      ensures tables == (if Reserves(old(tables), subject, amount, f) then Reserved(old(tables), subject, amount, f) else old(tables))
      ensures ref == if Reserves(old(tables), subject, amount, f) && f.fault == Ok then Some(|old(tables).entries|) else None
    {
      if f.fault == Error || subject in tables.frozen {
        return None;
      }
      var usedDay := SumUsage(subject, DayStart(f.now));
      var usedMonth := SumUsage(subject, MonthStart(f.now));
      var ok := Validate(f.limits, amount, usedDay, usedMonth);
      if !ok {
        return None;
      }
      ref := if f.fault == Ok then Some(|tables.entries|) else None;
      tables := tables.(entries := tables.entries + [Entry(subject, f.began, amount, true, None, false)]);
    }

    // The recorded decision, or None when the provider or the store failed.
    method ScreenUserWithdrawal(ref: nat, f: Facts) returns (decision: Option<Decision>)
      requires ref < |tables.entries|
      modifies this
      ensures var recorded := f.answer.Some? && f.fault != Error && f.answer.value != Unrecognised;
              && tables == (if recorded then old(tables).(entries := old(tables).entries[ref := old(tables).entries[ref].(screening := f.answer)])
                            else old(tables))
              && decision == if recorded && f.fault == Ok then f.answer else None
    {
      if f.answer.None? || f.fault == Error || f.answer.value == Unrecognised {
        return None;
      }
      tables := tables.(entries := tables.entries[ref := tables.entries[ref].(screening := f.answer)]);
      decision := if f.fault == Ok then f.answer else None;
    }

    // The balance is read first, as it stands then; what is posted is the debit, whatever it stands at by then.
    method WithdrawFromUserWallet(subject: nat, amount: int, ref: nat, f: Facts, post: Facts) returns (ok: bool)
      requires ref < |tables.entries|
      modifies this
      ensures var (read, stage) := Advance(screener, old(tables), Job(subject, amount), AtDebit(ref), f);
              (tables, if ok then Finished(Some(ref), Paid) else AtRelease(ref)) ==
              if stage.AtPost? then Advance(screener, read, Job(subject, amount), stage, post) else (read, stage)
    {
      if f.fault != Ok || subject !in tables.wallets || !tables.wallets[subject] {
        return false;
      }
      var balance := WalletBalance(subject);
      if balance < amount || post.fault == Error {
        return false;
      }
      tables := tables.(entries := tables.entries[ref := tables.entries[ref].(debited := true)],
                        postings := tables.postings + [Posting(subject, false, amount, false)]);
      ok := post.fault == Ok;
    }

    // walletBalanceQ
    method WalletBalance(subject: nat) returns (total: int)
      ensures total == Balance(tables.postings, subject)
    {
      total := 0;
      for k := 0 to |tables.postings|
        invariant total + Balance(tables.postings[k..], subject) == Balance(tables.postings, subject)
      {
        assert tables.postings[k..][1..] == tables.postings[k + 1..];
        total := total + Net(tables.postings[k], subject);
      }
    }

    method ReleaseAllowance(ref: nat, f: Facts)
      requires ref < |tables.entries|
      modifies this
      ensures tables == if f.fault == Error then old(tables)
                        else old(tables).(entries := old(tables).entries[ref := old(tables).entries[ref].(live := false)])
    {
      if f.fault != Error {
        tables := tables.(entries := tables.entries[ref := tables.entries[ref].(live := false)]);
      }
    }

    method WalletWithdraw(subject: nat, amount: int, lookups: bool, f: SagaFacts) returns (outcome: Outcome)
      modifies this
      ensures !lookups || amount <= 0 || subject in old(tables).frozen ==> outcome == Refused && tables == old(tables)
      ensures lookups ==> (tables, outcome) == RunAlone(screener, old(tables), Job(subject, amount), Begin(Job(subject, amount)), f)
    {
      var job := Job(subject, amount);
      if amount <= 0 || !lookups {
        return Refused;
      }
      hide RunAlone, Used, Balance;
      ghost var t0 := tables;
      OneStepAlone(screener, t0, job, AtReserve, f);
      var reserved := ReserveAllowance(subject, amount, f.reserve);
      if reserved.None? {
        OneStepAlone(screener, tables, job, Advance(screener, t0, job, AtReserve, f.reserve).1, f);
        return Refused;
      }
      var ref := reserved.value;
      if screener {
        ghost var t1 := tables;
        OneStepAlone(screener, t1, job, AtWallet(ref), f);
        if f.wallet.fault != Ok || subject !in tables.wallets {
          ReleaseAlone(screener, t1, job, ref, f);
          ReleaseAllowance(ref, f.release);
          return Failed;
        }
        OneStepAlone(screener, t1, job, AtScreen(ref), f);
        var decision := ScreenUserWithdrawal(ref, f.screen);
        ghost var t2 := tables;
        if decision.None? {
          ReleaseAlone(screener, t2, job, ref, f);
          ReleaseAllowance(ref, f.release);
          return Failed;
        }
        if decision.value != Clear {
          OneStepAlone(screener, t2, job, Finished(Some(ref), UnderReview), f);
          return UnderReview;
        }
      }
      assert RunAlone(screener, t0, job, AtReserve, f) == RunAlone(screener, tables, job, AtDebit(ref), f);
      hide Advance;
      outcome := DebitOrRelease(job, ref, f);
    }

    // The end of WalletWithdraw: the debit, or else the release of the reservation.
    method DebitOrRelease(job: Job, ref: nat, f: SagaFacts) returns (outcome: Outcome)
      requires ref < |tables.entries|
      modifies this
      ensures (tables, outcome) == RunAlone(screener, old(tables), job, AtDebit(ref), f)
    {
      hide RunAlone, Advance, Balance;
      DebitAlone(screener, tables, job, ref, f);
      var ok := WithdrawFromUserWallet(job.subject, job.amount, ref, f.debit, f.post);
      if !ok {
        ghost var t := tables;
        DebitKeepsEntries(screener, old(tables), job, ref, f);
        ReleaseAlone(screener, t, job, ref, f);
        ReleaseAllowance(ref, f.release);
        ReleaseTables(screener, t, job, ref, f.release);
        return Failed;
      }
      OneStepAlone(screener, tables, job, Finished(Some(ref), Paid), f);
      outcome := Paid;
    }
  }
}
