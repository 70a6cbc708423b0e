/**
 The wallet withdrawal saga as concurrent jobs over shared tables: reserve the allowance, look up the wallet, screen, read
 the balance, post the debit, and release the reservation when something fails. Any number of withdrawals, deposits, other
 debits of the wallets, reversals, tier changes and reservations of other kinds interleave; a call may fail before or after
 it took effect.
 */
module Withdrawals {
  import opened Calendar
  import opened StoreCalls
  import opened Wrappers

  // The four decisions a screening row may store, and what a screener may say beyond them.
  datatype Decision = Clear | Possible | Strong | Blocked | ManuallyCleared | Unrecognised

  /**
   What the tables hold under one reference: the allowance_usage row (while live), the payment_screenings row and whether
   the debit has been posted. References are drawn fresh, so index i of the table is the i-th one drawn.
   */
  datatype Entry = Entry(subject: nat, at: int, amount: int, live: bool, screening: Option<Decision>, debited: bool)

  // One ledger pair on a user's wallet, under a journal reference of its own; reversed once offsetting rows were posted.
  datatype Posting = Posting(subject: nat, credit: bool, kobo: int, reversed: bool)

  // `wallets` says whether a wallet is active; its balance is the net of its postings.
  datatype Tables = Tables(entries: seq<Entry>, wallets: map<nat, bool>, frozen: set<nat>, postings: seq<Posting>)

  // A zero ceiling is none.
  datatype Limits = Limits(single: int, daily: int, monthly: int)

  datatype Job = Job(subject: nat, amount: int)

  datatype Outcome = Refused | UnderReview | Failed | Paid

  datatype Stage =
    | AtReserve
    | AtWallet(ref: nat)
    | AtScreen(ref: nat)
    | AtDebit(ref: nat)
    // The balance read, which nothing locks until the debit is posted.
    | AtPost(ref: nat, seen: int)
    | AtRelease(ref: nat)
    | Finished(held: Option<nat>, outcome: Outcome)

  /**
   What one step finds: when its transaction began by the database's clock, which stamps the row it inserts; what the
   program's clock says once the subject's lock is held, which sets the windows it sums; the subject's ceilings; and the
   screener's answer (None: outage).
   */
  datatype Facts = Facts(fault: Fault, began: int, now: int, limits: Limits, answer: Option<Decision>)

  // ---------- reserving ----------

  function Used(entries: seq<Entry>, subject: nat, since: int): int {
    if entries == [] then 0
    else (if entries[0].live && entries[0].subject == subject && entries[0].at >= since then entries[0].amount else 0)
         + Used(entries[1..], subject, since)
  }

  predicate Within(limits: Limits, amount: int, usedDay: int, usedMonth: int) {
    && amount > 0
    && (limits.single > 0 ==> amount <= limits.single)
    && (limits.daily > 0 ==> usedDay + amount <= limits.daily)
    && (limits.monthly > 0 ==> usedMonth + amount <= limits.monthly)
  }

  predicate Reserves(t: Tables, subject: nat, amount: int, f: Facts) {
    && f.fault != Error && subject !in t.frozen
    && Within(f.limits, amount, Used(t.entries, subject, DayStart(f.now)), Used(t.entries, subject, MonthStart(f.now)))
  }

  function Reserved(t: Tables, subject: nat, amount: int, f: Facts): Tables {
    t.(entries := t.entries + [Entry(subject, f.began, amount, true, None, false)])
  }

  // ---------- the saga, one store call at a time ----------

  // Credits less debits; a reversed posting and its offset come to nothing.
  function Net(p: Posting, subject: nat): int {
    if p.subject != subject || p.reversed then 0 else if p.credit then p.kobo else -p.kobo
  }

  function Balance(postings: seq<Posting>, subject: nat): int {
    if postings == [] then 0 else Net(postings[0], subject) + Balance(postings[1..], subject)
  }

  predicate PaysOut(t: Tables, subject: nat, kobo: int) {
    subject in t.wallets && t.wallets[subject] && Balance(t.postings, subject) >= kobo
  }

  function Advance(screener: bool, t: Tables, job: Job, stage: Stage, f: Facts): (Tables, Stage) {
    match stage
    case AtReserve =>
      if !Reserves(t, job.subject, job.amount, f) then (t, Finished(None, Refused))
      else (Reserved(t, job.subject, job.amount, f),
            if f.fault == LostAck then Finished(Some(|t.entries|), Refused)
            else if screener then AtWallet(|t.entries|) else AtDebit(|t.entries|))
    case AtWallet(ref) =>
      (t, if f.fault == Ok && job.subject in t.wallets then AtScreen(ref) else AtRelease(ref))
    case AtScreen(ref) =>
      if ref >= |t.entries| || f.answer.None? || f.fault == Error || f.answer.value == Unrecognised then (t, AtRelease(ref))
      else (t.(entries := t.entries[ref := t.entries[ref].(screening := f.answer)]),
            if f.fault == LostAck then AtRelease(ref)
            else if f.answer.value == Clear then AtDebit(ref)
            else Finished(Some(ref), UnderReview))
    case AtDebit(ref) =>
      (t, if f.fault != Ok || !PaysOut(t, job.subject, job.amount) then AtRelease(ref)
          else AtPost(ref, Balance(t.postings, job.subject)))
    case AtPost(ref, _) =>
      if ref >= |t.entries| || f.fault == Error then (t, AtRelease(ref))
      else (t.(entries := t.entries[ref := t.entries[ref].(debited := true)],
               postings := t.postings + [Posting(job.subject, false, job.amount, false)]),
            if f.fault == LostAck then AtRelease(ref) else Finished(Some(ref), Paid))
    case AtRelease(ref) =>
      (if f.fault == Error || ref >= |t.entries| then t else t.(entries := t.entries[ref := t.entries[ref].(live := false)]),
       Finished(Some(ref), Failed))
    case Finished(_, _) => (t, stage)
  }

  // A withdrawal of nothing is refused before anything is looked up.
  function Begin(job: Job): Stage {
    if job.amount <= 0 then Finished(None, Refused) else AtReserve
  }

  // ---------- any interleaving ----------

  datatype Event =
    | Move(job: nat, facts: Facts)
    // A credit of the wallet: a top-up, a refund, a transfer received.
    | Deposit(subject: nat, kobo: nat)
    // Any other debit: a payment from the wallet, a payout to a bank, a remittance. Read and posted like a withdrawal.
    | CheckOther(subject: nat, kobo: nat)
    | PostOther(check: nat)
    // A refund of the top-up, or an operator, reverses one posting; nothing looks at the balance.
    | Undo(posting: nat)
    | SetActive(subject: nat, active: bool)
    | Freeze(subject: nat, frozen: bool)
    // A money-out reservation of another kind (a payout, an individual pay), and its release.
    | ReserveOther(subject: nat, amount: int, facts: Facts)
    | ReleaseOther(ref: nat)

  // Another debit whose balance has been read.
  datatype Check = Check(subject: nat, kobo: nat, seen: int, posted: bool)

  datatype World = World(tables: Tables, stages: seq<Stage>, checks: seq<Check>)

  function Start(jobs: seq<Job>): World {
    World(Tables([], map[], {}, []), seq(|jobs|, i requires 0 <= i < |jobs| => Begin(jobs[i])), [])
  }

  // The reference a job holds.
  function RefOf(stage: Stage): Option<nat> {
    match stage
    case AtReserve => None
    case Finished(held, _) => held
    case _ => Some(stage.ref)
  }

  ghost predicate OwnedByJob(w: World, ref: nat) {
    exists i :: 0 <= i < |w.stages| && RefOf(w.stages[i]) == Some(ref)
  }

  ghost function Step(screener: bool, jobs: seq<Job>, w: World, e: Event): (w': World)
    requires |w.stages| == |jobs|
    ensures |w'.stages| == |jobs|
  {
    match e
    case Move(i, f) =>
      if i >= |jobs| then w
      else
        var (t, stage) := Advance(screener, w.tables, jobs[i], w.stages[i], f);
        World(t, w.stages[i := stage], w.checks)
    case Deposit(subject, kobo) =>
      w.(tables := w.tables.(wallets := if subject in w.tables.wallets then w.tables.wallets else w.tables.wallets[subject := false],
                             postings := w.tables.postings + [Posting(subject, true, kobo, false)]))
    case CheckOther(subject, kobo) =>
      if !PaysOut(w.tables, subject, kobo) then w
      else w.(checks := w.checks + [Check(subject, kobo, Balance(w.tables.postings, subject), false)])
    case PostOther(c) =>
      if c >= |w.checks| || w.checks[c].posted then w
      else w.(tables := w.tables.(postings := w.tables.postings + [Posting(w.checks[c].subject, false, w.checks[c].kobo, false)]),
              checks := w.checks[c := w.checks[c].(posted := true)])
    case Undo(p) =>
      if p >= |w.tables.postings| then w
      else w.(tables := w.tables.(postings := w.tables.postings[p := w.tables.postings[p].(reversed := true)]))
    case SetActive(subject, active) =>
      if subject !in w.tables.wallets then w
      else w.(tables := w.tables.(wallets := w.tables.wallets[subject := active]))
    case Freeze(subject, frozen) =>
      w.(tables := w.tables.(frozen := if frozen then w.tables.frozen + {subject} else w.tables.frozen - {subject}))
    case ReserveOther(subject, amount, f) =>
      if Reserves(w.tables, subject, amount, f) then w.(tables := Reserved(w.tables, subject, amount, f)) else w
    case ReleaseOther(ref) =>
      if ref >= |w.tables.entries| || OwnedByJob(w, ref) then w
      else w.(tables := w.tables.(entries := w.tables.entries[ref := w.tables.entries[ref].(live := false)]))
  }

  ghost function Run(screener: bool, jobs: seq<Job>, w: World, events: seq<Event>): (w': World)
    requires |w.stages| == |jobs|
    ensures |w'.stages| == |jobs|
    decreases |events|
  {
    if events == [] then w else Run(screener, jobs, Step(screener, jobs, w, events[0]), events[1..])
  }
}
