/**
 What every interleaving of withdrawals keeps, from empty tables on: each exit leaves the tables as it should, no money is
 lost, a day's and a month's live reservations stay within their ceilings unless a reservation is stamped in an earlier
 period than it is checked in, and exactly when every debit stays covered by a reservation.
 */
module WithdrawalLaws {
  import opened Calendar
  import opened StoreCalls
  import opened Wrappers
  import opened Withdrawals

  // ---------- what each stage says about its reference ----------

  predicate StageOk(screener: bool, t: Tables, job: Job, stage: Stage) {
    var ref := RefOf(stage);
    && (ref.Some? ==>
          ref.value < |t.entries| && t.entries[ref.value].subject == job.subject && t.entries[ref.value].amount == job.amount > 0)
    && match stage
       case AtReserve => job.amount > 0
       case AtWallet(r) => screener && t.entries[r].live && !t.entries[r].debited && t.entries[r].screening == None
       case AtScreen(r) => screener && t.entries[r].live && !t.entries[r].debited && t.entries[r].screening == None
       case AtDebit(r) => t.entries[r].live && !t.entries[r].debited && (screener ==> t.entries[r].screening == Some(Clear))
       case AtPost(r, seen) =>
         t.entries[r].live && !t.entries[r].debited && (screener ==> t.entries[r].screening == Some(Clear)) && seen >= job.amount
       case AtRelease(r) => t.entries[r].live
       case Finished(None, outcome) => outcome == Refused
       case Finished(Some(r), Refused) => t.entries[r].live && !t.entries[r].debited
       case Finished(Some(r), UnderReview) =>
         t.entries[r].live && !t.entries[r].debited && t.entries[r].screening.Some?
         && t.entries[r].screening.value != Clear
       case Finished(Some(r), Paid) => t.entries[r].live && t.entries[r].debited && (screener ==> t.entries[r].screening == Some(Clear))
       case Finished(Some(r), Failed) => true
  }

  ghost predicate Sound(screener: bool, jobs: seq<Job>, w: World) {
    && |w.stages| == |jobs|
    && (forall i :: 0 <= i < |jobs| ==> StageOk(screener, w.tables, jobs[i], w.stages[i]))
    && (forall i, j :: 0 <= i < j < |jobs| && RefOf(w.stages[i]).Some? ==> RefOf(w.stages[i]) != RefOf(w.stages[j]))
    && (forall r :: 0 <= r < |w.tables.entries| ==> w.tables.entries[r].amount > 0)
    && (forall r :: 0 <= r < |w.tables.entries| && w.tables.entries[r].debited ==> OwnedByJob(w, r))
  }

  lemma {:induction false} StartIsSound(screener: bool, jobs: seq<Job>)
    ensures Sound(screener, jobs, Start(jobs))
  {
  }

  // A step touches no entry but its own reference's, and appends at most one.
  ghost predicate Touches(t: Tables, t': Tables, ref: Option<nat>) {
    && |t.entries| <= |t'.entries|
    && (forall r :: 0 <= r < |t.entries| && Some(r) != ref ==> t'.entries[r] == t.entries[r])
  }

  lemma {:induction false} AdvanceIsSound(screener: bool, t: Tables, job: Job, stage: Stage, f: Facts)
    requires StageOk(screener, t, job, stage)
    ensures var (t', stage') := Advance(screener, t, job, stage, f);
            && StageOk(screener, t', job, stage') && Touches(t, t', RefOf(stage))
            && (RefOf(stage').Some? ==> RefOf(stage') == RefOf(stage) || RefOf(stage').value == |t.entries| < |t'.entries|)
            && (RefOf(stage).Some? ==> RefOf(stage') == RefOf(stage))
            && (forall r :: |t.entries| <= r < |t'.entries| ==> !t'.entries[r].debited && t'.entries[r].amount > 0)
            && (RefOf(stage).Some? ==> t'.entries[RefOf(stage).value].amount == t.entries[RefOf(stage).value].amount)
            && |t'.entries| <= |t.entries| + 1
  {
    hide Used, Within, DayStart, MonthStart, Balance;
  }

  lemma {:induction false} MoveIsSound(screener: bool, jobs: seq<Job>, w: World, i: nat, f: Facts)
    requires Sound(screener, jobs, w) && i < |jobs|
    ensures Sound(screener, jobs, Step(screener, jobs, w, Move(i, f)))
  {
    var (t, stage) := Advance(screener, w.tables, jobs[i], w.stages[i], f);
    var w' := World(t, w.stages[i := stage], w.checks);
    AdvanceIsSound(screener, w.tables, jobs[i], w.stages[i], f);
    assert forall j :: 0 <= j < |jobs| && RefOf(w.stages[j]).Some? ==> RefOf(w.stages[j]).value < |w.tables.entries| by {
      forall j | 0 <= j < |jobs| ensures RefOf(w.stages[j]).Some? ==> RefOf(w.stages[j]).value < |w.tables.entries| {
        assert StageOk(screener, w.tables, jobs[j], w.stages[j]);
      }
    }
    hide Advance;
    forall j | 0 <= j < |jobs| ensures StageOk(screener, w'.tables, jobs[j], w'.stages[j]) {
      if j != i {
        assert RefOf(w.stages[j]).Some? ==> RefOf(w.stages[j]) != RefOf(w.stages[i]);
        OthersStayOk(screener, w.tables, t, jobs[j], w.stages[j], RefOf(w.stages[i]));
      }
      hide StageOk;
    }
    hide StageOk;
    forall r | 0 <= r < |w'.tables.entries| && w'.tables.entries[r].debited ensures OwnedByJob(w', r) {
      if RefOf(stage) == Some(r) {
        assert RefOf(w'.stages[i]) == Some(r);
      } else {
        assert w.tables.entries[r].debited;
        assert OwnedByJob(w, r);
        var j :| 0 <= j < |w.stages| && RefOf(w.stages[j]) == Some(r);
        assert RefOf(w'.stages[j]) == Some(r);
      }
    }
  }

  // A step by one job leaves what the others hold alone.
  lemma {:induction false} OthersStayOk(screener: bool, t: Tables, t': Tables, job: Job, stage: Stage, touched: Option<nat>)
    requires StageOk(screener, t, job, stage) && Touches(t, t', touched)
    requires RefOf(stage).Some? ==> RefOf(stage) != touched
    ensures StageOk(screener, t', job, stage)
  {
  }

  // Any other event appends to the entries, or releases one that no job holds.
  lemma {:induction false} OtherEntries(screener: bool, jobs: seq<Job>, w: World, e: Event)
    requires |w.stages| == |jobs| && !e.Move?
    ensures var t, t' := w.tables, Step(screener, jobs, w, e).tables;
            && Step(screener, jobs, w, e).stages == w.stages && |t.entries| <= |t'.entries|
            && (forall r :: 0 <= r < |t.entries| ==>
                  t'.entries[r] == t.entries[r] || (!OwnedByJob(w, r) && t'.entries[r] == t.entries[r].(live := false)))
            && (forall r :: |t.entries| <= r < |t'.entries| ==> !t'.entries[r].debited && t'.entries[r].amount > 0)
  {
    hide Balance, Used;
  }

  lemma {:induction false} OwnedStays(screener: bool, jobs: seq<Job>, w: World, e: Event, r: nat)
    requires Sound(screener, jobs, w) && !e.Move? && OwnedByJob(w, r)
    ensures var w' := Step(screener, jobs, w, e);
            OwnedByJob(w', r) && r < |w.tables.entries| <= |w'.tables.entries| && w'.tables.entries[r] == w.tables.entries[r]
  {
    OtherEntries(screener, jobs, w, e);
    hide Step;
    var w' := Step(screener, jobs, w, e);
    var i :| 0 <= i < |w.stages| && RefOf(w.stages[i]) == Some(r);
    assert StageOk(screener, w.tables, jobs[i], w.stages[i]);
    assert RefOf(w'.stages[i]) == Some(r);
  }

  lemma {:induction false} OtherIsSound(screener: bool, jobs: seq<Job>, w: World, e: Event)
    requires Sound(screener, jobs, w) && !e.Move?
    ensures Sound(screener, jobs, Step(screener, jobs, w, e))
  {
    var w' := Step(screener, jobs, w, e);
    forall r: nat | OwnedByJob(w, r)
      ensures OwnedByJob(w', r) && r < |w.tables.entries| <= |w'.tables.entries| && w'.tables.entries[r] == w.tables.entries[r]
    {
      OwnedStays(screener, jobs, w, e, r);
    }
    OtherEntries(screener, jobs, w, e);
    hide Step;
    forall i | 0 <= i < |jobs| ensures StageOk(screener, w'.tables, jobs[i], w'.stages[i]) {
      assert StageOk(screener, w.tables, jobs[i], w.stages[i]);
      if RefOf(w.stages[i]).Some? { assert OwnedByJob(w, RefOf(w.stages[i]).value); }
    }
    hide StageOk, OwnedByJob;
  }

  lemma {:induction false} StepIsSound(screener: bool, jobs: seq<Job>, w: World, e: Event)
    requires Sound(screener, jobs, w)
    ensures Sound(screener, jobs, Step(screener, jobs, w, e))
  {
    if !e.Move? {
      OtherIsSound(screener, jobs, w, e);
    } else if e.job < |jobs| {
      MoveIsSound(screener, jobs, w, e.job, e.facts);
    }
    hide Sound, Advance;
  }

  lemma {:induction false} RunIsSound(screener: bool, jobs: seq<Job>, w: World, events: seq<Event>)
    requires Sound(screener, jobs, w)
    ensures Sound(screener, jobs, Run(screener, jobs, w, events))
    decreases |events|
  {
    if events != [] {
      StepIsSound(screener, jobs, w, events[0]);
      RunIsSound(screener, jobs, Step(screener, jobs, w, events[0]), events[1..]);
    }
  }

  // ---------- failed exits ----------

  // What can go wrong on the way to one: the debit goes through and its acknowledgement is lost, or the release errs.
  datatype Mishap = DebitAckLost | ReleaseFailed

  predicate Suffers(jobs: seq<Job>, w: World, e: Event, i: nat, mishap: Mishap)
    requires i < |jobs| == |w.stages|
  {
    && e.Move? && e.job == i
    && match mishap
       case DebitAckLost => w.stages[i].AtPost? && e.facts.fault == LostAck
       case ReleaseFailed => w.stages[i].AtRelease? && e.facts.fault == Error
  }

  ghost predicate EverSuffers(screener: bool, jobs: seq<Job>, w: World, events: seq<Event>, i: nat, mishap: Mishap)
    requires i < |jobs| == |w.stages|
    decreases |events|
  {
    && events != []
    && (Suffers(jobs, w, events[0], i, mishap)
        || EverSuffers(screener, jobs, Step(screener, jobs, w, events[0]), events[1..], i, mishap))
  }

  // The trace each leaves in the tables.
  predicate Shows(w: World, i: nat, mishap: Mishap)
    requires i < |w.stages|
  {
    var ref := RefOf(w.stages[i]);
    && ref.Some? && ref.value < |w.tables.entries|
    && match mishap
       case DebitAckLost => (w.stages[i].AtRelease? || w.stages[i] == Finished(ref, Failed)) && w.tables.entries[ref.value].debited
       case ReleaseFailed => w.stages[i] == Finished(ref, Failed) && w.tables.entries[ref.value].live
  }

  lemma {:induction false} StepShows(screener: bool, jobs: seq<Job>, w: World, e: Event, i: nat, mishap: Mishap)
    requires Sound(screener, jobs, w) && i < |jobs|
    ensures Shows(Step(screener, jobs, w, e), i, mishap) <==> Shows(w, i, mishap) || Suffers(jobs, w, e, i, mishap)
  {
    hide Balance, Reserves;
    var w' := Step(screener, jobs, w, e);
    assert StageOk(screener, w.tables, jobs[i], w.stages[i]);
    if e.Move? && e.job < |jobs| && e.job != i {
      assert StageOk(screener, w.tables, jobs[e.job], w.stages[e.job]);
      AdvanceIsSound(screener, w.tables, jobs[e.job], w.stages[e.job], e.facts);
      assert RefOf(w.stages[i]).Some? ==> RefOf(w.stages[i]) != RefOf(w.stages[e.job]);
      hide Advance;
    } else if e.ReleaseOther? && RefOf(w.stages[i]).Some? {
      assert OwnedByJob(w, RefOf(w.stages[i]).value);
    }
  }

  lemma {:induction false} RunShows(screener: bool, jobs: seq<Job>, w: World, events: seq<Event>, i: nat, mishap: Mishap)
    requires Sound(screener, jobs, w) && i < |jobs|
    ensures Shows(Run(screener, jobs, w, events), i, mishap) <==> Shows(w, i, mishap) || EverSuffers(screener, jobs, w, events, i, mishap)
    decreases |events|
  {
    if events != [] {
      StepIsSound(screener, jobs, w, events[0]);
      StepShows(screener, jobs, w, events[0], i, mishap);
      RunShows(screener, jobs, Step(screener, jobs, w, events[0]), events[1..], i, mishap);
    }
    hide Step, Shows, Suffers, Sound;
  }

  /**
   Over any interleaving and any failures, from empty tables: a paid withdrawal is debited with its reservation live and,
   when there is a screener, a clear screening on record; one under review is not debited, keeps its reservation and has a
   screening that is not clear; a refused one is not debited. A failed one has been debited exactly when the debit went
   through with its acknowledgement lost, and keeps its reservation exactly when the release itself failed.
   */
  lemma {:induction false} EveryExitIsRight(screener: bool, jobs: seq<Job>, events: seq<Event>)
    ensures var w0, w := Start(jobs), Run(screener, jobs, Start(jobs), events);
            && Sound(screener, jobs, w)
            && forall i :: 0 <= i < |jobs| && w.stages[i].Finished? && w.stages[i].outcome == Failed ==>
                 var held := w.stages[i].held;
                 && held.Some?
                 && (w.tables.entries[held.value].debited <==> EverSuffers(screener, jobs, w0, events, i, DebitAckLost))
                 && (w.tables.entries[held.value].live <==> EverSuffers(screener, jobs, w0, events, i, ReleaseFailed))
  {
    StartIsSound(screener, jobs);
    RunIsSound(screener, jobs, Start(jobs), events);
    var w := Run(screener, jobs, Start(jobs), events);
    forall i | 0 <= i < |jobs| && w.stages[i].Finished? && w.stages[i].outcome == Failed
      ensures w.stages[i].held.Some?
      ensures w.tables.entries[w.stages[i].held.value].debited <==> EverSuffers(screener, jobs, Start(jobs), events, i, DebitAckLost)
      ensures w.tables.entries[w.stages[i].held.value].live <==> EverSuffers(screener, jobs, Start(jobs), events, i, ReleaseFailed)
    {
      assert StageOk(screener, w.tables, jobs[i], w.stages[i]);
      RunShows(screener, jobs, Start(jobs), events, i, DebitAckLost);
      RunShows(screener, jobs, Start(jobs), events, i, ReleaseFailed);
      hide Run, EverSuffers, Sound;
    }
  }

  // ---------- withdrawn is reserved ----------

  ghost predicate Covered(w: World) {
    forall r :: 0 <= r < |w.tables.entries| && w.tables.entries[r].debited ==> w.tables.entries[r].live
  }

  // A release that goes through although the debit did too: only a lost acknowledgement of the debit leads here.
  predicate ReleasesDebited(jobs: seq<Job>, w: World, e: Event)
    requires |w.stages| == |jobs|
  {
    && e.Move? && e.job < |jobs| && w.stages[e.job].AtRelease? && e.facts.fault != Error
    && w.stages[e.job].ref < |w.tables.entries| && w.tables.entries[w.stages[e.job].ref].debited
  }

  ghost predicate NeverReleasesDebited(screener: bool, jobs: seq<Job>, w: World, events: seq<Event>)
    requires |w.stages| == |jobs|
    decreases |events|
  {
    events == []
    || (!ReleasesDebited(jobs, w, events[0])
        && NeverReleasesDebited(screener, jobs, Step(screener, jobs, w, events[0]), events[1..]))
  }

  lemma {:induction false} StepCovers(screener: bool, jobs: seq<Job>, w: World, e: Event)
    requires Sound(screener, jobs, w)
    ensures Covered(w) ==> (Covered(Step(screener, jobs, w, e)) <==> !ReleasesDebited(jobs, w, e))
    ensures !Covered(w) ==> !Covered(Step(screener, jobs, w, e))
  {
    var w' := Step(screener, jobs, w, e);
    if e.Move? && e.job < |jobs| {
      assert StageOk(screener, w.tables, jobs[e.job], w.stages[e.job]);
      MoveCovers(screener, w.tables, jobs[e.job], w.stages[e.job], e.facts);
      if ReleasesDebited(jobs, w, e) {
        var r := w.stages[e.job].ref;
        assert w'.tables.entries[r].debited && !w'.tables.entries[r].live;
      }
    }
    if !Covered(w) {
      var r :| 0 <= r < |w.tables.entries| && w.tables.entries[r].debited && !w.tables.entries[r].live;
      assert w'.tables.entries[r].debited && !w'.tables.entries[r].live;
    }
  }

  lemma {:induction false} MoveCovers(screener: bool, t: Tables, job: Job, stage: Stage, f: Facts)
    requires StageOk(screener, t, job, stage)
    ensures var t' := Advance(screener, t, job, stage, f).0;
            && |t.entries| <= |t'.entries|
            && (forall r :: 0 <= r < |t.entries| && t.entries[r].debited ==> t'.entries[r].debited && (t'.entries[r].live ==> t.entries[r].live))
            && (forall r :: 0 <= r < |t'.entries| && t'.entries[r].debited && !t'.entries[r].live ==>
                  r < |t.entries| && t.entries[r].debited
                  && (t.entries[r].live ==> stage == AtRelease(r) && f.fault != Error))
  {
  }

  lemma {:induction false} RunCovers(screener: bool, jobs: seq<Job>, w: World, events: seq<Event>)
    requires Sound(screener, jobs, w)
    ensures Covered(Run(screener, jobs, w, events)) <==> Covered(w) && NeverReleasesDebited(screener, jobs, w, events)
    decreases |events|
  {
    if events != [] {
      StepIsSound(screener, jobs, w, events[0]);
      StepCovers(screener, jobs, w, events[0]);
      RunCovers(screener, jobs, Step(screener, jobs, w, events[0]), events[1..]);
    }
  }

  // Every debit of a run is covered by a live reservation if and only if no release goes through on a debited withdrawal.
  lemma {:induction false} CoveredIffNeverReleasedDebited(screener: bool, jobs: seq<Job>, events: seq<Event>)
    ensures Covered(Run(screener, jobs, Start(jobs), events)) <==> NeverReleasesDebited(screener, jobs, Start(jobs), events)
  {
    StartIsSound(screener, jobs);
    RunCovers(screener, jobs, Start(jobs), events);
  }

  // Failed releases, outages and refusals all leave the debits covered: only a lost acknowledgement can uncover one.
  lemma {:induction false} CoveredWithoutLostAcks(screener: bool, jobs: seq<Job>, events: seq<Event>)
    requires forall k :: 0 <= k < |events| && events[k].Move? ==> events[k].facts.fault != LostAck
    ensures Covered(Run(screener, jobs, Start(jobs), events))
  {
    StartIsSound(screener, jobs);
    CoveredFrom(screener, jobs, Start(jobs), events);
  }

  lemma {:induction false} CoveredFrom(screener: bool, jobs: seq<Job>, w: World, events: seq<Event>)
    requires Sound(screener, jobs, w) && Covered(w) && NothingDebitedToRelease(w)
    requires forall k :: 0 <= k < |events| && events[k].Move? ==> events[k].facts.fault != LostAck
    ensures Covered(Run(screener, jobs, w, events))
    decreases |events|
  {
    if events != [] {
      var e, w' := events[0], Step(screener, jobs, w, events[0]);
      StepIsSound(screener, jobs, w, e);
      StepCovers(screener, jobs, w, e);
      NothingDebitedStep(screener, jobs, w, e);
      assert forall k :: 0 <= k < |events[1..]| ==> events[1..][k] == events[k + 1];
      CoveredFrom(screener, jobs, w', events[1..]);
    }
  }

  lemma {:induction false} NothingDebitedStep(screener: bool, jobs: seq<Job>, w: World, e: Event)
    requires Sound(screener, jobs, w) && NothingDebitedToRelease(w) && (e.Move? ==> e.facts.fault != LostAck)
    ensures NothingDebitedToRelease(Step(screener, jobs, w, e))
  {
    var w' := Step(screener, jobs, w, e);
    forall i | 0 <= i < |w'.stages| && w'.stages[i].AtRelease? && w'.stages[i].ref < |w'.tables.entries|
      ensures !w'.tables.entries[w'.stages[i].ref].debited
    {
      assert StageOk(screener, w.tables, jobs[i], w.stages[i]);
      if e.Move? && e.job < |jobs| {
        assert StageOk(screener, w.tables, jobs[e.job], w.stages[e.job]);
        AdvanceIsSound(screener, w.tables, jobs[e.job], w.stages[e.job], e.facts);
        assert i != e.job && RefOf(w.stages[i]).Some? ==> RefOf(w.stages[i]) != RefOf(w.stages[e.job]);
      }
    }
  }

  ghost predicate NothingDebitedToRelease(w: World) {
    forall i :: 0 <= i < |w.stages| && w.stages[i].AtRelease? && w.stages[i].ref < |w.tables.entries| ==>
      !w.tables.entries[w.stages[i].ref].debited
  }

  // ---------- the daily and the monthly ceiling ----------

  predicate Counts(e: Entry, subject: nat, period: Period, from: int) {
    e.subject == subject && PeriodStart(period, e.at) == from
  }

  // The live reservations of a subject in the period that begins at `from`.
  function LiveIn(entries: seq<Entry>, subject: nat, period: Period, from: int): int {
    if entries == [] then 0
    else (if entries[0].live && Counts(entries[0], subject, period, from) then entries[0].amount else 0)
         + LiveIn(entries[1..], subject, period, from)
  }

  function WithdrawnIn(entries: seq<Entry>, subject: nat, period: Period, from: int): int {
    if entries == [] then 0
    else (if entries[0].debited && Counts(entries[0], subject, period, from) then entries[0].amount else 0)
         + WithdrawnIn(entries[1..], subject, period, from)
  }

  lemma {:induction false} LiveInAppend(entries: seq<Entry>, e: Entry, subject: nat, period: Period, from: int)
    ensures LiveIn(entries + [e], subject, period, from) ==
            LiveIn(entries, subject, period, from) + if e.live && Counts(e, subject, period, from) then e.amount else 0
  {
    if entries == [] {
      assert entries + [e] == [e];
    } else {
      assert (entries + [e])[1..] == entries[1..] + [e];
      LiveInAppend(entries[1..], e, subject, period, from);
    }
  }

  // Releasing only lowers the total; nothing else about an entry matters to it.
  lemma {:induction false} LiveInUpdate(entries: seq<Entry>, r: nat, e: Entry, subject: nat, period: Period, from: int)
    requires r < |entries| && e.subject == entries[r].subject && e.at == entries[r].at && e.amount == entries[r].amount >= 0
    requires e.live ==> entries[r].live
    ensures LiveIn(entries[r := e], subject, period, from) <= LiveIn(entries, subject, period, from)
  {
    if r == 0 {
      assert entries[r := e][1..] == entries[1..];
    } else {
      assert entries[r := e][1..] == entries[1..][r - 1 := e];
      LiveInUpdate(entries[1..], r - 1, e, subject, period, from);
    }
  }

  predicate Positive(entries: seq<Entry>) {
    forall r :: 0 <= r < |entries| ==> entries[r].amount > 0
  }

  // The window the store sums is open-ended, so one that begins at the period's start or before takes in all of it.
  lemma {:induction false} WindowCovers(entries: seq<Entry>, subject: nat, period: Period, from: int, since: int)
    requires Positive(entries) && since <= from
    ensures LiveIn(entries, subject, period, from) <= Used(entries, subject, since)
  {
    if entries != [] { WindowCovers(entries[1..], subject, period, from, since); }
  }

  lemma {:induction false} WithdrawnWithinLive(entries: seq<Entry>, subject: nat, period: Period, from: int)
    requires Positive(entries) && forall r :: 0 <= r < |entries| ==> (entries[r].debited ==> entries[r].live)
    ensures WithdrawnIn(entries, subject, period, from) <= LiveIn(entries, subject, period, from)
  {
    if entries != [] { WithdrawnWithinLive(entries[1..], subject, period, from); }
  }

  function LimitOf(limits: Limits, period: Period): int {
    if period.Daily? then limits.daily else limits.monthly
  }

  // The check is not read in a later period than the one the row is stamped in.
  predicate ChecksItsPeriod(f: Facts, period: Period) {
    PeriodStart(period, f.now) <= PeriodStart(period, f.began)
  }

  // The facts of a reservation attempt by the subject, if the event is one.
  function AttemptBy(jobs: seq<Job>, e: Event, subject: nat): Option<Facts> {
    match e
    case Move(i, f) => if i < |jobs| && jobs[i].subject == subject then Some(f) else None
    case ReserveOther(s, _, f) => if s == subject then Some(f) else None
    case _ => None
  }

  // Every ceiling in force when the subject reserves is set and at most `ceiling`.
  predicate Capped(jobs: seq<Job>, e: Event, subject: nat, period: Period, ceiling: int) {
    var f := AttemptBy(jobs, e, subject);
    f.Some? ==> 0 < LimitOf(f.value.limits, period) <= ceiling
  }

  predicate InItsPeriod(jobs: seq<Job>, e: Event, subject: nat, period: Period) {
    var f := AttemptBy(jobs, e, subject);
    f.Some? ==> ChecksItsPeriod(f.value, period)
  }

  lemma {:induction false} ReserveStaysCapped(t: Tables, s: nat, amount: int, f: Facts, subject: nat, period: Period, from: int, ceiling: int)
    requires Reserves(t, s, amount, f) && Positive(t.entries) && LiveIn(t.entries, subject, period, from) <= ceiling
    requires s == subject ==> 0 < LimitOf(f.limits, period) <= ceiling && ChecksItsPeriod(f, period)
    ensures LiveIn(Reserved(t, s, amount, f).entries, subject, period, from) <= ceiling
  {
    var e := Entry(s, f.began, amount, true, None, false);
    LiveInAppend(t.entries, e, subject, period, from);
    if Counts(e, subject, period, from) { WindowCovers(t.entries, subject, period, from, PeriodStart(period, f.now)); }
  }

  /**
   Whatever the tables, a reservation keeps its period's total within the ceiling exactly when it is not checked in a later
   period than it is stamped in. The stamp is the start of the transaction and the check comes after the wait for the
   subject's lock, so one that waits across midnight is summed against the new day and recorded in the old.
   */
  lemma {:induction false} CeilingKeptIffChecksItsPeriod(f: Facts, subject: nat, period: Period, ceiling: int)
    requires f.fault != Error && ceiling > 0 && f.limits == Limits(0, if period.Daily? then ceiling else 0, if period.Daily? then 0 else ceiling)
    ensures (forall t, amount :: KeepsCeiling(t, amount, f, subject, period, ceiling)) <==> ChecksItsPeriod(f, period)
  {
    hide DayStart, MonthStart;
    var from := PeriodStart(period, f.began);
    if ChecksItsPeriod(f, period) {
      forall t, amount ensures KeepsCeiling(t, amount, f, subject, period, ceiling) {
        if Reserves(t, subject, amount, f) && Positive(t.entries) && LiveIn(t.entries, subject, period, from) <= ceiling {
          ReserveStaysCapped(t, subject, amount, f, subject, period, from, ceiling);
        }
      }
    } else {
      var e := Entry(subject, f.began, ceiling, true, None, false);
      var t := Tables([e], map[], {}, []);
      PeriodsInOrder(period, f.now, f.began);
      assert t.entries[1..] == [];
      LiveInAppend([], e, subject, period, from);
      assert [] + [e] == [e];
      LiveInAppend(t.entries, e, subject, period, from);
      UsedAfter(f, subject, ceiling, period);
      assert !KeepsCeiling(t, ceiling, f, subject, period, ceiling);
    }
  }

  lemma {:induction false} UsedAfter(f: Facts, subject: nat, ceiling: int, period: Period)
    requires f.began < PeriodStart(period, f.now)
    ensures Used([Entry(subject, f.began, ceiling, true, None, false)], subject, PeriodStart(period, f.now)) == 0
  {
  }

  predicate KeepsCeiling(t: Tables, amount: int, f: Facts, subject: nat, period: Period, ceiling: int) {
    var from := PeriodStart(period, f.began);
    Reserves(t, subject, amount, f) && Positive(t.entries) && LiveIn(t.entries, subject, period, from) <= ceiling ==>
      LiveIn(Reserved(t, subject, amount, f).entries, subject, period, from) <= ceiling
  }

  lemma {:induction false} StepStaysCapped(screener: bool, jobs: seq<Job>, w: World, e: Event, subject: nat, period: Period, from: int, ceiling: int)
    requires Sound(screener, jobs, w) && Capped(jobs, e, subject, period, ceiling) && InItsPeriod(jobs, e, subject, period)
    requires LiveIn(w.tables.entries, subject, period, from) <= ceiling
    ensures LiveIn(Step(screener, jobs, w, e).tables.entries, subject, period, from) <= ceiling
  {
    hide Balance, PeriodStart;
    var t, t' := w.tables, Step(screener, jobs, w, e).tables;
    if e.Move? && e.job < |jobs| {
      var stage := w.stages[e.job];
      assert StageOk(screener, t, jobs[e.job], stage);
      if stage.AtReserve? {
        if Reserves(t, jobs[e.job].subject, jobs[e.job].amount, e.facts) {
          ReserveStaysCapped(t, jobs[e.job].subject, jobs[e.job].amount, e.facts, subject, period, from, ceiling);
        }
      } else if RefOf(stage).Some? {
        var r := RefOf(stage).value;
        AdvanceRewrites(screener, t, jobs[e.job], stage, e.facts);
        LiveInUpdate(t.entries, r, t'.entries[r], subject, period, from);
        hide Advance;
      }
    } else if e.ReserveOther? {
      if Reserves(t, e.subject, e.amount, e.facts) { ReserveStaysCapped(t, e.subject, e.amount, e.facts, subject, period, from, ceiling); }
    } else if e.ReleaseOther? && e.ref < |t.entries| {
      LiveInUpdate(t.entries, e.ref, t.entries[e.ref].(live := false), subject, period, from);
    }
    hide Reserves;
  }

  lemma {:induction false} AdvanceRewrites(screener: bool, t: Tables, job: Job, stage: Stage, f: Facts)
    requires StageOk(screener, t, job, stage) && RefOf(stage).Some? && !stage.AtReserve?
    ensures var r, t' := RefOf(stage).value, Advance(screener, t, job, stage, f).0;
            && |t'.entries| == |t.entries| && t'.entries == t.entries[r := t'.entries[r]]
            && t'.entries[r].subject == t.entries[r].subject && t'.entries[r].at == t.entries[r].at
            && t'.entries[r].amount == t.entries[r].amount && (t'.entries[r].live ==> t.entries[r].live)
  {
  }

  predicate AllCapped(jobs: seq<Job>, events: seq<Event>, subject: nat, period: Period, ceiling: int) {
    forall k :: 0 <= k < |events| ==> Capped(jobs, events[k], subject, period, ceiling)
  }

  predicate AllInPeriod(jobs: seq<Job>, events: seq<Event>, subject: nat, period: Period) {
    forall k :: 0 <= k < |events| ==> InItsPeriod(jobs, events[k], subject, period)
  }

  lemma {:induction false} RunStaysCapped(screener: bool, jobs: seq<Job>, w: World, events: seq<Event>,
                                          subject: nat, period: Period, from: int, ceiling: int)
    requires Sound(screener, jobs, w) && AllCapped(jobs, events, subject, period, ceiling) && AllInPeriod(jobs, events, subject, period)
    requires LiveIn(w.tables.entries, subject, period, from) <= ceiling
    ensures LiveIn(Run(screener, jobs, w, events).tables.entries, subject, period, from) <= ceiling
    decreases |events|
  {
    if events != [] {
      assert Capped(jobs, events[0], subject, period, ceiling) && InItsPeriod(jobs, events[0], subject, period);
      StepIsSound(screener, jobs, w, events[0]);
      StepStaysCapped(screener, jobs, w, events[0], subject, period, from, ceiling);
      assert forall k :: 0 <= k < |events[1..]| ==> events[1..][k] == events[k + 1];
      RunStaysCapped(screener, jobs, Step(screener, jobs, w, events[0]), events[1..], subject, period, from, ceiling);
    }
    hide Capped, InItsPeriod, Sound, Step, LiveIn;
  }

  /**
   In every Lagos day and every Lagos month, whatever order the steps and the clock readings come in: a subject's live
   reservations are at most the highest ceiling in force, provided none is checked in a later period than it is stamped in,
   and so is what was withdrawn against them while every debit is covered.
   */
  lemma {:induction false} PeriodStaysWithinCeiling(screener: bool, jobs: seq<Job>, events: seq<Event>,
                                                    subject: nat, period: Period, from: int, ceiling: nat)
    requires AllCapped(jobs, events, subject, period, ceiling) && AllInPeriod(jobs, events, subject, period)
    ensures var w := Run(screener, jobs, Start(jobs), events);
            && LiveIn(w.tables.entries, subject, period, from) <= ceiling
            && (Covered(w) ==> WithdrawnIn(w.tables.entries, subject, period, from) <= LiveIn(w.tables.entries, subject, period, from))
  {
    StartIsSound(screener, jobs);
    RunIsSound(screener, jobs, Start(jobs), events);
    RunStaysCapped(screener, jobs, Start(jobs), events, subject, period, from, ceiling);
    var w := Run(screener, jobs, Start(jobs), events);
    if Covered(w) { WithdrawnWithinLive(w.tables.entries, subject, period, from); }
    hide Run, LiveIn, WithdrawnIn, AllCapped, AllInPeriod;
  }

  // ---------- conservation ----------

  function Debits(entries: seq<Entry>, subject: nat): int {
    if entries == [] then 0
    else (if entries[0].debited && entries[0].subject == subject then entries[0].amount else 0) + Debits(entries[1..], subject)
  }

  // What an event other than a withdrawal brings to a wallet, or takes from it.
  function Otherwise(w: World, e: Event, subject: nat): int {
    match e
    case Deposit(s, kobo) => if s == subject then kobo else 0
    case PostOther(c) => if c < |w.checks| && !w.checks[c].posted && w.checks[c].subject == subject then -(w.checks[c].kobo as int) else 0
    case Undo(p) => if p < |w.tables.postings| then -Net(w.tables.postings[p], subject) else 0
    case _ => 0
  }

  ghost function OtherwiseOver(screener: bool, jobs: seq<Job>, w: World, events: seq<Event>, subject: nat): int
    requires |w.stages| == |jobs|
    decreases |events|
  {
    if events == [] then 0
    else Otherwise(w, events[0], subject) + OtherwiseOver(screener, jobs, Step(screener, jobs, w, events[0]), events[1..], subject)
  }

  lemma {:induction false} BalanceAppend(postings: seq<Posting>, p: Posting, subject: nat)
    ensures Balance(postings + [p], subject) == Balance(postings, subject) + Net(p, subject)
  {
    if postings == [] {
      assert postings + [p] == [p];
    } else {
      assert (postings + [p])[1..] == postings[1..] + [p];
      BalanceAppend(postings[1..], p, subject);
    }
  }

  lemma {:induction false} BalanceUpdate(postings: seq<Posting>, i: nat, p: Posting, subject: nat)
    requires i < |postings|
    ensures Balance(postings[i := p], subject) == Balance(postings, subject) - Net(postings[i], subject) + Net(p, subject)
  {
    if i == 0 {
      assert postings[i := p][1..] == postings[1..];
    } else {
      assert postings[i := p][1..] == postings[1..][i - 1 := p];
      BalanceUpdate(postings[1..], i - 1, p, subject);
    }
  }

  lemma {:induction false} DebitsAppend(entries: seq<Entry>, e: Entry, subject: nat)
    requires !e.debited
    ensures Debits(entries + [e], subject) == Debits(entries, subject)
  {
    if entries == [] {
      assert entries + [e] == [e];
    } else {
      assert (entries + [e])[1..] == entries[1..] + [e];
      DebitsAppend(entries[1..], e, subject);
    }
  }

  lemma {:induction false} DebitsUpdate(entries: seq<Entry>, r: nat, e: Entry, subject: nat)
    requires r < |entries| && e.subject == entries[r].subject && e.amount == entries[r].amount
    requires entries[r].debited ==> e.debited
    ensures Debits(entries[r := e], subject) ==
            Debits(entries, subject) + if e.debited && !entries[r].debited && e.subject == subject then e.amount else 0
  {
    if r == 0 {
      assert entries[r := e][1..] == entries[1..];
    } else {
      assert entries[r := e][1..] == entries[1..][r - 1 := e];
      DebitsUpdate(entries[1..], r - 1, e, subject);
    }
  }

  lemma {:induction false} MoveConserves(screener: bool, t: Tables, job: Job, stage: Stage, f: Facts, subject: nat)
    requires StageOk(screener, t, job, stage)
    ensures var t' := Advance(screener, t, job, stage, f).0;
            Balance(t'.postings, subject) + Debits(t'.entries, subject) == Balance(t.postings, subject) + Debits(t.entries, subject)
  {
    var t' := Advance(screener, t, job, stage, f).0;
    if stage.AtReserve? {
      DebitsAppend(t.entries, Entry(job.subject, f.began, job.amount, true, None, false), subject);
    } else if RefOf(stage).Some? {
      var r := RefOf(stage).value;
      AdvanceRewrites(screener, t, job, stage, f);
      DebitsUpdate(t.entries, r, t'.entries[r], subject);
      BalanceAppend(t.postings, Posting(job.subject, false, job.amount, false), subject);
    }
  }

  lemma {:induction false} StepConserves(screener: bool, jobs: seq<Job>, w: World, e: Event, subject: nat)
    requires Sound(screener, jobs, w)
    ensures var t, t' := w.tables, Step(screener, jobs, w, e).tables;
            Balance(t'.postings, subject) + Debits(t'.entries, subject) ==
            Balance(t.postings, subject) + Debits(t.entries, subject) + Otherwise(w, e, subject)
  {
    var t := w.tables;
    if e.Move? && e.job < |jobs| {
      assert StageOk(screener, t, jobs[e.job], w.stages[e.job]);
      MoveConserves(screener, t, jobs[e.job], w.stages[e.job], e.facts, subject);
    } else if e.ReserveOther? {
      DebitsAppend(t.entries, Entry(e.subject, e.facts.began, e.amount, true, None, false), subject);
    } else if e.ReleaseOther? && e.ref < |t.entries| {
      DebitsUpdate(t.entries, e.ref, t.entries[e.ref].(live := false), subject);
    } else if e.Deposit? {
      BalanceAppend(t.postings, Posting(e.subject, true, e.kobo, false), subject);
    } else if e.PostOther? && e.check < |w.checks| {
      BalanceAppend(t.postings, Posting(w.checks[e.check].subject, false, w.checks[e.check].kobo, false), subject);
    } else if e.Undo? && e.posting < |t.postings| {
      BalanceUpdate(t.postings, e.posting, t.postings[e.posting].(reversed := true), subject);
    }
    hide Balance, Debits, Advance;
  }

  lemma {:induction false} RunConserves(screener: bool, jobs: seq<Job>, w: World, events: seq<Event>, subject: nat)
    requires Sound(screener, jobs, w)
    ensures var t' := Run(screener, jobs, w, events).tables;
            Balance(t'.postings, subject) + Debits(t'.entries, subject) ==
            Balance(w.tables.postings, subject) + Debits(w.tables.entries, subject) + OtherwiseOver(screener, jobs, w, events, subject)
    decreases |events|
  {
    if events != [] {
      StepIsSound(screener, jobs, w, events[0]);
      StepConserves(screener, jobs, w, events[0], subject);
      RunConserves(screener, jobs, Step(screener, jobs, w, events[0]), events[1..], subject);
    }
    hide Balance, Debits, Step, Otherwise;
  }

  // What a subject has, plus what was withdrawn, is what came in less other debits and with reversals counted: each withdrawal
  // is debited at most once.
  lemma {:induction false} MoneyIsConserved(screener: bool, jobs: seq<Job>, events: seq<Event>, subject: nat)
    ensures var t := Run(screener, jobs, Start(jobs), events).tables;
            Balance(t.postings, subject) + Debits(t.entries, subject) == OtherwiseOver(screener, jobs, Start(jobs), events, subject)
  {
    StartIsSound(screener, jobs);
    RunConserves(screener, jobs, Start(jobs), events, subject);
    hide Run, OtherwiseOver;
  }

  // ---------- runs on which a promise fails ----------

  function At(began: int, now: int, fault: Fault): Facts {
    Facts(fault, began, now, Limits(0, 5, 0), None)
  }

  // A deposit of 5, a withdrawal of 5 whose debit goes through with its acknowledgement lost, and the release of it.
  function LostDebit(): seq<Event> {
    [Deposit(0, 5), SetActive(0, true), Move(0, At(0, 0, Ok)), Move(0, At(0, 0, Ok)), Move(0, At(0, 0, LostAck)), Move(0, At(0, 0, Ok))]
  }

  function OneWithdrawal(): seq<Job> { [Job(0, 5)] }

  const TOP_UP := Posting(0, true, 5, false)
  const DEBIT := Posting(0, false, 5, false)

  function Funded(): World {
    World(Tables([], map[0 := true], {}, [TOP_UP]), [AtReserve], [])
  }

  function Read(): World {
    World(Tables([Entry(0, 0, 5, true, None, false)], map[0 := true], {}, [TOP_UP]), [AtPost(0, 5)], [])
  }

  function Debited(): World {
    World(Tables([Entry(0, 0, 5, true, None, true)], map[0 := true], {}, [TOP_UP, DEBIT]), [AtRelease(0)], [])
  }

  lemma {:induction false} Funds()
    ensures var jobs := OneWithdrawal();
            Step(false, jobs, Step(false, jobs, Start(jobs), Deposit(0, 5)), SetActive(0, true)) == Funded()
  {
  }

  // The balances of a wallet that was topped up by 5, and of one from which 5 was then withdrawn.
  lemma {:induction false} FiveIn()
    ensures Balance([TOP_UP], 0) == 5 && Balance([TOP_UP, DEBIT], 0) == 0
  {
    assert [TOP_UP][1..] == [] && [TOP_UP, DEBIT] == [TOP_UP] + [DEBIT];
    BalanceAppend([TOP_UP], DEBIT, 0);
  }

  lemma {:induction false} ReservesAndReads()
    ensures var jobs := OneWithdrawal();
            Step(false, jobs, Step(false, jobs, Funded(), Move(0, At(0, 0, Ok))), Move(0, At(0, 0, Ok))) == Read()
  {
    hide MonthStart;
    FiveIn();
    var w := Step(false, OneWithdrawal(), Funded(), Move(0, At(0, 0, Ok)));
    assert w == World(Tables([Entry(0, 0, 5, true, None, false)], map[0 := true], {}, [TOP_UP]), [AtDebit(0)], []);
  }

  lemma {:induction false} PostsAndReleases()
    ensures var jobs := OneWithdrawal();
            var w := Step(false, jobs, Step(false, jobs, Read(), Move(0, At(0, 0, LostAck))), Move(0, At(0, 0, Ok)));
            && w.stages == [Finished(Some(0), Failed)] && w.tables.postings == [TOP_UP, DEBIT]
            && w.tables.entries == [Entry(0, 0, 5, false, None, true)]
  {
    assert [TOP_UP] + [DEBIT] == [TOP_UP, DEBIT] && Step(false, OneWithdrawal(), Read(), Move(0, At(0, 0, LostAck))) == Debited();
  }

  // The money has left the wallet, the withdrawal is reported failed and nothing is reserved for it.
  lemma {:induction false} ADebitCanBeUncovered()
    ensures var w := Run(false, OneWithdrawal(), Start(OneWithdrawal()), LostDebit());
            && w.stages == [Finished(Some(0), Failed)] && Balance(w.tables.postings, 0) == 0
            && w.tables.entries == [Entry(0, 0, 5, false, None, true)] && !Covered(w)
  {
    var e := LostDebit();
    Funds();
    FiveIn();
    ReservesAndReads();
    PostsAndReleases();
    assert |Start(OneWithdrawal()).stages| == |OneWithdrawal()|;
    hide Step, Start, At, Funded, Balance;
    RunSix(false, OneWithdrawal(), Start(OneWithdrawal()), e[0], e[1], e[2], e[3], e[4], e[5]);
    var w := Run(false, OneWithdrawal(), Start(OneWithdrawal()), LostDebit());
    assert w.tables.entries[0].debited && !w.tables.entries[0].live;
  }

  lemma {:induction false} RunThree(screener: bool, jobs: seq<Job>, w: World, a: Event, b: Event, c: Event, more: seq<Event>)
    requires |w.stages| == |jobs|
    ensures Run(screener, jobs, w, [a, b, c] + more) ==
            Run(screener, jobs, Step(screener, jobs, Step(screener, jobs, Step(screener, jobs, w, a), b), c), more)
  {
    hide Step;
    var es := [a, b, c] + more;
    assert es[1..] == [b, c] + more && es[1..][1..] == [c] + more && es[1..][1..][1..] == more;
    assert Run(screener, jobs, w, es) == Run(screener, jobs, Step(screener, jobs, w, a), es[1..]);
  }

  lemma {:induction false} RunSix(screener: bool, jobs: seq<Job>, w: World, a: Event, b: Event, c: Event, d: Event, e: Event, f: Event)
    requires |w.stages| == |jobs|
    ensures Run(screener, jobs, w, [a, b, c, d, e, f]) ==
            Step(screener, jobs, Step(screener, jobs, Step(screener, jobs,
              Step(screener, jobs, Step(screener, jobs, Step(screener, jobs, w, a), b), c), d), e), f)
  {
    hide Step;
    assert [a, b, c, d, e, f] == [a, b, c] + [d, e, f] && [d, e, f] == [d, e, f] + [];
    RunThree(screener, jobs, w, a, b, c, [d, e, f]);
    RunThree(screener, jobs, Step(screener, jobs, Step(screener, jobs, Step(screener, jobs, w, a), b), c), d, e, f, []);
  }

  // Two withdrawals of 5 under a daily ceiling of 5: the second begins a second before midnight and is checked a second after.
  function AcrossMidnight(): seq<Event> {
    [Move(0, At(82_000, 82_000, Ok)), Move(1, At(82_799, 82_801, Ok))]
  }

  // Both are recorded on the same day, whose live reservations are then twice its ceiling.
  lemma {:induction false} ADayCanExceedItsCeiling()
    ensures var jobs := [Job(0, 5), Job(0, 5)];
            var w := Run(false, jobs, Start(jobs), AcrossMidnight());
            && w.stages == [AtDebit(0), AtDebit(1)] && AllCapped(jobs, AcrossMidnight(), 0, Daily, 5)
            && LiveIn(w.tables.entries, 0, Daily, -3_600) == 10
  {
    hide MonthStart;
    var jobs := [Job(0, 5), Job(0, 5)];
    var first, second := AcrossMidnight()[0], AcrossMidnight()[1];
    var w1 := Step(false, jobs, Start(jobs), first);
    var e1, e2 := Entry(0, 82_000, 5, true, None, false), Entry(0, 82_799, 5, true, None, false);
    assert w1 == World(Tables([e1], map[], {}, []), [AtDebit(0), AtReserve], []);
    assert [e1][1..] == [] && [e1] + [e2] == [e1, e2];
    var w2 := Step(false, jobs, w1, second);
    assert w2 == World(Tables([e1, e2], map[], {}, []), [AtDebit(0), AtDebit(1)], []);
    assert [e1, e2][1..] == [e2] && [e2][1..] == [];
    assert LiveIn([e2], 0, Daily, -3_600) == 5;
    assert AcrossMidnight()[1..] == [second] && [second][1..] == [];
    assert Run(false, jobs, w1, [second]) == Run(false, jobs, w2, []);
  }
}
