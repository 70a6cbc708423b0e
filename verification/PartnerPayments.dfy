/**
 POST /api/v1/payments as a concurrent protocol.

 Each request walks through its own sequence of store calls against one shared payments table. Any number
 of requests are interleaved arbitrarily, one store call at a time, and every store call may also fail:
 either without effect, or with its effect applied but the acknowledgement lost.

 The table is a plain set of rows. Uniqueness of (merchant, merchant_reference) and of
 (merchant, idempotency_key) is not built into its type: it is what the claiming update checks.
 */
module PartnerPayments {
  import opened StoreCalls
  import opened Wrappers

  datatype Payment = Payment(merchant: nat, reference: string, key: string)

  datatype Db = Db(payments: map<nat, Payment>, next: nat)

  // A validated request: the reference has been trimmed and is not empty; the key is optional ("").
  datatype Request = Request(merchant: nat, reference: string, key: string)

  datatype Reply = Paid(id: nat) | ServerError

  // The next store call a request is about to make.
  datatype Pc =
    | AtKey
    | AtReference
    | AtDraft
    | AtClaim(draft: nat)
    | AtReread(draft: nat)
    | Done(reply: Reply)

  // ---------- the table ----------

  ghost predicate Owns(db: Db, id: nat, merchant: nat, reference: string) {
    id in db.payments && db.payments[id].merchant == merchant && db.payments[id].reference == reference
  }

  ghost predicate HasKey(db: Db, id: nat, merchant: nat, key: string) {
    id in db.payments && db.payments[id].merchant == merchant && db.payments[id].key == key
  }

  ghost predicate UniqueReference(db: Db) {
    forall a, b, m, r :: Owns(db, a, m, r) && Owns(db, b, m, r) && r != "" ==> a == b
  }

  ghost predicate UniqueKey(db: Db) {
    forall a, b, m, k :: HasKey(db, a, m, k) && HasKey(db, b, m, k) && k != "" ==> a == b
  }

  // Both partial unique indexes hold and ids are handed out in order.
  ghost predicate Consistent(db: Db) {
    && (forall id :: id in db.payments ==> id < db.next)
    && UniqueReference(db)
    && UniqueKey(db)
  }

  ghost function ByReference(db: Db, merchant: nat, reference: string): (r: Option<nat>)
    ensures r.Some? ==> Owns(db, r.value, merchant, reference)
    ensures r.None? ==> forall id :: !Owns(db, id, merchant, reference)
  {
    if id :| Owns(db, id, merchant, reference) then Some(id) else None
  }

  ghost function ByKey(db: Db, merchant: nat, key: string): (r: Option<nat>)
    ensures r.Some? ==> HasKey(db, r.value, merchant, key)
    ensures r.None? ==> forall id :: !HasKey(db, id, merchant, key)
  {
    if id :| HasKey(db, id, merchant, key) then Some(id) else None
  }

  function InsertDraft(db: Db, merchant: nat): Db {
    Db(db.payments[db.next := Payment(merchant, "", "")], db.next + 1)
  }

  // The row the claiming update would write. Without a request key the column falls back to the row's
  // merchant_reference as it was before the update, which is empty for a draft.
  function Claimed(row: Payment, q: Request): Payment {
    Payment(row.merchant, q.reference, if q.key != "" then q.key else row.reference)
  }

  ghost predicate Conflicts(db: Db, draft: nat, q: Request)
    requires draft in db.payments
  {
    var row := Claimed(db.payments[draft], q);
    exists id :: id in db.payments && id != draft && db.payments[id].merchant == row.merchant
              && ((row.reference != "" && db.payments[id].reference == row.reference)
                  || (row.key != "" && db.payments[id].key == row.key))
  }

  // SetPaymentInitiationMeta: an update that the unique indexes may refuse.
  ghost function Claim(db: Db, draft: nat, q: Request): Option<Db> {
    if draft !in db.payments then Some(db)
    else if Conflicts(db, draft, q) then None
    else Some(db.(payments := db.payments[draft := Claimed(db.payments[draft], q)]))
  }

  // ---------- one request ----------

  function Start(q: Request): Pc {
    if q.key != "" then AtKey else AtReference
  }

  ghost function Step(db: Db, q: Request, pc: Pc, fault: Fault): (Db, Pc) {
    match pc
    case AtKey =>
      if fault != Ok then (db, Done(ServerError))
      else (match ByKey(db, q.merchant, q.key)
            case Some(id) => (db, Done(Paid(id)))
            case None => (db, AtReference))
    case AtReference =>
      if fault != Ok then (db, Done(ServerError))
      else (match ByReference(db, q.merchant, q.reference)
            case Some(id) => (db, Done(Paid(id)))
            case None => (db, AtDraft))
    case AtDraft =>
      if fault == Error then (db, Done(ServerError))
      else (InsertDraft(db, q.merchant), if fault == Ok then AtClaim(db.next) else Done(ServerError))
    case AtClaim(draft) =>
      if fault == Error then (db, AtReread(draft))
      else (match Claim(db, draft, q)
            case None => (db, AtReread(draft))
            case Some(db') => (db', if fault == Ok then Done(Paid(draft)) else AtReread(draft)))
    case AtReread(draft) =>
      if fault != Ok then (db, Done(ServerError))
      else (match ByReference(db, q.merchant, q.reference)
            case Some(id) => (db, Done(Paid(id)))
            case None => (db, Done(ServerError)))
    case Done(_) => (db, pc)
  }

  // How many store calls a request may still make.
  function Rank(pc: Pc): nat {
    match pc
    case AtKey => 5
    case AtReference => 4
    case AtDraft => 3
    case AtClaim(_) => 2
    case AtReread(_) => 1
    case Done(_) => 0
  }

  // ---------- all requests together ----------

  datatype Sys = Sys(db: Db, pcs: seq<Pc>)

  // Request number `who` makes its next store call, which suffers `fault`.
  datatype Event = Event(who: nat, fault: Fault)

  ghost predicate Requests(reqs: seq<Request>) {
    forall i :: 0 <= i < |reqs| ==> reqs[i].reference != ""
  }

  ghost function Init(reqs: seq<Request>, db: Db): Sys {
    Sys(db, seq(|reqs|, i requires 0 <= i < |reqs| => Start(reqs[i])))
  }

  ghost function Next(reqs: seq<Request>, s: Sys, e: Event): (s': Sys)
    requires |s.pcs| == |reqs|
    ensures |s'.pcs| == |reqs|
  {
    if e.who >= |reqs| then s
    else
      var (db, pc) := Step(s.db, reqs[e.who], s.pcs[e.who], e.fault);
      Sys(db, s.pcs[e.who := pc])
  }

  ghost function After(reqs: seq<Request>, s: Sys, events: seq<Event>): (s': Sys)
    requires |s.pcs| == |reqs|
    ensures |s'.pcs| == |reqs|
    decreases |events|
  {
    if events == [] then s else After(reqs, Next(reqs, s, events[0]), events[1..])
  }

  // ---------- invariant ----------

  // A reply of 200 names a payment of the same merchant that carries the request's reference or its key.
  ghost predicate Honest(db: Db, q: Request, reply: Reply) {
    reply.Paid? ==>
      || Owns(db, reply.id, q.merchant, q.reference)
      || (q.key != "" && HasKey(db, reply.id, q.merchant, q.key))
  }

  // The draft of a request that has not claimed yet is still blank.
  ghost predicate Blank(db: Db, id: nat, merchant: nat) {
    id in db.payments && db.payments[id] == Payment(merchant, "", "")
  }

  ghost predicate PcOk(db: Db, q: Request, pc: Pc) {
    match pc
    case AtKey => q.key != ""
    case AtClaim(draft) => Blank(db, draft, q.merchant)
    case Done(reply) => Honest(db, q, reply)
    case _ => true
  }

  ghost predicate Inv(reqs: seq<Request>, s: Sys) {
    && |s.pcs| == |reqs|
    && Consistent(s.db)
    && (forall i :: 0 <= i < |reqs| ==> PcOk(s.db, reqs[i], s.pcs[i]))
    && (forall i, j :: 0 <= i < j < |reqs| && s.pcs[i].AtClaim? && s.pcs[j].AtClaim? ==> s.pcs[i].draft != s.pcs[j].draft)
  }

  // How the table may change in one step: rows are only added, and only a blank row is ever rewritten.
  ghost predicate Grows(db: Db, db': Db) {
    && db.next <= db'.next
    && (forall id :: id in db.payments ==>
          id in db'.payments && db'.payments[id].merchant == db.payments[id].merchant
          && (db'.payments[id] == db.payments[id] || (db.payments[id].reference == "" && db.payments[id].key == "")))
  }

  lemma {:induction false} StepKeepsTable(db: Db, q: Request, pc: Pc, fault: Fault)
    requires Consistent(db) && q.reference != "" && PcOk(db, q, pc)
    ensures var (db', pc') := Step(db, q, pc, fault); Consistent(db') && Grows(db, db') && PcOk(db', q, pc')
  {
    if pc.AtDraft? && fault != Error {
      DraftKeepsIndexes(db, q.merchant);
    } else if pc.AtClaim? && fault != Error && !Conflicts(db, pc.draft, q) {
      ClaimKeepsIndexes(db, pc.draft, q);
      assert Owns(Step(db, q, pc, fault).0, pc.draft, q.merchant, q.reference);
    }
  }

  lemma {:induction false} DraftKeepsIndexes(db: Db, merchant: nat)
    requires Consistent(db)
    ensures Consistent(InsertDraft(db, merchant))
  {
    var db' := InsertDraft(db, merchant);
    forall a, b, m, r | Owns(db', a, m, r) && Owns(db', b, m, r) && r != "" ensures a == b {
      assert Owns(db, a, m, r) && Owns(db, b, m, r);
    }
    forall a, b, m, k | HasKey(db', a, m, k) && HasKey(db', b, m, k) && k != "" ensures a == b {
      assert HasKey(db, a, m, k) && HasKey(db, b, m, k);
    }
  }

  lemma {:induction false} ClaimKeepsIndexes(db: Db, draft: nat, q: Request)
    requires Consistent(db) && q.reference != "" && Blank(db, draft, q.merchant) && !Conflicts(db, draft, q)
    ensures Consistent(db.(payments := db.payments[draft := Claimed(db.payments[draft], q)]))
  {
    var row := Claimed(db.payments[draft], q);
    var db' := db.(payments := db.payments[draft := row]);
    forall a, b, m, r | Owns(db', a, m, r) && Owns(db', b, m, r) && r != "" ensures a == b {
      assert a != draft ==> Owns(db, a, m, r);
      assert b != draft ==> Owns(db, b, m, r);
    }
    forall a, b, m, k | HasKey(db', a, m, k) && HasKey(db', b, m, k) && k != "" ensures a == b {
      assert a != draft ==> HasKey(db, a, m, k);
      assert b != draft ==> HasKey(db, b, m, k);
    }
  }

  lemma {:induction false} NextKeepsInv(reqs: seq<Request>, s: Sys, e: Event)
    requires Requests(reqs) && Inv(reqs, s)
    ensures Inv(reqs, Next(reqs, s, e)) && Grows(s.db, Next(reqs, s, e).db)
  {
    if e.who < |reqs| {
      var i := e.who;
      StepKeepsTable(s.db, reqs[i], s.pcs[i], e.fault);
      var s' := Next(reqs, s, e);
      forall j | 0 <= j < |reqs| ensures PcOk(s'.db, reqs[j], s'.pcs[j]) {
        if j != i {
          assert PcOk(s.db, reqs[j], s.pcs[j]);
        }
      }
    }
  }

  lemma {:induction false} GrowsTransitive(a: Db, b: Db, c: Db)
    requires Grows(a, b) && Grows(b, c)
    ensures Grows(a, c)
  {
  }

  lemma {:induction false} AfterKeepsInv(reqs: seq<Request>, s: Sys, events: seq<Event>)
    requires Requests(reqs) && Inv(reqs, s)
    ensures Inv(reqs, After(reqs, s, events)) && Grows(s.db, After(reqs, s, events).db)
    decreases |events|
  {
    if events != [] {
      NextKeepsInv(reqs, s, events[0]);
      AfterKeepsInv(reqs, Next(reqs, s, events[0]), events[1..]);
      GrowsTransitive(s.db, Next(reqs, s, events[0]).db, After(reqs, s, events).db);
    }
  }

  lemma {:induction false} InitInv(reqs: seq<Request>, db: Db)
    requires Consistent(db)
    ensures Inv(reqs, Init(reqs, db))
  {
  }

  lemma {:induction false} AfterConcat(reqs: seq<Request>, s: Sys, xs: seq<Event>, ys: seq<Event>)
    requires |s.pcs| == |reqs|
    ensures After(reqs, s, xs + ys) == After(reqs, After(reqs, s, xs), ys)
    decreases |xs|
  {
    if xs == [] {
      assert xs + ys == ys;
    } else {
      assert (xs + ys)[1..] == xs[1..] + ys;
      AfterConcat(reqs, Next(reqs, s, xs[0]), xs[1..], ys);
    }
  }

  // ---------- safety over every run ----------

  /** At most one payment ever owns a reference, and ownership is permanent: once some prefix of a run has given
      (merchant, reference) to a payment, every longer run still has exactly that owner. */
  lemma {:induction false} OwnershipIsUniqueAndPermanent(reqs: seq<Request>, db: Db, xs: seq<Event>, ys: seq<Event>, a: nat, b: nat, m: nat, r: string)
    requires Requests(reqs) && Consistent(db) && r != ""
    requires Owns(After(reqs, Init(reqs, db), xs).db, a, m, r)
    ensures Owns(After(reqs, Init(reqs, db), xs + ys).db, a, m, r)
    ensures Owns(After(reqs, Init(reqs, db), xs + ys).db, b, m, r) ==> a == b
  {
    InitInv(reqs, db);
    var mid := After(reqs, Init(reqs, db), xs);
    AfterKeepsInv(reqs, Init(reqs, db), xs);
    AfterConcat(reqs, Init(reqs, db), xs, ys);
    AfterKeepsInv(reqs, mid, ys);
    assert Owns(After(reqs, mid, ys).db, a, m, r);
  }

  /** All 200 replies to keyless requests for one reference name one payment, which owns the reference. */
  lemma {:induction false} KeylessRepliesAgree(reqs: seq<Request>, db: Db, events: seq<Event>, i: nat, j: nat)
    requires Requests(reqs) && Consistent(db) && i < |reqs| && j < |reqs|
    requires reqs[i].key == "" && reqs[j].key == ""
    requires reqs[i].merchant == reqs[j].merchant && reqs[i].reference == reqs[j].reference
    ensures var s := After(reqs, Init(reqs, db), events);
            s.pcs[i].Done? && s.pcs[i].reply.Paid? && s.pcs[j].Done? && s.pcs[j].reply.Paid? ==>
              s.pcs[i].reply == s.pcs[j].reply && Owns(s.db, s.pcs[i].reply.id, reqs[i].merchant, reqs[i].reference)
  {
    InitInv(reqs, db);
    AfterKeepsInv(reqs, Init(reqs, db), events);
    var s := After(reqs, Init(reqs, db), events);
    assert PcOk(s.db, reqs[i], s.pcs[i]) && PcOk(s.db, reqs[j], s.pcs[j]);
  }

  // ---------- equal keys carrying different references ----------

  // What a careful merchant guarantees: one key is never used for two references, now or in the stored rows.
  ghost predicate Disciplined(reqs: seq<Request>, db: Db) {
    && (forall i, j :: 0 <= i < |reqs| && 0 <= j < |reqs| && SameKey(reqs[i], reqs[j]) ==> reqs[i].reference == reqs[j].reference)
    && (forall i, id :: 0 <= i < |reqs| && reqs[i].key != "" && HasKey(db, id, reqs[i].merchant, reqs[i].key)
          ==> db.payments[id].reference == reqs[i].reference)
  }

  predicate SameKey(a: Request, b: Request) {
    a.merchant == b.merchant && a.key == b.key && a.key != ""
  }

  // Every 200 reply so far names a payment that owns the reference asked for.
  ghost predicate RepliesOwn(reqs: seq<Request>, s: Sys)
    requires |s.pcs| == |reqs|
  {
    forall i :: 0 <= i < |reqs| && s.pcs[i].Done? && s.pcs[i].reply.Paid? ==>
      Owns(s.db, s.pcs[i].reply.id, reqs[i].merchant, reqs[i].reference)
  }

  ghost predicate NoServerErrors(s: Sys) {
    forall i :: 0 <= i < |s.pcs| ==> s.pcs[i] != Done(ServerError)
  }

  ghost predicate FaultFree(events: seq<Event>) {
    forall k :: 0 <= k < |events| ==> events[k].fault == Ok
  }

  lemma {:induction false} NextKeepsDiscipline(reqs: seq<Request>, s: Sys, e: Event)
    requires Requests(reqs) && Inv(reqs, s) && Disciplined(reqs, s.db)
    ensures Disciplined(reqs, Next(reqs, s, e).db)
  {
    if e.who < |reqs| {
      var q := reqs[e.who];
      var s' := Next(reqs, s, e);
      assert PcOk(s.db, q, s.pcs[e.who]);
      forall i, id | 0 <= i < |reqs| && reqs[i].key != "" && HasKey(s'.db, id, reqs[i].merchant, reqs[i].key)
        ensures s'.db.payments[id].reference == reqs[i].reference
      {
        if id in s.db.payments && s'.db.payments[id] == s.db.payments[id] {
          assert HasKey(s.db, id, reqs[i].merchant, reqs[i].key);
        } else if id in s.db.payments {
          assert SameKey(reqs[i], q);
        }
      }
    }
  }

  lemma {:induction false} AfterKeepsDiscipline(reqs: seq<Request>, s: Sys, events: seq<Event>)
    requires Requests(reqs) && Inv(reqs, s) && Disciplined(reqs, s.db)
    ensures Disciplined(reqs, After(reqs, s, events).db)
    decreases |events|
  {
    if events != [] {
      NextKeepsInv(reqs, s, events[0]);
      NextKeepsDiscipline(reqs, s, events[0]);
      AfterKeepsDiscipline(reqs, Next(reqs, s, events[0]), events[1..]);
    }
  }

  /** With disciplined keys every 200 reply, keyed or not, names the owner of its reference: all replies for one
      reference agree, whatever the interleaving and the faults. */
  lemma {:induction false} DisciplinedRepliesOwn(reqs: seq<Request>, db: Db, events: seq<Event>)
    requires Requests(reqs) && Consistent(db) && Disciplined(reqs, db)
    ensures RepliesOwn(reqs, After(reqs, Init(reqs, db), events))
  {
    InitInv(reqs, db);
    AfterKeepsInv(reqs, Init(reqs, db), events);
    AfterKeepsDiscipline(reqs, Init(reqs, db), events);
    var s := After(reqs, Init(reqs, db), events);
    forall i | 0 <= i < |reqs| && s.pcs[i].Done? && s.pcs[i].reply.Paid?
      ensures Owns(s.db, s.pcs[i].reply.id, reqs[i].merchant, reqs[i].reference)
    {
      assert PcOk(s.db, reqs[i], s.pcs[i]);
    }
  }

  // ---------- progress ----------

  // No stored row carries request i's key under another reference.
  ghost predicate Safe(reqs: seq<Request>, db: Db, i: nat)
    requires i < |reqs|
  {
    reqs[i].key == "" || forall id :: HasKey(db, id, reqs[i].merchant, reqs[i].key) ==> db.payments[id].reference == reqs[i].reference
  }

  // While i runs without faults it neither fails nor is left waiting for a winner that does not exist.
  ghost predicate Progressing(reqs: seq<Request>, s: Sys, i: nat)
    requires |s.pcs| == |reqs| && i < |reqs|
  {
    && s.pcs[i] != Done(ServerError)
    && (s.pcs[i].AtReread? ==> exists w :: Owns(s.db, w, reqs[i].merchant, reqs[i].reference))
  }

  lemma {:induction false} NextKeepsProgress(reqs: seq<Request>, s: Sys, e: Event, i: nat)
    requires Requests(reqs) && Inv(reqs, s) && i < |reqs| && Progressing(reqs, s, i) && Safe(reqs, s.db, i)
    requires e.who == i ==> e.fault == Ok
    ensures Progressing(reqs, Next(reqs, s, e), i)
    ensures e.who == i && !s.pcs[i].Done? ==> Rank(Next(reqs, s, e).pcs[i]) < Rank(s.pcs[i])
    ensures e.who != i ==> Next(reqs, s, e).pcs[i] == s.pcs[i]
  {
    NextKeepsInv(reqs, s, e);
    var s' := Next(reqs, s, e);
    assert PcOk(s.db, reqs[i], s.pcs[i]);
    if s'.pcs[i].AtReread? {
      if e.who == i {
        var id :| id in s.db.payments && id != s.pcs[i].draft && s.db.payments[id].merchant == reqs[i].merchant
                  && (s.db.payments[id].reference == reqs[i].reference || (reqs[i].key != "" && s.db.payments[id].key == reqs[i].key));
        assert reqs[i].key != "" && s.db.payments[id].key == reqs[i].key ==> HasKey(s.db, id, reqs[i].merchant, reqs[i].key);
        assert Owns(s'.db, id, reqs[i].merchant, reqs[i].reference);
      } else {
        var w :| Owns(s.db, w, reqs[i].merchant, reqs[i].reference);
        assert Owns(s'.db, w, reqs[i].merchant, reqs[i].reference);
      }
    }
  }

  // The number of store calls of request i in a run.
  ghost function Calls(events: seq<Event>, i: nat): nat {
    if events == [] then 0 else (if events[0].who == i then 1 else 0) + Calls(events[1..], i)
  }

  ghost predicate NoFaultFor(events: seq<Event>, i: nat) {
    forall k :: 0 <= k < |events| && events[k].who == i ==> events[k].fault == Ok
  }

  lemma {:induction false} Progress(reqs: seq<Request>, s: Sys, events: seq<Event>, i: nat)
    requires Requests(reqs) && Inv(reqs, s) && i < |reqs| && Progressing(reqs, s, i) && NoFaultFor(events, i)
    requires reqs[i].key == "" || Disciplined(reqs, s.db)
    ensures var s' := After(reqs, s, events);
            Progressing(reqs, s', i) && (s'.pcs[i].Done? || Rank(s'.pcs[i]) + Calls(events, i) <= Rank(s.pcs[i]))
    decreases |events|
  {
    if events != [] {
      var e := events[0];
      assert Safe(reqs, s.db, i);
      NextKeepsInv(reqs, s, e);
      NextKeepsProgress(reqs, s, e, i);
      if reqs[i].key != "" { NextKeepsDiscipline(reqs, s, e); }
      Progress(reqs, Next(reqs, s, e), events[1..], i);
      if s.pcs[i].Done? {
        StaysDone(reqs, s, events, i);
      }
    }
  }

  lemma {:induction false} StaysDone(reqs: seq<Request>, s: Sys, events: seq<Event>, i: nat)
    requires |s.pcs| == |reqs| && i < |reqs| && s.pcs[i].Done?
    ensures After(reqs, s, events).pcs[i] == s.pcs[i]
    decreases |events|
  {
    if events != [] { StaysDone(reqs, Next(reqs, s, events[0]), events[1..], i); }
  }

  /** A keyless request whose own store calls do not fault answers 200 with the owner of its reference after at most
      four of its own calls, and never 500, whatever the other requests do and however their calls fail. */
  lemma {:induction false} KeylessRequestSucceeds(reqs: seq<Request>, db: Db, events: seq<Event>, i: nat)
    requires Requests(reqs) && Consistent(db) && i < |reqs| && reqs[i].key == "" && NoFaultFor(events, i)
    ensures var s := After(reqs, Init(reqs, db), events);
            && s.pcs[i] != Done(ServerError)
            && (Calls(events, i) >= 4 ==>
                  s.pcs[i].Done? && s.pcs[i].reply.Paid? && Owns(s.db, s.pcs[i].reply.id, reqs[i].merchant, reqs[i].reference))
  {
    InitInv(reqs, db);
    Progress(reqs, Init(reqs, db), events, i);
    AfterKeepsInv(reqs, Init(reqs, db), events);
    var s := After(reqs, Init(reqs, db), events);
    assert PcOk(s.db, reqs[i], s.pcs[i]);
  }

  /** The same for keyed requests, in at most five calls, provided the keys are disciplined. */
  lemma {:induction false} DisciplinedRequestSucceeds(reqs: seq<Request>, db: Db, events: seq<Event>, i: nat)
    requires Requests(reqs) && Consistent(db) && i < |reqs| && Disciplined(reqs, db) && NoFaultFor(events, i)
    ensures var s := After(reqs, Init(reqs, db), events);
            && s.pcs[i] != Done(ServerError)
            && (Calls(events, i) >= 5 ==>
                  s.pcs[i].Done? && s.pcs[i].reply.Paid? && Owns(s.db, s.pcs[i].reply.id, reqs[i].merchant, reqs[i].reference))
  {
    InitInv(reqs, db);
    Progress(reqs, Init(reqs, db), events, i);
    DisciplinedRepliesOwn(reqs, db, events);
  }

  // ---------- the exact condition ----------

  const EMPTY := Db(map[], 0)

  /** Starting from an empty table, every fault-free run answers every request for a reference with that reference's
      owner if and only if no two requests of one merchant share a key without sharing the reference. */
  lemma {:induction false} RepliesRightIffDisciplined(reqs: seq<Request>)
    requires Requests(reqs)
    ensures (forall events :: FaultFree(events) ==> RepliesOwn(reqs, After(reqs, Init(reqs, EMPTY), events))) <==> Disciplined(reqs, EMPTY)
  {
    if Disciplined(reqs, EMPTY) {
      forall events | FaultFree(events) ensures RepliesOwn(reqs, After(reqs, Init(reqs, EMPTY), events)) {
        DisciplinedRepliesOwn(reqs, EMPTY, events);
      }
    } else {
      var i, j :| 0 <= i < |reqs| && 0 <= j < |reqs| && SameKey(reqs[i], reqs[j]) && reqs[i].reference != reqs[j].reference;
      ClashGivesAWrongReply(reqs, i, j);
    }
  }

  /** The same condition decides whether a fault-free run can answer 500. */
  lemma {:induction false} NoServerErrorIffDisciplined(reqs: seq<Request>)
    requires Requests(reqs)
    ensures (forall events :: FaultFree(events) ==> NoServerErrors(After(reqs, Init(reqs, EMPTY), events))) <==> Disciplined(reqs, EMPTY)
  {
    if Disciplined(reqs, EMPTY) {
      forall events | FaultFree(events) ensures NoServerErrors(After(reqs, Init(reqs, EMPTY), events)) {
        var s := After(reqs, Init(reqs, EMPTY), events);
        forall i | 0 <= i < |reqs| ensures s.pcs[i] != Done(ServerError) {
          DisciplinedRequestSucceeds(reqs, EMPTY, events, i);
        }
      }
    } else {
      var i, j :| 0 <= i < |reqs| && 0 <= j < |reqs| && SameKey(reqs[i], reqs[j]) && reqs[i].reference != reqs[j].reference;
      ClashGivesAServerError(reqs, i, j);
    }
  }

  // From an empty table request i runs undisturbed: five calls if keyed. It ends owning its reference and key.
  function Alone(i: nat): seq<Event> {
    [Event(i, Ok), Event(i, Ok), Event(i, Ok), Event(i, Ok)]
  }

  lemma {:induction false} FourSteps(reqs: seq<Request>, s: Sys, e: Event)
    requires |s.pcs| == |reqs|
    ensures After(reqs, s, [e, e, e, e]) == Next(reqs, Next(reqs, Next(reqs, Next(reqs, s, e), e), e), e)
  {
    var n1 := Next(reqs, s, e);
    var n2 := Next(reqs, n1, e);
    var n3 := Next(reqs, n2, e);
    assert [e, e, e, e][1..] == [e, e, e] && [e, e, e][1..] == [e, e] && [e, e][1..] == [e] && [e][1..] == [];
    assert After(reqs, n3, [e]) == Next(reqs, n3, e);
    assert After(reqs, n2, [e, e]) == After(reqs, n3, [e]);
    assert After(reqs, n1, [e, e, e]) == After(reqs, n2, [e, e]);
  }

  // A keyed request that meets no row with its key or reference: four calls later its draft carries both.
  lemma {:induction false} KeyedRunAlone(reqs: seq<Request>, s: Sys, i: nat)
    requires Requests(reqs) && Inv(reqs, s) && i < |reqs| && reqs[i].key != "" && s.pcs[i] == AtKey
    requires forall id :: id in s.db.payments ==> s.db.payments[id].reference == "" && s.db.payments[id].key == ""
    ensures var s' := After(reqs, s, Alone(i));
            && Owns(s'.db, s.db.next, reqs[i].merchant, reqs[i].reference)
            && HasKey(s'.db, s.db.next, reqs[i].merchant, reqs[i].key)
            && (forall id :: id in s'.db.payments && id != s.db.next ==> s'.db.payments[id].reference == "" && s'.db.payments[id].key == "")
            && s'.pcs == s.pcs[i := Done(Paid(s.db.next))]
  {
    var e := Event(i, Ok);
    FourSteps(reqs, s, e);
    var q := reqs[i];
    assert ByKey(s.db, q.merchant, q.key).None?;
    var n1 := Next(reqs, s, e);
    assert n1 == Sys(s.db, s.pcs[i := AtReference]);
    assert ByReference(s.db, q.merchant, q.reference).None?;
    var n2 := Next(reqs, n1, e);
    assert n2 == Sys(s.db, s.pcs[i := AtDraft]);
    var n3 := Next(reqs, n2, e);
    assert n3 == Sys(InsertDraft(s.db, q.merchant), s.pcs[i := AtClaim(s.db.next)]);
    assert !Conflicts(n3.db, s.db.next, q);
  }

  /** Two requests that share a key but not a reference: run one to its end, then let the other look its key up. It is
      told 200 for a payment that does not carry its reference. */
  lemma {:induction false} ClashGivesAWrongReply(reqs: seq<Request>, i: nat, j: nat)
    requires Requests(reqs) && i < |reqs| && j < |reqs| && SameKey(reqs[i], reqs[j]) && reqs[i].reference != reqs[j].reference
    ensures FaultFree(Alone(i) + [Event(j, Ok)]) && !RepliesOwn(reqs, After(reqs, Init(reqs, EMPTY), Alone(i) + [Event(j, Ok)]))
  {
    var s0 := Init(reqs, EMPTY);
    InitInv(reqs, EMPTY);
    KeyedRunAlone(reqs, s0, i);
    AfterConcat(reqs, s0, Alone(i), [Event(j, Ok)]);
    var s1 := After(reqs, s0, Alone(i));
    AfterKeepsInv(reqs, s0, Alone(i));
    assert s1.pcs[j] == AtKey;
    var s2 := Next(reqs, s1, Event(j, Ok));
    assert [Event(j, Ok)][1..] == [];
    assert After(reqs, s1, [Event(j, Ok)]) == s2;
    var w := ByKey(s1.db, reqs[j].merchant, reqs[j].key);
    assert HasKey(s1.db, 0, reqs[j].merchant, reqs[j].key);
    assert s2.pcs[j] == Done(Paid(0));
    assert !Owns(s2.db, 0, reqs[j].merchant, reqs[j].reference);
  }

  // j stops just before its claim, i runs to its end, then j claims, loses on the key and finds no winner.
  function ClashSchedule(i: nat, j: nat): seq<Event> {
    [Event(j, Ok), Event(j, Ok), Event(j, Ok)] + (Alone(i) + [Event(j, Ok), Event(j, Ok)])
  }

  lemma {:induction false} ClashGivesAServerError(reqs: seq<Request>, i: nat, j: nat)
    requires Requests(reqs) && i < |reqs| && j < |reqs| && SameKey(reqs[i], reqs[j]) && reqs[i].reference != reqs[j].reference
    ensures FaultFree(ClashSchedule(i, j)) && !NoServerErrors(After(reqs, Init(reqs, EMPTY), ClashSchedule(i, j)))
  {
    var e := Event(j, Ok);
    var s0 := Init(reqs, EMPTY);
    InitInv(reqs, EMPTY);
    ThreeCallsAlone(reqs, j);
    var s1 := After(reqs, s0, [e, e, e]);
    AfterKeepsInv(reqs, s0, [e, e, e]);
    KeyedRunAlone(reqs, s1, i);
    var s2 := After(reqs, s1, Alone(i));
    AfterKeepsInv(reqs, s1, Alone(i));
    LostOnTheKey(reqs, s2, j);
    AfterConcat(reqs, s1, Alone(i), [e, e]);
    AfterConcat(reqs, s0, [e, e, e], Alone(i) + [e, e]);
    hide After, Inv, Owns;
  }

  // Alone on an empty table a keyed request finds nothing by key or reference and makes its draft.
  lemma {:induction false} ThreeCallsAlone(reqs: seq<Request>, j: nat)
    requires Requests(reqs) && j < |reqs| && reqs[j].key != ""
    ensures var e := Event(j, Ok);
            After(reqs, Init(reqs, EMPTY), [e, e, e]) ==
            Sys(InsertDraft(EMPTY, reqs[j].merchant), Init(reqs, EMPTY).pcs[j := AtClaim(0)])
  {
    var e := Event(j, Ok);
    var s0 := Init(reqs, EMPTY);
    assert ByKey(s0.db, reqs[j].merchant, reqs[j].key).None? && ByReference(s0.db, reqs[j].merchant, reqs[j].reference).None?;
    var n1 := Next(reqs, s0, e);
    var n2 := Next(reqs, n1, e);
    var s1 := Next(reqs, n2, e);
    assert [e, e, e][1..] == [e, e] && [e, e][1..] == [e] && [e][1..] == [];
    assert After(reqs, n2, [e]) == s1;
    assert After(reqs, n1, [e, e]) == s1;
  }

  // A claim that conflicts on the key, with nobody owning the reference, ends in a 500.
  lemma {:induction false} LostOnTheKey(reqs: seq<Request>, s: Sys, j: nat)
    requires Requests(reqs) && Inv(reqs, s) && j < |reqs| && s.pcs[j] == AtClaim(0) && reqs[j].key != ""
    requires HasKey(s.db, 1, reqs[j].merchant, reqs[j].key)
    requires forall id :: !Owns(s.db, id, reqs[j].merchant, reqs[j].reference)
    ensures After(reqs, s, [Event(j, Ok), Event(j, Ok)]).pcs[j] == Done(ServerError)
  {
    var e := Event(j, Ok);
    assert PcOk(s.db, reqs[j], s.pcs[j]);
    assert Conflicts(s.db, 0, reqs[j]);
    var s3 := Next(reqs, s, e);
    assert s3 == Sys(s.db, s.pcs[j := AtReread(0)]);
    var s4 := Next(reqs, s3, e);
    assert s4.pcs[j] == Done(ServerError);
    assert [e, e][1..] == [e] && [e][1..] == [];
    assert After(reqs, s3, [e]) == s4;
  }

  // ---------- drafts that lose ----------

  ghost predicate Abandoned(reqs: seq<Request>, s: Sys, id: nat)
    requires |s.pcs| == |reqs|
  {
    && id in s.db.payments && s.db.payments[id].reference == "" && s.db.payments[id].key == ""
    && (forall i :: 0 <= i < |reqs| ==> s.pcs[i] != AtClaim(id))
  }

  /** A draft whose request has left the claim without writing it never acquires a reference or a key. */
  lemma {:induction false} LosingDraftStaysBlank(reqs: seq<Request>, s: Sys, events: seq<Event>, id: nat)
    requires Requests(reqs) && Inv(reqs, s) && Abandoned(reqs, s, id)
    ensures Abandoned(reqs, After(reqs, s, events), id)
    decreases |events|
  {
    if events != [] {
      var s' := Next(reqs, s, events[0]);
      NextKeepsInv(reqs, s, events[0]);
      assert Abandoned(reqs, s', id) by {
        if events[0].who < |reqs| {
          assert PcOk(s.db, reqs[events[0].who], s.pcs[events[0].who]);
          assert id < s.db.next;
        }
      }
      LosingDraftStaysBlank(reqs, s', events[1..], id);
    }
  }

  /** A request whose claim conflicts leaves its own draft blank for ever. */
  lemma {:induction false} LoserLeavesABlankDraft(reqs: seq<Request>, s: Sys, i: nat, events: seq<Event>)
    requires Requests(reqs) && Inv(reqs, s) && i < |reqs| && s.pcs[i].AtClaim?
    requires Conflicts(s.db, s.pcs[i].draft, reqs[i])
    ensures var s' := After(reqs, Next(reqs, s, Event(i, Ok)), events);
            s.pcs[i].draft in s'.db.payments && s'.db.payments[s.pcs[i].draft] == Payment(reqs[i].merchant, "", "")
  {
    var id := s.pcs[i].draft;
    var s1 := Next(reqs, s, Event(i, Ok));
    assert PcOk(s.db, reqs[i], s.pcs[i]);
    NextKeepsInv(reqs, s, Event(i, Ok));
    assert Abandoned(reqs, s1, id);
    LosingDraftStaysBlank(reqs, s1, events, id);
    AfterKeepsInv(reqs, s1, events);
  }

  // ---------- failing calls ----------

  /** A look-up or a draft that fails is a 500, and at worst leaves one blank draft; a claim that fails, or loses its
      acknowledgement, is answered by the owner of the reference if the re-read finds one. */
  lemma {:induction false} AFailedCallIsAnError(db: Db, q: Request, pc: Pc, fault: Fault)
    requires Consistent(db) && q.reference != "" && PcOk(db, q, pc) && fault != Ok && !pc.Done?
    ensures var (db', pc') := Step(db, q, pc, fault);
            && pc' == (if pc.AtClaim? then AtReread(pc.draft) else Done(ServerError))
            && (fault == Error || pc.AtKey? || pc.AtReference? || pc.AtReread? ==> db' == db)
            && (pc.AtDraft? && fault == LostAck ==> db' == Db(db.payments[db.next := Payment(q.merchant, "", "")], db.next + 1))
            && (pc.AtClaim? && fault == LostAck && db' != db ==>
                  db' == db.(payments := db.payments[pc.draft := Payment(q.merchant, q.reference, q.key)])
                  && Step(db', q, pc', Ok) == (db', Done(Paid(pc.draft))))
  {
    var (db', pc') := Step(db, q, pc, fault);
    StepKeepsTable(db, q, pc, fault);
    if pc.AtClaim? && fault == LostAck && db' != db {
      assert Owns(db', pc.draft, q.merchant, q.reference);
      assert ByReference(db', q.merchant, q.reference) == Some(pc.draft);
    }
    hide Conflicts;
  }
}
