/**
 The create-payment handler in the order its code runs, against a store object it updates through one call at a time.
 Run undisturbed it does exactly what the protocol machine of PartnerPayments says a lone request does.
 */
module PartnerPaymentsHandler {
  import opened StoreCalls
  import opened Wrappers
  import opened PartnerPayments
  import Text

  const MIN_AMOUNT_KOBO := 100
  const MAX_AMOUNT_KOBO := 1_000_000_000
  const MAX_REFERENCE_LEN := 64

  // The decoded JSON body, as the client sent it.
  datatype Body = Body(reference: string, key: string, value: int, currency: string, phone: string)

  datatype Problem = ReferenceInvalid | CurrencyInvalid | AmountOutOfRange | CustomerInvalid

  datatype Response = Answer(reply: Reply) | Unprocessable(problem: Problem)

  // Which of the handler's store calls fail.
  datatype Faults = Faults(key: Fault, reference: Fault, user: Fault, draft: Fault, claim: Fault, reread: Fault)

  // domain.CanonicalE164Phone: digits only, a leading 0 becomes 234, with a plus sign in front.
  function CanonicalPhone(raw: string): string {
    var number := Text.KeepDigits(Text.Trim(raw));
    if number == "" then ""
    else if number[0] == '0' then "+234" + number[1..]
    else "+" + number
  }

  function StripPlus(phone: string): string {
    if phone != "" && phone[0] == '+' then phone[1..] else phone
  }

  function Check(b: Body): Result<string, Problem> {
    var reference := Text.Trim(b.reference);
    if reference == "" || Text.ByteLen(reference) > MAX_REFERENCE_LEN then Failure(ReferenceInvalid)
    else if b.currency != "NGN" then Failure(CurrencyInvalid)
    else if b.value < MIN_AMOUNT_KOBO || b.value > MAX_AMOUNT_KOBO then Failure(AmountOutOfRange)
    else if Text.ByteLen(StripPlus(CanonicalPhone(b.phone))) < 10 then Failure(CustomerInvalid)
    else Success(reference)
  }

  function FaultAt(pc: Pc, f: Faults): Fault {
    match pc
    case AtKey => f.key
    case AtReference => f.reference
    case AtDraft => if f.user != Ok then Error else f.draft
    case AtClaim(_) => f.claim
    case AtReread(_) => f.reread
    case Done(_) => Ok
  }

  // The protocol machine with nobody else running.
  ghost function RunAlone(db: Db, q: Request, pc: Pc, f: Faults): (Db, Reply)
    decreases Rank(pc)
  {
    if pc.Done? then (db, pc.reply)
    else
      var (db', pc') := Step(db, q, pc, FaultAt(pc, f));
      RunAlone(db', q, pc', f)
  }

  lemma {:induction false} RunAloneKeepsTable(db: Db, q: Request, pc: Pc, f: Faults)
    requires Consistent(db) && q.reference != "" && PcOk(db, q, pc)
    ensures var (db', reply) := RunAlone(db, q, pc, f); Consistent(db') && Grows(db, db') && Honest(db', q, reply)
    decreases Rank(pc)
  {
    if !pc.Done? {
      var (db', pc') := Step(db, q, pc, FaultAt(pc, f));
      StepKeepsTable(db, q, pc, FaultAt(pc, f));
      RunAloneKeepsTable(db', q, pc', f);
      GrowsTransitive(db, db', RunAlone(db', q, pc', f).0);
    }
  }

  // What a request running alone knows of its key: nobody has it until its own claim does.
  ghost predicate KeySettled(db: Db, q: Request, pc: Pc) {
    match pc
    case AtKey => true
    case AtReread(draft) => NobodyHasKey(db, q) || (HasKey(db, draft, q.merchant, q.key) && Owns(db, draft, q.merchant, q.reference))
    case Done(Paid(id)) => NobodyHasKey(db, q) || HasKey(db, id, q.merchant, q.key)
    case Done(ServerError) => true
    case _ => NobodyHasKey(db, q)
  }

  ghost predicate NobodyHasKey(db: Db, q: Request) {
    forall id :: !HasKey(db, id, q.merchant, q.key)
  }

  lemma {:induction false} StepSettlesKey(db: Db, q: Request, pc: Pc, fault: Fault)
    requires Consistent(db) && q.reference != "" && q.key != "" && PcOk(db, q, pc) && KeySettled(db, q, pc)
    ensures var (db', pc') := Step(db, q, pc, fault); KeySettled(db', q, pc')
  {
    var (db', pc') := Step(db, q, pc, fault);
    if pc.AtDraft? && fault != Error {
      assert forall id :: HasKey(db', id, q.merchant, q.key) ==> HasKey(db, id, q.merchant, q.key);
    } else if pc.AtClaim? && pc.draft in db'.payments && db' != db {
      assert HasKey(db', pc.draft, q.merchant, q.key) && Owns(db', pc.draft, q.merchant, q.reference);
    }
  }

  lemma {:induction false} RunAloneSettlesKey(db: Db, q: Request, pc: Pc, f: Faults)
    requires Consistent(db) && q.reference != "" && q.key != "" && PcOk(db, q, pc) && KeySettled(db, q, pc)
    ensures var (db', reply) := RunAlone(db, q, pc, f); KeySettled(db', q, Done(reply))
    decreases Rank(pc)
  {
    if !pc.Done? {
      var (db', pc') := Step(db, q, pc, FaultAt(pc, f));
      StepKeepsTable(db, q, pc, FaultAt(pc, f));
      StepSettlesKey(db, q, pc, FaultAt(pc, f));
      RunAloneSettlesKey(db', q, pc', f);
    }
  }

  // A request whose look-ups do not fault finds the payment that has its key or, if none does, the owner of its reference.
  lemma {:induction false} LookUpAnswers(db: Db, q: Request, g: Faults, id: nat)
    requires Consistent(db) && q.reference != "" && g.key == Ok && g.reference == Ok
    requires Owns(db, id, q.merchant, q.reference) || (q.key != "" && HasKey(db, id, q.merchant, q.key))
    ensures var (db', reply) := RunAlone(db, q, Start(q), g);
            && db' == db && reply.Paid?
            && (reply.id == id <==> q.key == "" || forall other :: HasKey(db, other, q.merchant, q.key) ==> other == id)
  {
    if q.key != "" && ByKey(db, q.merchant, q.key).Some? {
      var holder := ByKey(db, q.merchant, q.key).value;
      assert Step(db, q, AtKey, Ok) == (db, Done(Paid(holder)));
      assert RunAlone(db, q, AtKey, g) == RunAlone(db, q, Done(Paid(holder)), g);
      assert HasKey(db, holder, q.merchant, q.key);
    } else {
      assert Owns(db, id, q.merchant, q.reference);
      assert ByReference(db, q.merchant, q.reference) == Some(id);
      assert Step(db, q, AtReference, Ok) == (db, Done(Paid(id)));
      assert RunAlone(db, q, AtReference, g) == RunAlone(db, q, Done(Paid(id)), g);
      if q.key != "" { assert RunAlone(db, q, AtKey, g) == RunAlone(db, q, AtReference, g); }
    }
  }

  /** Replaying an acknowledged create at once, keyed or not, answers with the same payment and leaves the table as it was,
      if its two look-ups do not fault. */
  lemma {:induction false} ReplayAnswersTheSame(db: Db, q: Request, f: Faults, g: Faults)
    requires Consistent(db) && q.reference != "" && g.key == Ok && g.reference == Ok
    ensures var (db1, reply1) := RunAlone(db, q, Start(q), f);
            reply1.Paid? ==> RunAlone(db1, q, Start(q), g) == (db1, reply1)
  {
    var (db1, reply1) := RunAlone(db, q, Start(q), f);
    RunAloneKeepsTable(db, q, Start(q), f);
    if reply1.Paid? {
      if q.key != "" { RunAloneSettlesKey(db, q, Start(q), f); }
      LookUpAnswers(db1, q, g, reply1.id);
    }
  }

  /** Replaying it after any interleaved run of any requests, with any faults: the table is left as it was, the answer is 200,
      and it names the same payment exactly when no other payment of the merchant has taken the key since. */
  lemma {:induction false} ReplayAfterAnyRun(reqs: seq<Request>, db: Db, events: seq<Event>, i: nat, g: Faults)
    requires Requests(reqs) && Consistent(db) && i < |reqs| && g.key == Ok && g.reference == Ok
    ensures var s, q := After(reqs, Init(reqs, db), events), reqs[i];
            s.pcs[i].Done? && s.pcs[i].reply.Paid? ==>
              var (db', reply) := RunAlone(s.db, q, Start(q), g);
              && db' == s.db && reply.Paid?
              && (reply == s.pcs[i].reply <==>
                    q.key == "" || forall other :: HasKey(s.db, other, q.merchant, q.key) ==> other == s.pcs[i].reply.id)
  {
    InitInv(reqs, db);
    AfterKeepsInv(reqs, Init(reqs, db), events);
    var s := After(reqs, Init(reqs, db), events);
    assert PcOk(s.db, reqs[i], s.pcs[i]);
    if s.pcs[i].Done? && s.pcs[i].reply.Paid? { LookUpAnswers(s.db, reqs[i], g, s.pcs[i].reply.id); }
    hide After, RunAlone;
  }

  /** With disciplined keys no other payment can take it: a replay always names the same payment. */
  lemma {:induction false} DisciplinedReplayAnswersTheSame(reqs: seq<Request>, db: Db, events: seq<Event>, i: nat, g: Faults)
    requires Requests(reqs) && Consistent(db) && Disciplined(reqs, db) && i < |reqs| && g.key == Ok && g.reference == Ok
    ensures var s, q := After(reqs, Init(reqs, db), events), reqs[i];
            s.pcs[i].Done? && s.pcs[i].reply.Paid? ==> RunAlone(s.db, q, Start(q), g) == (s.db, s.pcs[i].reply)
  {
    var s, q := After(reqs, Init(reqs, db), events), reqs[i];
    InitInv(reqs, db);
    AfterKeepsInv(reqs, Init(reqs, db), events);
    AfterKeepsDiscipline(reqs, Init(reqs, db), events);
    DisciplinedRepliesOwn(reqs, db, events);
    ReplayAfterAnyRun(reqs, db, events, i, g);
    if s.pcs[i].Done? && s.pcs[i].reply.Paid? && q.key != "" {
      forall other | HasKey(s.db, other, q.merchant, q.key) ensures other == s.pcs[i].reply.id {
        assert Owns(s.db, other, q.merchant, q.reference);
      }
    }
    hide After, RunAlone;
  }

  // ---------- a new payment ----------

  predicate NothingFails(f: Faults) {
    f.key == f.reference == f.user == f.draft == f.claim == f.reread == Ok
  }

  /** A create for a reference its merchant has not used, with a key nobody of that merchant has, if it has one: one new payment of
      the merchant, with that reference and that key, and it is the answer. */
  lemma {:induction false} ANewPaymentIsAsAsked(db: Db, q: Request, f: Faults)
    requires Consistent(db) && q.reference != "" && NothingFails(f)
    requires forall id :: !Owns(db, id, q.merchant, q.reference) && (q.key == "" || !HasKey(db, id, q.merchant, q.key))
    ensures RunAlone(db, q, Start(q), f) ==
            (Db(db.payments[db.next := Payment(q.merchant, q.reference, q.key)], db.next + 1), Paid(db.next))
  {
    var drafted := InsertDraft(db, q.merchant);
    if q.key != "" {
      assert ByKey(db, q.merchant, q.key).None?;
      assert RunAlone(db, q, AtKey, f) == RunAlone(db, q, AtReference, f);
    }
    assert ByReference(db, q.merchant, q.reference).None?;
    assert RunAlone(db, q, AtReference, f) == RunAlone(db, q, AtDraft, f);
    assert RunAlone(db, q, AtDraft, f) == RunAlone(drafted, q, AtClaim(db.next), f);
    assert !Conflicts(drafted, db.next, q) by {
      forall id | id in db.payments && id != db.next
        ensures db.payments[id].merchant != q.merchant
                || (db.payments[id].reference != q.reference && (q.key == "" || db.payments[id].key != q.key))
      {
        assert !Owns(db, id, q.merchant, q.reference) && (q.key == "" || !HasKey(db, id, q.merchant, q.key));
      }
    }
    var made := Db(db.payments[db.next := Payment(q.merchant, q.reference, q.key)], db.next + 1);
    assert drafted.payments[db.next := Payment(q.merchant, q.reference, q.key)] == made.payments;
    assert RunAlone(drafted, q, AtClaim(db.next), f) == RunAlone(made, q, Done(Paid(db.next)), f);
  }

  // ---------- a replay that names another payment ----------

  // A keyless create, a keyed one for the same reference, and one that uses the key for another reference.
  function Careless(m: nat, r: string, other: string, key: string): seq<Request> {
    [Request(m, r, ""), Request(m, r, key), Request(m, other, key)]
  }

  function InTurn(): seq<Event> {
    [Event(0, Ok), Event(0, Ok), Event(0, Ok), Event(1, Ok), Event(1, Ok)] + Alone(2)
  }

  lemma {:induction false} FirstTwo(m: nat, r: string, other: string, key: string)
    requires r != "" && other != "" && r != other && key != ""
    ensures var reqs := Careless(m, r, other, key);
            After(reqs, Init(reqs, EMPTY), InTurn()[..5]) ==
            Sys(Db(map[0 := Payment(m, r, "")], 1), [Done(Paid(0)), Done(Paid(0)), AtKey])
  {
    var reqs := Careless(m, r, other, key);
    var s0 := Init(reqs, EMPTY);
    assert s0 == Sys(EMPTY, [AtReference, AtKey, AtKey]);
    assert ByReference(EMPTY, m, r).None?;
    var s1 := Next(reqs, s0, Event(0, Ok));
    assert s1 == Sys(EMPTY, [AtDraft, AtKey, AtKey]);
    var s2 := Next(reqs, s1, Event(0, Ok));
    var drafted := InsertDraft(EMPTY, m);
    assert s2 == Sys(drafted, [AtClaim(0), AtKey, AtKey]);
    assert !Conflicts(drafted, 0, reqs[0]);
    var s3 := Next(reqs, s2, Event(0, Ok));
    var db := Db(map[0 := Payment(m, r, "")], 1);
    assert s3 == Sys(db, [Done(Paid(0)), AtKey, AtKey]);
    assert ByKey(db, m, key).None? && Owns(db, 0, m, r);
    var s4 := Next(reqs, s3, Event(1, Ok));
    assert s4 == Sys(db, [Done(Paid(0)), AtReference, AtKey]);
    var s5 := Next(reqs, s4, Event(1, Ok));
    assert s5 == Sys(db, [Done(Paid(0)), Done(Paid(0)), AtKey]);
    hide Next;
    var es := InTurn()[..5];
    assert es[1..][1..] == es[2..] && es[2..][1..] == es[3..] && es[3..][1..] == es[4..] && es[4..][1..] == [];
    assert After(reqs, s3, es[3..]) == After(reqs, s5, []);
    assert After(reqs, s1, es[1..]) == After(reqs, s3, es[3..]);
  }

  lemma {:induction false} ThirdTakesTheKey(m: nat, r: string, other: string, key: string)
    requires r != "" && other != "" && r != other && key != ""
    ensures var reqs := Careless(m, r, other, key);
            After(reqs, Sys(Db(map[0 := Payment(m, r, "")], 1), [Done(Paid(0)), Done(Paid(0)), AtKey]), Alone(2)) ==
            Sys(Db(map[0 := Payment(m, r, ""), 1 := Payment(m, other, key)], 2), [Done(Paid(0)), Done(Paid(0)), Done(Paid(1))])
  {
    var reqs := Careless(m, r, other, key);
    var e := Event(2, Ok);
    var db := Db(map[0 := Payment(m, r, "")], 1);
    var s := Sys(db, [Done(Paid(0)), Done(Paid(0)), AtKey]);
    FourSteps(reqs, s, e);
    assert ByKey(db, m, key).None? && ByReference(db, m, other).None?;
    var n1 := Next(reqs, s, e);
    assert n1 == Sys(db, [Done(Paid(0)), Done(Paid(0)), AtReference]);
    var n2 := Next(reqs, n1, e);
    assert n2 == Sys(db, [Done(Paid(0)), Done(Paid(0)), AtDraft]);
    var n3 := Next(reqs, n2, e);
    assert n3 == Sys(InsertDraft(db, m), [Done(Paid(0)), Done(Paid(0)), AtClaim(1)]);
    assert !Conflicts(n3.db, 1, reqs[2]);
    assert Next(reqs, n3, e).db.payments == map[0 := Payment(m, r, ""), 1 := Payment(m, other, key)];
  }

  /** From an empty table: the second request is told payment 0; the third then takes its key for another reference, and a
      replay of the second is told payment 1. */
  lemma {:induction false} AReplayCanNameAnother(m: nat, r: string, other: string, key: string, g: Faults)
    requires r != "" && other != "" && r != other && key != "" && g.key == Ok && g.reference == Ok
    ensures var reqs := Careless(m, r, other, key);
            var s := After(reqs, Init(reqs, EMPTY), InTurn());
            s.pcs[1] == Done(Paid(0)) && RunAlone(s.db, reqs[1], Start(reqs[1]), g) == (s.db, Paid(1))
  {
    var reqs := Careless(m, r, other, key);
    FirstTwo(m, r, other, key);
    ThirdTakesTheKey(m, r, other, key);
    AfterConcat(reqs, Init(reqs, EMPTY), InTurn()[..5], Alone(2));
    assert InTurn() == InTurn()[..5] + Alone(2);
    var s := After(reqs, Init(reqs, EMPTY), InTurn());
    assert Consistent(s.db) by {
      InitInv(reqs, EMPTY);
      AfterKeepsInv(reqs, Init(reqs, EMPTY), InTurn());
    }
    assert HasKey(s.db, 1, m, key);
    LookUpAnswers(s.db, reqs[1], g, 1);
    hide After, RunAlone, Consistent, Init, InTurn;
  }

  class PaymentStore {
    var db: Db

    constructor ()
      ensures db == EMPTY
    {
      db := EMPTY;
    }

    // A lookup answers with a row, with no row, or with an error.
    method PaymentByMerchantReference(merchant: nat, reference: string, fault: Fault) returns (out: Result<Option<nat>, ()>)
      requires Consistent(db) && reference != ""
      ensures out == if fault == Ok then Success(ByReference(db, merchant, reference)) else Failure(())
    {
      if fault != Ok {
        return Failure(());
      }
      if id :| id in db.payments && db.payments[id].merchant == merchant && db.payments[id].reference == reference {
        assert Owns(db, id, merchant, reference);
        out := Success(Some(id));
      } else {
        out := Success(None);
      }
    }

    method PaymentByIdempotencyKey(merchant: nat, key: string, fault: Fault) returns (out: Result<Option<nat>, ()>)
      requires Consistent(db) && key != ""
      ensures out == if fault == Ok then Success(ByKey(db, merchant, key)) else Failure(())
    {
      if fault != Ok {
        return Failure(());
      }
      if id :| id in db.payments && db.payments[id].merchant == merchant && db.payments[id].key == key {
        assert HasKey(db, id, merchant, key);
        out := Success(Some(id));
      } else {
        out := Success(None);
      }
    }

    method CreateCollectionDraft(merchant: nat, fault: Fault) returns (out: Result<nat, ()>)
      modifies this
      ensures db == if fault == Error then old(db) else InsertDraft(old(db), merchant)
      ensures out == if fault == Ok then Success(old(db).next) else Failure(())
    {
      out := Failure(());
      if fault != Error {
        var id := db.next;
        db := Db(db.payments[id := Payment(merchant, "", "")], id + 1);
        if fault == Ok {
          out := Success(id);
        }
      }
    }

    method SetPaymentInitiationMeta(draft: nat, q: Request, fault: Fault) returns (ok: bool)
      requires draft in db.payments
      modifies this
      ensures db == if fault == Error || Conflicts(old(db), draft, q) then old(db) else Claim(old(db), draft, q).value
      ensures ok == (fault == Ok && !Conflicts(old(db), draft, q))
    {
      var row := Claimed(db.payments[draft], q);
      var taken := exists id | id in db.payments && id != draft && db.payments[id].merchant == row.merchant ::
                     (row.reference != "" && db.payments[id].reference == row.reference) || (row.key != "" && db.payments[id].key == row.key);
      assert taken == Conflicts(db, draft, q);
      if fault == Error || taken {
        return false;
      }
      db := db.(payments := db.payments[draft := row]);
      ok := fault == Ok;
    }

    /** apiCreatePayment: a rejected body touches nothing; an accepted one answers and leaves the table exactly as the
        protocol machine does. */
    method ApiCreatePayment(merchant: nat, b: Body, f: Faults) returns (response: Response)
      requires Consistent(db)
      modifies this
      ensures Check(b).Failure? ==> response == Unprocessable(Check(b).error) && db == old(db)
      ensures Check(b).Success? ==>
                var q := Request(merchant, Check(b).value, b.key);
                response.Answer? && (db, response.reply) == RunAlone(old(db), q, Start(q), f)
      ensures Consistent(db)
    {
      var checked := Check(b);
      if checked.Failure? {
        return Unprocessable(checked.error);
      }
      var reference := checked.value;
      ghost var q := Request(merchant, reference, b.key);
      RunAloneKeepsTable(db, q, Start(q), f);
      if b.key != "" {
        var byKey := PaymentByIdempotencyKey(merchant, b.key, f.key);
        match byKey {
          case Failure(_) => return Answer(ServerError);
          case Success(Some(id)) => return Answer(Paid(id));
          case Success(None) =>
        }
      }
      var existing := PaymentByMerchantReference(merchant, reference, f.reference);
      match existing {
        case Failure(_) => return Answer(ServerError);
        case Success(Some(id)) => return Answer(Paid(id));
        case Success(None) =>
      }
      ghost var before := db;
      assert RunAlone(old(db), q, Start(q), f) == RunAlone(before, q, AtDraft, f);
      if f.user != Ok {
        return Answer(ServerError);
      }
      var created := CreateCollectionDraft(merchant, f.draft);
      if created.Failure? {
        return Answer(ServerError);
      }
      var draft := created.value;
      ghost var mid := db;
      StepKeepsTable(before, q, AtDraft, Ok);
      assert RunAlone(before, q, AtDraft, f) == RunAlone(mid, q, AtClaim(draft), f);
      StepKeepsTable(mid, q, AtClaim(draft), f.claim);
      var claimed := SetPaymentInitiationMeta(draft, Request(merchant, reference, b.key), f.claim);
      if claimed {
        assert RunAlone(mid, q, AtClaim(draft), f) == RunAlone(db, q, Done(Paid(draft)), f);
        return Answer(Paid(draft));
      }
      assert RunAlone(mid, q, AtClaim(draft), f) == RunAlone(db, q, AtReread(draft), f);
      var winner := PaymentByMerchantReference(merchant, reference, f.reread);
      match winner {
        case Success(Some(id)) =>
          assert RunAlone(db, q, AtReread(draft), f) == RunAlone(db, q, Done(Paid(id)), f);
          return Answer(Paid(id));
        case _ =>
          assert RunAlone(db, q, AtReread(draft), f) == RunAlone(db, q, Done(ServerError), f);
          return Answer(ServerError);
      }
    }
  }
}
