/**
 The create-invoice handler in the order its code runs: validation with a running subtotal, then the store calls.
 */
module PartnerInvoicesHandler {
  import opened StoreCalls
  import opened Wrappers
  import opened PartnerPayments
  import opened PartnerInvoices
  import PartnerPaymentsHandler
  import Text

  datatype Item = Item(description: string, quantity: int, unitAmount: int)

  datatype InvoiceBody = InvoiceBody(reference: string, currency: string, items: seq<Item>, deliveryFee: int, phone: string)

  datatype InvoiceProblem = CurrencyInvalid | ItemsInvalid | DeliveryFeeInvalid | AmountOutOfRange | ReferenceInvalid | CustomerInvalid

  datatype InvoiceResponse = Reply(outcome: Outcome) | Unprocessable(problem: InvoiceProblem)

  datatype InvoiceFaults = InvoiceFaults(lookup: Fault, owner: Fault, create: Fault, recover: Fault)

  // ---------- the reference ----------

  function Canonical(reference: string): string {
    Text.Upper(Text.Trim(reference))
  }

  /** The store normalises the reference again on insert and on lookup; that never changes what the handler passed. */
  lemma {:induction false} CanonicalTwice(reference: string)
    ensures Canonical(Canonical(reference)) == Canonical(reference)
  {
    var t := Text.Trim(reference);
    Text.TrimIsTight(reference);
    assert Text.Tight(Text.Upper(t));
    Text.TrimTightIsIdentity(Text.Upper(t));
    assert Text.Upper(Text.Upper(t)) == Text.Upper(t);
  }

  // ---------- the amount ----------

  predicate GoodItem(item: Item) {
    Text.Trim(item.description) != "" && item.quantity > 0 && item.unitAmount > 0
  }

  function Subtotal(items: seq<Item>): int {
    if items == [] then 0 else Subtotal(items[..|items| - 1]) + items[|items| - 1].quantity * items[|items| - 1].unitAmount
  }

  // Every accepted line adds at least one kobo.
  lemma {:induction false} SubtotalPositive(items: seq<Item>)
    requires forall k :: 0 <= k < |items| ==> GoodItem(items[k])
    ensures Subtotal(items) >= |items|
  {
    if items != [] {
      SubtotalPositive(items[..|items| - 1]);
      var last := items[|items| - 1];
      assert GoodItem(last);
      assert last.quantity * last.unitAmount >= 1;
    }
  }

  // The validation loop: it stops at the first bad line.
  method SumItems(items: seq<Item>) returns (subtotal: Option<int>)
    ensures subtotal.Some? <==> forall k :: 0 <= k < |items| ==> GoodItem(items[k])
    ensures subtotal.Some? ==> subtotal.value == Subtotal(items)
  {
    var sum := 0;
    for i := 0 to |items|
      invariant forall k :: 0 <= k < i ==> GoodItem(items[k])
      invariant sum == Subtotal(items[..i])
    {
      var item := items[i];
      if Text.Trim(item.description) == "" || item.quantity <= 0 || item.unitAmount <= 0 {
        assert !GoodItem(items[i]);
        return None;
      }
      sum := sum + item.quantity * item.unitAmount;
      assert items[..i + 1][..i] == items[..i];
    }
    assert items[..|items|] == items;
    subtotal := Some(sum);
  }

  ghost function Check(b: InvoiceBody): Result<(string, int), InvoiceProblem> {
    var total := Subtotal(b.items) + b.deliveryFee;
    if b.currency != "" && b.currency != "NGN" then Failure(CurrencyInvalid)
    else if b.items == [] || exists k :: 0 <= k < |b.items| && !GoodItem(b.items[k]) then Failure(ItemsInvalid)
    else if b.deliveryFee < 0 then Failure(DeliveryFeeInvalid)
    else if total < PartnerPaymentsHandler.MIN_AMOUNT_KOBO || total > PartnerPaymentsHandler.MAX_AMOUNT_KOBO then Failure(AmountOutOfRange)
    else if Text.ByteLen(Canonical(b.reference)) > PartnerPaymentsHandler.MAX_REFERENCE_LEN then Failure(ReferenceInvalid)
    else if Text.ByteLen(PartnerPaymentsHandler.StripPlus(PartnerPaymentsHandler.CanonicalPhone(b.phone))) < 10 then Failure(CustomerInvalid)
    else Success((Canonical(b.reference), total))
  }

  function FaultOf(stage: Stage, f: InvoiceFaults): Fault {
    match stage
    case AtLookup => f.lookup
    case AtOwner => f.owner
    case AtCreate => f.create
    case AtRecover => f.recover
    case Finished(_) => Ok
  }

  ghost function PlayAlone(b: Book, o: Order, stage: Stage, f: InvoiceFaults, suffix: string): (Book, Outcome)
    decreases Left(stage)
  {
    if stage.Finished? then (b, stage.outcome)
    else
      var (b', stage') := Advance(b, o, stage, FaultOf(stage, f), suffix);
      PlayAlone(b', o, stage', f, suffix)
  }

  class InvoiceStore {
    var book: Book

    method Lookup(reference: string, fault: Fault) returns (out: Result<Option<nat>, ()>)
      requires Sound(book)
      ensures out == if fault == Ok then Success(InvoiceByReference(book, reference)) else Failure(())
    {
      if fault != Ok {
        return Failure(());
      }
      if id :| id in book.invoices && book.invoices[id].reference == reference {
        assert Holds(book, id, reference);
        out := Success(Some(id));
      } else {
        out := Success(None);
      }
    }

    method CreateInvoice(o: Order, suffix: string, fault: Fault) returns (out: Result<nat, ()>)
      requires Sound(book)
      modifies this
      ensures var taken := InvoiceByReference(old(book), StoredReference(o, suffix)).Some?;
              && book == (if fault == Error || taken then old(book) else Insert(old(book), o, suffix))
              && out == (if fault == Ok && !taken then Success(old(book).next) else Failure(()))
    {
      var reference := StoredReference(o, suffix);
      var taken := exists id | id in book.invoices :: book.invoices[id].reference == reference;
      if taken {
        var id :| id in book.invoices && book.invoices[id].reference == reference;
        assert Holds(book, id, reference);
      }
      if fault == Error || taken {
        return Failure(());
      }
      var id := book.next;
      book := Book(book.invoices[id := Invoice(o.merchant, reference, o.total)], id + 1);
      out := if fault == Ok then Success(id) else Failure(());
    }

    /** apiCreateInvoice: a rejected body touches nothing; an accepted one answers and leaves the book exactly as the
        protocol machine does. */
    method ApiCreateInvoice(merchant: nat, b: InvoiceBody, f: InvoiceFaults, suffix: string) returns (response: InvoiceResponse)
      requires Sound(book)
      modifies this
      ensures Check(b).Failure? ==> response == Unprocessable(Check(b).error) && book == old(book)
      ensures Check(b).Success? ==>
                var o := Order(merchant, Check(b).value.0, Check(b).value.1);
                response.Reply? && (book, response.outcome) == PlayAlone(old(book), o, Begin(o), f, suffix)
    {
      hide PlayAlone, Sound, Text.ByteLen, PartnerPaymentsHandler.CanonicalPhone;
      if b.currency != "" && b.currency != "NGN" {
        return Unprocessable(CurrencyInvalid);
      }
      if |b.items| == 0 {
        return Unprocessable(ItemsInvalid);
      }
      var subtotal := SumItems(b.items);
      if subtotal.None? {
        return Unprocessable(ItemsInvalid);
      }
      if b.deliveryFee < 0 {
        return Unprocessable(DeliveryFeeInvalid);
      }
      var total := subtotal.value + b.deliveryFee;
      if total < PartnerPaymentsHandler.MIN_AMOUNT_KOBO || total > PartnerPaymentsHandler.MAX_AMOUNT_KOBO {
        return Unprocessable(AmountOutOfRange);
      }
      var reference := Canonical(b.reference);
      if Text.ByteLen(reference) > PartnerPaymentsHandler.MAX_REFERENCE_LEN {
        return Unprocessable(ReferenceInvalid);
      }
      if Text.ByteLen(PartnerPaymentsHandler.StripPlus(PartnerPaymentsHandler.CanonicalPhone(b.phone))) < 10 {
        return Unprocessable(CustomerInvalid);
      }
      var o := Order(merchant, reference, total);
      var outcome := PlaceOrder(o, f, suffix);
      response := Reply(outcome);
    }

    method PlaceOrder(o: Order, f: InvoiceFaults, suffix: string) returns (outcome: Outcome)
      requires Sound(book)
      modifies this
      ensures (book, outcome) == PlayAlone(old(book), o, Begin(o), f, suffix)
    {
      if o.reference != "" {
        var found := Lookup(o.reference, f.lookup);
        match found {
          case Failure(_) => return InternalError;
          case Success(Some(id)) => return if book.invoices[id].merchant == o.merchant then Invoiced(id) else ReferenceTaken;
          case Success(None) =>
        }
      }
      if f.owner != Ok {
        return InternalError;
      }
      assert PlayAlone(book, o, Begin(o), f, suffix) == PlayAlone(book, o, AtCreate, f, suffix);
      AdvanceKeepsBook(book, o, AtCreate, f.create, suffix);
      ghost var before := book;
      var created := CreateInvoice(o, suffix, f.create);
      if created.Success? {
        assert PlayAlone(before, o, AtCreate, f, suffix) == PlayAlone(book, o, Finished(Invoiced(created.value)), f, suffix);
        return Invoiced(created.value);
      }
      assert PlayAlone(before, o, AtCreate, f, suffix) == PlayAlone(book, o, AtRecover, f, suffix);
      outcome := InternalError;
      if o.reference != "" {
        var winner := Lookup(o.reference, f.recover);
        if winner.Success? && winner.value.Some? && book.invoices[winner.value.value].merchant == o.merchant {
          outcome := Invoiced(winner.value.value);
        }
      }
      assert Advance(book, o, AtRecover, f.recover, suffix) == (book, Finished(outcome));
    }
  }
}
