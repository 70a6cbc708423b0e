/**
 Which bodies the two create calls of the partner API accept, and what an accepted invoice body is stored as, in the caller's
 terms and with the limits written out.
 */
module PartnerApiBodies {
  import opened StoreCalls
  import opened Sums
  import opened Wrappers
  import opened PartnerInvoices
  import opened PartnerInvoicesHandler
  import P = PartnerPaymentsHandler
  import PartnerPayments
  import Text

  // ---------- phones ----------

  // Ten digits, or eight when the first is the zero that stands for the country; whatever else is typed is skipped.
  predicate Reachable(phone: string) {
    var digits := Text.KeepDigits(phone);
    |digits| >= 10 || (|digits| >= 8 && digits[0] == '0')
  }

  lemma {:induction false} KeepDigitsAppend(a: string, b: string)
    ensures Text.KeepDigits(a + b) == Text.KeepDigits(a) + Text.KeepDigits(b)
  {
    if a == "" {
      assert a + b == b;
    } else {
      assert (a + b)[1..] == a[1..] + b;
      KeepDigitsAppend(a[1..], b);
    }
  }

  lemma {:induction false} TrimLeftKeepsDigits(s: string)
    ensures Text.KeepDigits(Text.TrimLeft(s)) == Text.KeepDigits(s)
  {
    if s != "" && Text.IsSpace(s[0]) { TrimLeftKeepsDigits(s[1..]); }
  }

  lemma {:induction false} TrimRightKeepsDigits(s: string)
    ensures Text.KeepDigits(Text.TrimRight(s)) == Text.KeepDigits(s)
  {
    if s != "" && Text.IsSpace(s[|s| - 1]) {
      var front, last := s[..|s| - 1], s[|s| - 1];
      TrimRightKeepsDigits(front);
      KeepDigitsAppend(front, [last]);
      assert s == front + [last] && Text.KeepDigits([last]) == "";
    }
  }

  lemma {:induction false} DigitsAreOneByte(s: string)
    requires forall i :: 0 <= i < |s| ==> s[i] == '+' || Text.IsDigit(s[i])
    ensures Text.ByteLen(s) == |s|
  {
    if s != "" { DigitsAreOneByte(s[1..]); }
  }

  lemma {:induction false} ReachableIff(phone: string)
    ensures Text.ByteLen(P.StripPlus(P.CanonicalPhone(phone))) >= 10 <==> Reachable(phone)
  {
    TrimLeftKeepsDigits(phone);
    TrimRightKeepsDigits(Text.TrimLeft(phone));
    var digits := Text.KeepDigits(phone);
    hide Text.TrimLeft, Text.TrimRight, Text.KeepDigits;
    var stripped := P.StripPlus(P.CanonicalPhone(phone));
    if digits == "" {
      assert stripped == "";
    } else {
      assert stripped == if digits[0] == '0' then "234" + digits[1..] else digits;
    }
    DigitsAreOneByte(stripped);
    hide Text.ByteLen, P.StripPlus, P.CanonicalPhone;
  }

  // ---------- payments ----------

  predicate GoodReference(reference: string) {
    var trimmed := Text.Trim(reference);
    trimmed != "" && Text.ByteLen(trimmed) <= 64
  }

  /**
   A payment body is accepted exactly when it has a reference of at most 64 bytes, in naira, for 1 to 10 000 000 of them, from a
   customer with a phone. Otherwise the answer names the first of these that fails.
   */
  lemma {:induction false} PaymentBodyAcceptedIff(b: P.Body)
    ensures P.Check(b) == if !GoodReference(b.reference) then Failure(P.ReferenceInvalid)
                          else if b.currency != "NGN" then Failure(P.CurrencyInvalid)
                          else if !(1_00 <= b.value <= 10_000_000_00) then Failure(P.AmountOutOfRange)
                          else if !Reachable(b.phone) then Failure(P.CustomerInvalid)
                          else Success(Text.Trim(b.reference))
  {
    ReachableIff(b.phone);
    hide Text.Trim, Text.ByteLen, P.CanonicalPhone, P.StripPlus;
  }

  // ---------- invoices ----------

  ghost function LineTotal(): Item -> int { (item: Item) => item.quantity * item.unitAmount }

  // What the customer is to pay.
  ghost function Total(b: InvoiceBody): int {
    Sum(b.items, LineTotal()) + b.deliveryFee
  }

  lemma {:induction false} SubtotalIsTheSum(items: seq<Item>)
    ensures Subtotal(items) == Sum(items, LineTotal())
  {
    if items != [] {
      var front, last := items[..|items| - 1], items[|items| - 1];
      SubtotalIsTheSum(front);
      SumAppend(front, last, LineTotal());
      assert items == front + [last];
    }
  }

  predicate GoodLines(items: seq<Item>) {
    |items| >= 1
    && forall k :: 0 <= k < |items| ==> Text.Trim(items[k].description) != "" && items[k].quantity >= 1 && items[k].unitAmount >= 1
  }

  /**
   An invoice body is accepted exactly when it is in naira, or does not say, has a line at least and each with a description, a
   quantity and a price, a delivery fee that is not negative, a total of 1 to 10 000 000 naira, a reference of at most 64 bytes,
   if any, and a phone. Its total is every quantity times its price, and the delivery fee.
   */
  lemma {:induction false} InvoiceBodyAcceptedIff(b: InvoiceBody)
    ensures Check(b) == if b.currency !in {"", "NGN"} then Failure(CurrencyInvalid)
                        else if !GoodLines(b.items) then Failure(ItemsInvalid)
                        else if b.deliveryFee < 0 then Failure(DeliveryFeeInvalid)
                        else if !(1_00 <= Total(b) <= 10_000_000_00) then Failure(AmountOutOfRange)
                        else if Text.ByteLen(Text.Upper(Text.Trim(b.reference))) > 64 then Failure(ReferenceInvalid)
                        else if !Reachable(b.phone) then Failure(CustomerInvalid)
                        else Success((Text.Upper(Text.Trim(b.reference)), Total(b)))
  {
    ReachableIff(b.phone);
    SubtotalIsTheSum(b.items);
    assert GoodLines(b.items) <==> !(b.items == [] || exists k :: 0 <= k < |b.items| && !GoodItem(b.items[k]));
    hide Text.Trim, Text.ByteLen, P.CanonicalPhone, P.StripPlus, Subtotal, Sum, Text.Upper;
  }

  // The book is as it was, or holds one invoice more: the order's, with its merchant, its total and its reference, or a minted
  // one where it has none, which nobody held.
  ghost predicate AddsAtMost(b: Book, b': Book, o: Order, suffix: string) {
    || b' == b
    || (var reference := if o.reference != "" then o.reference else "XG-INV-" + suffix;
        b' == Book(b.invoices[b.next := Invoice(o.merchant, reference, o.total)], b.next + 1) && forall id :: !Holds(b, id, reference))
  }

  lemma {:induction false} ACallAddsAtMostTheOrder(b: Book, o: Order, stage: Stage, fault: Fault, suffix: string)
    ensures AddsAtMost(b, Advance(b, o, stage, fault, suffix).0, o, suffix)
  {
  }

  // A row of the book, its total with it, never changes, whatever runs.
  lemma {:induction false} RowsNeverChange(orders: seq<Order>, s: Shop, calls: seq<Call>, id: nat)
    requires Steady(orders, s) && id in s.book.invoices
    ensures var b := Play(orders, s, calls).book; id in b.invoices && b.invoices[id] == s.book.invoices[id]
  {
    PlayKeepsSteady(orders, s, calls);
    hide Play, Steady;
  }

  ghost predicate MayAdd(stage: Stage) {
    stage.AtLookup? || stage.AtOwner? || stage.AtCreate?
  }

  lemma {:induction false} AloneAddsAtMost(b: Book, o: Order, stage: Stage, f: InvoiceFaults, suffix: string)
    ensures var (b', outcome) := PlayAlone(b, o, stage, f, suffix);
            && AddsAtMost(b, b', o, suffix)
            && (!MayAdd(stage) ==> b' == b)
            && (b' != b && FaultsAreNone(f) ==> outcome == Invoiced(b.next))
    decreases Left(stage)
  {
    if !stage.Finished? {
      var (b1, stage1) := Advance(b, o, stage, FaultOf(stage, f), suffix);
      ACallAddsAtMostTheOrder(b, o, stage, FaultOf(stage, f), suffix);
      AloneAddsAtMost(b1, o, stage1, f, suffix);
    }
    hide AddsAtMost;
  }

  predicate FaultsAreNone(f: InvoiceFaults) {
    f.lookup == f.owner == f.create == f.recover == Ok
  }

  /**
   What an accepted body is stored as: at most one new invoice, of the asking merchant, for the total of its lines and its
   delivery fee, under its reference in capitals or a minted one. Without a failure the reply names it.
   */
  lemma {:induction false} AnInvoiceIsWhatWasAsked(b: Book, body: InvoiceBody, merchant: nat, f: InvoiceFaults, suffix: string)
    requires Check(body).Success?
    ensures var o := Order(merchant, Check(body).value.0, Check(body).value.1);
            var (b', outcome) := PlayAlone(b, o, Begin(o), f, suffix);
            var reference := Text.Upper(Text.Trim(body.reference));
            && AddsAtMost(b, b', Order(merchant, reference, Total(body)), suffix)
            && (b' != b && FaultsAreNone(f) ==> outcome == Invoiced(b.next))
  {
    InvoiceBodyAcceptedIff(body);
    var o := Order(merchant, Check(body).value.0, Check(body).value.1);
    AloneAddsAtMost(b, o, Begin(o), f, suffix);
    hide Check, PlayAlone, AddsAtMost, Total, Text.Trim, Text.Upper, Text.ByteLen, Reachable;
  }
}
