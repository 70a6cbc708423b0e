/**
 POST /api/v1/invoices as a concurrent protocol. Unlike payments, an invoice reference is unique across all merchants,
 the row is created with its reference in one transaction, and a request without a reference is given a minted one.

 As in PartnerPayments every store call may fail without effect or after its effect; CreateInvoice reads the row back
 after its commit, so a failed read-back is the second kind.
 */
module PartnerInvoices {
  import opened StoreCalls
  import opened Wrappers
  import opened PartnerPayments

  datatype Invoice = Invoice(merchant: nat, reference: string, total: int)

  datatype Book = Book(invoices: map<nat, Invoice>, next: nat)

  // A validated request; reference "" asks for a minted reference.
  datatype Order = Order(merchant: nat, reference: string, total: int)

  datatype Outcome = Invoiced(id: nat) | ReferenceTaken | InternalError

  datatype Stage = AtLookup | AtOwner | AtCreate | AtRecover | Finished(outcome: Outcome)

  // Order number `who` makes its next store call; `suffix` is what a minted reference would end in.
  datatype Call = Call(who: nat, fault: Fault, suffix: string)

  ghost predicate Holds(b: Book, id: nat, reference: string) {
    id in b.invoices && b.invoices[id].reference == reference
  }

  // Ids are handed out in order, and no two invoices share a reference.
  ghost predicate Sound(b: Book) {
    && (forall id :: id in b.invoices ==> id < b.next)
    && (forall x, y, r :: Holds(b, x, r) && Holds(b, y, r) ==> x == y)
  }

  ghost function InvoiceByReference(b: Book, reference: string): (r: Option<nat>)
    ensures r.Some? ==> Holds(b, r.value, reference)
    ensures r.None? ==> forall id :: !Holds(b, id, reference)
  {
    if id :| Holds(b, id, reference) then Some(id) else None
  }

  function StoredReference(o: Order, suffix: string): string {
    if o.reference != "" then o.reference else "XG-INV-" + suffix
  }

  function Insert(b: Book, o: Order, suffix: string): Book {
    Book(b.invoices[b.next := Invoice(o.merchant, StoredReference(o, suffix), o.total)], b.next + 1)
  }

  function Begin(o: Order): Stage {
    if o.reference != "" then AtLookup else AtOwner
  }

  ghost function Advance(b: Book, o: Order, stage: Stage, fault: Fault, suffix: string): (Book, Stage) {
    match stage
    case AtLookup =>
      if fault != Ok then (b, Finished(InternalError))
      else (match InvoiceByReference(b, o.reference)
            case Some(id) => (b, Finished(if b.invoices[id].merchant == o.merchant then Invoiced(id) else ReferenceTaken))
            case None => (b, AtOwner))
    case AtOwner => (b, if fault == Ok then AtCreate else Finished(InternalError))
    case AtCreate =>
      if fault == Error || InvoiceByReference(b, StoredReference(o, suffix)).Some? then (b, AtRecover)
      else (Insert(b, o, suffix), if fault == Ok then Finished(Invoiced(b.next)) else AtRecover)
    case AtRecover =>
      if o.reference == "" || fault != Ok then (b, Finished(InternalError))
      else (match InvoiceByReference(b, o.reference)
            case Some(id) => (b, Finished(if b.invoices[id].merchant == o.merchant then Invoiced(id) else InternalError))
            case None => (b, Finished(InternalError)))
    case Finished(_) => (b, stage)
  }

  function Left(stage: Stage): nat {
    match stage
    case AtLookup => 4
    case AtOwner => 3
    case AtCreate => 2
    case AtRecover => 1
    case Finished(_) => 0
  }

  datatype Shop = Shop(book: Book, stages: seq<Stage>)

  ghost function Open(orders: seq<Order>, b: Book): Shop {
    Shop(b, seq(|orders|, i requires 0 <= i < |orders| => Begin(orders[i])))
  }

  ghost function Tick(orders: seq<Order>, s: Shop, c: Call): (s': Shop)
    requires |s.stages| == |orders|
    ensures |s'.stages| == |orders|
  {
    if c.who >= |orders| then s
    else
      var (b, stage) := Advance(s.book, orders[c.who], s.stages[c.who], c.fault, c.suffix);
      Shop(b, s.stages[c.who := stage])
  }

  ghost function Play(orders: seq<Order>, s: Shop, calls: seq<Call>): (s': Shop)
    requires |s.stages| == |orders|
    ensures |s'.stages| == |orders|
    decreases |calls|
  {
    if calls == [] then s else Play(orders, Tick(orders, s, calls[0]), calls[1..])
  }

  // ---------- invariant ----------

  // A 200 names an invoice of the asking merchant that carries the reference asked for, if one was asked for.
  ghost predicate StageOk(b: Book, o: Order, stage: Stage) {
    && (stage.AtLookup? ==> o.reference != "")
    && (stage.Finished? && stage.outcome.Invoiced? ==>
          stage.outcome.id in b.invoices && b.invoices[stage.outcome.id].merchant == o.merchant
          && (o.reference != "" ==> b.invoices[stage.outcome.id].reference == o.reference))
    && (stage.Finished? && stage.outcome.ReferenceTaken? ==>
          exists id :: Holds(b, id, o.reference) && b.invoices[id].merchant != o.merchant)
  }

  ghost predicate Steady(orders: seq<Order>, s: Shop) {
    && |s.stages| == |orders|
    && Sound(s.book)
    && (forall i :: 0 <= i < |orders| ==> StageOk(s.book, orders[i], s.stages[i]))
    && (forall i, j :: 0 <= i < j < |orders| && orders[i].reference == orders[j].reference == "" && Served(s, i) && Served(s, j)
          ==> s.stages[i] != s.stages[j])
  }

  predicate Served(s: Shop, i: nat)
    requires i < |s.stages|
  {
    s.stages[i].Finished? && s.stages[i].outcome.Invoiced?
  }

  // Rows are only ever added.
  ghost predicate Extends(b: Book, b': Book) {
    b.next <= b'.next && forall id :: id in b.invoices ==> id in b'.invoices && b'.invoices[id] == b.invoices[id]
  }

  lemma {:induction false} AdvanceKeepsBook(b: Book, o: Order, stage: Stage, fault: Fault, suffix: string)
    requires Sound(b) && StageOk(b, o, stage)
    ensures var (b', stage') := Advance(b, o, stage, fault, suffix); Sound(b') && Extends(b, b') && StageOk(b', o, stage')
  {
    var (b', stage') := Advance(b, o, stage, fault, suffix);
    if b' != b {
      forall x, y, r | Holds(b', x, r) && Holds(b', y, r) ensures x == y {
        assert x != b.next ==> Holds(b, x, r);
        assert y != b.next ==> Holds(b, y, r);
      }
    }
  }

  lemma {:induction false} TickKeepsSteady(orders: seq<Order>, s: Shop, c: Call)
    requires Steady(orders, s)
    ensures Steady(orders, Tick(orders, s, c)) && Extends(s.book, Tick(orders, s, c).book)
  {
    if c.who < |orders| {
      AdvanceKeepsBook(s.book, orders[c.who], s.stages[c.who], c.fault, c.suffix);
      var s' := Tick(orders, s, c);
      forall i | 0 <= i < |orders| ensures StageOk(s'.book, orders[i], s'.stages[i]) {
        assert StageOk(s.book, orders[i], s.stages[i]);
        if i != c.who && s.stages[i].Finished? && s.stages[i].outcome.ReferenceTaken? {
          var id :| Holds(s.book, id, orders[i].reference) && s.book.invoices[id].merchant != orders[i].merchant;
          assert Holds(s'.book, id, orders[i].reference);
        }
      }
    }
  }

  lemma {:induction false} PlayKeepsSteady(orders: seq<Order>, s: Shop, calls: seq<Call>)
    requires Steady(orders, s)
    ensures Steady(orders, Play(orders, s, calls)) && Extends(s.book, Play(orders, s, calls).book)
    decreases |calls|
  {
    if calls != [] {
      TickKeepsSteady(orders, s, calls[0]);
      PlayKeepsSteady(orders, Tick(orders, s, calls[0]), calls[1..]);
    }
  }

  // ---------- safety over every run ----------

  /** Under every interleaving and every fault: a 200 for merchant m and a non-empty reference names the one invoice in
      the book that holds the reference, and that invoice is m's. */
  lemma {:induction false} ReplyNamesTheHolder(orders: seq<Order>, b: Book, calls: seq<Call>, i: nat, other: nat)
    requires Sound(b) && i < |orders| && orders[i].reference != ""
    ensures var s := Play(orders, Open(orders, b), calls);
            Served(s, i) ==>
              && Holds(s.book, s.stages[i].outcome.id, orders[i].reference)
              && s.book.invoices[s.stages[i].outcome.id].merchant == orders[i].merchant
              && (Holds(s.book, other, orders[i].reference) ==> other == s.stages[i].outcome.id)
  {
    PlayKeepsSteady(orders, Open(orders, b), calls);
    var s := Play(orders, Open(orders, b), calls);
    assert StageOk(s.book, orders[i], s.stages[i]);
  }

  /** Once a reference is held, its holder never changes and nobody else ever holds it. */
  lemma {:induction false} HolderIsPermanent(orders: seq<Order>, s: Shop, calls: seq<Call>, id: nat, other: nat, r: string)
    requires Steady(orders, s) && Holds(s.book, id, r)
    ensures var s' := Play(orders, s, calls); Holds(s'.book, id, r) && (Holds(s'.book, other, r) ==> other == id)
  {
    PlayKeepsSteady(orders, s, calls);
    assert Holds(Play(orders, s, calls).book, id, r);
  }

  /** A reference that another merchant holds: the order's own calls never change the book, and if it finishes, it
      finishes with an error. */
  lemma {:induction false} ForeignReferenceIsRefused(orders: seq<Order>, s: Shop, calls: seq<Call>, i: nat, id: nat)
    requires Steady(orders, s) && i < |orders| && orders[i].reference != "" && !s.stages[i].Finished?
    requires Holds(s.book, id, orders[i].reference) && s.book.invoices[id].merchant != orders[i].merchant
    ensures !Served(Play(orders, s, calls), i)
    ensures forall c: Call :: c.who == i ==> Tick(orders, s, c).book == s.book
    decreases |calls|
  {
    if calls != [] {
      var s' := Tick(orders, s, calls[0]);
      TickKeepsSteady(orders, s, calls[0]);
      assert Holds(s'.book, id, orders[i].reference);
      if s'.stages[i].Finished? {
        StaysFinished(orders, s', calls[1..], i);
      } else {
        ForeignReferenceIsRefused(orders, s', calls[1..], i, id);
      }
    }
  }

  lemma {:induction false} StaysFinished(orders: seq<Order>, s: Shop, calls: seq<Call>, i: nat)
    requires |s.stages| == |orders| && i < |orders| && s.stages[i].Finished?
    ensures Play(orders, s, calls).stages[i] == s.stages[i]
    decreases |calls|
  {
    if calls != [] { StaysFinished(orders, Tick(orders, s, calls[0]), calls[1..], i); }
  }

  /** Without a reference nothing is shared: two such orders that both succeed have created two invoices. */
  lemma {:induction false} UnreferencedInvoicesDiffer(orders: seq<Order>, b: Book, calls: seq<Call>, i: nat, j: nat)
    requires Sound(b) && i < j < |orders| && orders[i].reference == orders[j].reference == ""
    ensures var s := Play(orders, Open(orders, b), calls);
            Served(s, i) && Served(s, j) ==> s.stages[i].outcome.id != s.stages[j].outcome.id
  {
    PlayKeepsSteady(orders, Open(orders, b), calls);
  }

  // ---------- progress ----------

  ghost predicate CleanFor(calls: seq<Call>, i: nat) {
    forall k :: 0 <= k < |calls| && calls[k].who == i ==> calls[k].fault == Ok
  }

  ghost function CallsOf(calls: seq<Call>, i: nat): nat {
    if calls == [] then 0 else (if calls[0].who == i then 1 else 0) + CallsOf(calls[1..], i)
  }

  // While order i runs without faults: lost creations have a visible winner, and an error has a foreign holder.
  ghost predicate OnTrack(b: Book, o: Order, stage: Stage) {
    && (stage.AtRecover? ==> exists id :: Holds(b, id, o.reference))
    && (stage.Finished? && !stage.outcome.Invoiced? ==> exists id :: Holds(b, id, o.reference) && b.invoices[id].merchant != o.merchant)
  }

  lemma {:induction false} CleanRun(orders: seq<Order>, s: Shop, calls: seq<Call>, i: nat)
    requires Steady(orders, s) && i < |orders| && orders[i].reference != "" && CleanFor(calls, i)
    requires OnTrack(s.book, orders[i], s.stages[i])
    ensures var s' := Play(orders, s, calls);
            OnTrack(s'.book, orders[i], s'.stages[i]) && (s'.stages[i].Finished? || Left(s'.stages[i]) + CallsOf(calls, i) <= Left(s.stages[i]))
    decreases |calls|
  {
    if calls != [] {
      var c := calls[0];
      var s' := Tick(orders, s, c);
      TickKeepsSteady(orders, s, c);
      assert StageOk(s.book, orders[i], s.stages[i]);
      if exists id :: Holds(s.book, id, orders[i].reference) {
        var id :| Holds(s.book, id, orders[i].reference);
        assert Holds(s'.book, id, orders[i].reference);
      }
      CleanRun(orders, s', calls[1..], i);
      if s.stages[i].Finished? { StaysFinished(orders, s, calls, i); }
    }
  }

  /** An order with a reference whose own calls do not fault is finished after at most four of them. Its answer is 200
      if and only if no other merchant holds the reference by then. */
  lemma {:induction false} ServedIffNotForeign(orders: seq<Order>, b: Book, calls: seq<Call>, i: nat)
    requires Sound(b) && i < |orders| && orders[i].reference != "" && CleanFor(calls, i) && CallsOf(calls, i) >= 4
    ensures var s := Play(orders, Open(orders, b), calls);
            && s.stages[i].Finished?
            && (Served(s, i) <==> !exists id :: Holds(s.book, id, orders[i].reference) && s.book.invoices[id].merchant != orders[i].merchant)
  {
    var s := Play(orders, Open(orders, b), calls);
    PlayKeepsSteady(orders, Open(orders, b), calls);
    CleanRun(orders, Open(orders, b), calls, i);
    assert StageOk(s.book, orders[i], s.stages[i]);
    if Served(s, i) {
      assert Holds(s.book, s.stages[i].outcome.id, orders[i].reference);
    }
  }

  // ---------- failing calls ----------

  /** A look-up that fails is a 500. A create that fails, or loses its acknowledgement, answers with the asker's own invoice of that
      reference if the re-read finds one, and otherwise with a 500, as it always does without a reference. */
  lemma {:induction false} AFailedCallIsAnError(b: Book, o: Order, stage: Stage, fault: Fault, suffix: string)
    requires fault != Ok && !stage.Finished?
    ensures var (b', stage') := Advance(b, o, stage, fault, suffix);
            && stage' == (if stage.AtCreate? then AtRecover else Finished(InternalError))
            && (!stage.AtCreate? || fault == Error ==> b' == b)
    ensures var (b', stage') := Advance(b, o, AtRecover, Ok, suffix);
            && b' == b && stage'.Finished?
            && (stage'.outcome == InternalError || (stage'.outcome.Invoiced? && o.reference != "" && Holds(b, stage'.outcome.id, o.reference)
                                                    && b.invoices[stage'.outcome.id].merchant == o.merchant))
            && (o.reference != "" && stage'.outcome == InternalError && Sound(b) ==>
                  forall id :: Holds(b, id, o.reference) ==> b.invoices[id].merchant != o.merchant)
  {
  }
}
